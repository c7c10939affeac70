/** What each segment of the chat view provider's handlers does and posts, and what the answers of calls say. */
module ChatEffects {
  import opened Wrappers
  import opened ChatProtocol
  import opened ChatLog
  import opened ChatInvariants
  import opened ChatSteps
  import opened OrpcSteps
  import opened ChatTheorems

  // From one state to the next exactly these messages are posted, in this order.
  ghost predicate Posts(s: State, t: State, ms: seq<Message>) {
    && |t.history.log| == |s.history.log| + |ms|
    && t.history.log[..|s.history.log|] == s.history.log
    && forall i :: 0 <= i < |ms| ==> t.history.log[|s.history.log| + i].message == ms[i]
  }

  lemma PostsOne(s: State, m: Message)
    ensures Posts(s, Post(s, m), [m])
  {
  }

  // A message reaches the present webview if and only if that is ready.
  lemma PostIsDelivered(s: State, m: Message)
    ensures var posted := Post(s, m).history.log[|s.history.log|];
      && posted.message == m && posted.selected == s.selected
      && (posted.receipt.Some? <==> s.view.Some? && s.ready)
      && (posted.receipt.Some? ==> posted.receipt.value == Receipt(s.view.value, s.nextNumber))
      && Post(s, m).nextNumber == s.nextNumber + (if posted.receipt.Some? then 1 else 0)
  {
  }

  lemma PostsThen(s: State, t: State, u: State, ms: seq<Message>, ns: seq<Message>)
    requires Posts(s, t, ms) && Posts(t, u, ns)
    ensures Posts(s, u, ms + ns)
  {
    assert u.history.log[..|s.history.log|] == u.history.log[..|t.history.log|][..|s.history.log|];
    forall i | 0 <= i < |ms| ensures u.history.log[|s.history.log| + i].message == ms[i] {
      assert u.history.log[|s.history.log| + i] == u.history.log[..|t.history.log|][|s.history.log| + i];
    }
  }

  lemma PostsTwo(s: State, m: Message, n: Message)
    ensures Posts(s, Post(Post(s, m), n), [m, n])
  {
    PostsOne(s, m);
    PostsOne(Post(s, m), n);
    PostsThen(s, Post(s, m), Post(Post(s, m), n), [m], [n]);
    assert [m] + [n] == [m, n];
  }

  // ---------- the subscription ----------

  // The workspace whose chat the webview should be reading: none without a connection or a selection, and no change
  // while there is no ready webview.
  function Wanted(s: State): Option<WorkspaceId> {
    if !s.ready || s.view.None? then s.subscribed
    else if s.mode == Api && s.selected.GetOr("") != "" then s.selected
    else None
  }

  // What is posted for it.
  function Reset(s: State): seq<Message> {
    if Wanted(s) != s.subscribed && Wanted(s).Some? then [ChatReset(Wanted(s).value)] else []
  }

  // The subscription is the wanted one: kept if it was, else dropped, and made anew if any is wanted.
  ghost predicate Follows(s: State, t: State) {
    && t.subscribed == Wanted(s)
    && (Wanted(s) == s.subscribed ==> t.subscription == s.subscription && t.rt.aborted == s.rt.aborted)
    && (Wanted(s) != s.subscribed ==> t.rt.aborted == s.rt.aborted + Held(s.subscription))
    && (Wanted(s) != s.subscribed && Wanted(s).Some? ==> Fetches(s, t, Wanted(s).value))
  }

  // A fresh loop is on its way to its client.
  ghost predicate Fetches(s: State, t: State, w: WorkspaceId) {
    var c := s.rt.nextController;
    t.subscription == Some(c) && c in t.rt.chats && t.rt.chats[c].workspaceId == w && t.rt.chats[c].at == Connecting
  }

  ghost predicate SameRest(s: State, t: State) {
    && t.mode == s.mode && t.selected == s.selected && t.workspaces == s.workspaces && t.view == s.view && t.ready == s.ready
    && t.pending == s.pending && t.streams == s.streams
    && t.rt.selects == s.rt.selects && t.rt.refreshes == s.rt.refreshes && t.rt.calls == s.rt.calls && t.rt.pumps == s.rt.pumps
  }

  lemma UpdateFollows(s: State, resume: bool)
    requires ChatInv(s)
    ensures Follows(s, UpdateSubscription(s, resume)) && SameRest(s, UpdateSubscription(s, resume))
  {
    if s.ready && s.view.Some? && Wanted(s).Some? && Wanted(s) != s.subscribed {
      assert UpdateSubscription(s, resume) == Post(OpenSubscription(s, resume), ChatReset(s.selected.value));
    }
  }

  // Who awaits the end of the update goes on at once, or when the new loop ends.
  lemma UpdateResumes(s: State, resume: bool)
    requires ChatInv(s)
    ensures var t := UpdateSubscription(s, resume); var made := Wanted(s) != s.subscribed && Wanted(s).Some?;
      && t.rt.resumes == s.rt.resumes + (if resume && !made then 1 else 0)
      && (made ==> s.rt.nextController in t.rt.chats && t.rt.chats[s.rt.nextController].resume == resume)
  {
    UpdateFollows(s, resume);
  }

  lemma UpdatePosts(s: State, resume: bool)
    requires ChatInv(s)
    ensures Posts(s, UpdateSubscription(s, resume), Reset(s))
  {
    if Wanted(s) != s.subscribed && Wanted(s).Some? {
      PostsOne(OpenSubscription(s, resume), ChatReset(s.selected.value));
    }
  }

  // Only the selection survives from an earlier session.
  lemma StartIs(stored: Option<WorkspaceId>)
    ensures var s := Init(stored);
      && s.selected == stored && s.mode == File && s.workspaces == [] && s.view.None? && !s.ready
      && s.subscription.None? && s.subscribed.None? && s.pending == map[] && s.streams == map[] && s.history.log == []
      && s.rt.chats == map[] && s.rt.calls == map[] && s.rt.pumps == map[] && s.rt.refreshes == map[] && s.rt.selects == map[]
  {
  }

  // ---------- webviews ----------

  lemma ViewIsResolved(s: State)
    ensures var t := Step(s, ResolveView);
      && t.view == Some(s.nextView) && !t.ready && Posts(s, t, [])
      && t.subscription == s.subscription && t.rt == s.rt && t.selected == s.selected && t.mode == s.mode
  {
  }

  // Everything that runs is aborted and forgotten.
  lemma AllIsDisposed(s: State, e: Event)
    requires e.ViewDisposed? || e.ProviderDisposed?
    ensures var t := Step(s, e);
      && t.rt.aborted == s.rt.aborted + Held(s.subscription) + s.pending.Values + s.streams.Values
      && t.subscription.None? && t.subscribed.None? && t.pending == map[] && t.streams == map[] && Posts(s, t, [])
      && (if e.ViewDisposed? then t.view.None? && !t.ready else t.view == s.view && t.ready == s.ready)
      && t.selected == s.selected && t.mode == s.mode && t.workspaces == s.workspaces
  {
  }

  // The webview hears of the selection, and a refresh of a new generation starts.
  lemma WebviewIsReady(s: State)
    ensures var t := Step(s, Ready);
      && t.ready && Posts(s, t, [SetSelectedWorkspace(s.selected)])
      && (s.view.Some? ==> t.history.log[|s.history.log|].receipt == Some(Receipt(s.view.value, s.nextNumber)))
      && t.generation == s.generation + 1 && t.rt.refreshes == s.rt.refreshes[t.generation := Loading]
      && t.subscription == s.subscription && t.selected == s.selected
  {
    PostsOne(s.(ready := true), SetSelectedWorkspace(s.selected));
  }

  // ---------- refreshes ----------

  lemma {:induction false} IndexByIdHas(ws: seq<Workspace>, id: WorkspaceId)
    ensures id in IndexById(ws) <==> exists i :: 0 <= i < |ws| && ws[i].id == id
  {
    if ws != [] {
      IndexByIdHas(ws[..|ws| - 1], id);
      if i :| 0 <= i < |ws| && ws[i].id == id { assert i < |ws| - 1 ==> ws[..|ws| - 1][i].id == id; }
    }
  }

  // The selected workspace is not in the list any more.
  ghost predicate Gone(selected: Option<WorkspaceId>, ws: seq<Workspace>) {
    selected.GetOr("") != "" && forall i :: 0 <= i < |ws| ==> ws[i].id != selected.value
  }

  // The latest result is written and posted. A selection that is gone is cleared; otherwise the subscription follows
  // the new connection.
  lemma RefreshIsApplied(s: State, mode: Mode, ws: seq<Workspace>)
    requires Inv(s) && Enabled(s, RefreshLoaded(s.generation, mode, ws))
    ensures var t := Step(s, RefreshLoaded(s.generation, mode, ws)); var news := [ConnectionStatus(mode), Workspaces(ws)];
      && t.mode == mode && t.workspaces == ws
      && (Gone(s.selected, ws) ==>
            && t.selected.None? && t.rt.selects == s.rt.selects[s.rt.nextTask := SelectTask(None, Some(s.generation))]
            && t.subscription == s.subscription && Posts(s, t, news))
      && (!Gone(s.selected, ws) ==>
            && t.selected == s.selected && t.rt.selects == s.rt.selects
            && Follows(s.(mode := mode), t) && Posts(s, t, news + Reset(s.(mode := mode))))
  {
    var u := AcceptRefresh(DropRefresh(s, s.generation), s.generation, mode, ws);
    IndexByIdHas(ws, s.selected.GetOr(""));
    AcceptedIs(s, mode, ws);
    if Gone(s.selected, ws) {
      assert ReviseSelection(u, s.generation) == StartSelect(u, None, Some(s.generation));
    } else {
      AcceptedFollows(s, mode, ws);
    }
  }

  lemma AcceptedFollows(s: State, mode: Mode, ws: seq<Workspace>)
    requires Fresh(s) && ChatInv(s)
    ensures var u := AcceptRefresh(DropRefresh(s, s.generation), s.generation, mode, ws); var t := UpdateSubscription(u, false);
      && Follows(s.(mode := mode), t) && t.mode == mode && t.workspaces == ws && t.selected == s.selected
      && t.rt.selects == s.rt.selects
      && Posts(s, t, [ConnectionStatus(mode), Workspaces(ws)] + Reset(s.(mode := mode)))
  {
    var g := s.generation;
    var u := AcceptRefresh(DropRefresh(s, g), g, mode, ws);
    AcceptedIs(s, mode, ws);
    KeptDropRefresh(s, g);
    KeptAccept(DropRefresh(s, g), g, mode, ws);
    UpdateFollows(u, false);
    UpdatePosts(u, false);
    FollowsLike(s.(mode := mode), u, UpdateSubscription(u, false));
    PostsThen(s, u, UpdateSubscription(u, false), [ConnectionStatus(mode), Workspaces(ws)], Reset(u));
  }

  // Only these fields count.
  lemma FollowsLike(s: State, u: State, t: State)
    requires Follows(u, t)
    requires s.ready == u.ready && s.view == u.view && s.mode == u.mode && s.selected == u.selected
    requires s.subscribed == u.subscribed && s.subscription == u.subscription
    requires s.rt.aborted == u.rt.aborted && s.rt.nextController == u.rt.nextController
    ensures Follows(s, t) && Reset(s) == Reset(u)
  {
  }

  lemma AcceptedIs(s: State, mode: Mode, ws: seq<Workspace>)
    ensures var u := AcceptRefresh(DropRefresh(s, s.generation), s.generation, mode, ws);
      && Posts(s, u, [ConnectionStatus(mode), Workspaces(ws)])
      && u.mode == mode && u.workspaces == ws && u.workspacesById == IndexById(ws) && u.selected == s.selected
      && u.view == s.view && u.ready == s.ready && u.subscribed == s.subscribed && u.subscription == s.subscription
      && u.rt == s.rt.(refreshes := s.rt.refreshes - {s.generation})
  {
    var d := DropRefresh(s, s.generation);
    PostsTwo(d.(mode := mode, workspaces := ws, workspacesById := IndexById(ws),
                history := d.history.(applied := d.history.applied + [s.generation])),
             ConnectionStatus(mode), Workspaces(ws));
  }

  // A failed refresh drops the connection, the list, the selection and the subscription, and reports nothing yet.
  lemma RefreshFails(s: State, g: nat)
    ensures var t := RefreshCatch(s, g);
      && t.mode == File && t.workspaces == [] && t.selected.None? && t.subscription.None? && t.subscribed.None?
      && t.rt.aborted == s.rt.aborted + Held(s.subscription) && t.rt.refreshes == s.rt.refreshes[g := StoringError]
      && Posts(s, t, [])
  {
  }

  // It reports all of that when the selection is stored.
  lemma RefreshErrorIsReported(s: State, g: nat)
    requires Enabled(s, RefreshErrorStored(g))
    ensures var t := Step(s, RefreshErrorStored(g)); var u := Step(s, RefreshErrorStoreFailed(g));
      && Posts(s, t, [ConnectionStatus(s.mode), Workspaces([]), SetSelectedWorkspace(None), UiNotice])
      && Posts(s, u, [UiNotice])
      && t.rt.refreshes == u.rt.refreshes == s.rt.refreshes - {g}
  {
    var d := DropRefresh(s, g);
    var u := Post(Post(d, ConnectionStatus(s.mode)), Workspaces([]));
    PostsTwo(d, ConnectionStatus(s.mode), Workspaces([]));
    PostsTwo(u, SetSelectedWorkspace(None), UiNotice);
    PostsThen(d, u, Post(Post(u, SetSelectedWorkspace(None)), UiNotice),
              [ConnectionStatus(s.mode), Workspaces([])], [SetSelectedWorkspace(None), UiNotice]);
    assert [ConnectionStatus(s.mode), Workspaces([])] + [SetSelectedWorkspace(None), UiNotice]
        == [ConnectionStatus(s.mode), Workspaces([]), SetSelectedWorkspace(None), UiNotice];
    PostsOne(d, UiNotice);
  }

  lemma RefreshGoesOn(s: State)
    requires ChatInv(s) && s.rt.resumes > 0
    ensures var t := Step(s, RefreshResumed); Follows(s, t) && SameRest(s, t) && Posts(s, t, Reset(s))
  {
    var u := s.(rt := s.rt.(resumes := s.rt.resumes - 1));
    UpdateFollows(u, false);
    UpdatePosts(u, false);
  }

  // ---------- the selection ----------

  // A new selection holds at once and is on its way to the store; the same one is posted again.
  lemma SelectionIsMade(s: State, w: Option<WorkspaceId>)
    requires ChatInv(s)
    ensures var t := Step(s, Select(w));
      && t.selected == w
      && (w != s.selected ==>
            && Posts(s, t, []) && t.subscription == s.subscription
            && t.rt.selects == s.rt.selects[s.rt.nextTask := SelectTask(w, None)] && t.rt.nextTask == s.rt.nextTask + 1)
      && (w == s.selected ==>
            Posts(s, t, [SetSelectedWorkspace(w)] + Reset(s)) && Follows(s, t) && t.rt.selects == s.rt.selects)
  {
    if w == s.selected { SelectedFollows(s, w, false); }
  }

  // Posts that change no field leave the wanted workspace as it was.
  lemma FollowsAfterPost(s: State, m: Message, t: State)
    requires Follows(Post(s, m), t) && SameRest(Post(s, m), t)
    ensures Follows(s, t) && SameRest(s, t)
  {
    FollowsLike(s, Post(s, m), t);
  }

  // Posting a selection and then following.
  lemma SelectedFollows(s: State, w: Option<WorkspaceId>, resume: bool)
    requires ChatInv(s)
    ensures var t := UpdateSubscription(Post(s, SetSelectedWorkspace(w)), resume);
      Posts(s, t, [SetSelectedWorkspace(w)] + Reset(s)) && Follows(s, t) && SameRest(s, t)
  {
    var u := Post(s, SetSelectedWorkspace(w));
    ChatFrame(s, u);
    PostsOne(s, SetSelectedWorkspace(w));
    UpdateFollows(u, resume);
    UpdatePosts(u, resume);
    FollowsAfterPost(s, SetSelectedWorkspace(w), UpdateSubscription(u, resume));
    PostsThen(s, u, UpdateSubscription(u, resume), [SetSelectedWorkspace(w)], Reset(u));
  }

  // Once stored it is posted, and the subscription follows the selection of that moment.
  lemma SelectionIsStored(s: State, k: nat)
    requires ChatInv(s) && k in s.rt.selects
    ensures var t := Step(s, SelectStored(k));
      && Posts(s, t, [SetSelectedWorkspace(s.rt.selects[k].workspaceId)] + Reset(s)) && Follows(s, t)
      && SameRest(s.(rt := s.rt.(selects := s.rt.selects - {k})), t)
  {
    var u, task := s.(rt := s.rt.(selects := s.rt.selects - {k})), s.rt.selects[k];
    SelectedFollows(u, task.workspaceId, task.refresh.Some?);
    FollowsLike(s, u, StoreSelection(s, k));
  }

  // If it cannot be stored there is a notice, or the refresh that awaits it fails.
  lemma SelectionIsNotStored(s: State, k: nat)
    requires k in s.rt.selects
    ensures var t := Step(s, SelectStoreFailed(k)); var refresh := s.rt.selects[k].refresh;
      && t.rt.selects == s.rt.selects - {k}
      && (refresh.None? ==> Posts(s, t, [UiNotice]) && t.selected == s.selected && t.subscription == s.subscription)
      && (refresh.Some? ==> Posts(s, t, []) && t.selected.None? && t.mode == File && t.subscription.None?
                            && t.rt.refreshes == s.rt.refreshes[refresh.value := StoringError])
  {
    var u := s.(rt := s.rt.(selects := s.rt.selects - {k}));
    PostsOne(u, UiNotice);
    RefreshFails(u, s.rt.selects[k].refresh.GetOr(0));
  }

  // ---------- the chat loops ----------

  // A loop whose client fails reports file mode and ends; the subscription goes with it if it is this loop's.
  lemma ClientFailureIsReported(s: State, c: Controller)
    requires Enabled(s, ClientFailed(c))
    ensures var t := Step(s, ClientFailed(c));
      && t.mode == File && Posts(s, t, [ConnectionStatus(File), UiNotice])
      && t.rt.chats == s.rt.chats - {c} && t.rt.aborted == s.rt.aborted + {c}
      && t.subscription == (if s.subscription == Some(c) then None else s.subscription)
  {
    PostsTwo(s.(mode := File), ConnectionStatus(File), UiNotice);
  }

  // An event is shown if and only if its loop is not aborted and its workspace still selected; otherwise the loop
  // shows nothing more.
  lemma EventIsShownIff(s: State, c: Controller, event: string)
    requires Enabled(s, ChatArrived(c, event))
    ensures var t := Step(s, ChatArrived(c, event)); var w := s.rt.chats[c].workspaceId;
      && c in t.rt.chats && t.subscription == s.subscription && t.rt.aborted == s.rt.aborted
      && (c !in s.rt.aborted && s.selected == Some(w) ==> Posts(s, t, [ChatEvent(w, event)]) && t.rt.chats == s.rt.chats)
      && (c in s.rt.aborted || s.selected != Some(w) ==> Posts(s, t, []) && !Enabled(t, ChatArrived(c, event)))
  {
    PostsOne(s, ChatEvent(s.rt.chats[c].workspaceId, event));
  }

  lemma LoopGoesOn(s: State, c: Controller)
    ensures Enabled(s, ClientReady(c)) ==>
              Posts(s, Step(s, ClientReady(c)), []) && Enabled(Step(s, ClientReady(c)), ChatOpened(c))
    ensures Enabled(s, ChatOpened(c)) ==>
              Posts(s, Step(s, ChatOpened(c)), []) && forall e :: Enabled(Step(s, ChatOpened(c)), ChatArrived(c, e))
  {
  }

  // The end of a loop ends its subscription and no other, with a notice if it threw unaborted.
  lemma LoopEnds(s: State, c: Controller, e: Event)
    requires Enabled(s, e) && (e == ChatEnded(c) || e == ChatThrew(c))
    ensures var t := Step(s, e);
      && t.rt.chats == s.rt.chats - {c} && t.rt.aborted == s.rt.aborted && t.mode == s.mode && t.selected == s.selected
      && t.subscription == (if s.subscription == Some(c) then None else s.subscription)
      && Posts(s, t, if e == ChatThrew(c) && c !in s.rt.aborted then [UiNotice] else [])
      && t.rt.resumes == s.rt.resumes + (if s.rt.chats[c].resume then 1 else 0)
  {
    PostsOne(s, UiNotice);
  }

  // ---------- calls ----------

  lemma AnswerPosts(s: State, c: Controller, r: RequestId, reply: Reply)
    ensures var t := Answer(s, c, r, reply);
      Posts(s, t, [OrpcResponse(r, Some(c), reply)]) && c !in t.rt.calls && t.streams == s.streams
  {
    PostsOne(s, OrpcResponse(r, Some(c), reply));
  }

  // A duplicate id is rejected and leaves the pending call alone. A path that is not allowed, or a call without a
  // connection, fails in the same step and never waits for a client; any other call waits for one.
  ghost predicate Taken(s: State, t: State, r: RequestId, allowed: bool) {
    var c := s.rt.nextController;
    if r in s.pending then
      Posts(s, t, [OrpcResponse(r, None, Failed)]) && t.pending == s.pending && t.rt == s.rt
    else if !allowed || s.mode != Api then
      Posts(s, t, [OrpcResponse(r, Some(c), Failed)]) && t.pending == s.pending && t.rt.calls == s.rt.calls
    else
      Posts(s, t, []) && t.pending == s.pending[r := c] && t.rt.calls == s.rt.calls[c := CallTask(r, AwaitingClient)]
  }

  lemma CallIsTaken(s: State, r: RequestId, allowed: bool)
    requires Inv(s)
    ensures Taken(s, AcceptCall(s, r, allowed), r, allowed)
  {
    if r in s.pending {
      DuplicateFails(s, r, allowed);
    } else if !allowed || s.mode != Api {
      FreshCallFails(s, r, allowed);
    } else {
      CallWaits(s, r, allowed);
    }
  }

  lemma DuplicateFails(s: State, r: RequestId, allowed: bool)
    requires r in s.pending
    ensures Taken(s, AcceptCall(s, r, allowed), r, allowed)
  {
    PostsOne(s, OrpcResponse(r, None, Failed));
  }

  lemma CallWaits(s: State, r: RequestId, allowed: bool)
    requires r !in s.pending && allowed && s.mode == Api
    ensures Taken(s, AcceptCall(s, r, allowed), r, allowed)
  {
    assert AcceptCall(s, r, allowed) == Register(s, r);
  }

  lemma FreshCallFails(s: State, r: RequestId, allowed: bool)
    requires Inv(s) && r !in s.pending && (!allowed || s.mode != Api)
    ensures Taken(s, AcceptCall(s, r, allowed), r, allowed)
  {
    var c := s.rt.nextController;
    assert AcceptCall(s, r, allowed) == Answer(Register(s, r), c, r, Failed);
    AnswerPosts(Register(s, r), c, r, Failed);
    UndoneRegister(s.pending, s.rt.calls, r, c);
  }

  lemma UndoneRegister(pending: map<RequestId, Controller>, calls: map<Controller, CallTask>, r: RequestId, c: Controller)
    requires r !in pending && c !in calls
    ensures pending[r := c] - {r} == pending && calls[c := CallTask(r, AwaitingClient)] - {c} == calls
  {
  }

  // Without a client or a procedure, or if that throws at once, the call fails; otherwise it waits for the result.
  lemma CallIsMade(s: State, c: Controller, client: ClientOutcome)
    requires Enabled(s, CallClient(c, client))
    ensures var t := Step(s, CallClient(c, client)); var r := s.rt.calls[c].requestId;
      && (c in s.rt.aborted ==> Posts(s, t, []) && c !in t.rt.calls)
      && (c !in s.rt.aborted && client != ProcedureCalled ==>
            Posts(s, t, [OrpcResponse(r, Some(c), Failed)]) && c !in t.rt.calls)
      && (c !in s.rt.aborted && client == ProcedureCalled ==>
            Posts(s, t, []) && t.pending == s.pending && forall result :: Enabled(t, CallResult(c, result)))
  {
    if c !in s.rt.aborted && client != ProcedureCalled { AnswerPosts(s, c, s.rt.calls[c].requestId, Failed); }
  }

  // What the answer to a result says: the value, the failure, or a stream that was not opened before.
  ghost predicate Says(s: State, reply: Reply, result: CallOutcome) {
    match result
    case Returned(v) => reply == Value(v)
    case Rejected => reply == Failed
    case Iterable => reply.Stream? && reply.stream !in s.history.opener
  }

  // The one message an answer posts.
  ghost predicate Answers(s: State, t: State, c: Controller, result: CallOutcome)
    requires c in s.rt.calls
  {
    exists reply :: Says(s, reply, result) && Posts(s, t, [OrpcResponse(s.rt.calls[c].requestId, Some(c), reply)])
  }

  lemma AnswersBy(s: State, t: State, c: Controller, result: CallOutcome, reply: Reply)
    requires c in s.rt.calls && Says(s, reply, result)
    requires Posts(s, t, [OrpcResponse(s.rt.calls[c].requestId, Some(c), reply)])
    ensures Answers(s, t, c, result)
  {
  }

  // An unaborted call answers its result, once and truly; an aborted one answers nothing.
  lemma ResultIsAnswered(s: State, c: Controller, result: CallOutcome)
    requires Inv(s) && Enabled(s, CallResult(c, result))
    ensures var t := CompleteCall(s, c, result);
      && c !in t.rt.calls
      && (c in s.rt.aborted ==> Posts(s, t, []) && t.streams == s.streams)
      && (c !in s.rt.aborted ==> Answers(s, t, c, result))
      && (c !in s.rt.aborted ==> t.streams == if result == Iterable then s.streams[s.rt.nextStream := c] else s.streams)
  {
    var r := s.rt.calls[c].requestId;
    if c !in s.rt.aborted {
      match result
      case Returned(v) =>
        AnswerPosts(s, c, r, Value(v));
        AnswersBy(s, Answer(s, c, r, Value(v)), c, result, Value(v));
      case Rejected =>
        AnswerPosts(s, c, r, Failed);
        AnswersBy(s, Answer(s, c, r, Failed), c, result, Failed);
      case Iterable =>
        StreamIsAnswered(s, c);
    }
  }

  lemma StreamIsAnswered(s: State, c: Controller)
    requires Fresh(s) && c in s.rt.calls
    ensures var t := Answer(OpenStream(s, c), c, s.rt.calls[c].requestId, Stream(s.rt.nextStream));
      Answers(s, t, c, Iterable) && c !in t.rt.calls && t.streams == s.streams[s.rt.nextStream := c]
  {
    var r, id := s.rt.calls[c].requestId, s.rt.nextStream;
    AnswerPosts(OpenStream(s, c), c, r, Stream(id));
    AnswersBy(s, Answer(OpenStream(s, c), c, r, Stream(id)), c, Iterable, Stream(id));
  }

  // A cancel aborts and forgets what it names, and nothing else.
  lemma CancelIsExact(s: State, r: RequestId)
    ensures var t := Step(s, OrpcCancel(r));
      && Posts(s, t, []) && t.pending == s.pending - {r} && t.streams == s.streams && t.rt.calls == s.rt.calls
      && t.rt.aborted == s.rt.aborted + (if r in s.pending then {s.pending[r]} else {})
  {
  }

  lemma StreamCancelIsExact(s: State, id: StreamId)
    ensures var t := Step(s, StreamCancel(id));
      && Posts(s, t, []) && t.streams == s.streams - {id} && t.pending == s.pending && t.rt.pumps == s.rt.pumps
      && t.rt.aborted == s.rt.aborted + (if id in s.streams then {s.streams[id]} else {})
  {
  }

  // ---------- over whole runs ----------

  // The log only grows.
  lemma StepGrows(s: State, e: Event)
    requires Inv(s) && Enabled(s, e)
    ensures s.history.log <= Step(s, e).history.log
  {
    if ListSide(e) {
      ListSideKeeps(s, e);
    } else if LoopSide(e) {
      LoopSideKeeps(s, e);
    } else if OrpcSide(e) {
      OrpcSideKeeps(s, e);
    } else {
      ViewSideGrows(s, e);
    }
  }

  lemma ViewSideGrows(s: State, e: Event)
    requires ViewSide(e)
    ensures Step(s, e).history.log == s.history.log
  {
    if e.ResolveView? { ViewIsResolved(s); } else { AllIsDisposed(s, e); }
  }

  lemma {:induction false} RunGrows(s: State, es: seq<Event>)
    requires Inv(s) && ValidRun(s, es)
    ensures s.history.log <= Run(s, es).history.log
    decreases |es|
  {
    if es != [] {
      StepKeeps(s, es[0]);
      StepGrows(s, es[0]);
      RunGrows(Step(s, es[0]), es[1..]);
    }
  }

  lemma {:induction false} AnswerIsCounted(log: seq<Posted>, i: nat, c: Controller)
    requires i < |log| && Answering(log[i].message, c)
    ensures ChatLog.Answers(log, c) >= 1
  {
    if i < |log| - 1 { AnswerIsCounted(log[..|log| - 1], i, c); }
  }

  lemma ResultIsPosted(s: State, c: Controller, result: CallOutcome)
    requires Inv(s) && Enabled(s, CallResult(c, result)) && c !in s.rt.aborted
    ensures var log := CompleteCall(s, c, result).history.log;
      |log| == |s.history.log| + 1 && TellsResult(s, log[|s.history.log|].message, c, result)
  {
    var t := CompleteCall(s, c, result);
    ResultIsAnswered(s, c, result);
    var reply :| Says(s, reply, result) && Posts(s, t, [OrpcResponse(s.rt.calls[c].requestId, Some(c), reply)]);
    PostedIs(s, t, OrpcResponse(s.rt.calls[c].requestId, Some(c), reply), |s.history.log|);
  }

  // In every continuation of a run, what a call that was not cancelled got as its result is what its one answer says.
  lemma AnswerIsTheResult(s: State, c: Controller, result: CallOutcome, es: seq<Event>)
    requires Inv(s) && Enabled(s, CallResult(c, result)) && c !in s.rt.aborted && ValidRun(CompleteCall(s, c, result), es)
    ensures var log := Run(CompleteCall(s, c, result), es).history.log;
      ChatLog.Answers(log, c) == 1 && |s.history.log| < |log| && TellsResult(s, log[|s.history.log|].message, c, result)
  {
    var t := CompleteCall(s, c, result);
    ResultIsPosted(s, c, result);
    StepKeeps(s, CallResult(c, result));
    RunGrows(t, es);
    RunKeeps(t, es);
    StaysAnswered(t.history.log, Run(t, es).history.log, |s.history.log|, c);
  }

  ghost predicate TellsResult(s: State, m: Message, c: Controller, result: CallOutcome)
    requires c in s.rt.calls
  {
    Answering(m, c) && m.requestId == s.rt.calls[c].requestId && Says(s, m.reply, result)
  }

  lemma StaysAnswered(log: seq<Posted>, log': seq<Posted>, i: nat, c: Controller)
    requires log <= log' && i < |log| && Answering(log[i].message, c)
    ensures log'[i] == log[i] && ChatLog.Answers(log', c) >= 1
  {
    AnswerIsCounted(log', i, c);
  }

  // What a message claims of a call: that it returned a value, or an iterator.
  predicate Claims(m: Message, c: Controller, result: CallOutcome) {
    && m.OrpcResponse? && m.call == Some(c)
    && match result
       case Returned(v) => m.reply == Value(v)
       case Iterable => m.reply.Stream?
       case Rejected => false
  }

  ghost predicate NothingClaimed(s: State, t: State) {
    forall i, c, result :: |s.history.log| <= i < |t.history.log| ==> !Claims(t.history.log[i].message, c, result)
  }

  lemma NoClaims(s: State, t: State, ms: seq<Message>)
    requires Posts(s, t, ms)
    requires forall i :: 0 <= i < |ms| ==> !ms[i].OrpcResponse? || ms[i].reply == Failed
    ensures NothingClaimed(s, t)
  {
    forall i, c, result | |s.history.log| <= i < |t.history.log| ensures !Claims(t.history.log[i].message, c, result) {
      assert t.history.log[|s.history.log| + (i - |s.history.log|)].message == ms[i - |s.history.log|];
    }
  }

  lemma TakenClaims(s: State, r: RequestId, allowed: bool)
    requires Inv(s)
    ensures NothingClaimed(s, Step(s, OrpcCall(r, allowed)))
  {
    var t := Step(s, OrpcCall(r, allowed));
    CallIsTaken(s, r, allowed);
    if r in s.pending {
      NoClaims(s, t, [OrpcResponse(r, None, Failed)]);
    } else if !allowed || s.mode != Api {
      NoClaims(s, t, [OrpcResponse(r, Some(s.rt.nextController), Failed)]);
    } else {
      NoClaims(s, t, []);
    }
  }

  lemma MadeClaims(s: State, c: Controller, client: ClientOutcome)
    requires Enabled(s, CallClient(c, client))
    ensures NothingClaimed(s, Step(s, CallClient(c, client)))
  {
    var t := Step(s, CallClient(c, client));
    CallIsMade(s, c, client);
    if c in s.rt.aborted || client == ProcedureCalled {
      NoClaims(s, t, []);
    } else {
      NoClaims(s, t, [OrpcResponse(s.rt.calls[c].requestId, Some(c), Failed)]);
    }
  }

  lemma CallClaims(s: State, e: Event)
    requires Inv(s) && Enabled(s, e) && (e.OrpcCall? || e.CallClient? || e.OrpcCancel? || e.StreamCancel?)
    ensures NothingClaimed(s, Step(s, e))
  {
    match e
    case OrpcCall(r, allowed) => TakenClaims(s, r, allowed);
    case CallClient(c, client) => MadeClaims(s, c, client);
    case OrpcCancel(r) =>
      CancelIsExact(s, r);
      NoClaims(s, Step(s, e), []);
    case StreamCancel(id) =>
      StreamCancelIsExact(s, id);
      NoClaims(s, Step(s, e), []);
  }

  lemma PumpPosts(s: State, id: StreamId, v: string, threw: bool)
    requires id in s.rt.pumps
    ensures var t := PumpOne(s, id, v);
      Posts(s, t, if s.rt.pumps[id].controller in s.rt.aborted then [] else [StreamData(id, v)])
    ensures var t := EndPump(s, id, threw);
      Posts(s, t, [if threw && s.rt.pumps[id].controller !in s.rt.aborted then StreamError(id) else StreamEnd(id)])
  {
    PostsOne(Yield(s, id, v), StreamData(id, v));
    PostsOne(s, StreamError(id));
    PostsOne(s, StreamEnd(id));
  }

  // A stream that is aborted yields nothing more that is asked for; any other one goes on.
  lemma PumpGoesOnIff(s: State, id: StreamId, v: string)
    requires Enabled(s, PumpValue(id, v))
    ensures Enabled(Step(s, PumpValue(id, v)), PumpValue(id, v)) <==> s.rt.pumps[id].controller !in s.rt.aborted
    ensures Step(s, PumpValue(id, v)).streams == s.streams
  {
  }

  lemma PumpClaims(s: State, e: Event)
    requires Enabled(s, e) && (e.PumpValue? || e.PumpDone? || e.PumpThrew?)
    ensures NothingClaimed(s, Step(s, e))
  {
    var id, v := e.stream, if e.PumpValue? then e.value else "";
    PumpPosts(s, id, v, e.PumpThrew?);
    if e.PumpValue? {
      NoClaims(s, Step(s, e), if s.rt.pumps[id].controller in s.rt.aborted then [] else [StreamData(id, v)]);
    } else {
      NoClaims(s, Step(s, e), [if e.PumpThrew? && s.rt.pumps[id].controller !in s.rt.aborted then StreamError(id) else StreamEnd(id)]);
    }
  }

  lemma QuietClaims(s: State, t: State)
    requires GrewQuietly(s.history.log, t.history.log)
    ensures NothingClaimed(s, t)
  {
    forall i, c, result | |s.history.log| <= i < |t.history.log| ensures !Claims(t.history.log[i].message, c, result) {
      assert !IsOrpc(t.history.log[i].message);
    }
  }

  // A step claims a result only if it is the step of that very result.
  lemma StepClaims(s: State, e: Event, i: nat, c: Controller, result: CallOutcome)
    requires Inv(s) && Enabled(s, e) && |s.history.log| <= i < |Step(s, e).history.log|
    requires Claims(Step(s, e).history.log[i].message, c, result)
    ensures e == CallResult(c, result)
  {
    if ListSide(e) {
      ListSideKeeps(s, e);
      QuietClaims(s, Step(s, e));
    } else if LoopSide(e) {
      LoopSideKeeps(s, e);
      QuietClaims(s, Step(s, e));
    } else if e.CallResult? {
      ResultClaims(s, e.call, e.result, i, c, result);
    } else if e.PumpValue? || e.PumpDone? || e.PumpThrew? {
      PumpClaims(s, e);
    } else if OrpcSide(e) {
      CallClaims(s, e);
    } else {
      ViewSideGrows(s, e);
    }
  }

  lemma ResultClaims(s: State, d: Controller, got: CallOutcome, i: nat, c: Controller, result: CallOutcome)
    requires Inv(s) && Enabled(s, CallResult(d, got)) && |s.history.log| <= i < |Step(s, CallResult(d, got)).history.log|
    requires Claims(Step(s, CallResult(d, got)).history.log[i].message, c, result)
    ensures d == c && got == result
  {
    var t := Step(s, CallResult(d, got));
    ResultIsAnswered(s, d, got);
    if d !in s.rt.aborted {
      var reply :| Says(s, reply, got) && Posts(s, t, [OrpcResponse(s.rt.calls[d].requestId, Some(d), reply)]);
      PostedIs(s, t, OrpcResponse(s.rt.calls[d].requestId, Some(d), reply), i);
    }
  }

  lemma PostedIs(s: State, t: State, m: Message, i: nat)
    requires Posts(s, t, [m]) && |s.history.log| <= i < |t.history.log|
    ensures t.history.log[i].message == m
  {
    assert t.history.log[|s.history.log| + (i - |s.history.log|)].message == [m][i - |s.history.log|];
  }

  // No run ever answers a call as a success unless its procedure gave exactly that result.
  lemma {:induction false} SuccessComesFromTheResult(s: State, es: seq<Event>, i: nat, c: Controller, result: CallOutcome)
    requires Inv(s) && ValidRun(s, es) && |s.history.log| <= i < |Run(s, es).history.log|
    requires Claims(Run(s, es).history.log[i].message, c, result)
    ensures CallResult(c, result) in es
    decreases |es|
  {
    if es != [] {
      var t := Step(s, es[0]);
      StepKeeps(s, es[0]);
      StepGrows(s, es[0]);
      RunGrows(t, es[1..]);
      if i < |t.history.log| {
        assert Run(t, es[1..]).history.log[i] == t.history.log[i];
        StepClaims(s, es[0], i, c, result);
      } else {
        SuccessComesFromTheResult(t, es[1..], i, c, result);
      }
    }
  }
}
