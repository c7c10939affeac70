/** Every step of the provider keeps the invariants: the chat and refresh half. */
module ChatSteps {
  import opened Wrappers
  import opened ChatProtocol
  import opened ChatLog
  import opened ChatInvariants

  // What a step must keep, stated of a pair of states so that segments compose.
  ghost predicate Kept(s: State, t: State) {
    Fresh(t) && ChatInv(t) && QuietForOrpc(s, t) && SameHome(s, t)
  }

  // An old subscription is under a replaced webview if it was before, and a new one is not.
  ghost predicate SameHome(s: State, t: State) {
    && s.rt.nextController <= t.rt.nextController
    && (t.subscription.Some? ==>
          if t.subscription.value < s.rt.nextController
          then t.subscription == s.subscription && t.history.replaced == s.history.replaced
          else !t.history.replaced)
  }

  lemma KeptTrans(s: State, t: State, u: State)
    requires Kept(s, t) && Kept(t, u)
    ensures Kept(s, u)
  {
    GrewQuietlyTrans(s.history.log, t.history.log, u.history.log);
  }

  lemma KeptPost(s: State, m: Message)
    requires Fresh(s) && ChatInv(s) && !IsChat(m) && !IsOrpc(m)
    ensures Kept(s, Post(s, m))
  {
    ChatFrame(s, Post(s, m));
  }

  lemma KeptDrop(s: State)
    requires Fresh(s) && ChatInv(s)
    ensures Kept(s, DropSubscription(s)) && DropSubscription(s).subscription.None?
  {
  }

  lemma KeptResume(s: State, resume: bool)
    requires Fresh(s) && ChatInv(s)
    ensures Kept(s, Resume(s, resume))
  {
  }

  lemma OpenKeepsOne(s: State, resume: bool)
    requires Fresh(s) && ChatInv(s) && s.selected.Some?
    ensures var t := OpenSubscription(s, resume);
            Fresh(t) && OneSubscription(t.subscription, t.subscribed, t.rt.chats, t.rt.aborted) && QuietForOrpc(s, t)
  {
  }

  lemma KeptSubscribe(s: State, resume: bool)
    requires Fresh(s) && ChatInv(s)
    requires s.view.Some? && s.ready && s.selected.Some?
    ensures Kept(s, Post(OpenSubscription(s, resume), ChatReset(s.selected.value)))
  {
    OpenKeepsOne(s, resume);
    var p := Entry(OpenSubscription(s, resume), ChatReset(s.selected.value));
    Append(s.history.log, p);
    AppendGrounded(s.history.log, p);
  }

  lemma KeptUpdate(s: State, resume: bool)
    requires Fresh(s) && ChatInv(s)
    ensures Kept(s, UpdateSubscription(s, resume))
  {
    if !s.ready || s.view.None? {
      KeptResume(s, resume);
    } else if s.selected.GetOr("") == "" || s.mode != Api {
      KeptDrop(s);
      KeptResume(DropSubscription(s), resume);
      KeptTrans(s, DropSubscription(s), Resume(DropSubscription(s), resume));
    } else if s.subscribed == s.selected && s.subscription.Some? && s.subscription.value !in s.rt.aborted {
      KeptResume(s, resume);
    } else {
      KeptSubscribe(s, resume);
    }
  }

  lemma KeptFinish(s: State, c: Controller)
    requires Fresh(s) && ChatInv(s) && c in s.rt.chats
    ensures Kept(s, FinishChat(s, c))
  {
  }

  lemma KeptTwoPosts(s: State, m: Message, n: Message)
    requires Fresh(s) && ChatInv(s)
    requires !IsChat(m) && !IsOrpc(m) && !IsChat(n) && !IsOrpc(n)
    ensures Kept(s, Post(Post(s, m), n))
  {
    KeptPost(s, m);
    KeptPost(Post(s, m), n);
    KeptTrans(s, Post(s, m), Post(Post(s, m), n));
  }

  lemma KeptAbortFinish(s: State, c: Controller)
    requires Fresh(s) && ChatInv(s) && c in s.rt.chats
    ensures Kept(s, FinishChat(Abort(s, {c}), c))
  {
  }

  lemma KeptFailClient(s: State, c: Controller)
    requires Fresh(s) && ChatInv(s) && c in s.rt.chats
    ensures Kept(s, FailClient(s, c))
  {
    KeptTwoPosts(s.(mode := File), ConnectionStatus(File), UiNotice);
    KeptAbortFinish(ReportNoClient(s), c);
    KeptTrans(s.(mode := File), ReportNoClient(s), FailClient(s, c));
  }

  lemma KeptReceive(s: State, c: Controller, event: string)
    requires Fresh(s) && ChatInv(s) && c in s.rt.chats
    ensures Kept(s, ReceiveChat(s, c, event))
  {
    var w := s.rt.chats[c].workspaceId;
    if c in s.rt.aborted || s.selected != Some(w) {
      KeptAt(s, c, Closing);
    } else {
      var t := Post(s, ChatEvent(w, event));
      var p := t.history.log[|s.history.log|];
      Append(s.history.log, p);
      assert (s.history.log + [p])[..|s.history.log|] == s.history.log;
      AppendGrounded(s.history.log, p);
    }
  }

  lemma KeptThrow(s: State, c: Controller)
    requires Fresh(s) && ChatInv(s) && c in s.rt.chats
    ensures Kept(s, ThrowChat(s, c))
  {
    if c in s.rt.aborted {
      KeptFinish(s, c);
    } else {
      KeptPost(s, UiNotice);
      KeptFinish(Post(s, UiNotice), c);
      KeptTrans(s, Post(s, UiNotice), ThrowChat(s, c));
    }
  }

  lemma KeptCatch(s: State, g: nat)
    requires Fresh(s) && ChatInv(s)
    ensures Kept(s, RefreshCatch(s, g))
  {
    KeptDrop(s.(mode := File, workspaces := [], workspacesById := map[]));
  }

  lemma KeptReady(s: State)
    requires Fresh(s) && ChatInv(s)
    ensures Kept(s, HearReady(s))
  {
    var t := s.(ready := true);
    KeptPost(t, SetSelectedWorkspace(s.selected));
    KeptStartRefresh(Post(t, SetSelectedWorkspace(s.selected)));
    KeptTrans(t, Post(t, SetSelectedWorkspace(s.selected)), HearReady(s));
  }

  lemma KeptAccept(s: State, g: nat, mode: Mode, ws: seq<Workspace>)
    requires Fresh(s) && ChatInv(s)
    ensures Kept(s, AcceptRefresh(s, g, mode, ws))
  {
    KeptTwoPosts(s.(mode := mode, workspaces := ws, workspacesById := IndexById(ws),
                    history := s.history.(applied := s.history.applied + [g])),
                 ConnectionStatus(mode), Workspaces(ws));
  }

  lemma KeptStartSelect(s: State, w: Option<WorkspaceId>, refresh: Option<nat>)
    requires Fresh(s) && ChatInv(s)
    ensures Kept(s, StartSelect(s, w, refresh))
  {
  }

  lemma KeptStartRefresh(s: State)
    requires Fresh(s) && ChatInv(s)
    ensures Kept(s, StartRefresh(s))
  {
  }

  lemma KeptAt(s: State, c: Controller, at: ChatPoint)
    requires Fresh(s) && ChatInv(s) && c in s.rt.chats
    ensures Kept(s, ChatAt(s, c, at))
  {
  }

  lemma KeptRevise(s: State, g: nat)
    requires Fresh(s) && ChatInv(s)
    ensures Kept(s, ReviseSelection(s, g))
  {
    if s.selected.GetOr("") != "" && s.selected.value !in s.workspacesById {
      KeptStartSelect(s, None, Some(g));
    } else {
      KeptUpdate(s, false);
    }
  }

  lemma KeptDropRefresh(s: State, g: nat)
    requires Fresh(s) && ChatInv(s)
    ensures Kept(s, DropRefresh(s, g))
  {
  }

  lemma KeptApply(s: State, g: nat, mode: Mode, ws: seq<Workspace>)
    requires Fresh(s) && ChatInv(s)
    ensures Kept(s, ApplyRefresh(s, g, mode, ws))
  {
    var t := DropRefresh(s, g);
    KeptDropRefresh(s, g);
    if g == s.generation {
      var u := AcceptRefresh(t, g, mode, ws);
      KeptAccept(t, g, mode, ws);
      KeptTrans(s, t, u);
      KeptRevise(u, g);
      KeptTrans(s, u, ReviseSelection(u, g));
    }
  }

  lemma KeptStoreError(s: State, g: nat)
    requires Fresh(s) && ChatInv(s)
    ensures Kept(s, StoreRefreshError(s, g))
  {
    var t := DropRefresh(s, g);
    KeptDropRefresh(s, g);
    KeptTwoPosts(t, ConnectionStatus(s.mode), Workspaces([]));
    var u := Post(Post(t, ConnectionStatus(s.mode)), Workspaces([]));
    KeptTrans(s, t, u);
    KeptTwoPosts(u, SetSelectedWorkspace(None), UiNotice);
    KeptTrans(s, u, StoreRefreshError(s, g));
  }

  lemma KeptStoreErrorFailed(s: State, g: nat)
    requires Fresh(s) && ChatInv(s)
    ensures Kept(s, Post(DropRefresh(s, g), UiNotice))
  {
    KeptDropRefresh(s, g);
    KeptPost(DropRefresh(s, g), UiNotice);
    KeptTrans(s, DropRefresh(s, g), Post(DropRefresh(s, g), UiNotice));
  }

  // A webview is resolved: the subscription, if any, goes on under it.
  lemma ResolveKeeps(s: State)
    requires Fresh(s) && ChatInv(s)
    ensures Fresh(Resolve(s)) && ChatInv(Resolve(s)) && QuietForOrpc(s, Resolve(s))
  {
  }

  lemma KeptSelect(s: State, w: Option<WorkspaceId>)
    requires Fresh(s) && ChatInv(s)
    ensures Kept(s, ChooseWorkspace(s, w))
  {
    if w == s.selected {
      var t := Post(s, SetSelectedWorkspace(w));
      KeptPost(s, SetSelectedWorkspace(w));
      KeptUpdate(t, false);
      KeptTrans(s, t, UpdateSubscription(t, false));
    } else {
      KeptStartSelect(s, w, None);
    }
  }

  lemma KeptStoreSelection(s: State, k: nat)
    requires Fresh(s) && ChatInv(s) && k in s.rt.selects
    ensures Kept(s, StoreSelection(s, k))
  {
    var task := s.rt.selects[k];
    var s' := s.(rt := s.rt.(selects := s.rt.selects - {k}));
    var t := Post(s', SetSelectedWorkspace(task.workspaceId));
    KeptPost(s', SetSelectedWorkspace(task.workspaceId));
    KeptUpdate(t, task.refresh.Some?);
    KeptTrans(s', t, UpdateSubscription(t, task.refresh.Some?));
  }

  lemma KeptFailSelection(s: State, k: nat)
    requires Fresh(s) && ChatInv(s) && k in s.rt.selects
    ensures Kept(s, FailSelection(s, k))
  {
    var task := s.rt.selects[k];
    var t := s.(rt := s.rt.(selects := s.rt.selects - {k}));
    if task.refresh.Some? { KeptCatch(t, task.refresh.value); } else { KeptPost(t, UiNotice); }
  }

  // ---------- the steps of the selection, the refreshes and the chat loops ----------

  predicate RefreshSide(e: Event) {
    e.RefreshRequested? || e.RefreshLoaded? || e.RefreshFailed?
    || e.RefreshErrorStored? || e.RefreshErrorStoreFailed? || e.RefreshResumed?
  }

  predicate SelectSide(e: Event) {
    e.Ready? || e.Select? || e.SelectStored? || e.SelectStoreFailed?
  }

  predicate ListSide(e: Event) {
    RefreshSide(e) || SelectSide(e)
  }

  predicate LoopSide(e: Event) {
    e.ClientFailed? || e.ClientReady? || e.ChatOpened? || e.ChatArrived? || e.ChatEnded? || e.ChatThrew?
  }

  // The number of refreshes that wait for a subscription concerns nothing else.
  lemma KeptFromResumed(s: State, resumes: nat, u: State)
    requires Fresh(s) && ChatInv(s) && Kept(s.(rt := s.rt.(resumes := resumes)), u)
    ensures Kept(s, u)
  {
  }

  lemma KeptResumed(s: State)
    requires Fresh(s) && ChatInv(s) && s.rt.resumes > 0
    ensures Kept(s, UpdateSubscription(s.(rt := s.rt.(resumes := s.rt.resumes - 1)), false))
  {
    var t := s.(rt := s.rt.(resumes := s.rt.resumes - 1));
    KeptUpdate(t, false);
    KeptFromResumed(s, s.rt.resumes - 1, UpdateSubscription(t, false));
  }

  lemma RefreshErrorKeeps(s: State, e: Event)
    requires Fresh(s) && ChatInv(s) && Enabled(s, e) && (e.RefreshErrorStored? || e.RefreshErrorStoreFailed?)
    ensures Kept(s, Step(s, e))
  {
    if e.RefreshErrorStored? { KeptStoreError(s, e.generation); } else { KeptStoreErrorFailed(s, e.generation); }
  }

  lemma RefreshResultKeeps(s: State, e: Event)
    requires Fresh(s) && ChatInv(s) && Enabled(s, e) && (e.RefreshLoaded? || e.RefreshFailed?)
    ensures Kept(s, Step(s, e))
  {
    if e.RefreshLoaded? { KeptApply(s, e.generation, e.mode, e.workspaces); } else { KeptCatch(s, e.generation); }
  }

  lemma RefreshResumedKeeps(s: State, e: Event)
    requires Fresh(s) && ChatInv(s) && Enabled(s, e) && e.RefreshResumed?
    ensures Kept(s, Step(s, e))
  {
    KeptResumed(s);
  }

  lemma RefreshSideKeeps(s: State, e: Event)
    requires Fresh(s) && ChatInv(s) && Enabled(s, e) && RefreshSide(e)
    ensures Kept(s, Step(s, e))
  {
    if e.RefreshErrorStored? || e.RefreshErrorStoreFailed? {
      RefreshErrorKeeps(s, e);
    } else if e.RefreshLoaded? || e.RefreshFailed? {
      RefreshResultKeeps(s, e);
    } else if e.RefreshResumed? {
      RefreshResumedKeeps(s, e);
    } else {
      KeptStartRefresh(s);
    }
  }

  lemma SelectSideKeeps(s: State, e: Event)
    requires Fresh(s) && ChatInv(s) && Enabled(s, e) && SelectSide(e)
    ensures Kept(s, Step(s, e))
  {
    match e
    case Ready => KeptReady(s);
    case Select(w) => KeptSelect(s, w);
    case SelectStored(k) => KeptStoreSelection(s, k);
    case SelectStoreFailed(k) => KeptFailSelection(s, k);
  }

  lemma ListSideKeeps(s: State, e: Event)
    requires Fresh(s) && ChatInv(s) && Enabled(s, e) && ListSide(e)
    ensures Kept(s, Step(s, e))
  {
    if RefreshSide(e) { RefreshSideKeeps(s, e); } else { SelectSideKeeps(s, e); }
  }

  lemma LoopSideKeeps(s: State, e: Event)
    requires Fresh(s) && ChatInv(s) && Enabled(s, e) && LoopSide(e)
    ensures Kept(s, Step(s, e))
  {
    match e
    case ClientFailed(c) => KeptFailClient(s, c);
    case ClientReady(c) => KeptAt(s, c, Opening);
    case ChatOpened(c) => KeptAt(s, c, Looping);
    case ChatArrived(c, event) => KeptReceive(s, c, event);
    case ChatEnded(c) => KeptFinish(s, c);
    case ChatThrew(c) => KeptThrow(s, c);
  }
}
