/** Safety of the chat view provider over all its runs. */
module ChatTheorems {
  import opened Wrappers
  import opened ChatProtocol
  import opened ChatLog
  import opened ChatInvariants
  import opened ChatSteps
  import opened OrpcSteps

  // ---------- every step keeps the invariants ----------

  lemma DisposeKeeps(s: State)
    requires Fresh(s) && ChatInv(s) && OrpcInv(s)
    ensures var t := Dispose(s); Fresh(t) && ChatInv(t) && OrpcInv(t) && t.subscription.None?
  {
    var d := DropSubscription(s);
    KeptDrop(s);
    OrpcFrame(s, d);
    AbortKeeps(d, d.pending.Values + d.streams.Values, Dispose(s));
    ChatFrame(d, Dispose(s));
  }

  lemma ViewDisposedKeeps(s: State)
    requires Fresh(s) && ChatInv(s) && OrpcInv(s)
    ensures var t := Dispose(s.(view := None, ready := false)); Fresh(t) && ChatInv(t) && OrpcInv(t)
  {
    DisposeKeeps(s);
    assert Dispose(s.(view := None, ready := false)) == Dispose(s).(view := None, ready := false);
  }

  predicate ViewSide(e: Event) {
    e.ResolveView? || e.ViewDisposed? || e.ProviderDisposed?
  }

  lemma ViewSideKeeps(s: State, e: Event)
    requires Inv(s) && ViewSide(e)
    ensures Inv(Step(s, e))
  {
    match e
    case ResolveView =>
      ResolveKeeps(s);
      OrpcFrame(s, Resolve(s));
    case ProviderDisposed => DisposeKeeps(s);
    case ViewDisposed => ViewDisposedKeeps(s);
  }

  predicate OrpcSide(e: Event) {
    e.OrpcCall? || e.CallClient? || e.CallResult? || e.OrpcCancel? || e.StreamCancel?
    || e.PumpValue? || e.PumpDone? || e.PumpThrew?
  }

  lemma OrpcSideKeeps(s: State, e: Event)
    requires Fresh(s) && OrpcInv(s) && Enabled(s, e) && OrpcSide(e)
    ensures KeptOrpc(s, Step(s, e))
  {
    match e
    case OrpcCall(r, allowed) => AcceptKeeps(s, r, allowed);
    case CallClient(c, client) => AdvanceKeeps(s, c, client);
    case CallResult(c, result) => CompleteKeeps(s, c, result);
    case OrpcCancel(r) => CancelCallKeeps(s, r);
    case StreamCancel(id) => CancelStreamKeeps(s, id);
    case PumpValue(id, v) => PumpOneKeeps(s, id, v);
    case PumpDone(id) => EndPumpKeeps(s, id, false);
    case PumpThrew(id) => EndPumpKeeps(s, id, true);
  }

  lemma ResumeSameLists(s: State, resume: bool)
    ensures SameLists(s, Resume(s, resume)) && SameLists(s, Resume(DropSubscription(s), resume))
  {
  }

  lemma UpdateSameLists(s: State, resume: bool)
    ensures SameLists(s, UpdateSubscription(s, resume))
  {
    ResumeSameLists(s, resume);
  }

  lemma FailSameLists(s: State, c: Controller)
    requires c in s.rt.chats
    ensures SameLists(s, FailClient(s, c))
  {
    assert SameLists(s, Abort(ReportNoClient(s), {c}));
  }

  lemma ThrowSameLists(s: State, c: Controller)
    requires c in s.rt.chats
    ensures SameLists(s, ThrowChat(s, c))
  {
  }

  lemma LoopSameLists(s: State, e: Event)
    requires Enabled(s, e) && LoopSide(e)
    ensures SameLists(s, Step(s, e))
  {
    match e
    case ClientFailed(c) => FailSameLists(s, c);
    case ClientReady(c) => assert SameLists(s, ChatAt(s, c, Opening));
    case ChatOpened(c) => assert SameLists(s, ChatAt(s, c, Looping));
    case ChatArrived(c, event) => assert SameLists(s, ReceiveChat(s, c, event));
    case ChatEnded(c) => assert SameLists(s, FinishChat(s, c));
    case ChatThrew(c) => ThrowSameLists(s, c);
  }

  lemma AcceptLists(s: State, g: nat, mode: Mode, ws: seq<Workspace>)
    requires RefreshInv(s) && g == s.generation && g in s.rt.refreshes && s.rt.refreshes[g].Loading?
    ensures RefreshInv(AcceptRefresh(DropRefresh(s, g), g, mode, ws))
  {
    var applied := s.history.applied + [g];
    assert ListsInv(ws, IndexById(ws), s.generation, applied, s.rt.refreshes - {g}) by {
      forall i, j | 0 <= i < j < |applied| ensures applied[i] < applied[j] {
        if j == |applied| - 1 { assert applied[i] in s.history.applied; }
      }
    }
  }

  lemma AppliedInv(s: State, g: nat, mode: Mode, ws: seq<Workspace>)
    requires RefreshInv(s) && g in s.rt.refreshes && s.rt.refreshes[g].Loading?
    ensures RefreshInv(ApplyRefresh(s, g, mode, ws))
  {
    if g == s.generation {
      AcceptLists(s, g, mode, ws);
      UpdateSameLists(AcceptRefresh(DropRefresh(s, g), g, mode, ws), false);
    }
  }

  lemma StartLists(s: State)
    requires RefreshInv(s)
    ensures RefreshInv(StartRefresh(s)) && RefreshInv(HearReady(s))
  {
  }

  lemma CatchLists(s: State, g: nat)
    requires RefreshInv(s)
    ensures RefreshInv(RefreshCatch(s, g)) && RefreshInv(DropRefresh(s, g)) && RefreshInv(StoreRefreshError(s, g))
  {
  }

  lemma StoredLists(s: State, k: nat)
    requires RefreshInv(s) && k in s.rt.selects
    ensures RefreshInv(StoreSelection(s, k))
  {
    var task := s.rt.selects[k];
    var t := s.(rt := s.rt.(selects := s.rt.selects - {k}));
    var u := Post(t, SetSelectedWorkspace(task.workspaceId));
    assert SameLists(s, u);
    UpdateSameLists(u, task.refresh.Some?);
  }

  lemma SelectFailedLists(s: State, k: nat)
    requires RefreshInv(s) && k in s.rt.selects
    ensures RefreshInv(FailSelection(s, k))
  {
    var task := s.rt.selects[k];
    var t := s.(rt := s.rt.(selects := s.rt.selects - {k}));
    assert RefreshInv(t);
    if task.refresh.Some? { CatchLists(t, task.refresh.value); }
  }

  lemma ChosenLists(s: State, w: Option<WorkspaceId>)
    requires RefreshInv(s)
    ensures RefreshInv(ChooseWorkspace(s, w))
  {
    UpdateSameLists(Post(s, SetSelectedWorkspace(w)), false);
  }

  lemma SelectStepKeeps(s: State, e: Event)
    requires RefreshInv(s) && Enabled(s, e) && SelectSide(e)
    ensures RefreshInv(Step(s, e))
  {
    match e
    case Ready => StartLists(s);
    case Select(w) => ChosenLists(s, w);
    case SelectStored(k) => StoredLists(s, k);
    case SelectStoreFailed(k) => SelectFailedLists(s, k);
  }

  lemma RefreshErrorLists(s: State, e: Event)
    requires RefreshInv(s) && Enabled(s, e) && (e.RefreshFailed? || e.RefreshErrorStored? || e.RefreshErrorStoreFailed?)
    ensures RefreshInv(Step(s, e))
  {
    CatchLists(s, e.generation);
  }

  lemma LoadedLists(s: State, e: Event)
    requires RefreshInv(s) && Enabled(s, e) && e.RefreshLoaded?
    ensures RefreshInv(Step(s, e))
  {
    AppliedInv(s, e.generation, e.mode, e.workspaces);
  }

  lemma ResumedLists(s: State, e: Event)
    requires RefreshInv(s) && Enabled(s, e) && e.RefreshResumed?
    ensures RefreshInv(Step(s, e))
  {
    var t := s.(rt := s.rt.(resumes := s.rt.resumes - 1));
    UpdateSameLists(t, false);
    assert SameLists(s, t) && Step(s, e) == UpdateSubscription(t, false);
  }

  lemma RefreshStepKeeps(s: State, e: Event)
    requires RefreshInv(s) && Enabled(s, e) && RefreshSide(e)
    ensures RefreshInv(Step(s, e))
  {
    if e.RefreshRequested? {
      StartLists(s);
    } else if e.RefreshLoaded? {
      LoadedLists(s, e);
    } else if e.RefreshResumed? {
      ResumedLists(s, e);
    } else {
      RefreshErrorLists(s, e);
    }
  }

  lemma ListStepKeeps(s: State, e: Event)
    requires Inv(s) && Enabled(s, e) && ListSide(e)
    ensures Inv(Step(s, e))
  {
    ListSideKeeps(s, e);
    OrpcFrame(s, Step(s, e));
    if RefreshSide(e) { RefreshStepKeeps(s, e); } else { SelectStepKeeps(s, e); }
  }

  lemma LoopStepKeeps(s: State, e: Event)
    requires Inv(s) && Enabled(s, e) && LoopSide(e)
    ensures Inv(Step(s, e))
  {
    LoopSideKeeps(s, e);
    OrpcFrame(s, Step(s, e));
    LoopSameLists(s, e);
  }

  lemma OrpcStepKeeps(s: State, e: Event)
    requires Inv(s) && Enabled(s, e) && OrpcSide(e)
    ensures Inv(Step(s, e))
  {
    OrpcSideKeeps(s, e);
    ChatFrame(s, Step(s, e));
  }

  lemma StepKeeps(s: State, e: Event)
    requires Inv(s) && Enabled(s, e)
    ensures Inv(Step(s, e))
  {
    if ListSide(e) {
      ListStepKeeps(s, e);
    } else if LoopSide(e) {
      LoopStepKeeps(s, e);
    } else if OrpcSide(e) {
      OrpcStepKeeps(s, e);
    } else {
      ViewSideKeeps(s, e);
    }
  }

  lemma {:induction false} RunKeeps(s: State, es: seq<Event>)
    requires Inv(s) && ValidRun(s, es)
    ensures Inv(Run(s, es))
    decreases |es|
  {
    if es != [] {
      StepKeeps(s, es[0]);
      RunKeeps(Step(s, es[0]), es[1..]);
    }
  }

  lemma InitInv(stored: Option<WorkspaceId>)
    ensures Inv(Init(stored))
  {
  }

  lemma RunFromStart(stored: Option<WorkspaceId>, es: seq<Event>)
    requires ValidRun(Init(stored), es)
    ensures Inv(Run(Init(stored), es))
  {
    InitInv(stored);
    RunKeeps(Init(stored), es);
  }

  // ---------- the chat subscription ----------

  // Every live loop that is not aborted is the one in the subscription fields, which are null together;
  // every chat event was posted for the workspace selected at that moment, the last chatReset before it
  // named that workspace, and it went to the same webview if and only if no webview was resolved in between.
  lemma OneLoopPerSelection(stored: Option<WorkspaceId>, es: seq<Event>)
    requires ValidRun(Init(stored), es)
    ensures var s := Run(Init(stored), es);
      && (s.subscription.None? <==> s.subscribed.None?)
      && (forall c :: c in s.rt.chats && c !in s.rt.aborted ==>
            s.subscription == Some(c) && s.subscribed == Some(s.rt.chats[c].workspaceId))
      && AllGrounded(s.history.log)
  {
    RunFromStart(stored, es);
  }

  // An event that is shown goes to the webview that got the last chatReset if and only if no webview was resolved
  // under its subscription.
  lemma ShownAfterItsResetIff(s: State, c: Controller, event: string)
    requires Inv(s) && Enabled(s, ChatArrived(c, event))
    requires s.ready && c !in s.rt.aborted && s.selected == Some(s.rt.chats[c].workspaceId)
    ensures var log := Step(s, ChatArrived(c, event)).history.log; var shown := log[|log| - 1];
      && log == s.history.log + [shown] && shown.message == ChatEvent(s.selected.value, event)
      && shown.receipt.Some? && LastReset(log).Some? && LastReset(log).value.receipt.Some?
      && (LastReset(log).value.receipt.value.view == shown.receipt.value.view <==> !s.history.replaced)
  {
    Append(s.history.log, Entry(s, ChatEvent(s.selected.value, event)));
  }

  // Which steps that is: a live subscription is under a replaced webview if and only if it was before, or a webview
  // is resolved now; a new subscription never is.
  lemma ReplacedIff(s: State, e: Event)
    requires Inv(s) && Enabled(s, e) && Step(s, e).subscription.Some?
    ensures var t := Step(s, e);
      t.history.replaced <==> t.subscription == s.subscription && (e.ResolveView? || s.history.replaced)
  {
    if ListSide(e) {
      ListSideKeeps(s, e);
    } else if LoopSide(e) {
      LoopSideKeeps(s, e);
    } else if OrpcSide(e) {
      OrpcSideKeeps(s, e);
    }
  }

  // ---------- the ORPC calls ----------

  lemma AnsweredAtMostOnce(stored: Option<WorkspaceId>, es: seq<Event>, c: Controller)
    requires ValidRun(Init(stored), es)
    ensures var s := Run(Init(stored), es);
      && Answers(s.history.log, c) <= 1
      && (c in s.rt.calls || c !in s.history.accepted ==> Answers(s.history.log, c) == 0)
      && (c in s.history.accepted && c !in s.rt.calls && c !in s.rt.aborted ==> Answers(s.history.log, c) == 1)
      && (forall i :: 0 <= i < |s.history.log| && Answering(s.history.log[i].message, c) ==>
            c in s.history.accepted && s.history.log[i].message.requestId == s.history.accepted[c])
  {
    RunFromStart(stored, es);
  }

  // The pending map names exactly the live calls that were not aborted, so no two share a request id.
  lemma LiveCallsHaveOwnIds(stored: Option<WorkspaceId>, es: seq<Event>)
    requires ValidRun(Init(stored), es)
    ensures var s := Run(Init(stored), es);
      && s.pending.Values == (set c | c in s.rt.calls && c !in s.rt.aborted)
      && (forall r :: r in s.pending ==> s.pending[r] in s.rt.calls && s.rt.calls[s.pending[r]].requestId == r)
      && (forall c, d :: c in s.rt.calls && d in s.rt.calls && c !in s.rt.aborted && d !in s.rt.aborted ==>
            s.rt.calls[c].requestId == s.rt.calls[d].requestId ==> c == d)
  {
    RunFromStart(stored, es);
    var s := Run(Init(stored), es);
    forall c | c in s.rt.calls && c !in s.rt.aborted ensures c in s.pending.Values {
      assert s.pending[s.rt.calls[c].requestId] == c;
    }
  }

  // ---------- aborting is final ----------

  ghost predicate Silenced(s: State, t: State, c: Controller) {
    && c in t.rt.aborted
    && Answers(t.history.log, c) == Answers(s.history.log, c)
    && (forall id :: id in s.history.opener && s.history.opener[id] == c ==>
          id in t.history.opener && t.history.opener[id] == c && DataCount(t.history.log, id) == DataCount(s.history.log, id))
  }

  lemma PostSilent(s: State, m: Message)
    ensures forall c :: !Answering(m, c) ==> Answers(Post(s, m).history.log, c) == Answers(s.history.log, c)
    ensures forall id :: !IsData(m, id) ==> DataCount(Post(s, m).history.log, id) == DataCount(s.history.log, id)
  {
    Append(s.history.log, Entry(s, m));
  }

  lemma AcceptSilent(s: State, r: RequestId, allowed: bool, c: Controller)
    requires FreshControllers(s.rt, s.history.accepted) && c in s.rt.aborted
    ensures Silenced(s, AcceptCall(s, r, allowed), c)
  {
    PostSilent(s, OrpcResponse(r, None, Failed));
    PostSilent(Register(s, r), OrpcResponse(r, Some(s.rt.nextController), Failed));
  }

  lemma AnswerSilent(s: State, d: Controller, r: RequestId, reply: Reply, c: Controller)
    requires c in s.rt.aborted && c != d
    ensures Silenced(s, Answer(s, d, r, reply), c)
  {
    PostSilent(s, OrpcResponse(r, Some(d), reply));
  }

  lemma AdvanceSilent(s: State, d: Controller, client: ClientOutcome, c: Controller)
    requires d in s.rt.calls && c in s.rt.aborted
    ensures Silenced(s, AdvanceCall(s, d, client), c)
  {
    if d !in s.rt.aborted { AnswerSilent(s, d, s.rt.calls[d].requestId, Failed, c); }
  }

  lemma OpenSilent(s: State, d: Controller, c: Controller)
    requires FreshStreams(s.rt, s.history.accepted, s.history.opener, s.history.produced)
    requires d in s.rt.calls && c in s.rt.aborted && c != d
    ensures Silenced(s, Open(s, d), c)
  {
    AnswerSilent(OpenStream(s, d), d, s.rt.calls[d].requestId, Stream(s.rt.nextStream), c);
  }

  lemma CompleteSilent(s: State, d: Controller, result: CallOutcome, c: Controller)
    requires FreshStreams(s.rt, s.history.accepted, s.history.opener, s.history.produced)
    requires d in s.rt.calls && c in s.rt.aborted
    ensures Silenced(s, CompleteCall(s, d, result), c)
  {
    var r := s.rt.calls[d].requestId;
    if d !in s.rt.aborted {
      match result
      case Returned(v) => AnswerSilent(s, d, r, Value(v), c);
      case Iterable => OpenSilent(s, d, c);
      case Rejected => AnswerSilent(s, d, r, Failed, c);
    }
  }

  lemma PumpSilent(s: State, id: StreamId, v: string, c: Controller)
    requires FreshStreams(s.rt, s.history.accepted, s.history.opener, s.history.produced)
    requires id in s.rt.pumps && c in s.rt.aborted
    ensures Silenced(s, PumpOne(s, id, v), c)
  {
    PostSilent(Yield(s, id, v), StreamData(id, v));
  }

  lemma EndSilent(s: State, id: StreamId, threw: bool, c: Controller)
    requires id in s.rt.pumps && c in s.rt.aborted
    ensures Silenced(s, EndPump(s, id, threw), c)
  {
    PostSilent(s, StreamEnd(id));
    PostSilent(s, StreamError(id));
  }

  lemma CallSilent(s: State, e: Event, c: Controller)
    requires Fresh(s) && Enabled(s, e) && c in s.rt.aborted
    requires e.OrpcCall? || e.CallClient? || e.CallResult? || e.OrpcCancel?
    ensures Silenced(s, Step(s, e), c)
  {
    match e
    case OrpcCall(r, allowed) => AcceptSilent(s, r, allowed, c);
    case CallClient(d, client) => AdvanceSilent(s, d, client, c);
    case CallResult(d, result) => CompleteSilent(s, d, result, c);
    case OrpcCancel(r) => assert Silenced(s, CancelCall(s, r), c);
  }

  lemma StreamSilent(s: State, e: Event, c: Controller)
    requires Fresh(s) && Enabled(s, e) && c in s.rt.aborted
    requires e.PumpValue? || e.PumpDone? || e.PumpThrew? || e.StreamCancel?
    ensures Silenced(s, Step(s, e), c)
  {
    match e
    case PumpValue(id, v) => PumpSilent(s, id, v, c);
    case PumpDone(id) => EndSilent(s, id, false, c);
    case PumpThrew(id) => EndSilent(s, id, true, c);
    case StreamCancel(id) => assert Silenced(s, CancelStream(s, id), c);
  }

  lemma OrpcSilent(s: State, e: Event, c: Controller)
    requires Fresh(s) && Enabled(s, e) && c in s.rt.aborted && OrpcSide(e)
    ensures Silenced(s, Step(s, e), c)
  {
    if e.OrpcCall? || e.CallClient? || e.CallResult? || e.OrpcCancel? {
      CallSilent(s, e, c);
    } else {
      StreamSilent(s, e, c);
    }
  }

  lemma StepSilent(s: State, e: Event, c: Controller)
    requires Inv(s) && Enabled(s, e) && c in s.rt.aborted
    ensures Silenced(s, Step(s, e), c)
  {
    var t := Step(s, e);
    if ListSide(e) {
      ListSideKeeps(s, e);
      QuietGrowth(s.history.log, t.history.log);
    } else if LoopSide(e) {
      LoopSideKeeps(s, e);
      QuietGrowth(s.history.log, t.history.log);
    } else if OrpcSide(e) {
      OrpcSilent(s, e, c);
    }
  }

  lemma {:induction false} RunSilent(s: State, es: seq<Event>, c: Controller)
    requires Inv(s) && ValidRun(s, es) && c in s.rt.aborted
    ensures Silenced(s, Run(s, es), c)
    decreases |es|
  {
    if es != [] {
      StepKeeps(s, es[0]);
      StepSilent(s, es[0], c);
      RunSilent(Step(s, es[0]), es[1..], c);
    }
  }

  // A cancelled call is never answered, whatever happens next, even when its request id is used again.
  lemma CancelledCallIsNeverAnswered(s: State, r: RequestId, es: seq<Event>)
    requires Inv(s) && r in s.pending && ValidRun(CancelCall(s, r), es)
    ensures Answers(Run(CancelCall(s, r), es).history.log, s.pending[r]) == 0
  {
    var c := s.pending[r];
    StepKeeps(s, OrpcCancel(r));
    RunSilent(CancelCall(s, r), es, c);
    assert Answers(s.history.log, c) == 0;
  }

  // A cancelled stream posts no more data.
  lemma CancelledStreamShowsNoData(s: State, id: StreamId, es: seq<Event>)
    requires Inv(s) && id in s.streams && ValidRun(CancelStream(s, id), es)
    ensures DataCount(Run(CancelStream(s, id), es).history.log, id) == DataCount(s.history.log, id)
  {
    StepKeeps(s, StreamCancel(id));
    RunSilent(CancelStream(s, id), es, s.streams[id]);
  }

  // After dispose no call pending then is answered and no stream open then posts data.
  lemma DisposeSilences(s: State, es: seq<Event>)
    requires Inv(s) && ValidRun(Dispose(s), es)
    ensures forall r :: r in s.pending ==> Answers(Run(Dispose(s), es).history.log, s.pending[r]) == 0
    ensures forall id :: id in s.streams ==>
              DataCount(Run(Dispose(s), es).history.log, id) == DataCount(s.history.log, id)
  {
    StepKeeps(s, ProviderDisposed);
    forall r | r in s.pending ensures Answers(Run(Dispose(s), es).history.log, s.pending[r]) == 0 {
      RunSilent(Dispose(s), es, s.pending[r]);
      assert Answers(s.history.log, s.pending[r]) == 0;
    }
    forall id | id in s.streams ensures DataCount(Run(Dispose(s), es).history.log, id) == DataCount(s.history.log, id) {
      RunSilent(Dispose(s), es, s.streams[id]);
    }
  }

  // ---------- the streams ----------

  // Every stream posted its response, then its data in iterator order, then one terminal message if its
  // pump ended; the active streams are exactly the pumps neither finished nor cancelled.
  lemma StreamsInOrder(stored: Option<WorkspaceId>, es: seq<Event>)
    requires ValidRun(Init(stored), es)
    ensures var s := Run(Init(stored), es);
      && s.streams.Keys == (set id | id in s.rt.pumps && s.rt.pumps[id].controller !in s.rt.aborted)
      && (forall id :: id in s.history.opener ==>
            var c := s.history.opener[id];
            && c in s.history.accepted && id in s.history.produced
            && Traced(StreamLog(s.history.log, id), id, c, s.history.accepted[c], s.history.produced[id],
                      id in s.rt.pumps, c in s.rt.aborted))
      && (forall id :: id !in s.history.opener ==> StreamLog(s.history.log, id) == [])
  {
    RunFromStart(stored, es);
  }

  // ---------- the refreshes ----------

  lemma {:induction false} IndexByIdIsLast(ws: seq<Workspace>, i: nat)
    requires i < |ws|
    ensures ws[i].id in IndexById(ws)
    ensures (forall j :: i < j < |ws| ==> ws[j].id != ws[i].id) ==> IndexById(ws)[ws[i].id] == ws[i]
  {
    if i < |ws| - 1 { IndexByIdIsLast(ws[..|ws| - 1], i); }
  }

  // The index agrees with the list, and the generations of the applied results strictly increase.
  lemma RefreshesInOrder(stored: Option<WorkspaceId>, es: seq<Event>)
    requires ValidRun(Init(stored), es)
    ensures var s := Run(Init(stored), es);
      && s.workspacesById == IndexById(s.workspaces)
      && (forall i, j :: 0 <= i < j < |s.history.applied| ==> s.history.applied[i] < s.history.applied[j])
  {
    RunFromStart(stored, es);
  }

  // A result that is not of the latest generation changes nothing but its own task.
  lemma StaleRefreshIsDiscarded(s: State, g: nat, mode: Mode, ws: seq<Workspace>)
    requires Enabled(s, RefreshLoaded(g, mode, ws))
    ensures g != s.generation <==> Step(s, RefreshLoaded(g, mode, ws)).history.applied == s.history.applied
    ensures g != s.generation ==>
              Step(s, RefreshLoaded(g, mode, ws)) == s.(rt := s.rt.(refreshes := s.rt.refreshes - {g}))
  {
    if g == s.generation {
      UpdateSameLists(AcceptRefresh(DropRefresh(s, g), g, mode, ws), false);
    }
  }

  // ---------- limits ----------

  lemma {:induction false} RunOneMore(s: State, es: seq<Event>, e: Event)
    requires ValidRun(s, es) && Enabled(Run(s, es), e)
    ensures ValidRun(s, es + [e]) && Run(s, es + [e]) == Step(Run(s, es), e)
    decreases |es|
  {
    if es == [] {
      assert ([] + [e])[1..] == [];
    } else {
      RunOneMore(Step(s, es[0]), es[1..], e);
      assert (es + [e])[1..] == es[1..] + [e];
    }
  }

  // A ready webview that waits for its first list.
  lemma ReadyRun() returns (es: seq<Event>)
    ensures ValidRun(Init(Some("w")), es)
    ensures Run(Init(Some("w")), es) == HearReady(Resolve(Init(Some("w"))))
  {
    var s0 := Init(Some("w"));
    RunOneMore(s0, [], ResolveView);
    RunOneMore(s0, [] + [ResolveView], Ready);
    es := [] + [ResolveView] + [Ready];
  }

  // Subscribed to "w" through that webview.
  lemma SubscribedRun() returns (es: seq<Event>)
    ensures ValidRun(Init(Some("w")), es)
    ensures var s := Run(Init(Some("w")), es);
      && s.ready && s.view == Some(0) && s.nextView == 1 && s.selected == Some("w") && s.mode == Api
      && s.subscription == Some(0) && s.subscribed == Some("w") && s.rt.nextController == 1 && !s.history.replaced
      && s.rt.selects == map[] && s.rt.aborted == {}
      && s.rt.chats == map[0 := ChatTask("w", Connecting, false)]
      && LastReset(s.history.log).Some?
      && LastReset(s.history.log).value.receipt.Some? && LastReset(s.history.log).value.receipt.value.view == 0
  {
    var ws := [Workspace("w", "")];
    es := ReadyRun();
    var s2 := Run(Init(Some("w")), es);
    assert s2.generation == 1 && s2.rt.refreshes == map[1 := Loading];
    RunOneMore(Init(Some("w")), es, RefreshLoaded(1, Api, ws));
    es := es + [RefreshLoaded(1, Api, ws)];
    assert IndexById(ws) == map["w" := ws[0]] by { assert ws[..0] == []; }
    FirstSubscription(AcceptRefresh(DropRefresh(s2, 1), 1, Api, ws));
  }

  lemma FirstSubscription(s: State)
    requires s.ready && s.view.Some? && s.mode == Api && s.selected.GetOr("") != "" && s.subscription.None?
    ensures var t := UpdateSubscription(s, false);
      && LastReset(t.history.log).Some?
      && LastReset(t.history.log).value.receipt == Some(Receipt(s.view.value, s.nextNumber))
  {
    Append(s.history.log, Entry(OpenSubscription(s, false), ChatReset(s.selected.value)));
  }

  // The same loop, reading events.
  lemma LoopingRun() returns (es: seq<Event>)
    ensures ValidRun(Init(Some("w")), es)
    ensures var s := Run(Init(Some("w")), es);
      && s.ready && s.view == Some(0) && s.nextView == 1 && !s.history.replaced && s.selected == Some("w") && s.mode == Api
      && s.subscription == Some(0) && s.subscribed == Some("w") && s.rt.aborted == {}
      && s.rt.chats == map[0 := ChatTask("w", Looping, false)]
      && LastReset(s.history.log).Some?
      && LastReset(s.history.log).value.receipt.Some? && LastReset(s.history.log).value.receipt.value.view == 0
  {
    var s0 := Init(Some("w"));
    es := SubscribedRun();
    RunOneMore(s0, es, ClientReady(0));
    es := es + [ClientReady(0)];
    RunOneMore(s0, es, ChatOpened(0));
    es := es + [ChatOpened(0)];
  }

  // What brings a loop to its next event.
  function Feed(at: ChatPoint, c: Controller, event: string): seq<Event> {
    match at
    case Connecting => [ClientReady(c)] + ([ChatOpened(c)] + [ChatArrived(c, event)])
    case Opening => [ChatOpened(c)] + [ChatArrived(c, event)]
    case _ => [ChatArrived(c, event)]
  }

  // The loop is live and for the selection, but the last reset went to another webview than the present one.
  ghost predicate Starved(s: State, c: Controller, at: ChatPoint, view: nat, previous: nat) {
    && c in s.rt.chats && c !in s.rt.aborted && s.rt.chats[c].at == at
    && s.selected == Some(s.rt.chats[c].workspaceId) && s.ready && s.view == Some(view)
    && LastReset(s.history.log).Some? && LastReset(s.history.log).value.receipt.Some?
    && LastReset(s.history.log).value.receipt.value.view == previous
  }

  // The last message of the log is an event for one webview, and the last reset went to another.
  ghost predicate FedWithoutReset(log: seq<Posted>, w: WorkspaceId, event: string, view: nat, previous: nat) {
    && log != [] && log[|log| - 1].message == ChatEvent(w, event)
    && log[|log| - 1].receipt.Some? && log[|log| - 1].receipt.value.view == view
    && LastReset(log).Some? && LastReset(log).value.receipt.Some? && LastReset(log).value.receipt.value.view == previous
  }

  lemma ReceivingFeeds(s: State, c: Controller, event: string, view: nat, previous: nat)
    requires Starved(s, c, Looping, view, previous)
    ensures FedWithoutReset(ReceiveChat(s, c, event).history.log, s.selected.value, event, view, previous)
  {
    var u := ReceiveChat(s, c, event);
    assert |u.history.log| == |s.history.log| + 1;
    Append(s.history.log, u.history.log[|s.history.log|]);
  }

  lemma RunFirst(s: State, e: Event, es: seq<Event>)
    requires Enabled(s, e) && ValidRun(Step(s, e), es)
    ensures ValidRun(s, [e] + es) && Run(s, [e] + es) == Run(Step(s, e), es)
  {
    assert ([e] + es)[1..] == es;
  }

  lemma StillStarved(s: State, c: Controller, at: ChatPoint, next: ChatPoint, view: nat, previous: nat)
    requires Starved(s, c, at, view, previous)
    ensures Starved(ChatAt(s, c, next), c, next, view, previous) && ChatAt(s, c, next).selected == s.selected
  {
  }

  lemma {:induction false} LoopFeeds(s: State, c: Controller, at: ChatPoint, event: string, view: nat, previous: nat)
    requires Starved(s, c, at, view, previous) && !at.Closing?
    ensures ValidRun(s, Feed(at, c, event))
    ensures FedWithoutReset(Run(s, Feed(at, c, event)).history.log, s.selected.value, event, view, previous)
    decreases if at.Connecting? then 2 else if at.Opening? then 1 else 0
  {
    match at
    case Connecting =>
      StillStarved(s, c, at, Opening, view, previous);
      LoopFeeds(ChatAt(s, c, Opening), c, Opening, event, view, previous);
      RunFirst(s, ClientReady(c), Feed(Opening, c, event));
    case Opening =>
      StillStarved(s, c, at, Looping, view, previous);
      LoopFeeds(ChatAt(s, c, Looping), c, Looping, event, view, previous);
      RunFirst(s, ChatOpened(c), Feed(Looping, c, event));
    case Looping =>
      ReceivingFeeds(s, c, event, view, previous);
      RunFirst(s, ChatArrived(c, event), []);
      assert [ChatArrived(c, event)] + [] == Feed(Looping, c, event);
  }

  lemma ReplacingStarves(s: State, c: Controller)
    requires ChatInv(s) && s.subscription == Some(c) && s.selected == s.subscribed
    ensures Starved(HearReady(Resolve(s)), c, s.rt.chats[c].at, s.nextView, LastReset(s.history.log).value.receipt.value.view)
  {
    var t := HearReady(Resolve(s));
    assert |t.history.log| == |s.history.log| + 1;
    Append(s.history.log, t.history.log[|s.history.log|]);
  }

  // Whenever a webview is resolved under a live subscription to the selection, wherever its loop is before its last
  // event, the next webview can be fed an event although the last reset went to an older one.
  lemma ReplacedUnderALoop(s: State, c: Controller, event: string)
    requires ChatInv(s) && s.subscription == Some(c) && s.selected == s.subscribed && !s.rt.chats[c].at.Closing?
    ensures var t := HearReady(Resolve(s)); var es := Feed(s.rt.chats[c].at, c, event);
      var previous := LastReset(s.history.log).value.receipt.value.view;
      && ValidRun(t, es)
      && FedWithoutReset(Run(t, es).history.log, s.subscribed.value, event, s.nextView, previous)
      && previous < s.nextView
  {
    ReplacingStarves(s, c);
    LoopFeeds(HearReady(Resolve(s)), c, s.rt.chats[c].at, event, s.nextView, LastReset(s.history.log).value.receipt.value.view);
  }

  // The selection moved on while the first loop still waits for its client: that loop is aborted, but it lives.
  lemma ReselectedRun() returns (es: seq<Event>)
    ensures ValidRun(Init(Some("w")), es)
    ensures var s := Run(Init(Some("w")), es);
      && s.mode == Api && s.subscription == Some(1) && 0 in s.rt.aborted && 1 !in s.rt.aborted
      && 0 in s.rt.chats && s.rt.chats[0].at.Connecting? && 1 in s.rt.chats
  {
    var s0 := Init(Some("w"));
    es := SubscribedRun();
    var k := Run(s0, es).rt.nextTask;
    RunOneMore(s0, es, Select(Some("v")));
    es := es + [Select(Some("v"))];
    RunOneMore(s0, es, SelectStored(k));
    es := es + [SelectStored(k)];
  }

  // An aborted loop touches neither the log nor the mode nor the subscription, if and only if its step is not the
  // failure of its client. That one posts, and puts the provider in file mode although another loop may live on.
  lemma StaleFailureLeavesApiMode(s: State, c: Controller, e: Event)
    requires Inv(s) && c in s.rt.aborted && LoopSide(e) && e.chat == c && Enabled(s, e)
    ensures var t := Step(s, e);
      && (t.history.log == s.history.log && t.mode == s.mode && t.subscription == s.subscription && t.subscribed == s.subscribed
          <==> !e.ClientFailed?)
      && (e.ClientFailed? ==> t.mode == File && t.subscription == s.subscription && t.subscribed == s.subscribed)
  {
    if e.ClientFailed? { StaleFailureShows(s, c); } else { StaleStepIsSilent(s, c, e); }
  }

  lemma StaleStepIsSilent(s: State, c: Controller, e: Event)
    requires Inv(s) && c in s.rt.aborted && LoopSide(e) && e.chat == c && Enabled(s, e) && !e.ClientFailed?
    ensures var t := Step(s, e);
      t.history.log == s.history.log && t.mode == s.mode && t.subscription == s.subscription && t.subscribed == s.subscribed
  {
  }

  lemma StaleFailureShows(s: State, c: Controller)
    requires Inv(s) && c in s.rt.aborted && Enabled(s, ClientFailed(c))
    ensures var t := Step(s, ClientFailed(c));
      t.history.log != s.history.log && t.mode == File && t.subscription == s.subscription && t.subscribed == s.subscribed
  {
    assert |FailClient(s, c).history.log| == |s.history.log| + 2;
  }
}
