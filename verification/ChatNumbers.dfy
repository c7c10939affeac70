/** The numbers that the chat view provider's webviews get with their messages. */
module ChatNumbers {
  import opened Wrappers
  import opened ChatProtocol
  import opened ChatSteps

  // The numbers of the messages that were delivered, in order.
  function Numbers(log: seq<Posted>): seq<nat> {
    if log == [] then []
    else
      var last := log[|log| - 1];
      Numbers(log[..|log| - 1]) + (if last.receipt.Some? then [last.receipt.value.number] else [])
  }

  // One after the other from 1, whichever webview got them.
  predicate Consecutive(ns: seq<nat>) {
    forall i :: 0 <= i < |ns| ==> ns[i] == i + 1
  }

  predicate NumberInv(s: State) {
    Consecutive(Numbers(s.history.log)) && s.nextNumber == |Numbers(s.history.log)| + 1
  }

  // Nothing was posted.
  predicate Silent(s: State, t: State) {
    t.history.log == s.history.log && t.nextNumber == s.nextNumber
  }

  lemma PostCounts(s: State, m: Message)
    requires NumberInv(s)
    ensures NumberInv(Post(s, m))
  {
    assert Post(s, m).history.log[..|s.history.log|] == s.history.log;
  }

  lemma UpdateCounts(s: State, resume: bool)
    requires NumberInv(s)
    ensures NumberInv(UpdateSubscription(s, resume))
  {
    if s.selected.Some? {
      assert Silent(s, OpenSubscription(s, resume));
      PostCounts(OpenSubscription(s, resume), ChatReset(s.selected.value));
    }
  }

  lemma ApplyCounts(s: State, g: nat, mode: Mode, ws: seq<Workspace>)
    requires NumberInv(s)
    ensures NumberInv(ApplyRefresh(s, g, mode, ws))
  {
    var d := DropRefresh(s, g);
    var t := d.(mode := mode, workspaces := ws, workspacesById := IndexById(ws),
                history := d.history.(applied := d.history.applied + [g]));
    PostCounts(t, ConnectionStatus(mode));
    PostCounts(Post(t, ConnectionStatus(mode)), Workspaces(ws));
    UpdateCounts(AcceptRefresh(d, g, mode, ws), false);
  }

  lemma StoreErrorCounts(s: State, g: nat)
    requires NumberInv(s)
    ensures NumberInv(StoreRefreshError(s, g)) && NumberInv(Post(DropRefresh(s, g), UiNotice))
  {
    var d := DropRefresh(s, g);
    var t := Post(d, ConnectionStatus(s.mode));
    var u := Post(t, Workspaces([]));
    PostCounts(d, UiNotice);
    PostCounts(d, ConnectionStatus(s.mode));
    PostCounts(t, Workspaces([]));
    PostCounts(u, SetSelectedWorkspace(None));
    PostCounts(Post(u, SetSelectedWorkspace(None)), UiNotice);
  }

  lemma CatchIsSilent(s: State, g: nat)
    ensures Silent(s, RefreshCatch(s, g))
  {
  }

  lemma ResumedCounts(s: State)
    requires NumberInv(s) && s.rt.resumes > 0
    ensures NumberInv(Step(s, RefreshResumed))
  {
    UpdateCounts(s.(rt := s.rt.(resumes := s.rt.resumes - 1)), false);
  }

  lemma StoredCounts(s: State, k: nat)
    requires NumberInv(s) && k in s.rt.selects
    ensures NumberInv(StoreSelection(s, k)) && NumberInv(FailSelection(s, k))
  {
    var task := s.rt.selects[k];
    var t := s.(rt := s.rt.(selects := s.rt.selects - {k}));
    PostCounts(t, SetSelectedWorkspace(task.workspaceId));
    UpdateCounts(Post(t, SetSelectedWorkspace(task.workspaceId)), task.refresh.Some?);
    PostCounts(t, UiNotice);
    if task.refresh.Some? { CatchIsSilent(t, task.refresh.value); }
  }

  lemma SelectSideCounts(s: State, e: Event)
    requires NumberInv(s) && Enabled(s, e) && SelectSide(e)
    ensures NumberInv(Step(s, e))
  {
    match e
    case Ready => PostCounts(s.(ready := true), SetSelectedWorkspace(s.selected));
    case Select(w) => ChooseCounts(s, w);
    case SelectStored(k) => StoredCounts(s, k);
    case SelectStoreFailed(k) => StoredCounts(s, k);
  }

  lemma ChooseCounts(s: State, w: Option<WorkspaceId>)
    requires NumberInv(s)
    ensures NumberInv(ChooseWorkspace(s, w))
  {
    PostCounts(s, SetSelectedWorkspace(w));
    UpdateCounts(Post(s, SetSelectedWorkspace(w)), false);
  }

  lemma RefreshSideCounts(s: State, e: Event)
    requires NumberInv(s) && Enabled(s, e) && RefreshSide(e)
    ensures NumberInv(Step(s, e))
  {
    match e
    case RefreshRequested => assert Silent(s, StartRefresh(s));
    case RefreshLoaded(g, mode, ws) => ApplyCounts(s, g, mode, ws);
    case RefreshFailed(g) => CatchIsSilent(s, g);
    case RefreshErrorStored(g) => StoreErrorCounts(s, g);
    case RefreshErrorStoreFailed(g) => StoreErrorCounts(s, g);
    case RefreshResumed => ResumedCounts(s);
  }

  lemma ClientFailedCounts(s: State, c: Controller)
    requires NumberInv(s) && c in s.rt.chats
    ensures NumberInv(FailClient(s, c))
  {
    PostCounts(s.(mode := File), ConnectionStatus(File));
    PostCounts(Post(s.(mode := File), ConnectionStatus(File)), UiNotice);
    assert Silent(ReportNoClient(s), FailClient(s, c));
  }

  lemma LoopSideCounts(s: State, e: Event)
    requires NumberInv(s) && Enabled(s, e) && LoopSide(e)
    ensures NumberInv(Step(s, e))
  {
    match e
    case ClientFailed(c) => ClientFailedCounts(s, c);
    case ClientReady(c) => assert Silent(s, ChatAt(s, c, Opening));
    case ChatOpened(c) => assert Silent(s, ChatAt(s, c, Looping));
    case ChatArrived(c, event) => PostCounts(s, ChatEvent(s.rt.chats[c].workspaceId, event));
    case ChatEnded(c) => assert Silent(s, FinishChat(s, c));
    case ChatThrew(c) => PostCounts(s, UiNotice);
  }

  lemma AnswerCounts(s: State, c: Controller, r: RequestId, reply: Reply)
    requires NumberInv(s)
    ensures NumberInv(Answer(s, c, r, reply))
  {
    PostCounts(s, OrpcResponse(r, Some(c), reply));
  }

  lemma AcceptCounts(s: State, r: RequestId, allowed: bool)
    requires NumberInv(s)
    ensures NumberInv(AcceptCall(s, r, allowed))
  {
    PostCounts(s, OrpcResponse(r, None, Failed));
    assert Silent(s, Register(s, r));
    AnswerCounts(Register(s, r), s.rt.nextController, r, Failed);
  }

  lemma CompleteCounts(s: State, c: Controller, result: CallOutcome)
    requires NumberInv(s) && c in s.rt.calls
    ensures NumberInv(CompleteCall(s, c, result))
  {
    var r := s.rt.calls[c].requestId;
    AnswerCounts(s, c, r, Failed);
    match result
    case Returned(v) => AnswerCounts(s, c, r, Value(v));
    case Iterable =>
      assert Silent(s, OpenStream(s, c));
      AnswerCounts(OpenStream(s, c), c, r, Stream(s.rt.nextStream));
    case Rejected =>
  }

  lemma PumpCounts(s: State, id: StreamId, value: string, threw: bool)
    requires NumberInv(s) && id in s.rt.pumps
    ensures NumberInv(PumpOne(s, id, value)) && NumberInv(EndPump(s, id, threw))
  {
    assert Silent(s, Yield(s, id, value));
    PostCounts(Yield(s, id, value), StreamData(id, value));
    PostCounts(s, StreamError(id));
    PostCounts(s, StreamEnd(id));
  }

  lemma OtherCounts(s: State, e: Event)
    requires NumberInv(s) && Enabled(s, e) && !ListSide(e) && !LoopSide(e)
    ensures NumberInv(Step(s, e))
  {
    match e
    case ResolveView => assert Silent(s, Resolve(s));
    case ViewDisposed => assert Silent(s, Step(s, e));
    case ProviderDisposed => assert Silent(s, Step(s, e));
    case OrpcCall(r, allowed) => AcceptCounts(s, r, allowed);
    case CallClient(c, client) => AnswerCounts(s, c, s.rt.calls[c].requestId, Failed);
    case CallResult(c, result) => CompleteCounts(s, c, result);
    case OrpcCancel(r) => assert Silent(s, CancelCall(s, r));
    case StreamCancel(id) => assert Silent(s, CancelStream(s, id));
    case PumpValue(id, v) => PumpCounts(s, id, v, false);
    case PumpDone(id) => PumpCounts(s, id, "", false);
    case PumpThrew(id) => PumpCounts(s, id, "", true);
  }

  lemma StepCounts(s: State, e: Event)
    requires NumberInv(s) && Enabled(s, e)
    ensures NumberInv(Step(s, e))
  {
    if RefreshSide(e) { RefreshSideCounts(s, e); }
    else if SelectSide(e) { SelectSideCounts(s, e); }
    else if LoopSide(e) { LoopSideCounts(s, e); }
    else { OtherCounts(s, e); }
  }

  lemma {:induction false} RunCounts(s: State, es: seq<Event>)
    requires NumberInv(s) && ValidRun(s, es)
    ensures NumberInv(Run(s, es))
    decreases |es|
  {
    if es != [] {
      StepCounts(s, es[0]);
      RunCounts(Step(s, es[0]), es[1..]);
    }
  }

  // In every run the delivered messages are numbered one after the other, without a gap, over all webviews.
  lemma DeliveriesAreNumbered(stored: Option<WorkspaceId>, es: seq<Event>)
    requires ValidRun(Init(stored), es)
    ensures Consecutive(Numbers(Run(Init(stored), es).history.log))
  {
    RunCounts(Init(stored), es);
  }
}
