/** The chat view provider of the VS Code extension as a state machine.

    Handlers of the provider interleave at every `await`, so every segment between two awaits is
    one atomic step, named by an `Event`. A live handler is an entry of one of the task maps of
    `Runtime`, with the await it is parked at as its program counter. `Event`s that answer an await
    (a client, a stored value, an iterator step) carry whatever the outside world answered. */
module ChatProtocol {
  import opened Wrappers

  type WorkspaceId = string
  type RequestId = string
  type Controller = nat   // the identity of an AbortController
  type StreamId = nat     // random 128-bit names in the program, here never repeated

  datatype Mode = Api | File

  datatype Workspace = Workspace(id: WorkspaceId, detail: string)

  datatype Reply = Failed | Value(value: string) | Stream(stream: StreamId)

  datatype Message =
    | ConnectionStatus(mode: Mode)
    | Workspaces(workspaces: seq<Workspace>)
    | SetSelectedWorkspace(workspaceId: Option<WorkspaceId>)
    | UiNotice
    | ChatReset(workspaceId': WorkspaceId)
    | ChatEvent(workspaceId': WorkspaceId, event: string)
    | OrpcResponse(requestId: RequestId, call: Option<Controller>, reply: Reply)
    | StreamData(stream: StreamId, value: string)
    | StreamEnd(stream: StreamId)
    | StreamError(stream: StreamId)

  // The webview that got a message, and its sequence number.
  datatype Receipt = Receipt(view: nat, number: nat)

  // One call of postMessage. There is no receipt when no ready webview was there to take it.
  // `selected` is the selection at that moment; `replaced` tells whether a webview had been resolved under the
  // subscription of that moment.
  datatype Posted = Posted(message: Message, receipt: Option<Receipt>, selected: Option<WorkspaceId>, replaced: bool)

  datatype ChatPoint = Connecting | Opening | Looping | Closing
  datatype ChatTask = ChatTask(workspaceId: WorkspaceId, at: ChatPoint, resume: bool)

  datatype CallPoint = AwaitingClient | AwaitingResult
  datatype CallTask = CallTask(requestId: RequestId, at: CallPoint)

  datatype PumpTask = PumpTask(controller: Controller, closing: bool)

  datatype RefreshPoint = Loading | StoringError

  datatype SelectTask = SelectTask(workspaceId: Option<WorkspaceId>, refresh: Option<nat>)

  /** What the JavaScript event loop holds for the provider. */
  datatype Runtime = Runtime(
    aborted: set<Controller>,
    nextController: Controller,
    nextStream: StreamId,
    nextTask: nat,
    chats: map<Controller, ChatTask>,
    calls: map<Controller, CallTask>,
    pumps: map<StreamId, PumpTask>,
    refreshes: map<nat, RefreshPoint>,
    selects: map<nat, SelectTask>,
    resumes: nat)

  /** What happened so far; no step of the program reads it. */
  datatype History = History(
    log: seq<Posted>,
    applied: seq<nat>,
    accepted: map<Controller, RequestId>,
    opener: map<StreamId, Controller>,
    produced: map<StreamId, seq<string>>,
    replaced: bool)

  datatype State = State(
    view: Option<nat>,
    nextView: nat,
    ready: bool,
    nextNumber: nat,
    mode: Mode,
    workspaces: seq<Workspace>,
    workspacesById: map<WorkspaceId, Workspace>,
    generation: nat,
    selected: Option<WorkspaceId>,
    pending: map<RequestId, Controller>,
    streams: map<StreamId, Controller>,
    subscribed: Option<WorkspaceId>,
    subscription: Option<Controller>,
    rt: Runtime,
    history: History)

  const EmptyRuntime := Runtime({}, 0, 0, 0, map[], map[], map[], map[], map[], 0)
  const EmptyHistory := History([], [], map[], map[], map[], false)

  // The constructor: only the selection survives from an earlier session.
  function Init(stored: Option<WorkspaceId>): State {
    State(None, 0, false, 1, File, [], map[], 0, stored, map[], map[], None, None, EmptyRuntime, EmptyHistory)
  }

  // ---------- building blocks ----------

  function Receive(s: State): Option<Receipt> {
    if s.view.Some? && s.ready then Some(Receipt(s.view.value, s.nextNumber)) else None
  }

  function Entry(s: State, m: Message): Posted {
    Posted(m, Receive(s), s.selected, s.history.replaced)
  }

  function Post(s: State, m: Message): State {
    s.(nextNumber := s.nextNumber + (if Receive(s).Some? then 1 else 0),
       history := s.history.(log := s.history.log + [Entry(s, m)]))
  }

  function Abort(s: State, cs: set<Controller>): State {
    s.(rt := s.rt.(aborted := s.rt.aborted + cs))
  }

  function Held(c: Option<Controller>): set<Controller> {
    if c.Some? then {c.value} else {}
  }

  function DropSubscription(s: State): State {
    Abort(s, Held(s.subscription)).(subscription := None, subscribed := None)
  }

  function Dispose(s: State): State {
    Abort(DropSubscription(s), s.pending.Values + s.streams.Values).(pending := map[], streams := map[])
  }

  function IndexById(ws: seq<Workspace>): map<WorkspaceId, Workspace> {
    if ws == [] then map[] else IndexById(ws[..|ws| - 1])[ws[|ws| - 1].id := ws[|ws| - 1]]
  }

  function Resume(s: State, resume: bool): State {
    s.(rt := s.rt.(resumes := s.rt.resumes + (if resume then 1 else 0)))
  }

  // A new controller replaces the old one, which is aborted.
  function OpenSubscription(s: State, resume: bool): State
    requires s.selected.Some?
  {
    var c := s.rt.nextController;
    s.(subscription := Some(c), subscribed := s.selected,
       rt := s.rt.(aborted := s.rt.aborted + Held(s.subscription),
                   nextController := c + 1,
                   chats := s.rt.chats[c := ChatTask(s.selected.value, Connecting, resume)]),
       history := s.history.(replaced := false))
  }

  // The first segment of updateChatSubscription. `resume` tells that a refresh waits for its end.
  function UpdateSubscription(s: State, resume: bool): State {
    if !s.ready || s.view.None? then Resume(s, resume)
    else if s.selected.GetOr("") == "" || s.mode != Api then Resume(DropSubscription(s), resume)
    else if s.subscribed == s.selected && s.subscription.Some? && s.subscription.value !in s.rt.aborted then
      Resume(s, resume)
    else Post(OpenSubscription(s, resume), ChatReset(s.selected.value))
  }

  // The `finally` of updateChatSubscription, and its return.
  function FinishChat(s: State, c: Controller): State
    requires c in s.rt.chats
  {
    var current := s.subscription == Some(c);
    s.(subscription := if current then None else s.subscription,
       subscribed := if current then None else s.subscribed,
       rt := s.rt.(chats := s.rt.chats - {c},
                   resumes := s.rt.resumes + (if s.rt.chats[c].resume then 1 else 0)))
  }

  function ChatAt(s: State, c: Controller, at: ChatPoint): State
    requires c in s.rt.chats
  {
    s.(rt := s.rt.(chats := s.rt.chats[c := s.rt.chats[c].(at := at)]))
  }

  function StartRefresh(s: State): State {
    s.(generation := s.generation + 1,
       rt := s.rt.(refreshes := s.rt.refreshes[s.generation + 1 := Loading]))
  }

  // The first segment of setSelectedWorkspaceId for a changed selection.
  function StartSelect(s: State, w: Option<WorkspaceId>, refresh: Option<nat>): State {
    s.(selected := w,
       rt := s.rt.(nextTask := s.rt.nextTask + 1,
                   selects := s.rt.selects[s.rt.nextTask := SelectTask(w, refresh)]))
  }

  // The `catch` of refreshWorkspaces up to its await.
  function RefreshCatch(s: State, generation: nat): State {
    var t := DropSubscription(s.(mode := File, workspaces := [], workspacesById := map[]));
    t.(selected := None, rt := t.rt.(refreshes := t.rt.refreshes[generation := StoringError]))
  }

  // The `finally` of handleOrpcCall.
  function FinishCall(s: State, c: Controller, r: RequestId): State {
    s.(pending := if r in s.pending && s.pending[r] == c then s.pending - {r} else s.pending,
       rt := s.rt.(calls := s.rt.calls - {c}))
  }

  function Answer(s: State, c: Controller, r: RequestId, reply: Reply): State {
    FinishCall(Post(s, OrpcResponse(r, Some(c), reply)), c, r)
  }

  // The `finally` of pumpOrpcStream.
  function FinishPump(s: State, id: StreamId): State {
    s.(streams := s.streams - {id}, rt := s.rt.(pumps := s.rt.pumps - {id}))
  }

  // ---------- steps ----------

  datatype ClientOutcome = NoClient | NoProcedure | ProcedureThrew | ProcedureCalled
  datatype CallOutcome = Returned(value: string) | Iterable | Rejected

  datatype Event =
    | ResolveView | ViewDisposed | ProviderDisposed | Ready
    | RefreshRequested
    | RefreshLoaded(generation: nat, mode: Mode, workspaces: seq<Workspace>)
    | RefreshFailed(generation: nat)
    | RefreshErrorStored(generation: nat)
    | RefreshErrorStoreFailed(generation: nat)
    | RefreshResumed
    | Select(workspaceId: Option<WorkspaceId>)
    | SelectStored(task: nat)
    | SelectStoreFailed(task: nat)
    | ClientFailed(chat: Controller)
    | ClientReady(chat: Controller)
    | ChatOpened(chat: Controller)
    | ChatArrived(chat: Controller, event: string)
    | ChatEnded(chat: Controller)
    | ChatThrew(chat: Controller)
    | OrpcCall(requestId: RequestId, allowed: bool)
    | CallClient(call: Controller, client: ClientOutcome)
    | CallResult(call: Controller, result: CallOutcome)
    | OrpcCancel(requestId: RequestId)
    | StreamCancel(stream: StreamId)
    | PumpValue(stream: StreamId, value: string)
    | PumpDone(stream: StreamId)
    | PumpThrew(stream: StreamId)

  predicate Enabled(s: State, e: Event) {
    match e
    case RefreshLoaded(g, _, _) => g in s.rt.refreshes && s.rt.refreshes[g].Loading?
    case RefreshFailed(g) => g in s.rt.refreshes && s.rt.refreshes[g].Loading?
    case RefreshErrorStored(g) => g in s.rt.refreshes && s.rt.refreshes[g].StoringError?
    case RefreshErrorStoreFailed(g) => g in s.rt.refreshes && s.rt.refreshes[g].StoringError?
    case RefreshResumed => s.rt.resumes > 0
    case SelectStored(k) => k in s.rt.selects
    case SelectStoreFailed(k) => k in s.rt.selects
    case ClientFailed(c) => c in s.rt.chats && s.rt.chats[c].at.Connecting?
    case ClientReady(c) => c in s.rt.chats && s.rt.chats[c].at.Connecting?
    case ChatOpened(c) => c in s.rt.chats && s.rt.chats[c].at.Opening?
    case ChatArrived(c, _) => c in s.rt.chats && s.rt.chats[c].at.Looping?
    case ChatEnded(c) => c in s.rt.chats && (s.rt.chats[c].at.Looping? || s.rt.chats[c].at.Closing?)
    case ChatThrew(c) => c in s.rt.chats && !s.rt.chats[c].at.Connecting?
    case CallClient(c, _) => c in s.rt.calls && s.rt.calls[c].at.AwaitingClient?
    case CallResult(c, _) => c in s.rt.calls && s.rt.calls[c].at.AwaitingResult?
    case PumpValue(id, _) => id in s.rt.pumps && !s.rt.pumps[id].closing
    case PumpDone(id) => id in s.rt.pumps
    case PumpThrew(id) => id in s.rt.pumps
    case _ => true
  }

  // `replaced` notes that this webview takes the place of another under a live subscription.
  function Resolve(s: State): State {
    s.(view := Some(s.nextView), nextView := s.nextView + 1, ready := false,
       history := s.history.(replaced := s.subscription.Some?))
  }

  function HearReady(s: State): State {
    StartRefresh(Post(s.(ready := true), SetSelectedWorkspace(s.selected)))
  }

  // The writes and posts of a refresh whose generation is still the latest.
  function AcceptRefresh(s: State, g: nat, mode: Mode, ws: seq<Workspace>): State {
    var t := s.(mode := mode, workspaces := ws, workspacesById := IndexById(ws),
                history := s.history.(applied := s.history.applied + [g]));
    Post(Post(t, ConnectionStatus(mode)), Workspaces(ws))
  }

  // The end of a refresh: a selection that is gone is cleared, then the subscription follows.
  function ReviseSelection(s: State, g: nat): State {
    if s.selected.GetOr("") != "" && s.selected.value !in s.workspacesById then StartSelect(s, None, Some(g))
    else UpdateSubscription(s, false)
  }

  function DropRefresh(s: State, g: nat): State {
    s.(rt := s.rt.(refreshes := s.rt.refreshes - {g}))
  }

  // A result of getWorkspacesForSidebar: discarded unless its generation is still the latest.
  function ApplyRefresh(s: State, g: nat, mode: Mode, ws: seq<Workspace>): State {
    if g != s.generation then DropRefresh(s, g)
    else ReviseSelection(AcceptRefresh(DropRefresh(s, g), g, mode, ws), g)
  }

  function StoreRefreshError(s: State, g: nat): State {
    var t := Post(Post(DropRefresh(s, g), ConnectionStatus(s.mode)), Workspaces([]));
    Post(Post(t, SetSelectedWorkspace(None)), UiNotice)
  }

  function ChooseWorkspace(s: State, w: Option<WorkspaceId>): State {
    if w == s.selected then UpdateSubscription(Post(s, SetSelectedWorkspace(w)), false)
    else StartSelect(s, w, None)
  }

  function StoreSelection(s: State, k: nat): State
    requires k in s.rt.selects
  {
    var task := s.rt.selects[k];
    var t := Post(s.(rt := s.rt.(selects := s.rt.selects - {k})), SetSelectedWorkspace(task.workspaceId));
    UpdateSubscription(t, task.refresh.Some?)
  }

  function FailSelection(s: State, k: nat): State
    requires k in s.rt.selects
  {
    var task := s.rt.selects[k];
    var t := s.(rt := s.rt.(selects := s.rt.selects - {k}));
    if task.refresh.Some? then RefreshCatch(t, task.refresh.value) else Post(t, UiNotice)
  }

  // tryGetApiClient reported a failure. There is no check that the controller is still the current one.
  function FailClient(s: State, c: Controller): State
    requires c in s.rt.chats
  {
    FinishChat(Abort(ReportNoClient(s), {c}), c)
  }

  function ReportNoClient(s: State): State {
    Post(Post(s.(mode := File), ConnectionStatus(File)), UiNotice)
  }

  function ReceiveChat(s: State, c: Controller, event: string): State
    requires c in s.rt.chats
  {
    var w := s.rt.chats[c].workspaceId;
    if c in s.rt.aborted || s.selected != Some(w) then ChatAt(s, c, Closing)
    else Post(s, ChatEvent(w, event))
  }

  function ThrowChat(s: State, c: Controller): State
    requires c in s.rt.chats
  {
    FinishChat(if c in s.rt.aborted then s else Post(s, UiNotice), c)
  }

  // A fresh controller for a call.
  function Register(s: State, r: RequestId): State {
    var c := s.rt.nextController;
    s.(pending := s.pending[r := c],
       rt := s.rt.(nextController := c + 1, calls := s.rt.calls[c := CallTask(r, AwaitingClient)]),
       history := s.history.(accepted := s.history.accepted[c := r]))
  }

  function AcceptCall(s: State, r: RequestId, allowed: bool): State {
    if r in s.pending then Post(s, OrpcResponse(r, None, Failed))
    else
      var c := s.rt.nextController;
      if !allowed || s.mode != Api then Answer(Register(s, r), c, r, Failed) else Register(s, r)
  }

  function AdvanceCall(s: State, c: Controller, client: ClientOutcome): State
    requires c in s.rt.calls
  {
    var r := s.rt.calls[c].requestId;
    if c in s.rt.aborted then FinishCall(s, c, r)
    else if client.ProcedureCalled? then
      s.(rt := s.rt.(calls := s.rt.calls[c := CallTask(r, AwaitingResult)]))
    else Answer(s, c, r, Failed)
  }

  function OpenStream(s: State, c: Controller): State {
    var id := s.rt.nextStream;
    s.(streams := s.streams[id := c],
       rt := s.rt.(nextStream := id + 1, pumps := s.rt.pumps[id := PumpTask(c, false)]),
       history := s.history.(opener := s.history.opener[id := c],
                             produced := s.history.produced[id := []]))
  }

  function CompleteCall(s: State, c: Controller, result: CallOutcome): State
    requires c in s.rt.calls
  {
    var r := s.rt.calls[c].requestId;
    if c in s.rt.aborted then FinishCall(s, c, r)
    else match result
      case Returned(v) => Answer(s, c, r, Value(v))
      case Iterable => Answer(OpenStream(s, c), c, r, Stream(s.rt.nextStream))
      case Rejected => Answer(s, c, r, Failed)
  }

  function CancelCall(s: State, r: RequestId): State {
    if r !in s.pending then s else Abort(s, {s.pending[r]}).(pending := s.pending - {r})
  }

  function CancelStream(s: State, id: StreamId): State {
    if id !in s.streams then s else Abort(s, {s.streams[id]}).(streams := s.streams - {id})
  }

  function Yield(s: State, id: StreamId, value: string): State {
    var before := if id in s.history.produced then s.history.produced[id] else [];
    s.(history := s.history.(produced := s.history.produced[id := before + [value]]))
  }

  // The pump leaves its loop and closes the iterator.
  function StopPump(s: State, id: StreamId): State
    requires id in s.rt.pumps
  {
    s.(rt := s.rt.(pumps := s.rt.pumps[id := s.rt.pumps[id].(closing := true)]))
  }

  function PumpOne(s: State, id: StreamId, value: string): State
    requires id in s.rt.pumps
  {
    if s.rt.pumps[id].controller in s.rt.aborted then StopPump(Yield(s, id, value), id)
    else Post(Yield(s, id, value), StreamData(id, value))
  }

  function EndPump(s: State, id: StreamId, threw: bool): State
    requires id in s.rt.pumps
  {
    var m := if threw && s.rt.pumps[id].controller !in s.rt.aborted then StreamError(id) else StreamEnd(id);
    FinishPump(Post(s, m), id)
  }

  function Step(s: State, e: Event): State
    requires Enabled(s, e)
  {
    match e
    case ResolveView => Resolve(s)
    case ViewDisposed => Dispose(s.(view := None, ready := false))
    case ProviderDisposed => Dispose(s)
    case Ready => HearReady(s)
    case RefreshRequested => StartRefresh(s)
    case RefreshLoaded(g, mode, ws) => ApplyRefresh(s, g, mode, ws)
    case RefreshFailed(g) => RefreshCatch(s, g)
    case RefreshErrorStored(g) => StoreRefreshError(s, g)
    case RefreshErrorStoreFailed(g) => Post(DropRefresh(s, g), UiNotice)
    case RefreshResumed => UpdateSubscription(s.(rt := s.rt.(resumes := s.rt.resumes - 1)), false)
    case Select(w) => ChooseWorkspace(s, w)
    case SelectStored(k) => StoreSelection(s, k)
    case SelectStoreFailed(k) => FailSelection(s, k)
    case ClientFailed(c) => FailClient(s, c)
    case ClientReady(c) => ChatAt(s, c, Opening)
    case ChatOpened(c) => ChatAt(s, c, Looping)
    case ChatArrived(c, event) => ReceiveChat(s, c, event)
    case ChatEnded(c) => FinishChat(s, c)
    case ChatThrew(c) => ThrowChat(s, c)
    case OrpcCall(r, allowed) => AcceptCall(s, r, allowed)
    case CallClient(c, client) => AdvanceCall(s, c, client)
    case CallResult(c, result) => CompleteCall(s, c, result)
    case OrpcCancel(r) => CancelCall(s, r)
    case StreamCancel(id) => CancelStream(s, id)
    case PumpValue(id, v) => PumpOne(s, id, v)
    case PumpDone(id) => EndPump(s, id, false)
    case PumpThrew(id) => EndPump(s, id, true)
  }

  // ---------- runs ----------

  predicate ValidRun(s: State, es: seq<Event>)
    decreases |es|
  {
    es == [] || (Enabled(s, es[0]) && ValidRun(Step(s, es[0]), es[1..]))
  }

  function Run(s: State, es: seq<Event>): State
    requires ValidRun(s, es)
    decreases |es|
  {
    if es == [] then s else Run(Step(s, es[0]), es[1..])
  }
}
