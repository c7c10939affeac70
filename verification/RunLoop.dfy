/** The headless run: a listener that hears the events of the session, and a driver that sends one message,
    waits until the listener settles its completion, and may send a second one. */
module RunLoop {
  import opened Wrappers
  import opened RunUsage
  import opened Text

  type MessageId = string
  type Completion = nat

  datatype Outcome = Resolved | Rejected

  datatype OutputType = Nothing | TextOutput | ThinkingOutput | ToolOutput

  // What was written for the human reader, whether the program thinks its last line is open, and what kind of
  // output came last.
  datatype Screen = Screen(human: string, lineOpen: bool, last: OutputType)

  // Where the driver is: which await it is parked at, or how it ended. `second` tells the two messages apart.
  datatype Point = Subscribing | Sending(second: bool) | Waiting(second: bool) | Finished | Threw | Broken

  datatype State = State(
    budget: Option<real>,
    planMode: bool,
    readyForLive: bool,
    screen: Screen,
    thinking: string,
    active: Option<MessageId>,
    planProposed: bool,
    streamEnded: bool,
    usageHistory: seq<Usage>,
    latest: map<MessageId, Usage>,
    budgetExceeded: bool,
    handlers: Option<Completion>,
    completion: Completion,
    at: Point,
    settled: map<Completion, Outcome>,
    interrupts: nat,
    settlements: seq<Completion>,
    raised: bool,
    sent: seq<bool>)

  /** `formatted` is what the tool's own formatter returned, `generic` the fallback; `notice` is the text that
      tells the user about the budget, or about the plan being executed. */
  datatype Event =
    | CaughtUp
    | ToolStart(formatted: string, generic: string, multiline: bool)
    | ToolDelta(text: string)
    | ToolEnd(formatted: string, generic: string, multiline: bool, proposesPlan: bool)
    | StreamStart(id: MessageId)
    | StreamDelta(text: string)
    | ReasoningDelta(text: string)
    | ReasoningEnd
    | StreamFailed
    | StreamAborted
    | StreamEnd(id: MessageId, reported: Option<Usage>, notice: string)
    | SubagentUsage(usages: seq<Usage>, notice: string)
    | UsageDelta(id: MessageId, usage: Usage, notice: string)
    | OtherMessage
    | Subscribed
    | SendReturned(ok: bool)
    | Awaken(notice: string)

  function Init(budget: Option<real>, planMode: bool): State {
    State(budget, planMode, false, Screen("", false, Nothing), "", None, false, false, [], map[], false, None, 0, Subscribing,
          map[], 0, [], false, [])
  }

  // ---------- human output ----------

  predicate AtLineStart(text: string) {
    text == "" || EndsLine(text)
  }

  // The flag is set exactly when the output ends in mid-line.
  predicate Sound(sc: Screen) {
    sc.lineOpen <==> !AtLineStart(sc.human)
  }

  function WriteChunk(sc: Screen, text: string): (r: Screen)
    ensures Sound(sc) ==> Sound(r)
  {
    if text == "" then sc else sc.(human := sc.human + text, lineOpen := !EndsLine(text))
  }

  function WriteLine(sc: Screen, text: string): (r: Screen)
    ensures Sound(r) && AtLineStart(r.human) && r.last == sc.last
  {
    sc.(human := sc.human + (text + "\n"), lineOpen := false)
  }

  function CloseLine(sc: Screen): (r: Screen)
    ensures Sound(sc) ==> Sound(r) && AtLineStart(r.human)
  {
    if sc.lineOpen then WriteLine(sc, "") else sc
  }

  function EnsureSpacing(sc: Screen, next: OutputType): (r: Screen)
    ensures Sound(sc) ==> Sound(r) && (sc.last != next || next == ToolOutput ==> AtLineStart(r.human))
  {
    var changes := sc.last != next;
    var t := if changes then CloseLine(sc) else sc;
    var u := if sc.last != Nothing && changes then WriteLine(t, "") else t;
    var v := if sc.last == ToolOutput && next == ToolOutput then WriteLine(u, "") else u;
    v.(last := next)
  }

  function StartTool(sc: Screen, formatted: string, generic: string, multiline: bool): (r: Screen)
    ensures Sound(sc) ==> Sound(r)
  {
    var t := EnsureSpacing(sc, ToolOutput);
    if formatted == "" then WriteLine(t, generic)
    else if multiline then WriteLine(t, formatted)
    else WriteChunk(t, formatted)
  }

  function EndTool(sc: Screen, formatted: string, generic: string, multiline: bool): (r: Screen)
    ensures Sound(sc) ==> Sound(r)
  {
    if formatted == "" then WriteLine(CloseLine(sc), generic)
    else WriteLine(if multiline then CloseLine(sc) else sc, formatted)
  }

  // ---------- completion ----------

  function Settle(s: State, outcome: Outcome): State {
    if s.handlers.None? then s
    else
      var p := s.handlers.value;
      s.(handlers := None,
         settled := if p in s.settled then s.settled else s.settled[p := outcome],
         settlements := s.settlements + [p])
  }

  function RejectStream(s: State): State {
    Settle(s.(screen := CloseLine(s.screen)), Rejected)
  }

  function ResolveStream(s: State): State {
    Settle(s.(screen := CloseLine(s.screen), streamEnded := true, active := None), Resolved)
  }

  // ---------- the budget ----------

  function RaiseBudgetError(s: State): State {
    RejectStream(s.(raised := true))
  }

  function Exceed(s: State, notice: string, interrupt: bool): State {
    s.(budgetExceeded := true, interrupts := s.interrupts + (if interrupt then 1 else 0),
       screen := WriteLine(s.screen, "\n" + notice))
  }

  // What a budget check finds.
  datatype Verdict = Within | Excess | Unknown

  // The check of one message's usage, and of the whole history at the end of a stream: no cost although
  // there are tokens is an unknown price.
  function UsageVerdict(budget: Option<real>, usage: Option<Usage>): Verdict {
    var cost := TotalCost(usage);
    if budget.None? then Within
    else if HasTokens(usage) && cost.None? then Unknown
    else if cost.Some? && cost.value > budget.value then Excess
    else Within
  }

  // The check after a sub-agent's usage was added: here the sum itself tells that a price was unknown.
  function SubagentVerdict(budget: Option<real>, total: Option<Usage>): Verdict {
    var cost := TotalCost(total);
    if budget.None? then Within
    else if total.Some? && total.value.hasUnknownCosts then Unknown
    else if cost.Some? && cost.value > budget.value then Excess
    else Within
  }

  function Judge(s: State, verdict: Verdict, notice: string): State {
    match verdict
    case Within => s
    case Excess => Exceed(s, notice, true)
    case Unknown => RaiseBudgetError(s)
  }

  // ---------- the listener ----------

  // Whether a message contradicts the one that is active.
  predicate Conflicts(s: State, id: MessageId) {
    s.active.GetOr("") != "" && s.active.value != id
  }

  function CloseStream(s: State, id: MessageId): State {
    ResolveStream(s.(latest := s.latest - {id}))
  }

  function RecordedUsage(s: State, id: MessageId, reported: Option<Usage>): Option<Usage> {
    if reported.Some? then reported else if id in s.latest then Some(s.latest[id]) else None
  }

  function JudgeEnd(s: State, id: MessageId, verdict: Verdict, notice: string): State {
    match verdict
    case Within => CloseStream(s, id)
    case Excess => CloseStream(Exceed(s, notice, false), id)
    case Unknown => RaiseBudgetError(s)
  }

  function Record(s: State, usages: seq<Usage>): State {
    s.(usageHistory := s.usageHistory + usages)
  }

  function EndStream(s: State, id: MessageId, reported: Option<Usage>, notice: string): State {
    var usage := RecordedUsage(s, id, reported);
    if Conflicts(s, id) then RejectStream(s)
    else if usage.None? then CloseStream(s, id)
    else
      var t := Record(s, [usage.value]);
      JudgeEnd(t, id, if s.budgetExceeded then Within else UsageVerdict(s.budget, Sum(t.usageHistory)), notice)
  }

  function AddSubagents(s: State, usages: seq<Usage>, notice: string): State {
    var t := Record(s, usages);
    Judge(t, if s.budgetExceeded then Within else SubagentVerdict(s.budget, Sum(t.usageHistory)), notice)
  }

  function NoteUsage(s: State, id: MessageId, usage: Usage, notice: string): State {
    Judge(s.(latest := s.latest[id := usage]), UsageVerdict(s.budget, Some(usage)), notice)
  }

  function Hear(s: State, e: Event): State {
    if !s.readyForLive then s.(readyForLive := e.CaughtUp?)
    else match e
      case ToolStart(formatted, generic, multiline) => s.(screen := StartTool(s.screen, formatted, generic, multiline))
      case ToolDelta(text) => s.(screen := WriteChunk(s.screen, text))
      case ToolEnd(formatted, generic, multiline, proposesPlan) =>
        s.(screen := EndTool(s.screen, formatted, generic, multiline), planProposed := s.planProposed || proposesPlan)
      case StreamStart(id) => if Conflicts(s, id) then RejectStream(s) else s.(active := Some(id))
      case StreamDelta(text) => s.(screen := WriteChunk(EnsureSpacing(s.screen, TextOutput), text))
      case ReasoningDelta(text) => 
        s.(screen := EnsureSpacing(s.screen, ThinkingOutput), thinking := s.thinking + text)
      case ReasoningEnd => s.(thinking := s.thinking + "\n")
      case StreamFailed => RejectStream(s)
      case StreamAborted => if s.budgetExceeded then ResolveStream(s) else RejectStream(s)
      case StreamEnd(id, reported, notice) => EndStream(s, id, reported, notice)
      case SubagentUsage(usages, notice) => AddSubagents(s, usages, notice)
      case UsageDelta(id, usage, notice) => NoteUsage(s, id, usage, notice)
      case _ => s
  }

  // ---------- the driver ----------

  function Promise(s: State): State {
    s.(streamEnded := false, handlers := Some(s.completion + 1), completion := s.completion + 1)
  }

  function Send(s: State, second: bool): State {
    Promise(s).(at := Sending(second), sent := s.sent + [s.budgetExceeded])
  }

  // After the first message: stop when the budget is exceeded, else execute the plan if one was proposed.
  function FollowUp(s: State, notice: string): State {
    if s.budgetExceeded then s.(at := Finished)
    else
      var t := s.(planProposed := false);
      if s.planMode && !s.planProposed then t.(at := Threw)
      else if s.planProposed then Send(t.(screen := WriteLine(t.screen, notice)), true)
      else t.(at := Finished)
  }

  function Resume(s: State, notice: string): State
    requires s.at.Waiting? && s.completion in s.settled
  {
    if s.settled[s.completion] == Rejected then s.(at := Threw)
    else if !s.streamEnded then s.(at := Broken)
    else if s.at.second then s.(at := Finished)
    else FollowUp(s, notice)
  }

  predicate DriverEvent(e: Event) {
    e.Subscribed? || e.SendReturned? || e.Awaken?
  }

  predicate Ended(s: State) {
    s.at.Finished? || s.at.Threw? || s.at.Broken?
  }

  // The listener is unsubscribed when the driver ends.
  predicate Enabled(s: State, e: Event) {
    match e
    case Subscribed => s.at.Subscribing?
    case SendReturned(_) => s.at.Sending?
    case Awaken(_) => s.at.Waiting? && s.completion in s.settled
    case _ => !Ended(s)
  }

  function Step(s: State, e: Event): State
    requires Enabled(s, e)
  {
    match e
    case Subscribed => Send(s, false)
    case SendReturned(ok) => s.(at := if ok then Waiting(s.at.second) else Threw)
    case Awaken(notice) => Resume(s, notice)
    case _ => Hear(s, e)
  }

  predicate ValidRun(s: State, es: seq<Event>)
    decreases |es|
  {
    es == [] || (Enabled(s, es[0]) && ValidRun(Step(s, es[0]), es[1..]))
  }

  function Run(s: State, es: seq<Event>): State
    requires ValidRun(s, es)
    decreases |es|
  {
    if es == [] then s else Run(Step(s, es[0]), es[1..])
  }
}
