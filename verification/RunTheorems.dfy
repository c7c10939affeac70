/** What every run of the headless driver keeps: the output line, the completions and the budget. */
module RunTheorems {
  import opened Wrappers
  import opened RunUsage
  import opened RunLoop

  // ---------- the invariants ----------

  // Only the current completion can be settled, it is settled at most once, and it is resolved only by the end
  // of a stream.
  ghost predicate CompletionInv(handlers: Option<Completion>, completion: Completion, settled: map<Completion, Outcome>,
                                settlements: seq<Completion>, streamEnded: bool) {
    && (forall p :: p in settled <==> p in settlements)
    && (forall p :: p in settled ==> p <= completion)
    && (handlers.Some? ==> handlers.value == completion && completion !in settled)
    && (forall i, j :: 0 <= i < j < |settlements| ==> settlements[i] != settlements[j])
    && (completion in settled && settled[completion] == Resolved ==> streamEnded)
  }

  ghost predicate Completes(s: State) {
    CompletionInv(s.handlers, s.completion, s.settled, s.settlements, s.streamEnded)
  }

  // The known costs stay in the budget unless the run noticed that they do not, or raised an error.
  ghost predicate BudgetInv(s: State) {
    s.budget.Some? && !s.budgetExceeded && !s.raised ==> KnownCosts(s.usageHistory) <= s.budget.value
  }

  // There is a second message only after a check of the budget.
  ghost predicate DriverInv(s: State) {
    && |s.sent| <= 2
    && (|s.sent| == 2 ==> !s.sent[1])
    && (s.at.Subscribing? ==> s.sent == [])
    && ((s.at.Sending? || s.at.Waiting?) && !s.at.second ==> |s.sent| == 1)
    && !s.at.Broken?
  }

  ghost predicate Core(s: State) {
    Sound(s.screen) && Completes(s)
  }

  ghost predicate Inv(s: State) {
    Core(s) && BudgetInv(s) && DriverInv(s)
  }

  // The current completion was rejected.
  predicate Rejects(s: State) {
    s.completion in s.settled && s.settled[s.completion] == Rejected
  }

  // What the listener may do: it leaves the driver alone, settles nothing without handlers, settles only at the
  // start of a line, and rejects a pending completion when it raises a budget error.
  ghost predicate Heard(s: State, t: State) {
    && t.at == s.at && t.completion == s.completion && t.sent == s.sent && t.budget == s.budget
    && (s.budgetExceeded ==> t.budgetExceeded) && (s.raised ==> t.raised)
    && (s.handlers.None? ==> t.settled == s.settled)
    && (t.settlements != s.settlements ==> AtLineStart(t.screen.human))
    && (!s.raised && t.raised && s.handlers.Some? ==> Rejects(t))
  }

  // ---------- the pieces of the listener ----------

  lemma SettleKeeps(s: State, outcome: Outcome)
    requires Completes(s) && (outcome == Resolved ==> s.streamEnded)
    ensures Completes(Settle(s, outcome))
    ensures outcome == Rejected && s.handlers.Some? ==> Rejects(Settle(s, outcome))
  {
    var t := Settle(s, outcome);
    if s.handlers.Some? {
      assert s.handlers.value !in s.settlements;
      forall p ensures p in t.settled <==> p in t.settlements {
        assert p in t.settlements <==> p in s.settlements || p == s.handlers.value;
      }
    }
  }

  lemma RejectKeeps(s: State)
    requires Core(s)
    ensures var t := RejectStream(s);
      Core(t) && Heard(s, t) && AtLineStart(t.screen.human) && t.usageHistory == s.usageHistory
      && t.budgetExceeded == s.budgetExceeded && t.raised == s.raised && (s.handlers.Some? ==> Rejects(t))
  {
    SettleKeeps(s.(screen := CloseLine(s.screen)), Rejected);
  }

  lemma ResolveKeeps(s: State)
    requires Core(s)
    ensures var t := ResolveStream(s);
      Core(t) && Heard(s, t) && AtLineStart(t.screen.human) && t.usageHistory == s.usageHistory
      && t.budgetExceeded == s.budgetExceeded && t.raised == s.raised
  {
    SettleKeeps(s.(screen := CloseLine(s.screen), streamEnded := true, active := None), Resolved);
  }

  // What a verdict does to the budget's state.
  ghost predicate Judged(s: State, verdict: Verdict, t: State) {
    && Core(t) && Heard(s, t) && t.usageHistory == s.usageHistory
    && t.budgetExceeded == (s.budgetExceeded || verdict.Excess?)
    && t.raised == (s.raised || verdict.Unknown?)
  }

  lemma JudgeKeeps(s: State, verdict: Verdict, notice: string)
    requires Core(s)
    ensures Judged(s, verdict, Judge(s, verdict, notice))
  {
    if verdict.Unknown? { RejectKeeps(s.(raised := true)); }
  }

  lemma JudgeEndKeeps(s: State, id: MessageId, verdict: Verdict, notice: string)
    requires Core(s)
    ensures Judged(s, verdict, JudgeEnd(s, id, verdict, notice))
    ensures AtLineStart(JudgeEnd(s, id, verdict, notice).screen.human)
  {
    match verdict
    case Within => ResolveKeeps(s.(latest := s.latest - {id}));
    case Excess =>
      var t := Exceed(s, notice, false);
      ResolveKeeps(t.(latest := t.latest - {id}));
    case Unknown => RejectKeeps(s.(raised := true));
  }

  // ---------- verdicts ----------

  // The test for an unknown price at the end of a stream never fires, whatever was recorded: the sum counts
  // unknown costs as nothing. What is left is the comparison.
  lemma EndVerdict(budget: Option<real>, h: seq<Usage>)
    ensures UsageVerdict(budget, Sum(h)) ==
            if h != [] && budget.Some? && KnownCosts(h) > budget.value then Excess else Within
  {
    TotalOfSum(h);
  }

  // After a sub-agent's usage the test works: it fires if and only if some price in the history is unknown.
  lemma SubagentVerdictIs(budget: Option<real>, h: seq<Usage>)
    requires budget.Some?
    ensures SubagentVerdict(budget, Sum(h)) ==
            if exists i :: 0 <= i < |h| && Incomplete(h[i]) then Unknown
            else if h != [] && KnownCosts(h) > budget.value then Excess
            else Within
  {
    TotalOfSum(h);
  }

  // ---------- the listener ----------

  lemma EndStreamKeeps(s: State, id: MessageId, reported: Option<Usage>, notice: string)
    requires Core(s) && BudgetInv(s)
    ensures var t := EndStream(s, id, reported, notice);
      Core(t) && BudgetInv(t) && Heard(s, t) && t.raised == s.raised && AtLineStart(t.screen.human)
  {
    var usage := RecordedUsage(s, id, reported);
    if Conflicts(s, id) {
      RejectKeeps(s);
    } else if usage.None? {
      ResolveKeeps(s.(latest := s.latest - {id}));
    } else {
      var t := Record(s, [usage.value]);
      var verdict := if s.budgetExceeded then Within else UsageVerdict(s.budget, Sum(t.usageHistory));
      EndVerdict(s.budget, t.usageHistory);
      JudgeEndKeeps(t, id, verdict, notice);
    }
  }

  lemma AddSubagentsKeeps(s: State, usages: seq<Usage>, notice: string)
    requires Core(s) && BudgetInv(s)
    ensures var t := AddSubagents(s, usages, notice);
      Core(t) && BudgetInv(t) && Heard(s, t)
  {
    var t := Record(s, usages);
    var verdict := if s.budgetExceeded then Within else SubagentVerdict(s.budget, Sum(t.usageHistory));
    if s.budget.Some? { SubagentVerdictIs(s.budget, t.usageHistory); }
    JudgeKeeps(t, verdict, notice);
    if t.usageHistory == [] { assert s.usageHistory == []; }
  }

  lemma NoteUsageKeeps(s: State, id: MessageId, usage: Usage, notice: string)
    requires Core(s) && BudgetInv(s)
    ensures var t := NoteUsage(s, id, usage, notice);
      Core(t) && BudgetInv(t) && Heard(s, t)
  {
    JudgeKeeps(s.(latest := s.latest[id := usage]), UsageVerdict(s.budget, Some(usage)), notice);
  }

  predicate Prints(e: Event) {
    e.ToolStart? || e.ToolEnd? || e.ToolDelta? || e.StreamDelta? || e.ReasoningDelta? || e.ReasoningEnd?
    || e.OtherMessage? || e.CaughtUp?
  }

  ghost predicate OnlyPrints(s: State, t: State) {
    Sound(t.screen)
    && t == s.(screen := t.screen, thinking := t.thinking, planProposed := t.planProposed, readyForLive := t.readyForLive)
  }

  lemma OnlyPrintsKeeps(s: State, t: State)
    requires Core(s) && BudgetInv(s) && OnlyPrints(s, t)
    ensures Core(t) && BudgetInv(t) && Heard(s, t)
  {
  }

  lemma PrintsOnly(s: State, e: Event)
    requires Sound(s.screen) && (Prints(e) || !s.readyForLive)
    ensures OnlyPrints(s, Hear(s, e))
  {
  }

  lemma PrintKeeps(s: State, e: Event)
    requires Core(s) && BudgetInv(s) && (Prints(e) || !s.readyForLive)
    ensures var t := Hear(s, e); Core(t) && BudgetInv(t) && Heard(s, t)
  {
    PrintsOnly(s, e);
    OnlyPrintsKeeps(s, Hear(s, e));
  }

  predicate Controls(e: Event) {
    e.StreamStart? || e.StreamFailed? || e.StreamAborted?
  }

  lemma StartKeeps(s: State, e: Event)
    requires Core(s) && BudgetInv(s) && e.StreamStart? && s.readyForLive
    ensures var t := Hear(s, e); Core(t) && BudgetInv(t) && Heard(s, t)
  {
    if Conflicts(s, e.id) { RejectKeeps(s); }
  }

  lemma FailedKeeps(s: State, e: Event)
    requires Core(s) && BudgetInv(s) && e.StreamFailed? && s.readyForLive
    ensures var t := Hear(s, e); Core(t) && BudgetInv(t) && Heard(s, t)
  {
    RejectKeeps(s);
  }

  lemma AbortedKeeps(s: State, e: Event)
    requires Core(s) && BudgetInv(s) && e.StreamAborted? && s.readyForLive
    ensures var t := Hear(s, e); Core(t) && BudgetInv(t) && Heard(s, t)
  {
    if s.budgetExceeded { ResolveKeeps(s); } else { RejectKeeps(s); }
  }

  lemma ControlKeeps(s: State, e: Event)
    requires Core(s) && BudgetInv(s) && Controls(e) && s.readyForLive
    ensures var t := Hear(s, e); Core(t) && BudgetInv(t) && Heard(s, t)
  {
    if e.StreamStart? {
      StartKeeps(s, e);
    } else if e.StreamFailed? {
      FailedKeeps(s, e);
    } else {
      AbortedKeeps(s, e);
    }
  }

  lemma HearKeeps(s: State, e: Event)
    requires Core(s) && BudgetInv(s) && !DriverEvent(e)
    ensures var t := Hear(s, e); Core(t) && BudgetInv(t) && Heard(s, t)
  {
    if Prints(e) || !s.readyForLive {
      PrintKeeps(s, e);
    } else if Controls(e) {
      ControlKeeps(s, e);
    } else {
      match e
      case StreamEnd(id, reported, notice) => EndStreamKeeps(s, id, reported, notice);
      case SubagentUsage(usages, notice) => AddSubagentsKeeps(s, usages, notice);
      case UsageDelta(id, usage, notice) => NoteUsageKeeps(s, id, usage, notice);
    }
  }

  // ---------- the driver ----------

  // The budget stays, and what was found out about it is not forgotten.
  ghost predicate KnowsMore(s: State, t: State) {
    t.budget == s.budget && (s.budgetExceeded ==> t.budgetExceeded) && (s.raised ==> t.raised)
  }

  ghost predicate SettlesNothing(s: State, t: State) {
    t.settlements == s.settlements && t.settled == s.settled && t.raised == s.raised
  }

  lemma SendKeeps(s: State, second: bool)
    requires Core(s) && BudgetInv(s)
    requires |s.sent| == (if second then 1 else 0) && (second ==> !s.budgetExceeded)
    ensures Inv(Send(s, second))
  {
  }

  lemma FollowUpKeeps(s: State, notice: string)
    requires Inv(s) && s.at == Waiting(false)
    ensures Inv(FollowUp(s, notice)) && KnowsMore(s, FollowUp(s, notice)) && SettlesNothing(s, FollowUp(s, notice))
  {
    if !s.budgetExceeded && s.planProposed {
      SendKeeps(s.(planProposed := false, screen := WriteLine(s.screen, notice)), true);
    }
  }

  // In particular the driver never finds a completion resolved without the end of a stream.
  lemma ResumeKeeps(s: State, notice: string)
    requires Inv(s) && s.at.Waiting? && s.completion in s.settled
    ensures var t := Resume(s, notice); Inv(t) && KnowsMore(s, t) && SettlesNothing(s, t)
  {
    if s.settled[s.completion] == Resolved && !s.at.second { FollowUpKeeps(s, notice); }
  }

  lemma DriverKeeps(s: State, e: Event)
    requires Inv(s) && Enabled(s, e) && DriverEvent(e)
    ensures var t := Step(s, e); Inv(t) && KnowsMore(s, t) && SettlesNothing(s, t)
  {
    match e
    case Subscribed => SendKeeps(s, false);
    case SendReturned(ok) =>
    case Awaken(notice) => ResumeKeeps(s, notice);
  }

  lemma StepKeeps(s: State, e: Event)
    requires Inv(s) && Enabled(s, e)
    ensures var t := Step(s, e); Inv(t) && KnowsMore(s, t)
  {
    if DriverEvent(e) { DriverKeeps(s, e); } else { HearKeeps(s, e); }
  }

  lemma InitKeeps(budget: Option<real>, planMode: bool)
    requires budget.Some? ==> budget.value >= 0.0
    ensures Inv(Init(budget, planMode))
  {
  }

  // ---------- the theorems ----------

  // In every state of every run: the line flag tells the truth, each completion is settled at most once, the
  // driver never breaks on a completion without a stream end, the budget holds or its excess is known, that
  // knowledge is never lost, and the second message was sent within the budget.
  lemma {:induction false} RunKeeps(s: State, es: seq<Event>)
    requires Inv(s) && ValidRun(s, es)
    ensures Inv(Run(s, es)) && KnowsMore(s, Run(s, es))
    decreases |es|
  {
    if es != [] {
      StepKeeps(s, es[0]);
      RunKeeps(Step(s, es[0]), es[1..]);
    }
  }

  // From the start, for every budget the command line accepts.
  lemma RunStaysInBudget(budget: real, planMode: bool, es: seq<Event>)
    requires budget >= 0.0 && ValidRun(Init(Some(budget), planMode), es)
    ensures var s := Run(Init(Some(budget), planMode), es);
      && (!s.budgetExceeded && !s.raised ==> KnownCosts(s.usageHistory) <= budget)
      && (|s.sent| == 2 ==> !s.sent[1])
      && !s.at.Broken?
  {
    InitKeeps(Some(budget), planMode);
    RunKeeps(Init(Some(budget), planMode), es);
  }

  // Whatever settles a completion leaves the output at the start of a line.
  lemma SettlesAtLineStart(s: State, e: Event)
    requires Inv(s) && Enabled(s, e) && Step(s, e).settlements != s.settlements
    ensures AtLineStart(Step(s, e).screen.human)
  {
    if DriverEvent(e) { DriverKeeps(s, e); } else { HearKeeps(s, e); }
  }

  // ---------- blocks of output ----------

  // A tool starts on a fresh line, and so does every result of several lines; a one-line result goes on
  // where the output stands.
  lemma ToolsStartFresh(sc: Screen, formatted: string, generic: string, multiline: bool)
    requires Sound(sc)
    ensures var text := if formatted == "" then generic else formatted;
      && (exists gap :: AtLineStart(sc.human + gap) && StartTool(sc, formatted, generic, multiline).human
            == sc.human + gap + (if formatted == "" || multiline then text + "\n" else text))
      && (var gap := if sc.lineOpen && (formatted == "" || multiline) then "\n" else "";
          && (formatted == "" || multiline ==> AtLineStart(sc.human + gap))
          && EndTool(sc, formatted, generic, multiline).human == sc.human + gap + (text + "\n"))
  {
    var gap := SpacingGap(sc, ToolOutput);
    SpacingIs(sc, ToolOutput);
    assert AtLineStart(sc.human + gap);
  }

  // What is written between two blocks.
  function SpacingGap(sc: Screen, next: OutputType): string {
    if sc.last == next then (if next == ToolOutput then "\n" else "")
    else (if sc.lineOpen then "\n" else "") + (if sc.last != Nothing then "\n" else "")
  }

  // A change of the kind of output ends the open line and, except at the start, leaves a blank line. Between two
  // tools there is one only if the first had closed its line; otherwise the newline just closes it.
  lemma SpacingIs(sc: Screen, next: OutputType)
    requires Sound(sc)
    ensures EnsureSpacing(sc, next).human == sc.human + SpacingGap(sc, next)
    ensures sc.last != next || next == ToolOutput ==> AtLineStart(sc.human + SpacingGap(sc, next))
  {
  }

  // ---------- budget errors ----------

  // The current completion was rejected and the driver has yet to find out, or has.
  predicate Doomed(s: State) {
    Rejects(s) && (s.at.Sending? || s.at.Waiting? || s.at.Threw?)
  }

  lemma StepKeepsDoom(s: State, e: Event)
    requires Inv(s) && Doomed(s) && Enabled(s, e)
    ensures Doomed(Step(s, e))
  {
    if !DriverEvent(e) { HearKeeps(s, e); }
  }

  lemma {:induction false} DoomedRunThrows(s: State, es: seq<Event>)
    requires Inv(s) && Doomed(s) && ValidRun(s, es)
    ensures Doomed(Run(s, es))
    decreases |es|
  {
    if es != [] {
      StepKeepsDoom(s, es[0]);
      StepKeeps(s, es[0]);
      DoomedRunThrows(Step(s, es[0]), es[1..]);
    }
  }

  // A budget error ends the run if and only if it is raised while a completion is pending. Otherwise it rejects
  // nothing and the driver goes on as if there had been none.
  lemma BudgetErrorStopsIff(s: State, e: Event, es: seq<Event>)
    requires Inv(s) && Enabled(s, e) && !s.raised && Step(s, e).raised && (s.at.Sending? || s.at.Waiting?)
    requires ValidRun(Step(s, e), es)
    ensures s.handlers.Some? ==> Doomed(Run(Step(s, e), es))
    ensures s.handlers.None? ==> Step(s, e).settled == s.settled && Step(s, e).at == s.at
  {
    if DriverEvent(e) { DriverKeeps(s, e); } else { HearKeeps(s, e); }
    StepKeeps(s, e);
    if s.handlers.Some? { DoomedRunThrows(Step(s, e), es); }
  }

  // ---------- limits ----------

  lemma {:induction false} RunOneMore(s: State, es: seq<Event>, e: Event)
    requires ValidRun(s, es) && Enabled(Run(s, es), e)
    ensures ValidRun(s, es + [e]) && Run(s, es + [e]) == Step(Run(s, es), e)
    decreases |es|
  {
    if es == [] {
      assert ([] + [e])[1..] == [];
    } else {
      RunOneMore(Step(s, es[0]), es[1..], e);
      assert (es + [e])[1..] == es[1..] + [e];
    }
  }

  const DEAR: Usage := Usage(seq(PARTS, _ => Component(1, Some(1.0))), false, false)
  const UNPRICED: Usage := Usage(seq(PARTS, _ => Component(1, None)), false, false)

  // A message goes out although the budget is known to be exceeded, if and only if it is the first one: only the
  // second is sent after a check.
  lemma OverBudgetSendsIff(s: State, e: Event)
    requires Inv(s) && Enabled(s, e)
    ensures var t := Step(s, e);
      |t.sent| > |s.sent| && t.sent[|s.sent|] <==> e.Subscribed? && s.budgetExceeded
  {
    if DriverEvent(e) { DriverSends(s, e); } else { HearKeeps(s, e); }
  }

  lemma DriverSends(s: State, e: Event)
    requires Inv(s) && Enabled(s, e) && DriverEvent(e)
    ensures Step(s, e).sent == s.sent || Step(s, e).sent == s.sent + [s.budgetExceeded]
    ensures |Step(s, e).sent| > |s.sent| && s.budgetExceeded <==> e.Subscribed? && s.budgetExceeded
  {
    if e.Awaken? { ResumeSends(s, e.notice); }
  }

  lemma ResumeSends(s: State, notice: string)
    requires Inv(s) && s.at.Waiting? && s.completion in s.settled
    ensures s.budgetExceeded ==> Resume(s, notice).sent == s.sent
    ensures Resume(s, notice).sent == s.sent || Resume(s, notice).sent == s.sent + [s.budgetExceeded]
  {
    if s.settled[s.completion] == Resolved && s.streamEnded && !s.at.second { FollowUpSends(s, notice); }
  }

  lemma FollowUpSends(s: State, notice: string)
    ensures s.budgetExceeded ==> FollowUp(s, notice).sent == s.sent
    ensures FollowUp(s, notice).sent == s.sent || FollowUp(s, notice).sent == s.sent + [s.budgetExceeded]
  {
  }

  // Such a first message: a sub-agent had used up the budget before it.
  lemma FirstMessageIsUnchecked() returns (es: seq<Event>)
    ensures ValidRun(Init(Some(0.0), false), es) && Run(Init(Some(0.0), false), es).sent == [true]
  {
    var s0 := Init(Some(0.0), false);
    RunOneMore(s0, [], CaughtUp);
    var s1 := Run(s0, [] + [CaughtUp]);
    var e := SubagentUsage([DEAR], "");
    DearExceeds(s1);
    RunOneMore(s0, [] + [CaughtUp], e);
    assert Step(s1, e).budgetExceeded;
    RunOneMore(s0, [] + [CaughtUp] + [e], Subscribed);
    es := [] + [CaughtUp] + [e] + [Subscribed];
  }

  lemma DearExceeds(s: State)
    requires s.budget == Some(0.0) && s.usageHistory == [] && !s.budgetExceeded
    ensures AddSubagents(s, [DEAR], "") == Exceed(Record(s, [DEAR]), "", true)
  {
    DearIsDear();
    SubagentVerdictIs(Some(0.0), [DEAR]);
    assert Record(s, [DEAR]).usageHistory == [DEAR];
  }

  lemma UnpricedRaises(s: State)
    requires s.budget == Some(0.0) && s.usageHistory == [] && !s.budgetExceeded
    ensures AddSubagents(s, [UNPRICED], "") == RaiseBudgetError(Record(s, [UNPRICED]))
  {
    assert Incomplete([UNPRICED][0]) by { assert UNPRICED.parts[0].cost.None?; }
    SubagentVerdictIs(Some(0.0), [UNPRICED]);
    assert Record(s, [UNPRICED]).usageHistory == [UNPRICED];
  }

  lemma DearIsDear()
    ensures KnownCosts([DEAR]) > 0.0 && !Incomplete(DEAR)
  {
    var ps := DEAR.parts;
    assert [DEAR][..0] == [];
    assert ps[..5] == ps && ps[..5][..4] == ps[..4] && ps[..4][..3] == ps[..3] && ps[..3][..2] == ps[..2];
    assert ps[..2][..1] == ps[..1] && ps[..1][..0] == ps[..0];
    assert Costs(ps[..1]) == Costs(ps[..0]) + 1.0;
    assert Costs(ps[..2]) == Costs(ps[..1]) + 1.0;
    assert Costs(ps[..3]) == Costs(ps[..2]) + 1.0;
    assert Costs(ps[..4]) == Costs(ps[..3]) + 1.0;
  }

  // The first message was answered before the call that sends it has returned.
  lemma AnsweredRun() returns (es: seq<Event>)
    ensures ValidRun(Init(Some(0.0), false), es)
    ensures var s := Run(Init(Some(0.0), false), es);
      && s.readyForLive && s.at == Sending(false) && s.settled == map[1 := Resolved] && s.completion == 1
      && s.handlers.None? && s.streamEnded && s.usageHistory == [] && s.budget == Some(0.0)
      && !s.budgetExceeded && !s.raised && !s.planProposed && !s.planMode
  {
    var s0 := Init(Some(0.0), false);
    var end := StreamEnd("", None, "");
    es := [] + [CaughtUp];
    RunOneMore(s0, [], CaughtUp);
    RunOneMore(s0, es, Subscribed);
    es := es + [Subscribed];
    RunOneMore(s0, es, end);
    es := es + [end];
  }

  // A budget error of a sub-agent that comes after the stream ended, while the message is still being sent: the run finishes as if nothing were wrong.
  lemma LateBudgetErrorIsLost() returns (es: seq<Event>)
    ensures ValidRun(Init(Some(0.0), false), es)
    ensures var s := Run(Init(Some(0.0), false), es); s.raised && s.at == Finished && !s.budgetExceeded
  {
    var s0 := Init(Some(0.0), false);
    es := AnsweredRun();
    var s4 := Run(s0, es);
    var e := SubagentUsage([UNPRICED], "");
    UnpricedRaises(s4);
    RunOneMore(s0, es, e);
    es := es + [e];
    RunOneMore(s0, es, SendReturned(true));
    es := es + [SendReturned(true)];
    RunOneMore(s0, es, Awaken(""));
    es := es + [Awaken("")];
  }
}
