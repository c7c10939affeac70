/** What a headless run shows, and how its completions end. */
module RunOutput {
  import opened Wrappers
  import opened Text
  import opened RunUsage
  import opened RunLoop
  import opened RunTheorems

  // ---------- text ----------

  // A text without its newlines.
  function Ink(s: string): string {
    if s == "" then "" else Ink(s[..|s| - 1]) + (if s[|s| - 1] == '\n' then "" else [s[|s| - 1]])
  }

  lemma {:induction false} InkAppend(a: string, b: string)
    ensures Ink(a + b) == Ink(a) + Ink(b)
  {
    if b == "" {
      assert a + b == a;
    } else {
      InkAppend(a, b[..|b| - 1]);
      assert (a + b)[..|a + b| - 1] == a + b[..|b| - 1];
    }
  }

  lemma InkNewline()
    ensures Ink("\n") == ""
  {
  }

  lemma GapHasNoInk(sc: Screen, next: OutputType)
    ensures Ink(SpacingGap(sc, next)) == ""
  {
    InkNewline();
    InkAppend("\n", "\n");
    assert "\n" + "\n" == "\n\n";
    assert "" + "\n" == "\n" && "\n" + "" == "\n" && "" + "" == "";
  }

  // ---------- one message ----------

  // Text is written after the spacing that is due, output of a tool where the output stands, thinking on the other
  // stream.
  lemma DeltasAreWritten(s: State, text: string)
    requires s.readyForLive && Sound(s.screen)
    ensures Hear(s, StreamDelta(text)).screen.human == s.screen.human + SpacingGap(s.screen, TextOutput) + text
    ensures Hear(s, ToolDelta(text)).screen.human == s.screen.human + text
    ensures Hear(s, ReasoningDelta(text)).screen.human == s.screen.human + SpacingGap(s.screen, ThinkingOutput)
    ensures Hear(s, ReasoningDelta(text)).thinking == s.thinking + text
    ensures Hear(s, ReasoningEnd).thinking == s.thinking + "\n" && Hear(s, ReasoningEnd).screen == s.screen
  {
    SpacingIs(s.screen, TextOutput);
    SpacingIs(s.screen, ThinkingOutput);
  }

  // The kind of output that is remembered for the next spacing: tools, text and thinking, nothing else.
  lemma LastOutputIs(s: State, e: Event)
    requires s.readyForLive && Prints(e)
    ensures Hear(s, e).screen.last ==
            if e.ToolStart? then ToolOutput
            else if e.StreamDelta? then TextOutput
            else if e.ReasoningDelta? then ThinkingOutput
            else s.screen.last
  {
    match e
    case ToolStart(formatted, generic, multiline) => StartToolLast(s.screen, formatted, generic, multiline);
    case ToolEnd(formatted, generic, multiline, _) => assert EndTool(s.screen, formatted, generic, multiline).last == s.screen.last;
    case ToolDelta(text) => assert WriteChunk(s.screen, text).last == s.screen.last;
    case StreamDelta(text) => StartTextLast(s.screen, text);
    case ReasoningDelta(_) => assert EnsureSpacing(s.screen, ThinkingOutput).last == ThinkingOutput;
    case ReasoningEnd =>
    case OtherMessage =>
    case CaughtUp =>
  }

  lemma StartToolLast(sc: Screen, formatted: string, generic: string, multiline: bool)
    ensures StartTool(sc, formatted, generic, multiline).last == ToolOutput
  {
    assert EnsureSpacing(sc, ToolOutput).last == ToolOutput;
  }

  lemma StartTextLast(sc: Screen, text: string)
    ensures WriteChunk(EnsureSpacing(sc, TextOutput), text).last == TextOutput
  {
    assert EnsureSpacing(sc, TextOutput).last == TextOutput;
  }

  // Whether a message makes the run warn that the budget is exceeded.
  predicate Warns(s: State, e: Event) {
    && s.readyForLive && s.budget.Some?
    && match e
       case UsageDelta(_, usage, _) => KnownCosts([usage]) > s.budget.value && Costed(usage)
       case SubagentUsage(usages, _) =>
         && !s.budgetExceeded && s.usageHistory + usages != [] && KnownCosts(s.usageHistory + usages) > s.budget.value
         && forall i :: 0 <= i < |s.usageHistory + usages| ==> !Incomplete((s.usageHistory + usages)[i])
       case StreamEnd(id, reported, _) =>
         var usage := if reported.Some? then reported else if id in s.latest then Some(s.latest[id]) else None;
         && !Conflicts(s, id) && !s.budgetExceeded && usage.Some?
         && KnownCosts(s.usageHistory + [usage.value]) > s.budget.value
       case _ => false
  }

  // Some price in the usage is known.
  predicate Costed(u: Usage) {
    exists k :: 0 <= k < PARTS && u.parts[k].cost.Some?
  }

  function Notice(e: Event): string {
    match e
    case UsageDelta(_, _, notice) => notice
    case SubagentUsage(_, notice) => notice
    case StreamEnd(_, _, notice) => notice
    case _ => ""
  }

  // What a message adds to the human output, apart from newlines.
  function Said(s: State, e: Event): string {
    if !s.readyForLive then ""
    else match e
      case ToolStart(formatted, generic, _) => Ink(if formatted == "" then generic else formatted)
      case ToolDelta(text) => Ink(text)
      case ToolEnd(formatted, generic, _, _) => Ink(if formatted == "" then generic else formatted)
      case StreamDelta(text) => Ink(text)
      case _ => if Warns(s, e) then Ink(Notice(e)) else ""
  }

  // What it adds to the thinking.
  function Thought(s: State, e: Event): string {
    if !s.readyForLive then ""
    else match e
      case ReasoningDelta(text) => text
      case ReasoningEnd => "\n"
      case _ => ""
  }

  lemma WriteLineInk(sc: Screen, text: string)
    ensures Ink(WriteLine(sc, text).human) == Ink(sc.human) + Ink(text)
  {
    InkAppend(sc.human, text + "\n");
    InkAppend(text, "\n");
    InkNewline();
  }

  lemma WriteChunkInk(sc: Screen, text: string)
    ensures Ink(WriteChunk(sc, text).human) == Ink(sc.human) + Ink(text)
  {
    InkAppend(sc.human, text);
  }

  lemma CloseLineInk(sc: Screen)
    ensures Ink(CloseLine(sc).human) == Ink(sc.human)
  {
    WriteLineInk(sc, "");
  }

  lemma SpacingInk(sc: Screen, next: OutputType)
    requires Sound(sc)
    ensures Ink(EnsureSpacing(sc, next).human) == Ink(sc.human)
  {
    SpacingIs(sc, next);
    GapHasNoInk(sc, next);
    InkAppend(sc.human, SpacingGap(sc, next));
  }

  lemma ToolInk(sc: Screen, formatted: string, generic: string, multiline: bool)
    requires Sound(sc)
    ensures var text := if formatted == "" then generic else formatted;
      && Ink(StartTool(sc, formatted, generic, multiline).human) == Ink(sc.human) + Ink(text)
      && Ink(EndTool(sc, formatted, generic, multiline).human) == Ink(sc.human) + Ink(text)
  {
    var t, text := EnsureSpacing(sc, ToolOutput), if formatted == "" then generic else formatted;
    SpacingInk(sc, ToolOutput);
    WriteLineInk(t, text);
    WriteChunkInk(t, text);
    CloseLineInk(sc);
    WriteLineInk(CloseLine(sc), text);
    WriteLineInk(sc, text);
  }

  // The screen shows some more text.
  predicate Adds(a: Screen, b: Screen, text: string) {
    Ink(b.human) == Ink(a.human) + Ink(text) && b.last == a.last
  }

  lemma AddsNothing(sc: Screen)
    ensures Adds(sc, sc, "") && Adds(sc, CloseLine(sc), "")
  {
    assert Ink(sc.human) + Ink("") == Ink(sc.human);
    CloseLineInk(sc);
  }

  lemma AddsThen(a: Screen, b: Screen, c: Screen, text: string)
    requires Adds(a, b, text) && Adds(b, c, "")
    ensures Adds(a, c, text)
  {
    assert Ink(b.human) + Ink("") == Ink(b.human);
  }

  lemma ExceedAdds(s: State, notice: string, interrupt: bool)
    ensures Adds(s.screen, Exceed(s, notice, interrupt).screen, notice)
  {
    WriteLineInk(s.screen, "\n" + notice);
    InkAppend("\n", notice);
    InkNewline();
  }

  // ---------- the budget ----------

  lemma DeltaVerdict(budget: Option<real>, usage: Usage)
    ensures UsageVerdict(budget, Some(usage)).Excess? <==>
            budget.Some? && Costed(usage) && KnownCosts([usage]) > budget.value
    ensures UsageVerdict(budget, Some(usage)).Unknown? <==>
            budget.Some? && !Costed(usage) && Tokens(usage.parts) > 0
  {
    assert [usage][..0] == [];
  }

  // What a judgement does: a warning, an interrupt, or a rejection.
  ghost predicate Judges(s: State, t: State, excess: bool, unknown: bool, interrupt: bool, notice: string) {
    Adds(s.screen, t.screen, if excess then notice else "") && Counts(s, t, excess, unknown, interrupt)
  }

  predicate Counts(s: State, t: State, excess: bool, unknown: bool, interrupt: bool) {
    && t.interrupts == s.interrupts + (if excess && interrupt then 1 else 0)
    && t.budgetExceeded == (s.budgetExceeded || excess)
    && t.raised == (s.raised || unknown)
    && t.usageHistory == s.usageHistory && t.thinking == s.thinking && t.planProposed == s.planProposed
  }

  lemma SettleTouches(u: State, outcome: Outcome)
    ensures var t := Settle(u, outcome); t == u.(handlers := t.handlers, settled := t.settled, settlements := t.settlements)
  {
  }

  lemma SettleScreen(s: State)
    ensures RejectStream(s).screen == CloseLine(s.screen) && RejectStream(s).thinking == s.thinking
    ensures ResolveStream(s).screen == CloseLine(s.screen) && ResolveStream(s).thinking == s.thinking
  {
    SettleTouches(s.(screen := CloseLine(s.screen)), Rejected);
    SettleTouches(s.(screen := CloseLine(s.screen), streamEnded := true, active := None), Resolved);
  }

  lemma JudgeCounts(s: State, verdict: Verdict, notice: string)
    ensures Counts(s, Judge(s, verdict, notice), verdict.Excess?, verdict.Unknown?, true)
    ensures Judge(s, verdict, notice).latest == s.latest
  {
  }

  lemma JudgeAdds(s: State, verdict: Verdict, notice: string)
    ensures Adds(s.screen, Judge(s, verdict, notice).screen, if verdict.Excess? then notice else "")
  {
    match verdict
    case Within => AddsNothing(s.screen);
    case Excess => ExceedAdds(s, notice, true);
    case Unknown =>
      AddsNothing(s.screen);
      SettleScreen(s.(raised := true));
  }

  lemma JudgeIs(s: State, verdict: Verdict, notice: string)
    ensures Judges(s, Judge(s, verdict, notice), verdict.Excess?, verdict.Unknown?, true, notice)
    ensures Judge(s, verdict, notice).latest == s.latest
  {
    JudgeAdds(s, verdict, notice);
    JudgeCounts(s, verdict, notice);
  }

  // Usage of the running message: remembered, and judged by itself.
  lemma DeltaIsJudged(s: State, e: Event)
    requires e.UsageDelta? && s.readyForLive
    ensures Judges(s, Hear(s, e), Warns(s, e), s.budget.Some? && !Costed(e.usage) && Tokens(e.usage.parts) > 0, true, e.notice)
    ensures Hear(s, e).latest == s.latest[e.id := e.usage]
  {
    DeltaVerdict(s.budget, e.usage);
    JudgeIs(s.(latest := s.latest[e.id := e.usage]), UsageVerdict(s.budget, Some(e.usage)), e.notice);
  }

  // Usage of sub-agents: recorded, and judged together with everything before.
  lemma SubagentsAreJudged(s: State, e: Event)
    requires e.SubagentUsage? && s.readyForLive
    ensures var all := s.usageHistory + e.usages;
      var unknown := s.budget.Some? && !s.budgetExceeded && exists i :: 0 <= i < |all| && Incomplete(all[i]);
      Judges(s.(usageHistory := all), Hear(s, e), Warns(s, e), unknown, true, e.notice)
    ensures Hear(s, e).latest == s.latest
  {
    var u := Record(s, e.usages);
    if s.budget.Some? { SubagentVerdictIs(s.budget, u.usageHistory); }
    JudgeIs(u, if s.budgetExceeded then Within else SubagentVerdict(s.budget, Sum(u.usageHistory)), e.notice);
  }

  // The usage of a message that ended: the one it reports, or else the last one that was noted for it.
  function EndUsage(s: State, e: Event): Option<Usage>
    requires e.StreamEnd?
  {
    if e.reported.Some? then e.reported else if e.id in s.latest then Some(s.latest[e.id]) else None
  }

  // The end of another message than the active one rejects the run and records nothing. Otherwise the usage is
  // recorded and judged with everything before, an excess is warned of, and the run's completion is resolved.
  lemma EndIsJudged(s: State, e: Event)
    requires e.StreamEnd? && s.readyForLive
    ensures var t := Hear(s, e); var usage := EndUsage(s, e);
      if Conflicts(s, e.id) then
        Judges(s, t, false, false, false, "") && t.latest == s.latest && t.streamEnded == s.streamEnded
      else
        && Judges(s.(usageHistory := s.usageHistory + (if usage.Some? then [usage.value] else [])), t, Warns(s, e), false, false, e.notice)
        && t.latest == s.latest - {e.id} && t.streamEnded && t.active.None?
  {
    if Conflicts(s, e.id) {
      ConflictingEnd(s, e);
    } else if EndUsage(s, e).Some? {
      RecordedEnd(s, e, EndUsage(s, e).value);
    } else {
      UnrecordedEnd(s, e);
    }
  }

  lemma ConflictingEnd(s: State, e: Event)
    requires e.StreamEnd? && s.readyForLive && Conflicts(s, e.id)
    ensures var t := EndStream(s, e.id, e.reported, e.notice);
      Judges(s, t, false, false, false, "") && t.latest == s.latest && t.streamEnded == s.streamEnded
  {
    AddsNothing(s.screen);
    RejectCounts(s);
  }

  lemma RejectCounts(s: State)
    ensures var t := RejectStream(s);
      Counts(s, t, false, false, false) && t.latest == s.latest && t.streamEnded == s.streamEnded && t.screen == CloseLine(s.screen)
  {
    SettleTouches(s.(screen := CloseLine(s.screen)), Rejected);
  }

  lemma UnrecordedEnd(s: State, e: Event)
    requires e.StreamEnd? && s.readyForLive && !Conflicts(s, e.id) && EndUsage(s, e).None?
    ensures var t := EndStream(s, e.id, e.reported, e.notice);
      && Judges(s.(usageHistory := s.usageHistory + []), t, false, false, false, e.notice)
      && t.latest == s.latest - {e.id} && t.streamEnded && t.active.None?
  {
    JudgedEnd(s, e.id, false, e.notice);
    assert s.usageHistory + [] == s.usageHistory;
  }

  lemma RecordedEnd(s: State, e: Event, usage: Usage)
    requires e.StreamEnd? && s.readyForLive && !Conflicts(s, e.id) && EndUsage(s, e) == Some(usage)
    ensures var t := EndStream(s, e.id, e.reported, e.notice);
      && Judges(s.(usageHistory := s.usageHistory + [usage]), t, Warns(s, e), false, false, e.notice)
      && t.latest == s.latest - {e.id} && t.streamEnded && t.active.None?
  {
    var u := Record(s, [usage]);
    EndVerdict(s.budget, u.usageHistory);
    JudgedEnd(u, e.id, Warns(s, e), e.notice);
  }

  lemma JudgedEnd(s: State, id: MessageId, excess: bool, notice: string)
    ensures var t := CloseStream(if excess then Exceed(s, notice, false) else s, id);
      Judges(s, t, excess, false, false, notice) && t.latest == s.latest - {id} && t.streamEnded && t.active.None?
  {
    var u := if excess then Exceed(s, notice, false) else s;
    if excess { ExceedAdds(s, notice, false); } else { AddsNothing(s.screen); }
    ClosedAdds(s.screen, u, id, if excess then notice else "");
    ClosedCounts(u, id);
  }

  lemma ClosedAdds(sc: Screen, u: State, id: MessageId, text: string)
    requires Adds(sc, u.screen, text)
    ensures Adds(sc, CloseStream(u, id).screen, text)
  {
    SettleScreen(u.(latest := u.latest - {id}));
    AddsNothing(u.screen);
    AddsThen(sc, u.screen, CloseLine(u.screen), text);
  }

  lemma SettleKeepsCounts(u: State, outcome: Outcome)
    ensures var t := Settle(u, outcome);
      Counts(u, t, false, false, false) && t.latest == u.latest && t.streamEnded == u.streamEnded && t.active == u.active
  {
    SettleTouches(u, outcome);
  }

  lemma ClosedCounts(u: State, id: MessageId)
    ensures var t := CloseStream(u, id);
      Counts(u, t, false, false, false) && t.latest == u.latest - {id} && t.streamEnded && t.active.None?
  {
    SettleKeepsCounts(u.(latest := u.latest - {id}, screen := CloseLine(u.screen), streamEnded := true, active := None), Resolved);
  }

  // ---------- completions ----------

  // How a message settles the pending completion, if it does.
  function Settles(s: State, e: Event): Option<Outcome> {
    if !s.readyForLive then None
    else match e
      case StreamStart(id) => if Conflicts(s, id) then Some(Rejected) else None
      case StreamFailed => Some(Rejected)
      case StreamAborted => Some(if s.budgetExceeded then Resolved else Rejected)
      case StreamEnd(id, _, _) => Some(if Conflicts(s, id) then Rejected else Resolved)
      case SubagentUsage(usages, _) =>
        if s.budget.Some? && !s.budgetExceeded && exists i :: 0 <= i < |s.usageHistory + usages| && Incomplete((s.usageHistory + usages)[i])
        then Some(Rejected) else None
      case UsageDelta(_, usage, _) => if s.budget.Some? && !Costed(usage) && Tokens(usage.parts) > 0 then Some(Rejected) else None
      case _ => None
  }

  ghost predicate SettledAs(s: State, t: State, outcome: Option<Outcome>) {
    if outcome.None? || s.handlers.None? then t.settled == s.settled && t.handlers == s.handlers
    else t.settled == s.settled[s.handlers.value := outcome.value] && t.handlers.None?
  }

  lemma SettleIs(s: State, u: State, outcome: Outcome)
    requires Completes(s) && u.handlers == s.handlers && u.settled == s.settled
    ensures SettledAs(s, Settle(u, outcome), Some(outcome))
  {
  }

  lemma RejectIs(s: State, u: State)
    requires Completes(s) && u.handlers == s.handlers && u.settled == s.settled
    ensures SettledAs(s, RejectStream(u), Some(Rejected))
  {
    SettleIs(s, u.(screen := CloseLine(u.screen)), Rejected);
  }

  lemma ResolveIs(s: State, u: State)
    requires Completes(s) && u.handlers == s.handlers && u.settled == s.settled
    ensures SettledAs(s, ResolveStream(u), Some(Resolved))
  {
    SettleIs(s, u.(screen := CloseLine(u.screen), streamEnded := true, active := None), Resolved);
  }

  lemma ControlSettles(s: State, e: Event)
    requires Completes(s) && s.readyForLive && Controls(e)
    ensures SettledAs(s, Hear(s, e), Settles(s, e))
  {
    RejectIs(s, s);
    ResolveIs(s, s);
  }

  lemma DeltaSettles(s: State, e: Event)
    requires Completes(s) && s.readyForLive && e.UsageDelta?
    ensures SettledAs(s, Hear(s, e), Settles(s, e))
  {
    DeltaVerdict(s.budget, e.usage);
    RejectIs(s, s.(latest := s.latest[e.id := e.usage], raised := true));
  }

  lemma SubagentsSettle(s: State, e: Event)
    requires Completes(s) && s.readyForLive && e.SubagentUsage?
    ensures SettledAs(s, Hear(s, e), Settles(s, e))
  {
    var u := Record(s, e.usages);
    if s.budget.Some? { SubagentVerdictIs(s.budget, u.usageHistory); }
    RejectIs(s, u.(raised := true));
  }

  lemma EndSettles(s: State, e: Event)
    requires Completes(s) && s.readyForLive && e.StreamEnd?
    ensures SettledAs(s, EndStream(s, e.id, e.reported, e.notice), Settles(s, e))
  {
    var usage := EndUsage(s, e);
    if Conflicts(s, e.id) {
      RejectIs(s, s);
    } else if usage.None? {
      ResolveIs(s, s.(latest := s.latest - {e.id}));
    } else {
      RecordedEndSettles(s, e, usage.value);
    }
  }

  lemma RecordedEndSettles(s: State, e: Event, usage: Usage)
    requires Completes(s) && e.StreamEnd? && s.readyForLive && !Conflicts(s, e.id) && EndUsage(s, e) == Some(usage)
    ensures SettledAs(s, EndStream(s, e.id, e.reported, e.notice), Some(Resolved))
  {
    var u := Record(s, [usage]);
    EndVerdict(s.budget, u.usageHistory);
    if Warns(s, e) {
      ResolveIs(s, Exceed(u, e.notice, false).(latest := u.latest - {e.id}));
    } else {
      ResolveIs(s, u.(latest := u.latest - {e.id}));
    }
  }

  // A pending completion is rejected by a conflicting message, a failure, an abort within the budget, or an unknown
  // price; it is resolved by the end of its message, or by an abort over the budget; by nothing else.
  lemma MessagesSettle(s: State, e: Event)
    requires Completes(s) && !DriverEvent(e)
    ensures SettledAs(s, Hear(s, e), Settles(s, e))
  {
    if Prints(e) || !s.readyForLive {
      PrintsSettleNothing(s, e);
    } else if Controls(e) {
      ControlSettles(s, e);
    } else {
      UsageSettles(s, e);
    }
  }

  lemma PrintsSettleNothing(s: State, e: Event)
    requires Prints(e) || !s.readyForLive
    ensures SettledAs(s, Hear(s, e), Settles(s, e))
  {
  }

  lemma UsageSettles(s: State, e: Event)
    requires Completes(s) && s.readyForLive && (e.UsageDelta? || e.SubagentUsage? || e.StreamEnd?)
    ensures SettledAs(s, Hear(s, e), Settles(s, e))
  {
    match e
    case UsageDelta(_, _, _) => DeltaSettles(s, e);
    case SubagentUsage(_, _) => SubagentsSettle(s, e);
    case StreamEnd(_, _, _) => EndSettles(s, e);
  }

  // The active message is the one that started last without a conflict, until it ends or is aborted over the budget.
  lemma ActiveIs(s: State, e: Event)
    requires s.readyForLive && Controls(e)
    ensures Hear(s, e).active ==
            if e.StreamStart? && !Conflicts(s, e.id) then Some(e.id)
            else if e.StreamAborted? && s.budgetExceeded then None
            else s.active
  {
    match e
    case StreamStart(id) => SettleTouches(s.(screen := CloseLine(s.screen)), Rejected);
    case StreamFailed => SettleTouches(s.(screen := CloseLine(s.screen)), Rejected);
    case StreamAborted =>
      SettleTouches(s.(screen := CloseLine(s.screen)), Rejected);
      SettleTouches(s.(screen := CloseLine(s.screen), streamEnded := true, active := None), Resolved);
  }

  // A message conflicts with another one that is active and has a name.
  lemma ConflictIs(s: State, id: MessageId)
    ensures Conflicts(s, id) <==> exists other :: s.active == Some(other) && other != "" && other != id
  {
  }

  // Before anything is heard, nothing is shown, sent, recorded or settled.
  lemma NothingAtFirst(budget: Option<real>, planMode: bool)
    ensures var s := Init(budget, planMode);
      && s.budget == budget && s.planMode == planMode && !s.readyForLive && s.at == Subscribing
      && s.screen.human == "" && s.screen.last == Nothing && s.thinking == "" && s.active.None?
      && s.sent == [] && s.usageHistory == [] && s.latest == map[] && s.settled == map[] && s.handlers.None?
      && !s.budgetExceeded && !s.raised && !s.planProposed && !s.streamEnded && s.interrupts == 0
  {
  }

  // A plan counts as proposed as soon as one tool has proposed it.
  lemma PlanIsProposed(s: State, e: Event)
    requires Prints(e)
    ensures Hear(s, e).planProposed <==> s.planProposed || (s.readyForLive && e.ToolEnd? && e.proposesPlan)
    ensures Hear(s, e).readyForLive <==> s.readyForLive || e.CaughtUp?
  {
    match e
    case ToolStart(formatted, generic, multiline) =>
      assert s.readyForLive ==> Hear(s, e) == s.(screen := StartTool(s.screen, formatted, generic, multiline));
    case ToolEnd(_, _, _, _) =>
    case ToolDelta(text) => assert s.readyForLive ==> Hear(s, e) == s.(screen := WriteChunk(s.screen, text));
    case StreamDelta(_) =>
    case ReasoningDelta(_) =>
    case ReasoningEnd =>
    case OtherMessage =>
    case CaughtUp =>
  }

  // ---------- the driver ----------

  // The first message goes out with a completion of its own, and is awaited once it was accepted.
  lemma MessageIsSent(s: State, ok: bool)
    ensures Enabled(s, Subscribed) ==>
      var t := Step(s, Subscribed);
      && t.at == Sending(false) && t.sent == s.sent + [s.budgetExceeded] && !t.streamEnded
      && t.handlers == Some(t.completion) && t.completion == s.completion + 1 && t.screen == s.screen
    ensures Enabled(s, SendReturned(ok)) ==>
      Step(s, SendReturned(ok)) == s.(at := if ok then Waiting(s.at.second) else Threw)
  {
  }

  // A rejected completion throws. After the first message an exceeded budget ends the run; otherwise a proposed plan is
  // executed by a second message, and plan mode without one throws.
  lemma DriverGoesOn(s: State, notice: string)
    requires Inv(s) && Enabled(s, Awaken(notice))
    ensures var t := Step(s, Awaken(notice)); var rejected := s.settled[s.completion] == Rejected;
      && (t.at.Threw? <==> rejected || (!s.at.second && !s.budgetExceeded && s.planMode && !s.planProposed))
      && (t.at == Sending(true) <==> !rejected && !s.at.second && !s.budgetExceeded && s.planProposed)
      && (t.at.Finished? <==> !rejected && (s.at.second || s.budgetExceeded || (!s.planMode && !s.planProposed)))
      && (t.at == Sending(true) ==>
            && t.sent == s.sent + [false] && t.handlers == Some(t.completion) && t.completion == s.completion + 1
            && !t.streamEnded && !t.planProposed && t.screen.human == s.screen.human + notice + "\n")
      && (t.at != Sending(true) ==> t.screen == s.screen && t.sent == s.sent)
  {
    ResumeKeeps(s, notice);
    assert s.screen.human + (notice + "\n") == s.screen.human + notice + "\n";
  }

  // ---------- over whole runs ----------

  // What the driver adds: the notice that a plan is being executed.
  function SaidBy(s: State, e: Event): string
    requires Enabled(s, e)
  {
    if e.Awaken? then (if Step(s, e).at == Sending(true) then Ink(e.notice) else "")
    else if DriverEvent(e) then ""
    else Said(s, e)
  }

  function ThoughtBy(s: State, e: Event): string {
    if DriverEvent(e) then "" else Thought(s, e)
  }

  lemma BudgetSaid(s: State, e: Event)
    requires s.readyForLive && (e.UsageDelta? || e.SubagentUsage? || e.StreamEnd?)
    ensures Ink(Hear(s, e).screen.human) == Ink(s.screen.human) + Said(s, e) && Hear(s, e).thinking == s.thinking
  {
    match e
    case UsageDelta(_, _, _) => DeltaIsJudged(s, e);
    case SubagentUsage(_, _) => SubagentsAreJudged(s, e);
    case StreamEnd(_, _, _) => EndIsJudged(s, e);
  }

  lemma ControlScreen(s: State, e: Event)
    requires s.readyForLive && Controls(e)
    ensures Hear(s, e).screen == s.screen || Hear(s, e).screen == CloseLine(s.screen)
    ensures Hear(s, e).thinking == s.thinking
  {
    match e
    case StreamStart(id) => if Conflicts(s, id) { SettleScreen(s); }
    case StreamFailed => SettleScreen(s);
    case StreamAborted => SettleScreen(s);
  }

  lemma ControlSaid(s: State, e: Event)
    requires s.readyForLive && Controls(e)
    ensures Ink(Hear(s, e).screen.human) == Ink(s.screen.human) && Hear(s, e).thinking == s.thinking
  {
    ControlScreen(s, e);
    CloseLineInk(s.screen);
  }

  lemma PrintSaid(s: State, e: Event)
    requires s.readyForLive && Sound(s.screen) && Prints(e)
    ensures Ink(Hear(s, e).screen.human) == Ink(s.screen.human) + Said(s, e)
    ensures Hear(s, e).thinking == s.thinking + Thought(s, e)
  {
    match e
    case ToolStart(formatted, generic, multiline) => ToolInk(s.screen, formatted, generic, multiline);
    case ToolEnd(formatted, generic, multiline, _) => ToolInk(s.screen, formatted, generic, multiline);
    case ToolDelta(text) => WriteChunkInk(s.screen, text);
    case StreamDelta(text) =>
      SpacingInk(s.screen, TextOutput);
      WriteChunkInk(EnsureSpacing(s.screen, TextOutput), text);
    case ReasoningDelta(text) => SpacingInk(s.screen, ThinkingOutput);
    case ReasoningEnd =>
    case OtherMessage =>
    case CaughtUp =>
  }

  lemma DriverSaid(s: State, e: Event)
    requires Inv(s) && Enabled(s, e) && DriverEvent(e)
    ensures Ink(Step(s, e).screen.human) == Ink(s.screen.human) + SaidBy(s, e) && Step(s, e).thinking == s.thinking
  {
    if e.Awaken? {
      DriverGoesOn(s, e.notice);
      InkAppend(s.screen.human + e.notice, "\n");
      InkAppend(s.screen.human, e.notice);
      InkNewline();
    }
  }

  lemma StepSaid(s: State, e: Event)
    requires Inv(s) && Enabled(s, e)
    ensures Ink(Step(s, e).screen.human) == Ink(s.screen.human) + SaidBy(s, e)
    ensures Step(s, e).thinking == s.thinking + ThoughtBy(s, e)
  {
    if DriverEvent(e) {
      DriverSaid(s, e);
    } else if s.readyForLive {
      if Prints(e) {
        PrintSaid(s, e);
      } else if Controls(e) {
        ControlSaid(s, e);
      } else {
        BudgetSaid(s, e);
      }
    }
  }

  function AllSaid(s: State, es: seq<Event>): string
    requires ValidRun(s, es)
    decreases |es|
  {
    if es == [] then "" else SaidBy(s, es[0]) + AllSaid(Step(s, es[0]), es[1..])
  }

  function AllThought(s: State, es: seq<Event>): string
    requires ValidRun(s, es)
    decreases |es|
  {
    if es == [] then "" else ThoughtBy(s, es[0]) + AllThought(Step(s, es[0]), es[1..])
  }

  lemma {:induction false} RunSaid(s: State, es: seq<Event>)
    requires Inv(s) && ValidRun(s, es)
    ensures Ink(Run(s, es).screen.human) == Ink(s.screen.human) + AllSaid(s, es)
    ensures Run(s, es).thinking == s.thinking + AllThought(s, es)
    decreases |es|
  {
    if es != [] {
      var t := Step(s, es[0]);
      StepSaid(s, es[0]);
      StepKeeps(s, es[0]);
      RunSaid(t, es[1..]);
      Chain(Ink(s.screen.human), SaidBy(s, es[0]), AllSaid(t, es[1..]));
      Chain(s.thinking, ThoughtBy(s, es[0]), AllThought(t, es[1..]));
    }
  }

  lemma Chain(a: string, b: string, c: string)
    ensures (a + b) + c == a + (b + c)
  {
  }

  // Apart from newlines, the output of a run is everything that was said, in order, and nothing else; the thinking is
  // exactly everything that was thought.
  lemma EverythingIsShown(budget: Option<real>, planMode: bool, es: seq<Event>)
    requires (budget.Some? ==> budget.value >= 0.0) && ValidRun(Init(budget, planMode), es)
    ensures var s := Run(Init(budget, planMode), es);
      Ink(s.screen.human) == AllSaid(Init(budget, planMode), es) && s.thinking == AllThought(Init(budget, planMode), es)
  {
    InitKeeps(budget, planMode);
    RunSaid(Init(budget, planMode), es);
    assert "" + AllSaid(Init(budget, planMode), es) == AllSaid(Init(budget, planMode), es);
    assert "" + AllThought(Init(budget, planMode), es) == AllThought(Init(budget, planMode), es);
  }
}
