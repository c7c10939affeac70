/** The headless run in the program's own form: the variables the listener and the driver share, and the
    functions that assign them. Each is proved to take the step of `RunLoop`. */
module RunSession {
  import opened Wrappers
  import opened RunUsage
  import opened RunLoop
  import opened Text

  class RunSession {
    const budget: Option<real>
    const planMode: bool
    var readyForLive: bool
    var human: string
    var thinking: string
    var streamLineOpen: bool
    var lastOutputType: OutputType
    var activeMessageId: Option<MessageId>
    var planProposed: bool
    var streamEnded: bool
    var usageHistory: seq<Usage>
    var latestUsageDelta: map<MessageId, Usage>
    var budgetExceeded: bool
    var completionHandlers: Option<Completion>
    var completionPromise: Completion
    var at: Point
    var settled: map<Completion, Outcome>
    var interrupts: nat
    ghost var settlements: seq<Completion>
    ghost var raised: bool
    ghost var sent: seq<bool>

    function TheScreen(): Screen
      reads this
    {
      Screen(human, streamLineOpen, lastOutputType)
    }

    ghost function Model(): State
      reads this
    {
      State(budget, planMode, readyForLive, TheScreen(), thinking, activeMessageId, planProposed, streamEnded,
            usageHistory, latestUsageDelta, budgetExceeded, completionHandlers, completionPromise, at, settled,
            interrupts, settlements, raised, sent)
    }

    constructor (maximum: Option<real>, plan: bool)
      ensures Model() == Init(maximum, plan)
    {
      budget, planMode, readyForLive := maximum, plan, false;
      human, thinking, streamLineOpen, lastOutputType := "", "", false, Nothing;
      activeMessageId, planProposed, streamEnded, usageHistory, latestUsageDelta := None, false, false, [], map[];
      budgetExceeded, completionHandlers, completionPromise, at := false, None, 0, Subscribing;
      settled, interrupts, settlements, raised, sent := map[], 0, [], false, [];
    }

    // ---------- human output ----------

    method WriteHumanChunk(text: string)
      modifies this`human, this`streamLineOpen
      ensures TheScreen() == WriteChunk(old(TheScreen()), text)
    {
      if |text| == 0 { return; }
      human := human + text;
      streamLineOpen := !EndsLine(text);
    }

    method WriteHumanLineClosed(text: string)
      modifies this`human, this`streamLineOpen
      ensures TheScreen() == WriteLine(old(TheScreen()), text)
    {
      human := human + (text + "\n");
      streamLineOpen := false;
    }

    method CloseHumanLine()
      modifies this`human, this`streamLineOpen
      ensures TheScreen() == CloseLine(old(TheScreen()))
    {
      if !streamLineOpen { return; }
      WriteHumanLineClosed("");
    }

    method Space(nextType: OutputType)
      modifies this`human, this`streamLineOpen, this`lastOutputType
      ensures TheScreen() == EnsureSpacing(old(TheScreen()), nextType)
    {
      var isTransition := lastOutputType != nextType;
      if isTransition { CloseHumanLine(); }
      if lastOutputType != Nothing && isTransition { WriteHumanLineClosed(""); }
      if lastOutputType == ToolOutput && nextType == ToolOutput { WriteHumanLineClosed(""); }
      lastOutputType := nextType;
    }

    method HandleToolStart(formatted: string, generic: string, multiline: bool)
      modifies this`human, this`streamLineOpen, this`lastOutputType
      ensures TheScreen() == StartTool(old(TheScreen()), formatted, generic, multiline)
    {
      Space(ToolOutput);
      if formatted != "" {
        if multiline {
          WriteHumanLineClosed(formatted);
        } else {
          WriteHumanChunk(formatted);
        }
      } else {
        WriteHumanLineClosed(generic);
      }
    }

    method HandleToolEnd(formatted: string, generic: string, multiline: bool, proposesPlan: bool)
      modifies this`human, this`streamLineOpen, this`planProposed
      ensures TheScreen() == EndTool(old(TheScreen()), formatted, generic, multiline)
      ensures planProposed == (old(planProposed) || proposesPlan)
    {
      if formatted != "" {
        if multiline { CloseHumanLine(); }
        WriteHumanLineClosed(formatted);
      } else {
        CloseHumanLine();
        WriteHumanLineClosed(generic);
      }
      if proposesPlan { planProposed := true; }
    }

    // ---------- completion ----------

    // Calls one of the two handlers, if they are set, and drops both. A settled promise stays as it is.
    method SettleCompletion(outcome: Outcome)
      modifies this`completionHandlers, this`settled, this`settlements
      ensures Model() == Settle(old(Model()), outcome)
    {
      if completionHandlers.Some? {
        var p := completionHandlers.value;
        if p !in settled { settled := settled[p := outcome]; }
        settlements := settlements + [p];
      }
      completionHandlers := None;
    }

    method Reject()
      modifies this
      ensures Model() == RejectStream(old(Model()))
    {
      CloseHumanLine();
      SettleCompletion(Rejected);
    }

    method Resolve()
      modifies this
      ensures Model() == ResolveStream(old(Model()))
    {
      CloseHumanLine();
      streamEnded := true;
      activeMessageId := None;
      SettleCompletion(Resolved);
    }

    // ---------- the budget ----------

    method RaiseError()
      modifies this
      ensures Model() == RaiseBudgetError(old(Model()))
    {
      raised := true;
      Reject();
    }

    method ExceedBudget(notice: string, interrupt: bool)
      modifies this`budgetExceeded, this`interrupts, this`human, this`streamLineOpen
      ensures Model() == Exceed(old(Model()), notice, interrupt)
    {
      budgetExceeded := true;
      WriteHumanLineClosed("\n" + notice);
      if interrupt { interrupts := interrupts + 1; }
    }

    method CloseMessage(id: MessageId)
      modifies this
      ensures Model() == CloseStream(old(Model()), id)
    {
      latestUsageDelta := latestUsageDelta - {id};
      Resolve();
    }

    method OnStreamEnd(id: MessageId, reported: Option<Usage>, notice: string)
      modifies this
      ensures Model() == EndStream(old(Model()), id, reported, notice)
    {
      if activeMessageId.GetOr("") != "" && id != activeMessageId.value {
        Reject();
        return;
      }
      var displayUsage := reported;
      if displayUsage.None? && id in latestUsageDelta { displayUsage := Some(latestUsageDelta[id]); }
      if displayUsage.None? {
        CloseMessage(id);
        return;
      }
      RecordAndClose(id, displayUsage.value, notice);
    }

    method RecordAndClose(id: MessageId, usage: Usage, notice: string)
      modifies this
      ensures var t := Record(old(Model()), [usage]);
        Model() == JudgeEnd(t, id, if t.budgetExceeded then Within else UsageVerdict(t.budget, Sum(t.usageHistory)), notice)
    {
      usageHistory := usageHistory + [usage];
      assert Model() == Record(old(Model()), [usage]);
      if budget.Some? && !budgetExceeded {
        var totalUsage := SumUsageHistory(usageHistory);
        var cost := GetTotalCost(totalUsage);
        // The program would raise a budget error here, but a sum always has a cost.
        if HasTokens(totalUsage) && cost.None? { assert false; }
        if cost.Some? && cost.value > budget.value { ExceedBudget(notice, false); }
      }
      CloseMessage(id);
    }

    method OnSubagentUsage(usages: seq<Usage>, notice: string)
      modifies this
      ensures Model() == AddSubagents(old(Model()), usages, notice)
    {
      RecordAll(usages);
      if budget.Some? && !budgetExceeded {
        var totalUsage := SumUsageHistory(usageHistory);
        var cost := GetTotalCost(totalUsage);
        if totalUsage.Some? && totalUsage.value.hasUnknownCosts {
          RaiseError();
          return;
        }
        if cost.Some? && cost.value > budget.value { ExceedBudget(notice, true); }
      }
    }

    method RecordAll(usages: seq<Usage>)
      modifies this`usageHistory
      ensures usageHistory == old(usageHistory) + usages
    {
      for i := 0 to |usages|
        invariant usageHistory == old(usageHistory) + usages[..i]
      {
        usageHistory := usageHistory + [usages[i]];
      }
    }

    method OnUsageDelta(id: MessageId, usage: Usage, notice: string)
      modifies this
      ensures Model() == NoteUsage(old(Model()), id, usage, notice)
    {
      latestUsageDelta := latestUsageDelta[id := usage];
      if budget.Some? {
        var cost := GetTotalCost(Some(usage));
        if HasTokens(Some(usage)) && cost.None? {
          RaiseError();
          return;
        }
        if cost.Some? && cost.value > budget.value { ExceedBudget(notice, true); }
      }
    }

    // ---------- the listener ----------

    method OnTool(e: Event)
      requires readyForLive && (e.ToolStart? || e.ToolDelta? || e.ToolEnd?)
      modifies this`human, this`streamLineOpen, this`lastOutputType, this`planProposed
      ensures Model() == Hear(old(Model()), e)
    {
      match e
      case ToolStart(formatted, generic, multiline) => HandleToolStart(formatted, generic, multiline);
      case ToolDelta(text) => WriteHumanChunk(text);
      case ToolEnd(formatted, generic, multiline, plan) => HandleToolEnd(formatted, generic, multiline, plan);
    }

    method WriteText(text: string)
      modifies this`human, this`streamLineOpen, this`lastOutputType
      ensures TheScreen() == WriteChunk(EnsureSpacing(old(TheScreen()), TextOutput), text)
    {
      Space(TextOutput);
      WriteHumanChunk(text);
    }

    method OnText(text: string)
      requires readyForLive
      modifies this`human, this`streamLineOpen, this`lastOutputType
      ensures Model() == Hear(old(Model()), StreamDelta(text))
    {
      WriteText(text);
    }

    method OnReasoning(text: string)
      requires readyForLive
      modifies this`human, this`streamLineOpen, this`lastOutputType, this`thinking
      ensures Model() == Hear(old(Model()), ReasoningDelta(text))
    {
      Space(ThinkingOutput);
      thinking := thinking + text;
    }

    method OnReasoningEnd()
      requires readyForLive
      modifies this`thinking
      ensures Model() == Hear(old(Model()), ReasoningEnd)
    {
      thinking := thinking + "\n";
    }

    method OnControl(e: Event)
      requires readyForLive && (e.StreamStart? || e.StreamFailed? || e.StreamAborted?)
      modifies this
      ensures Model() == Hear(old(Model()), e)
    {
      if e.StreamStart? {
        if activeMessageId.GetOr("") != "" && activeMessageId.value != e.id {
          Reject();
        } else {
          activeMessageId := Some(e.id);
        }
      } else if e.StreamAborted? && budgetExceeded {
        Resolve();
      } else {
        Reject();
      }
    }

    method ChatListener(e: Event)
      requires !DriverEvent(e)
      modifies this
      ensures Model() == Hear(old(Model()), e)
    {
      if !readyForLive {
        if e.CaughtUp? { readyForLive := true; }
        return;
      }
      if e.StreamEnd? {
        OnStreamEnd(e.id, e.reported, e.notice);
      } else if e.SubagentUsage? {
        OnSubagentUsage(e.usages, e.notice);
      } else if e.UsageDelta? {
        OnUsageDelta(e.id, e.usage, e.notice);
      } else if e.StreamStart? || e.StreamFailed? || e.StreamAborted? {
        OnControl(e);
      } else if e.ToolStart? || e.ToolDelta? || e.ToolEnd? {
        OnTool(e);
      } else if e.StreamDelta? {
        OnText(e.text);
      } else if e.ReasoningDelta? {
        OnReasoning(e.text);
      } else if e.ReasoningEnd? {
        OnReasoningEnd();
      }
    }

    // ---------- the driver ----------

    method CreateCompletionPromise()
      modifies this`streamEnded, this`completionPromise, this`completionHandlers
      ensures Model() == Promise(old(Model()))
    {
      streamEnded := false;
      completionPromise := completionPromise + 1;
      completionHandlers := Some(completionPromise);
    }

    method SendMessage(second: bool)
      modifies this`streamEnded, this`completionPromise, this`completionHandlers, this`at, this`sent
      ensures Model() == Send(old(Model()), second)
    {
      CreateCompletionPromise();
      at := Sending(second);
      sent := sent + [budgetExceeded];
    }

    method AfterCompletion(notice: string)
      requires at.Waiting? && completionPromise in settled
      modifies this
      ensures Model() == Resume(old(Model()), notice)
    {
      if settled[completionPromise] == Rejected {
        at := Threw;
        return;
      }
      if !streamEnded {
        at := Broken;
        return;
      }
      if at.second || budgetExceeded {
        at := Finished;
        return;
      }
      ApprovePlan(notice);
    }

    method ApprovePlan(notice: string)
      requires !budgetExceeded
      modifies this
      ensures Model() == FollowUp(old(Model()), notice)
    {
      var planWasProposed := planProposed;
      planProposed := false;
      assert Model() == old(Model()).(planProposed := false);
      if planMode && !planWasProposed {
        at := Threw;
        return;
      }
      if !planWasProposed {
        at := Finished;
        return;
      }
      WriteHumanLineClosed(notice);
      assert Model() == old(Model()).(planProposed := false, screen := WriteLine(old(TheScreen()), notice));
      SendMessage(true);
    }
  }
}
