/** Every step of the provider keeps the invariants: the ORPC calls, the streams and dispose. */
module OrpcSteps {
  import opened Wrappers
  import opened ChatProtocol
  import opened ChatLog
  import opened ChatInvariants

  // The steps below touch neither the chat loops nor the refreshes.
  ghost predicate KeptOrpc(s: State, t: State) {
    Fresh(t) && OrpcInv(t) && QuietForChat(s, t)
  }

  // ---------- the traces of the streams ----------

  // A trace stays a trace when its controller is aborted before its pump ended.
  lemma TraceSurvivesAbort(log: seq<Message>, id: StreamId, c: Controller, r: RequestId, all: seq<string>)
    requires Traced(log, id, c, r, all, true, false)
    ensures Traced(log, id, c, r, all, true, true)
  {
    var n: nat :| TraceIs(log, id, c, r, all, n, true, false);
    assert TraceIs(log, id, c, r, all, n, true, true);
  }

  lemma TraceStarts(id: StreamId, c: Controller, r: RequestId)
    ensures Traced([OrpcResponse(r, Some(c), Stream(id))], id, c, r, [], true, false)
  {
    assert TraceIs([OrpcResponse(r, Some(c), Stream(id))], id, c, r, [], 0, true, false);
  }

  lemma DataGrows(id: StreamId, all: seq<string>, value: string)
    ensures Data(id, all + [value]) == Data(id, all) + [StreamData(id, value)]
  {
  }

  lemma TraceData(log: seq<Message>, id: StreamId, c: Controller, r: RequestId, all: seq<string>, value: string)
    requires Traced(log, id, c, r, all, true, false)
    ensures Traced(log + [StreamData(id, value)], id, c, r, all + [value], true, false)
  {
    DataGrows(id, all, value);
    assert all[..|all|] == all && (all + [value])[..|all| + 1] == all + [value];
    assert TraceIs(log + [StreamData(id, value)], id, c, r, all + [value], |all| + 1, true, false);
  }

  lemma TraceMuted(log: seq<Message>, id: StreamId, c: Controller, r: RequestId, all: seq<string>, value: string)
    requires Traced(log, id, c, r, all, true, true)
    ensures Traced(log, id, c, r, all + [value], true, true)
  {
    var n: nat :| TraceIs(log, id, c, r, all, n, true, true);
    assert (all + [value])[..n] == all[..n];
    assert TraceIs(log, id, c, r, all + [value], n, true, true);
  }

  lemma TraceEnds(log: seq<Message>, id: StreamId, c: Controller, r: RequestId, all: seq<string>, aborted: bool, m: Message)
    requires Traced(log, id, c, r, all, true, aborted)
    requires m == StreamEnd(id) || (!aborted && m == StreamError(id))
    ensures Traced(log + [m], id, c, r, all, false, aborted)
  {
    var n: nat :| TraceIs(log, id, c, r, all, n, true, aborted);
    assert TraceIs(log + [m], id, c, r, all, n, false, aborted);
  }

  // ---------- calls ----------

  lemma RegisterLive(s: State, r: RequestId)
    requires Fresh(s) && LiveInv(s) && r !in s.pending
    ensures LiveInv(Register(s, r)) && Fresh(Register(s, r)) && QuietForChat(s, Register(s, r))
  {
  }

  lemma RegisterPosted(s: State, r: RequestId)
    requires Fresh(s) && PostedInv(s)
    ensures PostedInv(Register(s, r))
  {
  }

  lemma RegisterKeeps(s: State, r: RequestId)
    requires Fresh(s) && OrpcInv(s) && r !in s.pending
    ensures KeptOrpc(s, Register(s, r))
  {
    RegisterLive(s, r);
    RegisterPosted(s, r);
  }

  lemma RejectionPosted(s: State, r: RequestId)
    requires PostedInv(s)
    ensures PostedInv(Post(s, OrpcResponse(r, None, Failed)))
  {
    Append(s.history.log, Entry(s, OrpcResponse(r, None, Failed)));
  }

  lemma PostRejection(s: State, r: RequestId)
    requires Fresh(s) && OrpcInv(s)
    ensures KeptOrpc(s, Post(s, OrpcResponse(r, None, Failed)))
  {
    RejectionPosted(s, r);
  }

  lemma AnswerLive(s: State, c: Controller, r: RequestId, reply: Reply)
    requires Fresh(s) && LiveInv(s)
    requires c in s.rt.calls && s.rt.calls[c].requestId == r
    ensures var t := Answer(s, c, r, reply); Fresh(t) && LiveInv(t) && QuietForChat(s, t)
  {
  }

  lemma AnswerPosted(s: State, c: Controller, r: RequestId, reply: Reply)
    requires FreshControllers(s.rt, s.history.accepted) && PostedInv(s) && !reply.Stream?
    requires c in s.rt.calls && c !in s.rt.aborted && s.rt.calls[c].requestId == r
    ensures PostedInv(Answer(s, c, r, reply))
  {
    Append(s.history.log, Entry(s, OrpcResponse(r, Some(c), reply)));
  }

  lemma AnswerKeeps(s: State, c: Controller, r: RequestId, reply: Reply)
    requires Fresh(s) && OrpcInv(s) && !reply.Stream?
    requires c in s.rt.calls && c !in s.rt.aborted && s.rt.calls[c].requestId == r
    ensures KeptOrpc(s, Answer(s, c, r, reply))
  {
    AnswerLive(s, c, r, reply);
    AnswerPosted(s, c, r, reply);
  }

  lemma FinishAbortedLive(s: State, c: Controller)
    requires Fresh(s) && LiveInv(s) && c in s.rt.calls && c in s.rt.aborted
    ensures var t := FinishCall(s, c, s.rt.calls[c].requestId); Fresh(t) && LiveInv(t) && QuietForChat(s, t)
  {
  }

  lemma FinishAbortedPosted(s: State, c: Controller)
    requires PostedInv(s) && c in s.rt.calls && c in s.rt.aborted
    ensures PostedInv(FinishCall(s, c, s.rt.calls[c].requestId))
  {
  }

  lemma FinishAbortedKeeps(s: State, c: Controller)
    requires Fresh(s) && OrpcInv(s) && c in s.rt.calls && c in s.rt.aborted
    ensures KeptOrpc(s, FinishCall(s, c, s.rt.calls[c].requestId))
  {
    FinishAbortedLive(s, c);
    FinishAbortedPosted(s, c);
  }

  lemma CalledLive(s: State, c: Controller)
    requires Fresh(s) && LiveInv(s) && c in s.rt.calls && c !in s.rt.aborted
    ensures var t := AdvanceCall(s, c, ProcedureCalled); Fresh(t) && LiveInv(t) && QuietForChat(s, t)
  {
  }

  lemma CalledPosted(s: State, c: Controller)
    requires PostedInv(s) && c in s.rt.calls && c !in s.rt.aborted
    ensures PostedInv(AdvanceCall(s, c, ProcedureCalled))
  {
  }

  lemma CalledKeeps(s: State, c: Controller)
    requires Fresh(s) && OrpcInv(s) && c in s.rt.calls && c !in s.rt.aborted
    ensures KeptOrpc(s, AdvanceCall(s, c, ProcedureCalled))
  {
    CalledLive(s, c);
    CalledPosted(s, c);
  }

  lemma AdvanceKeeps(s: State, c: Controller, client: ClientOutcome)
    requires Fresh(s) && OrpcInv(s) && c in s.rt.calls
    ensures KeptOrpc(s, AdvanceCall(s, c, client))
  {
    if c in s.rt.aborted {
      FinishAbortedKeeps(s, c);
    } else if client.ProcedureCalled? {
      CalledKeeps(s, c);
    } else {
      AnswerKeeps(s, c, s.rt.calls[c].requestId, Failed);
    }
  }

  lemma QuietTrans(s: State, t: State, u: State)
    requires QuietForChat(s, t) && QuietForChat(t, u)
    ensures QuietForChat(s, u)
  {
    var a, b, c := s.history.log, t.history.log, u.history.log;
    assert c[..|a|] == c[..|b|][..|a|];
    forall i | |a| <= i < |c| ensures !IsChat(c[i].message) {
      if i < |b| { assert c[i] == c[..|b|][i]; }
    }
  }

  lemma RegisterFailKeeps(s: State, r: RequestId)
    requires Fresh(s) && OrpcInv(s) && r !in s.pending
    ensures KeptOrpc(s, Answer(Register(s, r), s.rt.nextController, r, Failed))
  {
    var t := Register(s, r);
    RegisterKeeps(s, r);
    AnswerKeeps(t, s.rt.nextController, r, Failed);
    QuietTrans(s, t, Answer(t, s.rt.nextController, r, Failed));
  }

  lemma AcceptKeeps(s: State, r: RequestId, allowed: bool)
    requires Fresh(s) && OrpcInv(s)
    ensures KeptOrpc(s, AcceptCall(s, r, allowed))
  {
    if r in s.pending {
      PostRejection(s, r);
    } else if !allowed || s.mode != Api {
      RegisterFailKeeps(s, r);
    } else {
      RegisterKeeps(s, r);
    }
  }

  // ---------- streams ----------

  function Open(s: State, c: Controller): State
    requires c in s.rt.calls
  {
    Answer(OpenStream(s, c), c, s.rt.calls[c].requestId, Stream(s.rt.nextStream))
  }

  lemma OpenFresh(s: State, c: Controller)
    requires Fresh(s) && c in s.rt.calls
    ensures Fresh(Open(s, c)) && QuietForChat(s, Open(s, c))
  {
  }

  lemma OpenPending(s: State, c: Controller)
    requires PendingInv(s.pending, s.rt.calls, s.rt.aborted) && c in s.rt.calls && c !in s.rt.aborted
    ensures var t := Open(s, c); PendingInv(t.pending, t.rt.calls, t.rt.aborted)
  {
  }

  lemma OpenStreams(s: State, c: Controller)
    requires Fresh(s) && LiveInv(s) && c in s.rt.calls && c !in s.rt.aborted
    ensures var t := Open(s, c); StreamsInv(t.streams, t.rt.pumps, t.rt.aborted)
  {
  }

  lemma OpenLive(s: State, c: Controller)
    requires Fresh(s) && LiveInv(s) && c in s.rt.calls && c !in s.rt.aborted
    ensures LiveInv(Open(s, c))
  {
    OpenPending(s, c);
    OpenStreams(s, c);
  }

  lemma OpenAnswers(s: State, c: Controller)
    requires FreshControllers(s.rt, s.history.accepted) && PostedInv(s) && c in s.rt.calls && c !in s.rt.aborted
    ensures var t := Open(s, c); AnswerInv(t.history.log, t.history.accepted, t.rt.calls, t.rt.aborted)
  {
    Append(s.history.log, Entry(s, OrpcResponse(s.rt.calls[c].requestId, Some(c), Stream(s.rt.nextStream))));
  }

  lemma OpenTraces(s: State, c: Controller)
    requires Fresh(s) && c in s.rt.calls && c !in s.rt.aborted
    requires TraceInv(s.history.log, s.history.accepted, s.history.opener, s.history.produced, s.rt.pumps, s.rt.aborted)
    ensures var t := Open(s, c);
            TraceInv(t.history.log, t.history.accepted, t.history.opener, t.history.produced, t.rt.pumps, t.rt.aborted)
  {
    OpenLogs(s, c);
    TraceOpens(s.history.log, Open(s, c).history.log, s.history.accepted, s.history.opener, s.history.produced, s.rt.pumps,
               s.rt.aborted, s.rt.nextStream, c);
  }

  lemma TraceOpens(log: seq<Posted>, log': seq<Posted>, accepted: map<Controller, RequestId>,
                   opener: map<StreamId, Controller>, produced: map<StreamId, seq<string>>,
                   pumps: map<StreamId, PumpTask>, aborted: set<Controller>, id: StreamId, c: Controller)
    requires TraceInv(log, accepted, opener, produced, pumps, aborted)
    requires id !in opener && c in accepted && c !in aborted
    requires forall o :: o != id ==> StreamLog(log', o) == StreamLog(log, o)
    requires StreamLog(log', id) == StreamLog(log, id) + [OrpcResponse(accepted[c], Some(c), Stream(id))]
    ensures TraceInv(log', accepted, opener[id := c], produced[id := []], pumps[id := PumpTask(c, false)], aborted)
  {
    TraceStarts(id, c, accepted[c]);
    assert StreamLog(log', id) == [OrpcResponse(accepted[c], Some(c), Stream(id))];
  }

  // The response starts the log of the new stream and leaves the others.
  lemma OpenLogs(s: State, c: Controller)
    requires c in s.rt.calls
    ensures var t := Open(s, c); var started := s.rt.nextStream;
      && (forall id :: id != started ==> StreamLog(t.history.log, id) == StreamLog(s.history.log, id))
      && StreamLog(t.history.log, started) == StreamLog(s.history.log, started) + [OrpcResponse(s.rt.calls[c].requestId, Some(c), Stream(started))]
  {
    Append(s.history.log, Entry(OpenStream(s, c), OrpcResponse(s.rt.calls[c].requestId, Some(c), Stream(s.rt.nextStream))));
  }

  lemma OpenKeeps(s: State, c: Controller)
    requires Fresh(s) && OrpcInv(s) && c in s.rt.calls && c !in s.rt.aborted
    ensures KeptOrpc(s, Open(s, c))
  {
    OpenFresh(s, c);
    OpenLive(s, c);
    OpenAnswers(s, c);
    OpenTraces(s, c);
  }

  lemma CompleteKeeps(s: State, c: Controller, result: CallOutcome)
    requires Fresh(s) && OrpcInv(s) && c in s.rt.calls
    ensures KeptOrpc(s, CompleteCall(s, c, result))
  {
    if c in s.rt.aborted {
      FinishAbortedKeeps(s, c);
    } else {
      match result
      case Returned(v) => AnswerKeeps(s, c, s.rt.calls[c].requestId, Value(v));
      case Iterable => OpenKeeps(s, c);
      case Rejected => AnswerKeeps(s, c, s.rt.calls[c].requestId, Failed);
    }
  }

  lemma StopPumpLive(s: State, id: StreamId)
    requires Fresh(s) && LiveInv(s) && id in s.rt.pumps && s.rt.pumps[id].controller in s.rt.aborted
    ensures Fresh(StopPump(s, id)) && LiveInv(StopPump(s, id))
  {
  }

  lemma YieldLive(s: State, id: StreamId, value: string)
    requires Fresh(s) && LiveInv(s) && id in s.rt.pumps
    ensures var t := Yield(s, id, value); Fresh(t) && LiveInv(t) && QuietForChat(s, t)
  {
  }

  lemma PostDataLive(s: State, id: StreamId, value: string)
    requires Fresh(s) && LiveInv(s)
    ensures var t := Post(s, StreamData(id, value)); Fresh(t) && LiveInv(t) && QuietForChat(s, t)
  {
  }

  lemma PumpOneLive(s: State, id: StreamId, value: string)
    requires Fresh(s) && LiveInv(s) && id in s.rt.pumps
    ensures var t := PumpOne(s, id, value); Fresh(t) && LiveInv(t) && QuietForChat(s, t)
  {
    var t := Yield(s, id, value);
    YieldLive(s, id, value);
    if s.rt.pumps[id].controller in s.rt.aborted {
      StopPumpLive(t, id);
      QuietTrans(s, t, StopPump(t, id));
    } else {
      PostDataLive(t, id, value);
      QuietTrans(s, t, Post(t, StreamData(id, value)));
    }
  }

  lemma MutedPosted(s: State, id: StreamId, value: string)
    requires FreshStreams(s.rt, s.history.accepted, s.history.opener, s.history.produced) && PostedInv(s)
    requires id in s.rt.pumps && s.rt.pumps[id].controller in s.rt.aborted
    ensures PostedInv(StopPump(Yield(s, id, value), id))
  {
    var c := s.history.opener[id];
    TraceMuted(StreamLog(s.history.log, id), id, c, s.history.accepted[c], s.history.produced[id], value);
  }

  lemma ShownAnswers(s: State, id: StreamId, value: string)
    requires PostedInv(s)
    ensures var t := Post(Yield(s, id, value), StreamData(id, value));
            AnswerInv(t.history.log, t.history.accepted, t.rt.calls, t.rt.aborted)
  {
    Append(s.history.log, Entry(s, StreamData(id, value)));
  }

  lemma ShownTraces(s: State, id: StreamId, value: string)
    requires FreshStreams(s.rt, s.history.accepted, s.history.opener, s.history.produced)
    requires TraceInv(s.history.log, s.history.accepted, s.history.opener, s.history.produced, s.rt.pumps, s.rt.aborted)
    requires id in s.rt.pumps && s.rt.pumps[id].controller !in s.rt.aborted
    ensures var t := Post(Yield(s, id, value), StreamData(id, value));
            TraceInv(t.history.log, t.history.accepted, t.history.opener, t.history.produced, t.rt.pumps, t.rt.aborted)
  {
    var c := s.history.opener[id];
    Append(s.history.log, Entry(s, StreamData(id, value)));
    TraceData(StreamLog(s.history.log, id), id, c, s.history.accepted[c], s.history.produced[id], value);
  }

  lemma PumpOnePosted(s: State, id: StreamId, value: string)
    requires FreshStreams(s.rt, s.history.accepted, s.history.opener, s.history.produced) && PostedInv(s) && id in s.rt.pumps
    ensures PostedInv(PumpOne(s, id, value))
  {
    if s.rt.pumps[id].controller in s.rt.aborted {
      MutedPosted(s, id, value);
    } else {
      ShownAnswers(s, id, value);
      ShownTraces(s, id, value);
    }
  }

  lemma PumpOneKeeps(s: State, id: StreamId, value: string)
    requires Fresh(s) && OrpcInv(s) && id in s.rt.pumps
    ensures KeptOrpc(s, PumpOne(s, id, value))
  {
    PumpOneLive(s, id, value);
    PumpOnePosted(s, id, value);
  }

  lemma EndPumpFresh(s: State, id: StreamId, threw: bool)
    requires Fresh(s) && id in s.rt.pumps
    ensures var t := EndPump(s, id, threw); Fresh(t) && QuietForChat(s, t)
  {
  }

  lemma EndPumpStreams(s: State, id: StreamId, threw: bool)
    requires LiveInv(s) && id in s.rt.pumps
    ensures LiveInv(EndPump(s, id, threw))
  {
  }

  lemma EndPumpLive(s: State, id: StreamId, threw: bool)
    requires Fresh(s) && LiveInv(s) && id in s.rt.pumps
    ensures var t := EndPump(s, id, threw); Fresh(t) && LiveInv(t) && QuietForChat(s, t)
  {
    EndPumpFresh(s, id, threw);
    EndPumpStreams(s, id, threw);
  }

  lemma OtherTraces(s: State, id: StreamId, m: Message, other: StreamId)
    requires About(m, id) && other != id
    requires TraceInv(s.history.log, s.history.accepted, s.history.opener, s.history.produced, s.rt.pumps, s.rt.aborted)
    ensures StreamLog(Post(s, m).history.log, other) == StreamLog(s.history.log, other)
  {
    Append(s.history.log, Entry(s, m));
  }

  lemma TerminalTrace(s: State, id: StreamId, m: Message)
    requires FreshStreams(s.rt, s.history.accepted, s.history.opener, s.history.produced) && id in s.rt.pumps
    requires TraceInv(s.history.log, s.history.accepted, s.history.opener, s.history.produced, s.rt.pumps, s.rt.aborted)
    requires m == StreamEnd(id) || (s.rt.pumps[id].controller !in s.rt.aborted && m == StreamError(id))
    ensures var c := s.history.opener[id];
            Traced(StreamLog(Post(s, m).history.log, id), id, c, s.history.accepted[c], s.history.produced[id], false, c in s.rt.aborted)
  {
    var c := s.history.opener[id];
    Append(s.history.log, Entry(s, m));
    TraceEnds(StreamLog(s.history.log, id), id, c, s.history.accepted[c], s.history.produced[id], c in s.rt.aborted, m);
  }

  lemma TerminalTraces(s: State, id: StreamId, m: Message)
    requires FreshStreams(s.rt, s.history.accepted, s.history.opener, s.history.produced) && id in s.rt.pumps
    requires TraceInv(s.history.log, s.history.accepted, s.history.opener, s.history.produced, s.rt.pumps, s.rt.aborted)
    requires m == StreamEnd(id) || (s.rt.pumps[id].controller !in s.rt.aborted && m == StreamError(id))
    ensures TraceInv(Post(s, m).history.log, s.history.accepted, s.history.opener, s.history.produced, s.rt.pumps - {id}, s.rt.aborted)
  {
    TerminalTrace(s, id, m);
    forall other: StreamId | other != id ensures StreamLog(Post(s, m).history.log, other) == StreamLog(s.history.log, other) {
      OtherTraces(s, id, m, other);
    }
  }

  lemma EndPumpIs(s: State, id: StreamId, threw: bool, m: Message)
    requires id in s.rt.pumps
    requires m == if threw && s.rt.pumps[id].controller !in s.rt.aborted then StreamError(id) else StreamEnd(id)
    ensures var t := EndPump(s, id, threw);
      t.history == Post(s, m).history && t.rt.pumps == s.rt.pumps - {id} && t.rt.aborted == s.rt.aborted
  {
  }

  lemma EndPumpTraces(s: State, id: StreamId, threw: bool)
    requires FreshStreams(s.rt, s.history.accepted, s.history.opener, s.history.produced) && id in s.rt.pumps
    requires TraceInv(s.history.log, s.history.accepted, s.history.opener, s.history.produced, s.rt.pumps, s.rt.aborted)
    ensures var t := EndPump(s, id, threw);
            TraceInv(t.history.log, t.history.accepted, t.history.opener, t.history.produced, t.rt.pumps, t.rt.aborted)
  {
    var m := if threw && s.rt.pumps[id].controller !in s.rt.aborted then StreamError(id) else StreamEnd(id);
    EndPumpIs(s, id, threw, m);
    TerminalTraces(s, id, m);
  }

  lemma EndPumpAnswers(s: State, id: StreamId, threw: bool)
    requires PostedInv(s) && id in s.rt.pumps
    ensures var t := EndPump(s, id, threw); AnswerInv(t.history.log, t.history.accepted, t.rt.calls, t.rt.aborted)
  {
    var m := if threw && s.rt.pumps[id].controller !in s.rt.aborted then StreamError(id) else StreamEnd(id);
    Append(s.history.log, Entry(s, m));
  }

  lemma EndPumpKeeps(s: State, id: StreamId, threw: bool)
    requires Fresh(s) && OrpcInv(s) && id in s.rt.pumps
    ensures KeptOrpc(s, EndPump(s, id, threw))
  {
    EndPumpLive(s, id, threw);
    EndPumpTraces(s, id, threw);
    EndPumpAnswers(s, id, threw);
  }

  // ---------- aborting ----------

  // Live calls and open streams are aborted together with leaving their map.
  ghost predicate Aborts(s: State, cs: set<Controller>, t: State) {
    && (forall c :: c in cs ==> c in s.pending.Values || c in s.streams.Values)
    && t == Abort(s, cs).(pending := t.pending, streams := t.streams)
    && (forall r :: r in t.pending <==> r in s.pending && s.pending[r] !in cs)
    && (forall r :: r in t.pending ==> t.pending[r] == s.pending[r])
    && (forall id :: id in t.streams <==> id in s.streams && s.streams[id] !in cs)
    && (forall id :: id in t.streams ==> t.streams[id] == s.streams[id])
  }

  lemma AbortTraces(s: State, cs: set<Controller>, t: State)
    requires Fresh(s) && OrpcInv(s) && Aborts(s, cs, t)
    ensures TraceInv(t.history.log, t.history.accepted, t.history.opener, t.history.produced, t.rt.pumps, t.rt.aborted)
  {
    forall id | id in s.history.opener && s.history.opener[id] in s.history.accepted && id in s.history.produced
      ensures var c := s.history.opener[id];
              Traced(StreamLog(t.history.log, id), id, c, s.history.accepted[c], s.history.produced[id],
                     id in s.rt.pumps, c in t.rt.aborted)
    {
      var c := s.history.opener[id];
      if c in cs && c !in s.rt.aborted {
        assert c !in s.pending.Values;
        assert id in s.rt.pumps;
        TraceSurvivesAbort(StreamLog(s.history.log, id), id, c, s.history.accepted[c], s.history.produced[id]);
      }
    }
  }

  lemma AbortLive(s: State, cs: set<Controller>, t: State)
    requires Fresh(s) && LiveInv(s) && Aborts(s, cs, t)
    ensures Fresh(t) && LiveInv(t) && QuietForChat(s, t)
  {
  }

  lemma AbortAnswers(s: State, cs: set<Controller>, t: State)
    requires PostedInv(s) && Aborts(s, cs, t)
    ensures AnswerInv(t.history.log, t.history.accepted, t.rt.calls, t.rt.aborted)
  {
  }

  lemma AbortKeeps(s: State, cs: set<Controller>, t: State)
    requires Fresh(s) && OrpcInv(s) && Aborts(s, cs, t)
    ensures KeptOrpc(s, t)
  {
    AbortLive(s, cs, t);
    AbortAnswers(s, cs, t);
    AbortTraces(s, cs, t);
  }

  lemma CancelCallKeeps(s: State, r: RequestId)
    requires Fresh(s) && OrpcInv(s)
    ensures KeptOrpc(s, CancelCall(s, r))
  {
    if r in s.pending { AbortKeeps(s, {s.pending[r]}, CancelCall(s, r)); }
  }

  lemma CancelStreamAborts(s: State, id: StreamId)
    requires Fresh(s) && LiveInv(s) && id in s.streams
    ensures Aborts(s, {s.streams[id]}, CancelStream(s, id))
  {
  }

  lemma CancelStreamKeeps(s: State, id: StreamId)
    requires Fresh(s) && OrpcInv(s)
    ensures KeptOrpc(s, CancelStream(s, id))
  {
    if id in s.streams {
      CancelStreamAborts(s, id);
      AbortKeeps(s, {s.streams[id]}, CancelStream(s, id));
    }
  }
}
