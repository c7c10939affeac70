/** What the log of posted messages says about one subscription, one call or one stream. */
module ChatLog {
  import opened Wrappers
  import opened ChatProtocol

  // The last chatReset of the log.
  function LastReset(log: seq<Posted>): Option<Posted> {
    if log == [] then None
    else if log[|log| - 1].message.ChatReset? then Some(log[|log| - 1])
    else LastReset(log[..|log| - 1])
  }

  // How often an accepted call was answered.
  function Answers(log: seq<Posted>, c: Controller): nat {
    if log == [] then 0
    else Answers(log[..|log| - 1], c) + (if Answering(log[|log| - 1].message, c) then 1 else 0)
  }

  predicate Answering(m: Message, c: Controller) {
    m.OrpcResponse? && m.call == Some(c)
  }

  // The messages about one stream, oldest first: its response, its data and its end.
  function StreamLog(log: seq<Posted>, id: StreamId): seq<Message> {
    if log == [] then []
    else if About(log[|log| - 1].message, id) then StreamLog(log[..|log| - 1], id) + [log[|log| - 1].message]
    else StreamLog(log[..|log| - 1], id)
  }

  // How much data of one stream was posted.
  function DataCount(log: seq<Posted>, id: StreamId): nat {
    if log == [] then 0
    else DataCount(log[..|log| - 1], id) + (if IsData(log[|log| - 1].message, id) then 1 else 0)
  }

  predicate IsData(m: Message, id: StreamId) {
    m.StreamData? && m.stream == id
  }

  predicate About(m: Message, id: StreamId) {
    match m
    case OrpcResponse(_, _, Stream(s)) => s == id
    case StreamData(s, _) => s == id
    case StreamEnd(s) => s == id
    case StreamError(s) => s == id
    case _ => false
  }

  function Data(id: StreamId, values: seq<string>): seq<Message> {
    seq(|values|, i requires 0 <= i < |values| => StreamData(id, values[i]))
  }

  predicate IsChat(m: Message) { m.ChatReset? || m.ChatEvent? }

  predicate IsOrpc(m: Message) { m.OrpcResponse? || m.StreamData? || m.StreamEnd? || m.StreamError? }

  // A chat event was posted for the workspace selected at that moment, and the last chatReset before it announced
  // that workspace, to the same webview if and only if no webview had been resolved since.
  predicate Grounded(log: seq<Posted>, i: nat)
    requires i < |log|
  {
    log[i].message.ChatEvent? ==>
      var w := log[i].message.workspaceId';
      var reset := LastReset(log[..i]);
      && log[i].selected == Some(w)
      && reset.Some? && reset.value.message == ChatReset(w) && reset.value.receipt.Some?
      && (log[i].receipt.Some? ==> (reset.value.receipt.value.view == log[i].receipt.value.view <==> !log[i].replaced))
  }

  predicate AllGrounded(log: seq<Posted>) {
    forall i {:trigger Grounded(log, i)} :: 0 <= i < |log| ==> Grounded(log, i)
  }

  // What one more entry changes.
  lemma Append(log: seq<Posted>, p: Posted)
    ensures LastReset(log + [p]) == if p.message.ChatReset? then Some(p) else LastReset(log)
    ensures forall c :: Answers(log + [p], c) == Answers(log, c) + (if Answering(p.message, c) then 1 else 0)
    ensures forall id :: DataCount(log + [p], id) == DataCount(log, id) + (if IsData(p.message, id) then 1 else 0)
    ensures forall id :: StreamLog(log + [p], id) == StreamLog(log, id) + (if About(p.message, id) then [p.message] else [])
  {
    assert (log + [p])[..|log|] == log;
  }

  lemma AppendGrounded(log: seq<Posted>, p: Posted)
    requires AllGrounded(log)
    requires Grounded(log + [p], |log|)
    ensures AllGrounded(log + [p])
  {
    forall i | 0 <= i < |log| ensures Grounded(log + [p], i) {
      assert Grounded(log, i);
      assert (log + [p])[..i] == log[..i];
    }
  }

  // The log grew, and no new message is about a call or a stream.
  predicate GrewQuietly(log: seq<Posted>, log': seq<Posted>) {
    && |log| <= |log'| && log'[..|log|] == log
    && forall i :: |log| <= i < |log'| ==> !IsOrpc(log'[i].message)
  }

  // The log grew, and no new message is about the chat.
  predicate GrewOffChat(log: seq<Posted>, log': seq<Posted>) {
    && |log| <= |log'| && log'[..|log|] == log
    && forall i :: |log| <= i < |log'| ==> !IsChat(log'[i].message)
  }

  lemma GrewQuietlyTrans(a: seq<Posted>, b: seq<Posted>, c: seq<Posted>)
    requires GrewQuietly(a, b) && GrewQuietly(b, c)
    ensures GrewQuietly(a, c)
  {
    assert c[..|a|] == c[..|b|][..|a|];
    forall i | |a| <= i < |c| ensures !IsOrpc(c[i].message) {
      if i < |b| { assert c[i] == c[..|b|][i]; }
    }
  }

  lemma {:induction false} QuietGrowth(log: seq<Posted>, log': seq<Posted>)
    requires GrewQuietly(log, log')
    ensures forall c :: Answers(log', c) == Answers(log, c)
    ensures forall id :: StreamLog(log', id) == StreamLog(log, id)
    ensures forall id :: DataCount(log', id) == DataCount(log, id)
  {
    if |log| == |log'| {
      assert log == log';
    } else {
      var before := log'[..|log'| - 1];
      assert before[..|log|] == log;
      QuietGrowth(log, before);
      Append(before, log'[|log'| - 1]);
      assert before + [log'[|log'| - 1]] == log';
    }
  }

  lemma {:induction false} OffChatGrowth(log: seq<Posted>, log': seq<Posted>)
    requires GrewOffChat(log, log') && AllGrounded(log)
    ensures LastReset(log') == LastReset(log)
    ensures AllGrounded(log')
  {
    if |log| == |log'| {
      assert log == log';
    } else {
      var before := log'[..|log'| - 1];
      assert before[..|log|] == log;
      OffChatGrowth(log, before);
      Append(before, log'[|log'| - 1]);
      AppendGrounded(before, log'[|log'| - 1]);
      assert before + [log'[|log'| - 1]] == log';
    }
  }
}
