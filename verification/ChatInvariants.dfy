/** What every interleaving of the chat view provider's handlers keeps. */
module ChatInvariants {
  import opened Wrappers
  import opened ChatProtocol
  import opened ChatLog

  // ---------- the invariants ----------

  // Controllers are fresh when made, and serve a chat loop or a call, never both.
  ghost predicate FreshControllers(rt: Runtime, accepted: map<Controller, RequestId>) {
    && (forall c :: c in rt.aborted ==> c < rt.nextController)
    && (forall c :: c in rt.chats ==> c < rt.nextController && c !in accepted)
    && (forall c :: c in accepted ==> c < rt.nextController)
    && (forall c :: c in rt.calls ==> c in accepted && accepted[c] == rt.calls[c].requestId)
  }

  // Streams are fresh when opened, by a call that is over, and each call opens at most one.
  ghost predicate FreshStreams(rt: Runtime, accepted: map<Controller, RequestId>,
                               opener: map<StreamId, Controller>, produced: map<StreamId, seq<string>>) {
    && (forall id: StreamId :: id in opener <==> id < rt.nextStream)
    && produced.Keys == opener.Keys
    && (forall id :: id in rt.pumps ==> id in opener && rt.pumps[id].controller == opener[id])
    && (forall id :: id in opener ==> opener[id] in accepted && opener[id] !in rt.calls)
    && (forall i, j :: i in opener && j in opener && opener[i] == opener[j] ==> i == j)
  }

  ghost predicate Fresh(s: State) {
    && FreshControllers(s.rt, s.history.accepted)
    && FreshStreams(s.rt, s.history.accepted, s.history.opener, s.history.produced)
  }

  // The subscription fields name the one chat loop that is not aborted.
  ghost predicate OneSubscription(subscription: Option<Controller>, subscribed: Option<WorkspaceId>,
                                  chats: map<Controller, ChatTask>, aborted: set<Controller>) {
    && (subscription.None? <==> subscribed.None?)
    && (subscription.Some? ==>
          var c := subscription.value;
          c in chats && c !in aborted && chats[c].workspaceId == subscribed.value)
    && (forall c :: c in chats && c !in aborted ==> subscription == Some(c))
  }

  // While there is a subscription, the last chatReset announced its workspace, to the current webview if and only
  // if no webview was resolved since.
  ghost predicate Announced(subscribed: Option<WorkspaceId>, reset: Option<Posted>, view: Option<nat>, nextView: nat, replaced: bool) {
    subscribed.Some? ==>
      && view.Some?
      && reset.Some? && reset.value.message == ChatReset(subscribed.value) && reset.value.receipt.Some?
      && reset.value.receipt.value.view < nextView
      && (reset.value.receipt.value.view == view.value <==> !replaced)
  }

  // Webviews are numbered in the order they are resolved.
  ghost predicate ViewIsNew(view: Option<nat>, nextView: nat) {
    view.Some? ==> view.value < nextView
  }

  ghost predicate ChatInv(s: State) {
    && ViewIsNew(s.view, s.nextView)
    && OneSubscription(s.subscription, s.subscribed, s.rt.chats, s.rt.aborted)
    && Announced(s.subscribed, LastReset(s.history.log), s.view, s.nextView, s.history.replaced)
    && AllGrounded(s.history.log)
  }

  // `pending` holds exactly the live calls that were not aborted, under their request ids.
  ghost predicate PendingInv(pending: map<RequestId, Controller>, calls: map<Controller, CallTask>, aborted: set<Controller>) {
    && (forall r :: r in pending ==>
          pending[r] in calls && calls[pending[r]].requestId == r && pending[r] !in aborted)
    && (forall c :: c in calls && c !in aborted ==>
          calls[c].requestId in pending && pending[calls[c].requestId] == c)
  }

  // A call is answered once when it ends, unless it was aborted first: then it may never be.
  ghost predicate Answered(answers: nat, accepted: bool, live: bool, aborted: bool) {
    && answers <= 1
    && (live || !accepted ==> answers == 0)
    && (accepted && !live && !aborted ==> answers == 1)
  }

  ghost predicate AnswerInv(log: seq<Posted>, accepted: map<Controller, RequestId>,
                            calls: map<Controller, CallTask>, aborted: set<Controller>) {
    && (forall c {:trigger Answers(log, c)} :: Answered(Answers(log, c), c in accepted, c in calls, c in aborted))
    && Addressed(log, accepted)
  }

  // Answers carry the request id of their call.
  ghost predicate Addressed(log: seq<Posted>, accepted: map<Controller, RequestId>) {
    forall i :: 0 <= i < |log| && log[i].message.OrpcResponse? && log[i].message.call.Some? ==>
      log[i].message.call.value in accepted && accepted[log[i].message.call.value] == log[i].message.requestId
  }

  // `streams` holds exactly the pumps that are neither finished nor cancelled.
  ghost predicate StreamsInv(streams: map<StreamId, Controller>, pumps: map<StreamId, PumpTask>, aborted: set<Controller>) {
    && (forall id :: id in streams <==> id in pumps && pumps[id].controller !in aborted)
    && (forall id :: id in streams ==> streams[id] == pumps[id].controller)
    && (forall id :: id in pumps && pumps[id].closing ==> pumps[id].controller in aborted)
  }

  // What a stream opened by call `c` has posted: its response, then `all` that its iterator yielded or,
  // once it is cancelled, a prefix of it, then one terminal message if its pump ended.
  ghost predicate TraceIs(log: seq<Message>, id: StreamId, c: Controller, r: RequestId,
                          all: seq<string>, n: nat, live: bool, aborted: bool) {
    && n <= |all|
    && (!aborted ==> n == |all|)
    && var body := [OrpcResponse(r, Some(c), Stream(id))] + Data(id, all[..n]);
    if live then log == body
    else log == body + [StreamEnd(id)] || (!aborted && log == body + [StreamError(id)])
  }

  ghost predicate Traced(log: seq<Message>, id: StreamId, c: Controller, r: RequestId,
                         all: seq<string>, live: bool, aborted: bool) {
    exists n: nat :: TraceIs(log, id, c, r, all, n, live, aborted)
  }

  ghost predicate TraceInv(log: seq<Posted>, accepted: map<Controller, RequestId>,
                           opener: map<StreamId, Controller>, produced: map<StreamId, seq<string>>,
                           pumps: map<StreamId, PumpTask>, aborted: set<Controller>) {
    && (forall id {:trigger StreamLog(log, id)} :: id !in opener ==> StreamLog(log, id) == [])
    && (forall id {:trigger opener[id]} :: id in opener && id in produced && opener[id] in accepted ==>
          Traced(StreamLog(log, id), id, opener[id], accepted[opener[id]], produced[id],
                 id in pumps, opener[id] in aborted))
  }

  // Which calls and streams are live.
  ghost predicate LiveInv(s: State) {
    && PendingInv(s.pending, s.rt.calls, s.rt.aborted)
    && StreamsInv(s.streams, s.rt.pumps, s.rt.aborted)
  }

  // What they posted.
  ghost predicate PostedInv(s: State) {
    && AnswerInv(s.history.log, s.history.accepted, s.rt.calls, s.rt.aborted)
    && TraceInv(s.history.log, s.history.accepted, s.history.opener, s.history.produced, s.rt.pumps, s.rt.aborted)
  }

  ghost predicate OrpcInv(s: State) {
    LiveInv(s) && PostedInv(s)
  }

  // The index agrees with the list, and results were applied in the order of their generations.
  ghost predicate ListsInv(workspaces: seq<Workspace>, byId: map<WorkspaceId, Workspace>, generation: nat,
                           applied: seq<nat>, refreshes: map<nat, RefreshPoint>) {
    && byId == IndexById(workspaces)
    && (forall i :: 0 <= i < |applied| ==> applied[i] <= generation)
    && (forall i, j :: 0 <= i < j < |applied| ==> applied[i] < applied[j])
    && (forall g :: g in refreshes && refreshes[g].Loading? ==> g !in applied)
  }

  ghost predicate RefreshInv(s: State) {
    ListsInv(s.workspaces, s.workspacesById, s.generation, s.history.applied, s.rt.refreshes)
  }

  ghost predicate Inv(s: State) {
    Fresh(s) && ChatInv(s) && OrpcInv(s) && RefreshInv(s)
  }

  // ---------- frames ----------

  // Nothing about calls and streams changed.
  ghost predicate QuietForOrpc(s: State, t: State) {
    && t.pending == s.pending && t.streams == s.streams
    && t.rt.calls == s.rt.calls && t.rt.pumps == s.rt.pumps
    && t.history.accepted == s.history.accepted
    && t.history.opener == s.history.opener && t.history.produced == s.history.produced
    && s.rt.aborted <= t.rt.aborted
    && (forall c :: c in t.rt.aborted && c !in s.rt.aborted ==> c !in s.history.accepted)
    && GrewQuietly(s.history.log, t.history.log)
  }

  // Nothing about the list of workspaces and its refreshes changed.
  ghost predicate SameLists(s: State, t: State) {
    && t.workspaces == s.workspaces && t.workspacesById == s.workspacesById && t.generation == s.generation
    && t.history.applied == s.history.applied && t.rt.refreshes == s.rt.refreshes
  }

  // Nothing about the subscription and the workspaces changed.
  ghost predicate QuietForChat(s: State, t: State) {
    && t.subscription == s.subscription && t.subscribed == s.subscribed
    && t.rt.chats == s.rt.chats && t.view == s.view && t.nextView == s.nextView && t.history.replaced == s.history.replaced
    && s.rt.aborted <= t.rt.aborted
    && (forall c :: c in t.rt.aborted && c !in s.rt.aborted ==> c !in s.rt.chats)
    && GrewOffChat(s.history.log, t.history.log)
    && SameLists(s, t)
  }

  lemma OrpcFrame(s: State, t: State)
    requires Fresh(s) && OrpcInv(s) && QuietForOrpc(s, t)
    ensures OrpcInv(t)
  {
    QuietGrowth(s.history.log, t.history.log);
  }

  lemma ChatFrame(s: State, t: State)
    requires ChatInv(s) && QuietForChat(s, t)
    ensures ChatInv(t)
  {
    OffChatGrowth(s.history.log, t.history.log);
  }
}
