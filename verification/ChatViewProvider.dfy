/** The chat view provider in the program's own form: one object whose fields every segment updates.
    Each method is one segment between awaits and is proved to take the step of `ChatProtocol` that
    the invariants of `ChatInvariants` speak about. */
module ChatViewProvider {
  import opened Wrappers
  import opened ChatProtocol

  class MuxChatViewProvider {
    var view: Option<nat>
    var nextView: nat
    var isWebviewReady: bool
    var nextWebviewMessageSeq: nat
    var connectionMode: Mode
    var workspaces: seq<Workspace>
    var workspacesById: map<WorkspaceId, Workspace>
    var refreshWorkspacesGeneration: nat
    var selectedWorkspaceId: Option<WorkspaceId>
    var pendingOrpcCalls: map<RequestId, Controller>
    var activeOrpcStreams: map<StreamId, Controller>
    var subscribedWorkspaceId: Option<WorkspaceId>
    var subscriptionAbort: Option<Controller>
    var rt: Runtime
    ghost var history: History

    ghost function Model(): (s: State)
      reads this
    {
      State(view, nextView, isWebviewReady, nextWebviewMessageSeq, connectionMode, workspaces, workspacesById,
            refreshWorkspacesGeneration, selectedWorkspaceId, pendingOrpcCalls, activeOrpcStreams,
            subscribedWorkspaceId, subscriptionAbort, rt, history)
    }

    constructor (stored: Option<WorkspaceId>)
      ensures Model() == Init(stored)
    {
      view, nextView, isWebviewReady, nextWebviewMessageSeq := None, 0, false, 1;
      connectionMode, workspaces, workspacesById, refreshWorkspacesGeneration := File, [], map[], 0;
      selectedWorkspaceId, subscribedWorkspaceId, subscriptionAbort := stored, None, None;
      pendingOrpcCalls, activeOrpcStreams := map[], map[];
      rt, history := EmptyRuntime, EmptyHistory;
    }

    method PostMessage(message: Message)
      modifies this
      ensures Model() == Post(old(Model()), message)
    {
      history := history.(log := history.log + [Entry(Model(), message)]);
      if view.None? { return; }
      if !isWebviewReady { return; }
      nextWebviewMessageSeq := nextWebviewMessageSeq + 1;
    }

    method AbortOne(c: Controller)
      modifies this`rt
      ensures Model() == Abort(old(Model()), {c})
    {
      rt := rt.(aborted := rt.aborted + {c});
    }

    method AbortAll(cs: set<Controller>)
      modifies this`rt
      ensures Model() == Abort(old(Model()), cs)
    {
      var rest := cs;
      while rest != {}
        invariant rest <= cs
        invariant rt == old(rt).(aborted := old(rt.aborted) + (cs - rest))
        decreases rest
      {
        var c :| c in rest;
        AbortOne(c);
        rest := rest - {c};
      }
    }

    method ClearSubscription()
      modifies this
      ensures Model() == DropSubscription(old(Model()))
    {
      if subscriptionAbort.Some? { AbortOne(subscriptionAbort.value); }
      subscriptionAbort := None;
      subscribedWorkspaceId := None;
    }

    method DisposeProvider()
      modifies this
      ensures Model() == Dispose(old(Model()))
    {
      ClearSubscription();
      AbortAll(pendingOrpcCalls.Values);
      pendingOrpcCalls := map[];
      AbortAll(activeOrpcStreams.Values);
      activeOrpcStreams := map[];
    }

    method ResolveWebviewView()
      modifies this
      ensures Model() == Step(old(Model()), ResolveView)
    {
      history := history.(replaced := subscriptionAbort.Some?);
      view, nextView := Some(nextView), nextView + 1;
      isWebviewReady := false;
    }

    method OnDidDispose()
      modifies this
      ensures Model() == Step(old(Model()), ViewDisposed)
    {
      view := None;
      isWebviewReady := false;
      DisposeProvider();
    }

    // ---------- the subscription ----------

    method UpdateChatSubscription(resume: bool)
      modifies this
      ensures Model() == UpdateSubscription(old(Model()), resume)
    {
      if !isWebviewReady || view.None? {
        Return(resume);
        return;
      }
      if selectedWorkspaceId.None? || selectedWorkspaceId.value == "" || connectionMode != Api {
        ClearSubscription();
        Return(resume);
        return;
      }
      if subscribedWorkspaceId == selectedWorkspaceId && subscriptionAbort.Some? && subscriptionAbort.value !in rt.aborted {
        Return(resume);
        return;
      }
      ReplaceSubscription(resume);
      PostMessage(ChatReset(selectedWorkspaceId.value));
    }

    method ReplaceSubscription(resume: bool)
      requires selectedWorkspaceId.Some?
      modifies this
      ensures Model() == OpenSubscription(old(Model()), resume)
    {
      if subscriptionAbort.Some? { AbortOne(subscriptionAbort.value); }
      var controller := rt.nextController;
      rt := rt.(nextController := controller + 1,
                chats := rt.chats[controller := ChatTask(selectedWorkspaceId.value, Connecting, resume)]);
      subscriptionAbort := Some(controller);
      subscribedWorkspaceId := selectedWorkspaceId;
      history := history.(replaced := false);
    }

    // The caller that awaited updateChatSubscription goes on.
    method Return(resume: bool)
      modifies this`rt
      ensures Model() == Resume(old(Model()), resume)
    {
      if resume { rt := rt.(resumes := rt.resumes + 1); }
    }

    method EndSubscription(controller: Controller)
      requires controller in rt.chats
      modifies this
      ensures Model() == FinishChat(old(Model()), controller)
    {
      if subscriptionAbort == Some(controller) {
        subscriptionAbort := None;
        subscribedWorkspaceId := None;
      }
      var resume := rt.chats[controller].resume;
      rt := rt.(chats := rt.chats - {controller});
      Return(resume);
    }

    method OnClientReady(controller: Controller)
      requires Enabled(Model(), ClientReady(controller))
      modifies this`rt
      ensures Model() == Step(old(Model()), ClientReady(controller))
    {
      rt := rt.(chats := rt.chats[controller := rt.chats[controller].(at := Opening)]);
    }

    method OnChatOpened(controller: Controller)
      requires Enabled(Model(), ChatOpened(controller))
      modifies this`rt
      ensures Model() == Step(old(Model()), ChatOpened(controller))
    {
      rt := rt.(chats := rt.chats[controller := rt.chats[controller].(at := Looping)]);
    }

    method OnClientFailed(controller: Controller)
      requires Enabled(Model(), ClientFailed(controller))
      modifies this
      ensures Model() == FailClient(old(Model()), controller)
    {
      connectionMode := File;
      PostMessage(ConnectionStatus(File));
      PostMessage(UiNotice);
      AbortOne(controller);
      EndSubscription(controller);
    }

    method OnChatEvent(controller: Controller, event: string)
      requires Enabled(Model(), ChatArrived(controller, event))
      modifies this
      ensures Model() == ReceiveChat(old(Model()), controller, event)
    {
      var workspaceId := rt.chats[controller].workspaceId;
      if controller in rt.aborted || selectedWorkspaceId != Some(workspaceId) {
        rt := rt.(chats := rt.chats[controller := rt.chats[controller].(at := Closing)]);
        return;
      }
      PostMessage(ChatEvent(workspaceId, event));
    }

    method OnChatThrew(controller: Controller)
      requires Enabled(Model(), ChatThrew(controller))
      modifies this
      ensures Model() == ThrowChat(old(Model()), controller)
    {
      if controller !in rt.aborted { PostMessage(UiNotice); }
      EndSubscription(controller);
    }

    // ---------- the selection and the list of workspaces ----------

    method SetSelectedWorkspaceId(workspaceId: Option<WorkspaceId>)
      modifies this
      ensures Model() == ChooseWorkspace(old(Model()), workspaceId)
    {
      if workspaceId == selectedWorkspaceId {
        PostMessage(SetSelectedWorkspace(workspaceId));
        UpdateChatSubscription(false);
        return;
      }
      StoreSelectedWorkspaceId(workspaceId, None);
    }

    method StoreSelectedWorkspaceId(workspaceId: Option<WorkspaceId>, refresh: Option<nat>)
      modifies this
      ensures Model() == StartSelect(old(Model()), workspaceId, refresh)
    {
      selectedWorkspaceId := workspaceId;
      rt := rt.(nextTask := rt.nextTask + 1, selects := rt.selects[rt.nextTask := SelectTask(workspaceId, refresh)]);
    }

    method OnSelectionStored(task: nat)
      requires Enabled(Model(), SelectStored(task))
      modifies this
      ensures Model() == StoreSelection(old(Model()), task)
    {
      var chosen := rt.selects[task];
      rt := rt.(selects := rt.selects - {task});
      PostMessage(SetSelectedWorkspace(chosen.workspaceId));
      UpdateChatSubscription(chosen.refresh.Some?);
    }

    // The rejection ends the handler with a notice, or lands in the refresh that awaits it.
    method OnSelectionStoreFailed(task: nat)
      requires Enabled(Model(), SelectStoreFailed(task))
      modifies this
      ensures Model() == FailSelection(old(Model()), task)
    {
      var refresh := rt.selects[task].refresh;
      rt := rt.(selects := rt.selects - {task});
      if refresh.Some? { OnRefreshError(refresh.value); } else { PostMessage(UiNotice); }
    }

    method StartRefreshWorkspaces()
      modifies this
      ensures Model() == StartRefresh(old(Model()))
    {
      refreshWorkspacesGeneration := refreshWorkspacesGeneration + 1;
      rt := rt.(refreshes := rt.refreshes[refreshWorkspacesGeneration := Loading]);
    }

    method OnReady()
      modifies this
      ensures Model() == Step(old(Model()), Ready)
    {
      isWebviewReady := true;
      PostMessage(SetSelectedWorkspace(selectedWorkspaceId));
      StartRefreshWorkspaces();
    }

    // new Map(workspaces.map((w) => [w.id, w]))
    method BuildIndex(ws: seq<Workspace>) returns (byId: map<WorkspaceId, Workspace>)
      ensures byId == IndexById(ws)
    {
      byId := map[];
      for i := 0 to |ws|
        invariant byId == IndexById(ws[..i])
      {
        assert ws[..i + 1][..i] == ws[..i];
        byId := byId[ws[i].id := ws[i]];
      }
      assert ws[..|ws|] == ws;
    }

    method OnWorkspacesLoaded(generation: nat, mode: Mode, loaded: seq<Workspace>)
      requires Enabled(Model(), RefreshLoaded(generation, mode, loaded))
      modifies this
      ensures Model() == ApplyRefresh(old(Model()), generation, mode, loaded)
    {
      rt := rt.(refreshes := rt.refreshes - {generation});
      if generation != refreshWorkspacesGeneration { return; }
      PublishWorkspaces(generation, mode, loaded);
      CheckSelection(generation);
    }

    method PublishWorkspaces(generation: nat, mode: Mode, loaded: seq<Workspace>)
      modifies this
      ensures Model() == AcceptRefresh(old(Model()), generation, mode, loaded)
    {
      connectionMode := mode;
      workspaces := loaded;
      workspacesById := BuildIndex(workspaces);
      history := history.(applied := history.applied + [generation]);
      assert Model() == old(Model()).(mode := mode, workspaces := loaded, workspacesById := IndexById(loaded),
                                      history := old(history).(applied := old(history).applied + [generation]));
      PostMessage(ConnectionStatus(connectionMode));
      PostMessage(Workspaces(workspaces));
    }

    method CheckSelection(generation: nat)
      modifies this
      ensures Model() == ReviseSelection(old(Model()), generation)
    {
      if selectedWorkspaceId.Some? && selectedWorkspaceId.value != "" && selectedWorkspaceId.value !in workspacesById {
        StoreSelectedWorkspaceId(None, Some(generation));
        return;
      }
      UpdateChatSubscription(false);
    }

    // The refresh that awaited updateChatSubscription, or cleared the selection, goes on.
    method OnRefreshResumed()
      requires Enabled(Model(), RefreshResumed)
      modifies this
      ensures Model() == Step(old(Model()), RefreshResumed)
    {
      rt := rt.(resumes := rt.resumes - 1);
      UpdateChatSubscription(false);
    }

    method OnRefreshError(generation: nat)
      modifies this
      ensures Model() == RefreshCatch(old(Model()), generation)
    {
      connectionMode, workspaces, workspacesById := File, [], map[];
      assert Model() == old(Model()).(mode := File, workspaces := [], workspacesById := map[]);
      ClearSubscription();
      selectedWorkspaceId := None;
      rt := rt.(refreshes := rt.refreshes[generation := StoringError]);
    }

    method OnRefreshErrorStored(generation: nat)
      requires Enabled(Model(), RefreshErrorStored(generation))
      modifies this
      ensures Model() == StoreRefreshError(old(Model()), generation)
    {
      rt := rt.(refreshes := rt.refreshes - {generation});
      PostMessage(ConnectionStatus(connectionMode));
      PostMessage(Workspaces([]));
      PostMessage(SetSelectedWorkspace(None));
      PostMessage(UiNotice);
    }

    method OnRefreshErrorStoreFailed(generation: nat)
      requires Enabled(Model(), RefreshErrorStoreFailed(generation))
      modifies this
      ensures Model() == Step(old(Model()), RefreshErrorStoreFailed(generation))
    {
      rt := rt.(refreshes := rt.refreshes - {generation});
      PostMessage(UiNotice);
    }

    // ---------- ORPC ----------

    method FinishOrpcCall(controller: Controller, requestId: RequestId)
      modifies this
      ensures Model() == FinishCall(old(Model()), controller, requestId)
    {
      if requestId in pendingOrpcCalls && pendingOrpcCalls[requestId] == controller {
        pendingOrpcCalls := pendingOrpcCalls - {requestId};
      }
      rt := rt.(calls := rt.calls - {controller});
    }

    method RespondAndFinish(controller: Controller, requestId: RequestId, reply: Reply)
      modifies this
      ensures Model() == Answer(old(Model()), controller, requestId, reply)
    {
      PostMessage(OrpcResponse(requestId, Some(controller), reply));
      FinishOrpcCall(controller, requestId);
    }

    method OnOrpcCall(requestId: RequestId, allowed: bool)
      modifies this
      ensures Model() == AcceptCall(old(Model()), requestId, allowed)
    {
      if requestId in pendingOrpcCalls {
        PostMessage(OrpcResponse(requestId, None, Failed));
        return;
      }
      var controller := rt.nextController;
      rt := rt.(nextController := controller + 1, calls := rt.calls[controller := CallTask(requestId, AwaitingClient)]);
      pendingOrpcCalls := pendingOrpcCalls[requestId := controller];
      history := history.(accepted := history.accepted[controller := requestId]);
      if !allowed || connectionMode != Api { RespondAndFinish(controller, requestId, Failed); }
    }

    method OnCallClient(controller: Controller, client: ClientOutcome)
      requires Enabled(Model(), CallClient(controller, client))
      modifies this
      ensures Model() == AdvanceCall(old(Model()), controller, client)
    {
      var requestId := rt.calls[controller].requestId;
      if controller in rt.aborted {
        FinishOrpcCall(controller, requestId);
      } else if client == ProcedureCalled {
        rt := rt.(calls := rt.calls[controller := CallTask(requestId, AwaitingResult)]);
      } else {
        RespondAndFinish(controller, requestId, Failed);
      }
    }

    method OnCallResult(controller: Controller, result: CallOutcome)
      requires Enabled(Model(), CallResult(controller, result))
      modifies this
      ensures Model() == CompleteCall(old(Model()), controller, result)
    {
      var requestId := rt.calls[controller].requestId;
      if controller in rt.aborted {
        FinishOrpcCall(controller, requestId);
        return;
      }
      match result
      case Returned(value) => RespondAndFinish(controller, requestId, Value(value));
      case Rejected => RespondAndFinish(controller, requestId, Failed);
      case Iterable =>
        var streamId := StartStream(controller);
        RespondAndFinish(controller, requestId, Stream(streamId));
    }

    method StartStream(controller: Controller) returns (streamId: StreamId)
      modifies this
      ensures Model() == OpenStream(old(Model()), controller) && streamId == old(rt.nextStream)
    {
      streamId := rt.nextStream;
      activeOrpcStreams := activeOrpcStreams[streamId := controller];
      rt := rt.(nextStream := streamId + 1, pumps := rt.pumps[streamId := PumpTask(controller, false)]);
      history := history.(opener := history.opener[streamId := controller],
                          produced := history.produced[streamId := []]);
    }

    method HandleOrpcCancel(requestId: RequestId)
      modifies this
      ensures Model() == CancelCall(old(Model()), requestId)
    {
      if requestId !in pendingOrpcCalls { return; }
      AbortOne(pendingOrpcCalls[requestId]);
      pendingOrpcCalls := pendingOrpcCalls - {requestId};
    }

    method HandleOrpcStreamCancel(streamId: StreamId)
      modifies this
      ensures Model() == CancelStream(old(Model()), streamId)
    {
      if streamId !in activeOrpcStreams { return; }
      AbortOne(activeOrpcStreams[streamId]);
      activeOrpcStreams := activeOrpcStreams - {streamId};
    }

    method OnStreamValue(streamId: StreamId, value: string)
      requires Enabled(Model(), PumpValue(streamId, value))
      modifies this
      ensures Model() == PumpOne(old(Model()), streamId, value)
    {
      history := Yield(Model(), streamId, value).history;
      if rt.pumps[streamId].controller in rt.aborted {
        rt := rt.(pumps := rt.pumps[streamId := rt.pumps[streamId].(closing := true)]);
        return;
      }
      PostMessage(StreamData(streamId, value));
    }

    method OnStreamOver(streamId: StreamId, threw: bool)
      requires streamId in rt.pumps
      modifies this
      ensures Model() == EndPump(old(Model()), streamId, threw)
    {
      if threw && rt.pumps[streamId].controller !in rt.aborted {
        PostMessage(StreamError(streamId));
      } else {
        PostMessage(StreamEnd(streamId));
      }
      activeOrpcStreams := activeOrpcStreams - {streamId};
      rt := rt.(pumps := rt.pumps - {streamId});
    }
  }
}
