/** The updater service in the program's own form: an object whose fields its methods and callbacks assign.
    Each is proved to take the step of `Updater` that the properties there speak about. */
module UpdaterService {
  import opened Wrappers
  import opened Updater

  class UpdaterService {
    const fakeVersion: Option<string>
    const failPhase: Option<Phase>
    var updateStatus: Status
    var checkSource: Source
    var checkTimeout: Option<TimerId>
    var currentChannel: Channel
    var debugFailureAttempts: map<Phase, nat>
    var subscribers: set<Subscriber>
    var rt: Runtime
    var heard: map<Subscriber, seq<Status>>

    ghost function Model(): State
      reads this
    {
      State(fakeVersion, failPhase, updateStatus, checkSource, checkTimeout, currentChannel, debugFailureAttempts,
            subscribers, rt, heard)
    }

    constructor (initialChannel: Channel, debugVersion: Option<string>, debugFailPhase: Option<Phase>)
      ensures Model() == Init(initialChannel, debugVersion, debugFailPhase)
    {
      updateStatus, checkSource, checkTimeout, currentChannel := Idle, Auto, None, initialChannel;
      debugFailureAttempts, subscribers, heard, rt := NO_ATTEMPTS, {}, map[], Runtime({}, 0, 0, 0, 0, map[], 0);
      fakeVersion := debugVersion;
      failPhase := if debugVersion.Some? then debugFailPhase else None;
      new;
      if fakeVersion.Some? && failPhase != Some(Check) { updateStatus := Available(fakeVersion.value); }
    }

    method NotifyRenderer()
      modifies this`heard
      ensures Model() == Become(old(Model()), updateStatus)
    {
      var rest := subscribers;
      while rest != {}
        invariant rest <= subscribers
        invariant heard == Told(subscribers - rest, old(heard), updateStatus)
        decreases rest
      {
        var k :| k in rest;
        rest := rest - {k};
        if k in heard { heard := heard[k := heard[k] + [updateStatus]]; }
      }
      assert subscribers - {} == subscribers;
    }

    method SetStatus(status: Status)
      modifies this`updateStatus, this`heard
      ensures Model() == Become(old(Model()), status)
    {
      updateStatus := status;
      NotifyRenderer();
    }

    method ClearCheckTimeout()
      modifies this`checkTimeout, this`rt
      ensures Model() == ClearTimeout(old(Model()))
    {
      if checkTimeout.Some? {
        rt := rt.(timers := rt.timers - {checkTimeout.value});
        checkTimeout := None;
      }
    }

    method SetCheckTimeout()
      modifies this`checkTimeout, this`rt
      ensures Model() == Arm(old(Model()))
    {
      checkTimeout := Some(rt.nextTimer);
      rt := rt.(timers := rt.timers + {rt.nextTimer}, nextTimer := rt.nextTimer + 1);
    }

    method SimulateFailure(phase: Phase)
      modifies this
      ensures Model() == Simulate(old(Model()), phase)
    {
      var attempt := (if phase in debugFailureAttempts then debugFailureAttempts[phase] else 0) + 1;
      debugFailureAttempts := debugFailureAttempts[phase := attempt];
      SetStatus(Failed(phase, Simulated(attempt)));
    }

    // ---------- events of the platform's updater ----------

    method OnCheckingForUpdate()
      modifies this
      ensures Model() == Step(old(Model()), CheckingForUpdate)
    {
      SetStatus(Checking);
    }

    method OnUpdateAvailable(version: string)
      modifies this
      ensures Model() == Step(old(Model()), UpdateAvailable(version))
    {
      ClearCheckTimeout();
      SetStatus(Available(version));
    }

    method OnUpdateNotAvailable()
      modifies this
      ensures Model() == Step(old(Model()), UpdateNotAvailable)
    {
      ClearCheckTimeout();
      SetStatus(UpToDate);
    }

    method OnDownloadProgress(percent: int)
      modifies this
      ensures Model() == Step(old(Model()), DownloadProgress(percent))
    {
      SetStatus(Downloading(percent));
    }

    method OnUpdateDownloaded(version: string)
      modifies this
      ensures Model() == Step(old(Model()), UpdateDownloaded(version))
    {
      SetStatus(Downloaded(version));
    }

    method OnError(message: string, transient: bool)
      modifies this
      ensures Model() == HearError(old(Model()), message, transient)
    {
      ClearCheckTimeout();
      if updateStatus.Checking? {
        if transient {
          if checkSource == Manual {
            SetStatus(Failed(Check, Thrown(message)));
            return;
          }
          SetStatus(Idle);
          return;
        }
        SetStatus(Failed(Check, Thrown(message)));
        return;
      }
      var phase := if updateStatus.Downloading? then Download
                   else if updateStatus.Downloaded? then Install
                   else if updateStatus.Failed? then updateStatus.phase
                   else Check;
      SetStatus(Failed(phase, Thrown(message)));
    }

    // ---------- checks ----------

    method CheckForUpdates(source: Option<Source>, threw: Option<string>)
      modifies this
      ensures Model() == RequestCheck(old(Model()), source, threw)
    {
      if Busy(updateStatus) {
        if updateStatus.Checking? && source == Some(Manual) { checkSource := Manual; }
        return;
      }
      checkSource := if source.Some? then source.value else Auto;
      StartCheck(threw);
    }

    method StartCheck(threw: Option<string>)
      modifies this
      ensures Model() == BeginCheck(old(Model()), checkSource, threw) && checkSource == old(checkSource)
    {
      ClearCheckTimeout();
      SetStatus(Checking);
      if fakeVersion.Some? {
        rt := rt.(fakeChecks := rt.fakeChecks + 1);
        return;
      }
      SetCheckTimeout();
      if threw.Some? {
        ClearCheckTimeout();
        SetStatus(Failed(Check, Thrown(threw.value)));
        return;
      }
      rt := rt.(checks := rt.checks + 1);
    }

    method OnCheckRejected(message: string, transient: bool)
      requires rt.checks > 0
      modifies this
      ensures Model() == RejectCheck(old(Model()), message, transient)
    {
      rt := rt.(checks := rt.checks - 1);
      ClearCheckTimeout();
      if transient {
        if checkSource == Manual {
          SetStatus(Failed(Check, Thrown(message)));
        } else {
          SetStatus(Idle);
        }
        return;
      }
      SetStatus(Failed(Check, Thrown(message)));
    }

    method OnTimeout(timer: TimerId)
      modifies this
      ensures Model() == FireTimeout(old(Model()), timer)
    {
      rt := rt.(timers := rt.timers - {timer});
      if updateStatus.Checking? {
        if checkSource == Manual {
          updateStatus := Failed(Check, TimedOut);
        } else {
          updateStatus := Idle;
        }
        NotifyRenderer();
      }
    }

    method OnFakeCheckDone()
      requires rt.fakeChecks > 0
      modifies this
      ensures Model() == EndFakeCheck(old(Model()))
    {
      rt := rt.(fakeChecks := rt.fakeChecks - 1);
      if failPhase == Some(Check) {
        SimulateFailure(Check);
      } else {
        SetStatus(Available(fakeVersion.GetOr("")));
      }
    }

    // ---------- downloads and installation ----------

    // Returns whether the call was accepted; the program throws when it is not.
    method DownloadUpdate() returns (accepted: bool)
      modifies this
      ensures Model() == RequestDownload(old(Model())) && accepted == CanDownload(old(updateStatus))
    {
      accepted := updateStatus.Available? || (updateStatus.Failed? && updateStatus.phase == Download);
      if !accepted { return; }
      if fakeVersion.Some? {
        SetStatus(Downloading(0));
        var first: nat := if failPhase == Some(Download) then 0 else 10;
        rt := rt.(fakeDownloads := rt.fakeDownloads[rt.nextFake := first], nextFake := rt.nextFake + 1);
        return;
      }
      rt := rt.(downloads := rt.downloads + 1);
    }

    method OnDownloadRejected(message: string)
      requires rt.downloads > 0
      modifies this
      ensures Model() == Step(old(Model()), DownloadRejected(message))
    {
      rt := rt.(downloads := rt.downloads - 1);
      SetStatus(Failed(Download, Thrown(message)));
    }

    method OnFakeDownloadTick(loop: nat)
      requires loop in rt.fakeDownloads
      modifies this
      ensures Model() == Tick(old(Model()), loop)
    {
      var percent := rt.fakeDownloads[loop];
      SetStatus(Downloading(percent));
      var last := if failPhase == Some(Download) then 40 else 100;
      if percent + 10 <= last {
        rt := rt.(fakeDownloads := rt.fakeDownloads[loop := percent + 10]);
        return;
      }
      rt := rt.(fakeDownloads := rt.fakeDownloads - {loop});
      if failPhase == Some(Download) {
        SimulateFailure(Download);
      } else {
        SetStatus(Downloaded(fakeVersion.GetOr("")));
      }
    }

    method InstallUpdate(threw: Option<string>) returns (accepted: bool)
      modifies this
      ensures Model() == RequestInstall(old(Model()), threw) && accepted == CanInstall(old(updateStatus))
    {
      accepted := updateStatus.Downloaded? || (updateStatus.Failed? && updateStatus.phase == Install);
      if !accepted { return; }
      if fakeVersion.Some? {
        if failPhase == Some(Install) { SimulateFailure(Install); }
        return;
      }
      if threw.Some? { SetStatus(Failed(Install, Thrown(threw.value))); }
    }

    // Returns whether the call was accepted; the program throws when it is not.
    method ChangeChannel(channel: Channel) returns (accepted: bool)
      modifies this
      ensures Model() == SwitchChannel(old(Model()), channel)
      ensures accepted <==> currentChannel == channel
    {
      if currentChannel == channel { return true; }
      if Busy(updateStatus) { return false; }
      currentChannel := channel;
      SetStatus(Idle);
      return true;
    }

    method AddListener(k: Subscriber)
      modifies this`subscribers, this`heard
      ensures Model() == AddSubscriber(old(Model()), k)
    {
      subscribers := subscribers + {k};
      if k !in heard { heard := heard[k := []]; }
    }

    method RemoveListener(k: Subscriber)
      modifies this`subscribers
      ensures Model() == Step(old(Model()), Unsubscribe(k))
    {
      subscribers := subscribers - {k};
    }
  }
}
