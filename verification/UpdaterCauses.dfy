/** Where every status of the updater comes from, and what each event leads to. */
module UpdaterCauses {
  import opened Wrappers
  import opened Updater

  // A real updater starts idle. A simulated one starts with its version available, unless the check is to fail.
  lemma StartIs(channel: Channel, fake: Option<string>, fail: Option<Phase>)
    ensures var s := Init(channel, fake, fail);
      && s.status == (if fake.Some? && fail != Some(Check) then Available(fake.value) else Idle)
      && s.checkSource == Auto && s.checkTimeout.None? && s.channel == channel && s.fakeVersion == fake
      && s.failPhase == (if fake.Some? then fail else None) && s.subscribers == {}
      && (forall phase :: phase in s.attempts && s.attempts[phase] == 0)
      && s.rt.timers == {} && s.rt.checks == 0 && s.rt.downloads == 0 && s.rt.fakeChecks == 0 && s.rt.fakeDownloads == map[]
  {
    forall phase ensures phase in NO_ATTEMPTS && NO_ATTEMPTS[phase] == 0 {
      assert phase == Check || phase == Download || phase == Install;
    }
  }

  // ---------- the platform's verdict ----------

  // What the platform said last about updates, if anything.
  function LastVerdict(es: seq<Event>, before: Option<Status>): Option<Status> {
    if es == [] then before
    else LastVerdict(es[1..], match es[0]
                              case UpdateAvailable(version) => Some(Available(version))
                              case UpdateNotAvailable => Some(UpToDate)
                              case _ => before)
  }

  // An update is shown as available, or as not, only on that word.
  predicate OnItsWord(status: Status, verdict: Option<Status>) {
    status.Available? || status.UpToDate? ==> verdict == Some(status)
  }

  lemma {:induction false} RunOnItsWord(s: State, es: seq<Event>, before: Option<Status>)
    requires s.fakeVersion.None? && TimerInv(s) && ValidRun(s, es) && OnItsWord(s.status, before)
    ensures OnItsWord(Run(s, es).status, LastVerdict(es, before))
    decreases |es|
  {
    if es != [] {
      StepKeepsTimer(s, es[0]);
      RunOnItsWord(Step(s, es[0]), es[1..], match es[0]
                                            case UpdateAvailable(version) => Some(Available(version))
                                            case UpdateNotAvailable => Some(UpToDate)
                                            case _ => before);
    }
  }

  // In every run of a real updater, what is shown as available or up to date is what the platform said last.
  lemma StatusIsTheVerdict(channel: Channel, fail: Option<Phase>, es: seq<Event>)
    requires ValidRun(Init(channel, None, fail), es)
    ensures OnItsWord(Run(Init(channel, None, fail), es).status, LastVerdict(es, None))
  {
    RunOnItsWord(Init(channel, None, fail), es, None);
  }

  // An update that is announced can be downloaded, and one that is downloaded can be installed.
  lemma AnnouncedCanBeDownloaded(s: State, version: string)
    requires s.fakeVersion.None?
    ensures var t := Step(s, UpdateAvailable(version));
      && t.status == Available(version) && t.checkTimeout.None?
      && Step(t, DownloadUpdate).rt.downloads == s.rt.downloads + 1 && Step(t, DownloadUpdate).status == Available(version)
      && Enabled(Step(t, DownloadUpdate), DownloadResolved)
    ensures var t := Step(s, UpdateDownloaded(version));
      && t.status == Downloaded(version)
      && (forall m :: Step(t, InstallUpdate(Some(m))).status == Failed(Install, Thrown(m)))
      && Step(t, InstallUpdate(None)).status == Downloaded(version)
    ensures Step(s, UpdateNotAvailable).status == UpToDate && Step(s, UpdateNotAvailable).checkTimeout.None?
    ensures forall percent :: Step(s, DownloadProgress(percent)).status == Downloading(percent)
    ensures Step(s, CheckingForUpdate).status == Checking
  {
  }

  // ---------- checks ----------

  // A check that is asked for: what is busy is left alone, except that a request by hand makes a running check one by
  // hand. Otherwise the check runs, with a fresh timer if it is a real one, or has failed at once without any.
  lemma CheckIsRequested(s: State, source: Option<Source>, threw: Option<string>)
    requires TimerInv(s)
    ensures var t := Step(s, CheckForUpdates(source, threw));
      && (Busy(s.status) ==>
            t == s.(checkSource := if s.status.Checking? && source == Some(Manual) then Manual else s.checkSource))
      && (!Busy(s.status) ==>
            && t.checkSource == (if source == Some(Manual) then Manual else Auto)
            && (s.fakeVersion.Some? ==> t.status == Checking && t.rt.fakeChecks == s.rt.fakeChecks + 1 && t.rt.timers == {})
            && (s.fakeVersion.None? && threw.Some? ==>
                  t.status == Failed(Check, Thrown(threw.value)) && t.rt.timers == {} && t.rt.checks == s.rt.checks)
            && (s.fakeVersion.None? && threw.None? ==>
                  t.status == Checking && t.checkTimeout == Some(s.rt.nextTimer) && t.rt.timers == {s.rt.nextTimer}
                  && t.rt.checks == s.rt.checks + 1))
  {
  }

  // How a real check ends. Only a transient problem of an automatic check, or the timeout of one, is quiet.
  lemma CheckEnds(s: State, message: string, transient: bool, timer: TimerId)
    requires TimerInv(s) && s.status.Checking?
    ensures var t := Step(s, UpdaterError(message, transient));
      t.rt.timers == {} && t.status == if transient && s.checkSource == Auto then Idle else Failed(Check, Thrown(message))
    ensures s.rt.checks > 0 ==>
      var t := Step(s, CheckRejected(message, transient));
      && t.rt.timers == {} && t.rt.checks == s.rt.checks - 1
      && t.status == if transient && s.checkSource == Auto then Idle else Failed(Check, Thrown(message))
    ensures timer in s.rt.timers ==>
      var t := Step(s, TimeoutFired(timer));
      t.rt.timers == {} && t.status == if s.checkSource == Auto then Idle else Failed(Check, TimedOut)
    ensures s.rt.checks > 0 ==> Step(s, CheckResolved).status == Checking && Step(s, CheckResolved).rt.checks == s.rt.checks - 1
  {
  }

  // A timer that fires late does nothing, and any other error is one of the phase that was going on or had failed.
  lemma LateEventsFail(s: State, message: string, transient: bool, timer: TimerId)
    requires TimerInv(s) && !s.status.Checking?
    ensures timer in s.rt.timers ==> Step(s, TimeoutFired(timer)).status == s.status
    ensures Step(s, UpdaterError(message, transient)).status.Failed?
            && Step(s, UpdaterError(message, transient)).status.cause == Thrown(message)
    ensures Step(s, UpdaterError(message, transient)).status.phase ==
            if s.status.Downloading? then Download
            else if s.status.Downloaded? then Install
            else if s.status.Failed? then s.status.phase
            else Check
    ensures s.rt.downloads > 0 ==>
      var t := Step(s, DownloadRejected(message));
      t.status == Failed(Download, Thrown(message)) && t.rt.downloads == s.rt.downloads - 1
  {
  }

  // ---------- downloads, installs, channels ----------

  // A download is accepted exactly when it makes sense.
  lemma DownloadIsGuarded(s: State)
    ensures Step(s, DownloadUpdate) != s <==> s.status.Available? || (s.status.Failed? && s.status.phase == Download)
  {
    if CanDownload(s.status) {
      if s.fakeVersion.Some? {
        assert Step(s, DownloadUpdate).rt.nextFake != s.rt.nextFake;
      } else {
        assert Step(s, DownloadUpdate).rt.downloads != s.rt.downloads;
      }
    }
  }

  // So are an install and another channel.
  lemma RequestsAreGuarded(s: State, threw: Option<string>, channel: Channel)
    ensures !(s.status.Downloaded? || (s.status.Failed? && s.status.phase == Install)) ==> Step(s, InstallUpdate(threw)) == s
    ensures s.fakeVersion.None? && threw.Some? && (s.status.Downloaded? || (s.status.Failed? && s.status.phase == Install)) ==>
              Step(s, InstallUpdate(threw)).status == Failed(Install, Thrown(threw.value))
    ensures var t := Step(s, SetChannel(channel));
      if channel == s.channel || s.status.Checking? || s.status.Downloading? || s.status.Downloaded? then t == s
      else t.channel == channel && t.status == Idle
  {
  }

  // Who does not subscribe, or no longer, hears nothing.
  lemma StrangersHearNothing(s: State, e: Event, k: Subscriber)
    requires Enabled(s, e) && k !in s.subscribers && k in s.heard
    ensures k in Step(s, e).heard && Step(s, e).heard[k] == s.heard[k]
    ensures k in Step(s, e).subscribers <==> e == Subscribe(k)
  {
    if IsCall(e) { CallIsUnheard(s, e, k); }
  }

  lemma CallIsUnheard(s: State, e: Event, k: Subscriber)
    requires Enabled(s, e) && k !in s.subscribers && k in s.heard && IsCall(e)
    ensures k in Step(s, e).heard && Step(s, e).heard[k] == s.heard[k] && k !in Step(s, e).subscribers
  {
  }

  // ---------- simulated updates ----------

  // A simulated check ends as it is told to.
  lemma SimulatedCheckEnds(s: State)
    requires s.fakeVersion.Some? && s.rt.fakeChecks > 0
    ensures var t := Step(s, FakeCheckDone);
      && t.rt.fakeChecks == s.rt.fakeChecks - 1
      && (s.failPhase != Some(Check) ==> t.status == Available(s.fakeVersion.value))
      && (s.failPhase == Some(Check) && Check in s.attempts ==>
            t.status == Failed(Check, Simulated(s.attempts[Check] + 1)) && t.attempts == s.attempts[Check := s.attempts[Check] + 1])
  {
  }

  // The turns of a loop.
  function Ticks(loop: nat, n: nat): seq<Event> {
    if n == 0 then [] else [FakeDownloadTick(loop)] + Ticks(loop, n - 1)
  }

  // A simulated download that shall not fail passes every ten percent and is downloaded after a hundred.
  lemma {:induction false} SimulatedDownloadEnds(s: State, loop: nat, n: nat)
    requires s.fakeVersion.Some? && s.failPhase != Some(Download)
    requires loop in s.rt.fakeDownloads && s.rt.fakeDownloads[loop] + 10 * n == 100
    ensures ValidRun(s, Ticks(loop, n)) && (n > 0 ==> Run(s, Ticks(loop, n)).status == Downloading(90))
    ensures ValidRun(s, Ticks(loop, n + 1))
    ensures var t := Run(s, Ticks(loop, n + 1)); t.status == Downloaded(s.fakeVersion.value) && loop !in t.rt.fakeDownloads
    decreases n
  {
    var t := Step(s, FakeDownloadTick(loop));
    assert Ticks(loop, n + 1)[1..] == Ticks(loop, n);
    if n > 0 {
      assert Ticks(loop, n)[1..] == Ticks(loop, n - 1);
      SimulatedDownloadEnds(t, loop, n - 1);
      if n == 1 { assert Ticks(loop, 0) == [] && t.status == Downloading(90); }
    }
  }

  // One that shall fail fails after forty.
  lemma {:induction false} SimulatedDownloadFails(s: State, loop: nat, n: nat)
    requires s.fakeVersion.Some? && s.failPhase == Some(Download) && Download in s.attempts
    requires loop in s.rt.fakeDownloads && s.rt.fakeDownloads[loop] + 10 * n == 40
    ensures ValidRun(s, Ticks(loop, n + 1))
    ensures var t := Run(s, Ticks(loop, n + 1));
      && t.status == Failed(Download, Simulated(s.attempts[Download] + 1)) && loop !in t.rt.fakeDownloads
      && t.attempts == s.attempts[Download := s.attempts[Download] + 1]
    decreases n
  {
    assert Ticks(loop, n + 1)[1..] == Ticks(loop, n);
    if n > 0 { SimulatedDownloadFails(Step(s, FakeDownloadTick(loop)), loop, n - 1); }
  }

  // A request starts such a loop, in the course it shall take; an install fails only if it shall.
  lemma SimulatedRequests(s: State, threw: Option<string>)
    requires s.fakeVersion.Some?
    ensures CanDownload(s.status) ==>
      var t := Step(s, DownloadUpdate);
      && t.status == Downloading(0) && s.rt.nextFake in t.rt.fakeDownloads
      && t.rt.fakeDownloads[s.rt.nextFake] == if s.failPhase == Some(Download) then 0 else 10
    ensures CanInstall(s.status) && Install in s.attempts ==>
      Step(s, InstallUpdate(threw)).status ==
      if s.failPhase == Some(Install) then Failed(Install, Simulated(s.attempts[Install] + 1)) else s.status
  {
  }
}
