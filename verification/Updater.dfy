/** The desktop updater: one status changed by public calls, by events of the platform's updater, by timers
    and by promises that are rejected late. `Event`s name everything that can run next. */
module Updater {
  import opened Wrappers

  type TimerId = nat
  type Subscriber = nat

  datatype Phase = Check | Download | Install
  datatype Source = Auto | Manual
  datatype Channel = Stable | Nightly

  datatype Cause = Thrown(message: string) | TimedOut | Simulated(attempt: nat)

  datatype Status =
    | Idle
    | Checking
    | Available(version: string)
    | UpToDate
    | Downloading(percent: int)
    | Downloaded(version: string)
    | Failed(phase: Phase, cause: Cause)

  /** What the event loop holds for the service: the unfired and uncleared check timers, the promises of
      the platform's updater that are not settled, and the timers and loops of a simulated update. */
  datatype Runtime = Runtime(
    timers: set<TimerId>,
    nextTimer: TimerId,
    checks: nat,
    downloads: nat,
    fakeChecks: nat,
    fakeDownloads: map<nat, nat>,
    nextFake: nat)

  datatype State = State(
    fakeVersion: Option<string>,
    failPhase: Option<Phase>,
    status: Status,
    checkSource: Source,
    checkTimeout: Option<TimerId>,
    channel: Channel,
    attempts: map<Phase, nat>,
    subscribers: set<Subscriber>,
    rt: Runtime,
    heard: map<Subscriber, seq<Status>>)

  datatype Event =
    | CheckingForUpdate
    | UpdateAvailable(version: string)
    | UpdateNotAvailable
    | DownloadProgress(percent: int)
    | UpdateDownloaded(version: string)
    | UpdaterError(message: string, transient: bool)
    | CheckForUpdates(source: Option<Source>, threw: Option<string>)
    | CheckResolved
    | CheckRejected(message: string, transient: bool)
    | TimeoutFired(timer: TimerId)
    | FakeCheckDone
    | DownloadUpdate
    | DownloadResolved
    | DownloadRejected(message: string)
    | FakeDownloadTick(loop: nat)
    | InstallUpdate(threw: Option<string>)
    | SetChannel(channel: Channel)
    | Subscribe(subscriber: Subscriber)
    | Unsubscribe(subscriber: Subscriber)

  const NO_ATTEMPTS: map<Phase, nat> := map[Check := 0, Download := 0, Install := 0]

  // A simulated update starts out available, unless it is the check that shall fail.
  function Init(channel: Channel, fakeVersion: Option<string>, failPhase: Option<Phase>): State {
    var fail := if fakeVersion.Some? then failPhase else None;
    State(fakeVersion, fail,
          if fakeVersion.Some? && fail != Some(Check) then Available(fakeVersion.value) else Idle,
          Auto, None, channel, NO_ATTEMPTS, {}, Runtime({}, 0, 0, 0, 0, map[], 0), map[])
  }

  // ---------- building blocks ----------

  function Told(subscribers: set<Subscriber>, heard: map<Subscriber, seq<Status>>, status: Status): map<Subscriber, seq<Status>> {
    map k | k in heard :: if k in subscribers then heard[k] + [status] else heard[k]
  }

  // A change of the status, and its notification.
  function Become(s: State, status: Status): State {
    s.(status := status, heard := Told(s.subscribers, s.heard, status))
  }

  function ClearTimeout(s: State): State {
    s.(checkTimeout := None,
       rt := s.rt.(timers := if s.checkTimeout.Some? then s.rt.timers - {s.checkTimeout.value} else s.rt.timers))
  }

  function Arm(s: State): State {
    s.(checkTimeout := Some(s.rt.nextTimer),
       rt := s.rt.(timers := s.rt.timers + {s.rt.nextTimer}, nextTimer := s.rt.nextTimer + 1))
  }

  function Simulate(s: State, phase: Phase): State {
    var attempt := (if phase in s.attempts then s.attempts[phase] else 0) + 1;
    Become(s.(attempts := s.attempts[phase := attempt]), Failed(phase, Simulated(attempt)))
  }

  predicate Busy(status: Status) {
    status.Checking? || status.Downloading? || status.Downloaded?
  }

  // How a failed check ends: quietly only for a transient problem of an automatic check.
  function CheckFailure(source: Source, message: string, transient: bool): Status {
    if transient && source == Auto then Idle else Failed(Check, Thrown(message))
  }

  function ErrorPhase(status: Status): Phase {
    match status
    case Downloading(_) => Download
    case Downloaded(_) => Install
    case Failed(phase, _) => phase
    case _ => Check
  }

  // ---------- the handlers ----------

  function HearError(s: State, message: string, transient: bool): State {
    Become(ClearTimeout(s),
           if s.status.Checking? then CheckFailure(s.checkSource, message, transient)
           else Failed(ErrorPhase(s.status), Thrown(message)))
  }

  function BeginCheck(s: State, source: Source, threw: Option<string>): State {
    var t := Become(ClearTimeout(s.(checkSource := source)), Checking);
    if s.fakeVersion.Some? then t.(rt := t.rt.(fakeChecks := t.rt.fakeChecks + 1))
    else if threw.Some? then Become(ClearTimeout(Arm(t)), Failed(Check, Thrown(threw.value)))
    else var u := Arm(t); u.(rt := u.rt.(checks := u.rt.checks + 1))
  }

  function RequestCheck(s: State, source: Option<Source>, threw: Option<string>): State {
    if Busy(s.status) then
      s.(checkSource := if s.status.Checking? && source == Some(Manual) then Manual else s.checkSource)
    else BeginCheck(s, source.GetOr(Auto), threw)
  }

  function Settle(s: State): State
    requires s.rt.checks > 0
  {
    s.(rt := s.rt.(checks := s.rt.checks - 1))
  }

  function RejectCheck(s: State, message: string, transient: bool): State
    requires s.rt.checks > 0
  {
    Become(ClearTimeout(Settle(s)), CheckFailure(s.checkSource, message, transient))
  }

  function FireTimeout(s: State, timer: TimerId): State {
    var t := s.(rt := s.rt.(timers := s.rt.timers - {timer}));
    if !s.status.Checking? then t
    else Become(t, if s.checkSource == Manual then Failed(Check, TimedOut) else Idle)
  }

  function EndFakeCheck(s: State): State
    requires s.rt.fakeChecks > 0
  {
    var t := s.(rt := s.rt.(fakeChecks := s.rt.fakeChecks - 1));
    if s.failPhase == Some(Check) then Simulate(t, Check) else Become(t, Available(s.fakeVersion.GetOr("")))
  }

  predicate CanDownload(status: Status) {
    status.Available? || (status.Failed? && status.phase == Download)
  }

  function RequestDownload(s: State): State {
    if !CanDownload(s.status) then s
    else if s.fakeVersion.Some? then
      var t := Become(s, Downloading(0));
      t.(rt := t.rt.(fakeDownloads := t.rt.fakeDownloads[t.rt.nextFake := if s.failPhase == Some(Download) then 0 else 10],
                     nextFake := t.rt.nextFake + 1))
    else s.(rt := s.rt.(downloads := s.rt.downloads + 1))
  }

  // One turn of the loop of a simulated download, and what follows the last turn.
  function Tick(s: State, loop: nat): State
    requires loop in s.rt.fakeDownloads
  {
    var percent := s.rt.fakeDownloads[loop];
    var t := Become(s, Downloading(percent));
    var fails := s.failPhase == Some(Download);
    if percent + 10 <= (if fails then 40 else 100) then
      t.(rt := t.rt.(fakeDownloads := t.rt.fakeDownloads[loop := percent + 10]))
    else
      var u := t.(rt := t.rt.(fakeDownloads := t.rt.fakeDownloads - {loop}));
      if fails then Simulate(u, Download) else Become(u, Downloaded(s.fakeVersion.GetOr("")))
  }

  predicate CanInstall(status: Status) {
    status.Downloaded? || (status.Failed? && status.phase == Install)
  }

  function RequestInstall(s: State, threw: Option<string>): State {
    if !CanInstall(s.status) then s
    else if s.fakeVersion.Some? then (if s.failPhase == Some(Install) then Simulate(s, Install) else s)
    else if threw.Some? then Become(s, Failed(Install, Thrown(threw.value)))
    else s
  }

  function SwitchChannel(s: State, channel: Channel): State {
    if channel == s.channel || Busy(s.status) then s else Become(s.(channel := channel), Idle)
  }

  function AddSubscriber(s: State, k: Subscriber): State {
    s.(subscribers := s.subscribers + {k}, heard := if k in s.heard then s.heard else s.heard[k := []])
  }

  predicate Enabled(s: State, e: Event) {
    match e
    case CheckResolved => s.rt.checks > 0
    case CheckRejected(_, _) => s.rt.checks > 0
    case TimeoutFired(timer) => timer in s.rt.timers
    case FakeCheckDone => s.rt.fakeChecks > 0
    case DownloadResolved => s.rt.downloads > 0
    case DownloadRejected(_) => s.rt.downloads > 0
    case FakeDownloadTick(loop) => loop in s.rt.fakeDownloads
    case _ => true
  }

  function Step(s: State, e: Event): State
    requires Enabled(s, e)
  {
    match e
    case CheckingForUpdate => Become(s, Checking)
    case UpdateAvailable(version) => Become(ClearTimeout(s), Available(version))
    case UpdateNotAvailable => Become(ClearTimeout(s), UpToDate)
    case DownloadProgress(percent) => Become(s, Downloading(percent))
    case UpdateDownloaded(version) => Become(s, Downloaded(version))
    case UpdaterError(message, transient) => HearError(s, message, transient)
    case CheckForUpdates(source, threw) => RequestCheck(s, source, threw)
    case CheckResolved => Settle(s)
    case CheckRejected(message, transient) => RejectCheck(s, message, transient)
    case TimeoutFired(timer) => FireTimeout(s, timer)
    case FakeCheckDone => EndFakeCheck(s)
    case DownloadUpdate => RequestDownload(s)
    case DownloadResolved => s.(rt := s.rt.(downloads := s.rt.downloads - 1))
    case DownloadRejected(message) => Become(s.(rt := s.rt.(downloads := s.rt.downloads - 1)), Failed(Download, Thrown(message)))
    case FakeDownloadTick(loop) => Tick(s, loop)
    case InstallUpdate(threw) => RequestInstall(s, threw)
    case SetChannel(channel) => SwitchChannel(s, channel)
    case Subscribe(k) => AddSubscriber(s, k)
    case Unsubscribe(k) => s.(subscribers := s.subscribers - {k})
  }

  predicate ValidRun(s: State, es: seq<Event>)
    decreases |es|
  {
    es == [] || (Enabled(s, es[0]) && ValidRun(Step(s, es[0]), es[1..]))
  }

  function Run(s: State, es: seq<Event>): State
    requires ValidRun(s, es)
    decreases |es|
  {
    if es == [] then s else Run(Step(s, es[0]), es[1..])
  }

  // ---------- a check is always watched ----------

  // Something pending will end the check: its timer, or the timer of a simulated check.
  predicate Watching(s: State) {
    if s.fakeVersion.Some? then s.rt.fakeChecks > 0
    else s.checkTimeout.Some? && s.checkTimeout.value in s.rt.timers
  }

  predicate Watched(s: State) {
    s.status.Checking? ==> Watching(s)
  }

  // The check timer is the only one pending.
  ghost predicate OneTimer(timers: set<TimerId>, checkTimeout: Option<TimerId>, nextTimer: TimerId) {
    forall t :: t in timers ==> t < nextTimer && checkTimeout == Some(t)
  }

  // A simulated update asks nothing of the platform's updater, and a real one simulates nothing.
  ghost predicate OneMode(fakeVersion: Option<string>, rt: Runtime) {
    if fakeVersion.Some? then rt.timers == {} && rt.checks == 0 && rt.downloads == 0
    else rt.fakeChecks == 0 && rt.fakeDownloads == map[]
  }

  ghost predicate TimerInv(s: State) {
    OneTimer(s.rt.timers, s.checkTimeout, s.rt.nextTimer) && OneMode(s.fakeVersion, s.rt)
  }

  lemma StepKeepsOneTimer(s: State, e: Event)
    requires OneTimer(s.rt.timers, s.checkTimeout, s.rt.nextTimer) && Enabled(s, e)
    ensures var t := Step(s, e); OneTimer(t.rt.timers, t.checkTimeout, t.rt.nextTimer)
  {
  }

  lemma StepKeepsOneMode(s: State, e: Event)
    requires OneMode(s.fakeVersion, s.rt) && Enabled(s, e)
    ensures var t := Step(s, e); OneMode(t.fakeVersion, t.rt)
  {
  }

  lemma StepKeepsTimer(s: State, e: Event)
    requires TimerInv(s) && Enabled(s, e)
    ensures TimerInv(Step(s, e))
  {
    StepKeepsOneTimer(s, e);
    StepKeepsOneMode(s, e);
  }

  lemma StepKeepsWatched(s: State, e: Event)
    requires TimerInv(s) && Watched(s) && Enabled(s, e)
    requires e.CheckingForUpdate? ==> Watching(s)
    ensures Watched(Step(s, e))
  {
  }

  // The event that announces a check comes only while a check is watched.
  predicate Punctual(s: State, es: seq<Event>)
    requires ValidRun(s, es)
    decreases |es|
  {
    es == [] || ((es[0].CheckingForUpdate? ==> Watching(s)) && Punctual(Step(s, es[0]), es[1..]))
  }

  lemma {:induction false} RunKeepsTimer(s: State, es: seq<Event>)
    requires TimerInv(s) && ValidRun(s, es)
    ensures TimerInv(Run(s, es))
    decreases |es|
  {
    if es != [] {
      StepKeepsTimer(s, es[0]);
      RunKeepsTimer(Step(s, es[0]), es[1..]);
    }
  }

  // No punctual run leaves a check unwatched.
  lemma {:induction false} ChecksAreWatched(s: State, es: seq<Event>)
    requires TimerInv(s) && Watched(s) && ValidRun(s, es) && Punctual(s, es)
    ensures Watched(Run(s, es))
    decreases |es|
  {
    if es != [] {
      StepKeepsTimer(s, es[0]);
      StepKeepsWatched(s, es[0]);
      ChecksAreWatched(Step(s, es[0]), es[1..]);
    }
  }

  lemma ChecksAreWatchedFromTheStart(channel: Channel, fakeVersion: Option<string>, failPhase: Option<Phase>, es: seq<Event>)
    requires ValidRun(Init(channel, fakeVersion, failPhase), es) && Punctual(Init(channel, fakeVersion, failPhase), es)
    ensures var s := Run(Init(channel, fakeVersion, failPhase), es); TimerInv(s) && Watched(s)
  {
    var s := Init(channel, fakeVersion, failPhase);
    RunKeepsTimer(s, es);
    ChecksAreWatched(s, es);
  }

  // Calls of the service by the program.
  predicate PublicCall(e: Event) {
    e.CheckForUpdates? || e.DownloadUpdate? || e.InstallUpdate? || e.SetChannel? || e.Subscribe? || e.Unsubscribe?
  }

  lemma {:induction false} CallsLeaveChecking(s: State, es: seq<Event>)
    requires s.status.Checking? && ValidRun(s, es)
    requires forall i :: 0 <= i < |es| ==> PublicCall(es[i])
    ensures Run(s, es).status.Checking? && (!Watching(s) ==> !Watching(Run(s, es)))
    decreases |es|
  {
    if es != [] {
      assert PublicCall(es[0]);
      CallsLeaveChecking(Step(s, es[0]), es[1..]);
    }
  }

  // The proviso is exact: an announcement leaves the check watched if and only if it comes while one is,
  // and after a late one no call of the service gets the status away from checking.
  lemma LateAnnouncementSticks(s: State, calls: seq<Event>)
    requires ValidRun(Step(s, CheckingForUpdate), calls)
    requires forall i :: 0 <= i < |calls| ==> PublicCall(calls[i])
    ensures Watched(Step(s, CheckingForUpdate)) <==> Watching(s)
    ensures !Watching(s) ==> var t := Run(Step(s, CheckingForUpdate), calls); t.status.Checking? && !Watching(t)
  {
    CallsLeaveChecking(Step(s, CheckingForUpdate), calls);
  }

  // Such a late announcement: the check timed out before the platform's updater got going.
  lemma LateAnnouncementHappens() returns (es: seq<Event>)
    ensures ValidRun(Init(Stable, None, None), es)
    ensures var s := Run(Init(Stable, None, None), es); s.status.Checking? && !Watching(s)
  {
    es := [CheckForUpdates(None, None), TimeoutFired(0), CheckingForUpdate];
    var s0 := Init(Stable, None, None);
    var s1 := Step(s0, es[0]);
    var s2 := Step(s1, es[1]);
    var s3 := Step(s2, es[2]);
    assert es[1..][0] == es[1] && es[1..][1..][0] == es[2] && es[1..][1..][1..] == [];
    assert ValidRun(s3, []) && ValidRun(s2, es[1..][1..]) && ValidRun(s1, es[1..]);
  }

  // ---------- a manual check ends with a visible result ----------

  // Every state of the run is checking.
  predicate KeepsChecking(s: State, es: seq<Event>)
    requires ValidRun(s, es)
    decreases |es|
  {
    s.status.Checking? && (es == [] || KeepsChecking(Step(s, es[0]), es[1..]))
  }

  lemma {:induction false} StaysManual(s: State, es: seq<Event>)
    requires ValidRun(s, es) && KeepsChecking(s, es) && s.checkSource == Manual
    ensures Run(s, es).checkSource == Manual && Run(s, es).status.Checking?
    decreases |es|
  {
    if es != [] { StaysManual(Step(s, es[0]), es[1..]); }
  }

  // A check asked for by hand, or taken over by hand while it ran, never reverts to idle: whatever happens
  // while it runs, the step that ends it shows a result.
  lemma ManualCheckEndsLoudly(s: State, es: seq<Event>, e: Event)
    requires ValidRun(s, es) && KeepsChecking(s, es) && s.checkSource == Manual
    requires Enabled(Run(s, es), e)
    ensures var t := Step(Run(s, es), e);
      t.status.Checking? || t.status.Available? || t.status.UpToDate? || t.status.Downloading? || t.status.Downloaded?
      || (t.status.Failed? && (t.status.phase == Check || (e.DownloadRejected? || e.FakeDownloadTick?)))
  {
    StaysManual(s, es);
  }

  // A request by hand is a manual check, unless a download is going on or done; if the platform's updater throws at
  // once, the failure shows at once.
  lemma RequestIsManual(s: State, threw: Option<string>)
    requires !Fetching(s.status)
    ensures var t := Step(s, CheckForUpdates(Some(Manual), threw));
      && t.checkSource == Manual
      && t.status == (if !s.status.Checking? && s.fakeVersion.None? && threw.Some? then Failed(Check, Thrown(threw.value)) else Checking)
  {
  }

  // ---------- downloads are not clobbered ----------

  predicate Fetching(status: Status) {
    status.Downloading? || status.Downloaded?
  }

  lemma {:induction false} CallsKeepDownloads(s: State, es: seq<Event>)
    requires ValidRun(s, es) && Fetching(s.status)
    requires forall i :: 0 <= i < |es| ==> es[i].CheckForUpdates? || es[i].SetChannel? || es[i].DownloadUpdate?
    ensures Run(s, es) == s
    decreases |es|
  {
    if es != [] {
      assert es[0].CheckForUpdates? || es[0].SetChannel? || es[0].DownloadUpdate?;
      CallsKeepDownloads(Step(s, es[0]), es[1..]);
    }
  }

  // Exactly one thing takes a download back to idle: the promise of an automatic check, rejected late.
  lemma OnlyALateRejectionForgetsADownload(s: State, e: Event)
    requires Fetching(s.status) && Enabled(s, e)
    ensures Step(s, e).status.Idle? <==> e.CheckRejected? && e.transient && s.checkSource == Auto
  {
  }

  // Such a rejection: the promise of the check that found the update is rejected while it is being downloaded.
  lemma LateRejectionHappens() returns (es: seq<Event>, last: Event)
    ensures ValidRun(Init(Stable, None, None), es)
    ensures var s := Run(Init(Stable, None, None), es);
      s.status.Downloading? && s.checkSource == Auto && Enabled(s, last) && Step(s, last).status.Idle?
  {
    es := [CheckForUpdates(None, None), UpdateAvailable("2"), DownloadUpdate, DownloadProgress(1)];
    last := CheckRejected("", true);
    var s1 := Step(Init(Stable, None, None), es[0]);
    var s2 := Step(s1, es[1]);
    var s3 := Step(s2, es[2]);
    var s4 := Step(s3, es[3]);
    assert es[1..][0] == es[1] && es[1..][1..][0] == es[2] && es[1..][1..][1..][0] == es[3] && es[1..][1..][1..][1..] == [];
    assert ValidRun(s4, []) && ValidRun(s3, es[1..][1..][1..]) && ValidRun(s2, es[1..][1..]) && ValidRun(s1, es[1..]);
    assert Run(s4, []) == s4 && Run(s3, es[1..][1..][1..]) == s4 && Run(s2, es[1..][1..]) == s4 && Run(s1, es[1..]) == s4;
  }

  // ---------- what is downloaded was downloaded ----------

  // The version whose download a step completes.
  function Completes(s: State, e: Event): Option<string> {
    if e.UpdateDownloaded? then Some(e.version)
    else if e.FakeDownloadTick? && e.loop in s.rt.fakeDownloads && s.failPhase != Some(Download)
      && s.rt.fakeDownloads[e.loop] + 10 > 100 then Some(s.fakeVersion.GetOr(""))
    else None
  }

  // The last version completed in a run, or `before`.
  function LastCompleted(s: State, es: seq<Event>, before: Option<string>): Option<string>
    requires ValidRun(s, es)
    decreases |es|
  {
    if es == [] then before
    else LastCompleted(Step(s, es[0]), es[1..], if Completes(s, es[0]).Some? then Completes(s, es[0]) else before)
  }

  ghost predicate Backed(status: Status, completed: Option<string>) {
    && (status.Downloaded? ==> completed == Some(status.version))
    && (status.Failed? && status.phase == Install ==> completed.Some?)
  }

  lemma StepBacked(s: State, e: Event, completed: Option<string>)
    requires Backed(s.status, completed) && Enabled(s, e)
    ensures Backed(Step(s, e).status, if Completes(s, e).Some? then Completes(s, e) else completed)
  {
  }

  lemma {:induction false} DownloadedWasCompleted(s: State, es: seq<Event>, before: Option<string>)
    requires ValidRun(s, es) && Backed(s.status, before)
    ensures Backed(Run(s, es).status, LastCompleted(s, es, before))
    decreases |es|
  {
    if es != [] {
      StepBacked(s, es[0], before);
      DownloadedWasCompleted(Step(s, es[0]), es[1..], if Completes(s, es[0]).Some? then Completes(s, es[0]) else before);
    }
  }

  // From the start: what is offered for installation, or failed to install, was completely downloaded.
  lemma InstallNeedsADownload(channel: Channel, fakeVersion: Option<string>, failPhase: Option<Phase>, es: seq<Event>)
    requires ValidRun(Init(channel, fakeVersion, failPhase), es)
    ensures var s := Init(channel, fakeVersion, failPhase);
            Backed(Run(s, es).status, LastCompleted(s, es, None))
  {
    DownloadedWasCompleted(Init(channel, fakeVersion, failPhase), es, None);
  }

  // ---------- simulated updates ----------

  // One simulated activity at a time, and the status says which.
  ghost predicate OneActivity(s: State) {
    && s.fakeVersion.Some? && s.rt.checks == 0 && s.rt.downloads == 0 && s.rt.timers == {}
    && s.rt.fakeChecks == (if s.status.Checking? then 1 else 0)
    && |s.rt.fakeDownloads| == (if s.status.Downloading? then 1 else 0)
  }

  // The platform's updater is never asked in this mode, so it says nothing.
  predicate FromPlatform(e: Event) {
    e.CheckingForUpdate? || e.UpdateAvailable? || e.UpdateNotAvailable? || e.DownloadProgress? || e.UpdateDownloaded?
    || e.UpdaterError?
  }

  lemma OneLoop(loops: map<nat, nat>, loop: nat, percent: nat)
    requires |loops| == 1 && loop in loops
    ensures |loops - {loop}| == 0
    ensures |loops[loop := percent]| == 1
  {
    assert loops.Keys == (loops - {loop}).Keys + {loop};
    assert loops[loop := percent].Keys == loops.Keys;
  }

  lemma TickKeepsOneActivity(s: State, loop: nat)
    requires OneActivity(s) && loop in s.rt.fakeDownloads
    ensures OneActivity(Tick(s, loop))
  {
    assert |s.rt.fakeDownloads| != 0;
    OneLoop(s.rt.fakeDownloads, loop, s.rt.fakeDownloads[loop] + 10);
  }

  lemma StepKeepsOneActivity(s: State, e: Event)
    requires OneActivity(s) && Enabled(s, e) && !FromPlatform(e)
    ensures OneActivity(Step(s, e))
  {
    if e.FakeDownloadTick? {
      TickKeepsOneActivity(s, e.loop);
    }
  }

  lemma {:induction false} SimulationsDoNotOverlap(s: State, es: seq<Event>)
    requires OneActivity(s) && ValidRun(s, es)
    requires forall i :: 0 <= i < |es| ==> !FromPlatform(es[i])
    ensures OneActivity(Run(s, es))
    decreases |es|
  {
    if es != [] {
      assert !FromPlatform(es[0]);
      StepKeepsOneActivity(s, es[0]);
      SimulationsDoNotOverlap(Step(s, es[0]), es[1..]);
    }
  }

  // ---------- every change is announced ----------

  ghost predicate HeardInv(s: State) {
    s.subscribers <= s.heard.Keys
  }

  // The announcements a step makes.
  function Announced(s: State, e: Event): (r: seq<Status>)
    requires Enabled(s, e)
  {
    var t := Step(s, e);
    match e
    case CheckForUpdates(_, _) =>
      if Busy(s.status) then [] else if t.status.Checking? then [Checking] else [Checking, t.status]
    case CheckResolved => []
    case TimeoutFired(_) => if s.status.Checking? then [t.status] else []
    case DownloadUpdate => if CanDownload(s.status) && s.fakeVersion.Some? then [t.status] else []
    case DownloadResolved => []
    case FakeDownloadTick(loop) =>
      if t.status.Downloading? then [t.status] else [Downloading(s.rt.fakeDownloads[loop]), t.status]
    case InstallUpdate(threw) =>
      if CanInstall(s.status) && (if s.fakeVersion.Some? then s.failPhase == Some(Install) else threw.Some?) then [t.status] else []
    case SetChannel(c) => if c == s.channel || Busy(s.status) then [] else [t.status]
    case Subscribe(_) => []
    case Unsubscribe(_) => []
    case _ => [t.status]
  }

  ghost predicate Tells(s: State, t: State, k: Subscriber, now: seq<Status>)
    requires k in s.heard
  {
    HeardInv(t) && k in t.subscribers && k in t.heard && t.heard[k] == s.heard[k] + now
  }

  predicate IsCall(e: Event) {
    e.CheckForUpdates? || e.DownloadUpdate? || e.FakeDownloadTick? || e.InstallUpdate? || e.SetChannel?
  }

  lemma CallTells(s: State, e: Event, k: Subscriber)
    requires HeardInv(s) && Enabled(s, e) && k in s.subscribers && IsCall(e)
    ensures Tells(s, Step(s, e), k, Announced(s, e))
  {
  }

  lemma OtherTells(s: State, e: Event, k: Subscriber)
    requires HeardInv(s) && Enabled(s, e) && k in s.subscribers && !IsCall(e) && e != Unsubscribe(k)
    ensures Tells(s, Step(s, e), k, Announced(s, e))
  {
  }

  // A step tells every subscriber the same, and the last it tells is the status.
  lemma StepTells(s: State, e: Event, k: Subscriber)
    requires HeardInv(s) && Enabled(s, e) && k in s.subscribers && e != Unsubscribe(k)
    ensures Tells(s, Step(s, e), k, Announced(s, e))
  {
    if IsCall(e) { CallTells(s, e, k); } else { OtherTells(s, e, k); }
  }

  lemma StepTellsStatus(s: State, e: Event)
    requires Enabled(s, e)
    ensures Current(Announced(s, e), s.status, Step(s, e).status)
  {
  }

  function AnnouncedIn(s: State, es: seq<Event>): seq<Status>
    requires ValidRun(s, es)
    decreases |es|
  {
    if es == [] then [] else Announced(s, es[0]) + AnnouncedIn(Step(s, es[0]), es[1..])
  }

  // The last announcement is the status; without one the status is as before.
  predicate Current(told: seq<Status>, before: Status, after: Status) {
    if told == [] then after == before else told[|told| - 1] == after
  }

  lemma TellsOn(before: seq<Status>, now: seq<Status>, later: seq<Status>, a: Status, b: Status, c: Status)
    requires Current(now, a, b) && Current(later, b, c)
    ensures Current(now + later, a, c) && before + (now + later) == (before + now) + later
  {
  }

  lemma {:induction false} SubscribersHearEverything(s: State, es: seq<Event>, k: Subscriber)
    requires HeardInv(s) && ValidRun(s, es) && k in s.subscribers && Unsubscribe(k) !in es
    ensures k in Run(s, es).heard && Run(s, es).heard[k] == s.heard[k] + AnnouncedIn(s, es)
    ensures Current(AnnouncedIn(s, es), s.status, Run(s, es).status)
    decreases |es|
  {
    if es != [] {
      StepTells(s, es[0], k);
      StepTellsStatus(s, es[0]);
      var t := Step(s, es[0]);
      SubscribersHearEverything(t, es[1..], k);
      TellsOn(s.heard[k], Announced(s, es[0]), AnnouncedIn(t, es[1..]), s.status, t.status, Run(t, es[1..]).status);
    }
  }
}
