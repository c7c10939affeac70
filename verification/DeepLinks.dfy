/** Deep links on their way: the main process buffers them until a window has loaded, the preload script until the
    page subscribes. */
module DeepLinks {
  import opened Wrappers

  type Link = string
  type Window = nat
  type Subscriber = nat

  // ---------- the main process ----------

  datatype MainState = MainState(
    window: Option<Window>,
    finishedLoading: bool,
    buffered: seq<Link>,
    accepted: seq<Link>,
    sent: seq<Link>,
    lost: seq<Link>)

  /** `sends` tells whether a send works, `failAt` which send of a flush throws, if any. A link that cannot be
      parsed is None. */
  datatype MainEvent =
    | HandleLink(link: Option<Link>, sends: bool)
    | CreateWindow(window: Window)
    | FinishLoad(failAt: Option<nat>)
    | Closed

  const MAIN_START := MainState(None, false, [], [], [], [])

  predicate Ready(s: MainState) {
    s.window.Some? && s.finishedLoading
  }

  function Flush(s: MainState, failAt: Option<nat>): MainState {
    var n := if !Ready(s) then 0 else if failAt.Some? && failAt.value < |s.buffered| then failAt.value else |s.buffered|;
    s.(sent := s.sent + s.buffered[..n], buffered := s.buffered[n..])
  }

  function Handle(s: MainState, link: Option<Link>, sends: bool): MainState {
    if link.None? then s
    else
      var t := s.(accepted := s.accepted + [link.value]);
      if !Ready(s) then t.(buffered := s.buffered + [link.value])
      else if sends then t.(sent := s.sent + [link.value])
      else t.(lost := s.lost + [link.value])
  }

  function MainStep(s: MainState, e: MainEvent): MainState {
    match e
    case HandleLink(link, sends) => Handle(s, link, sends)
    case CreateWindow(w) => s.(window := Some(w), finishedLoading := false)
    case FinishLoad(failAt) => Flush(s.(finishedLoading := true), failAt)
    case Closed => s.(window := None, finishedLoading := false)
  }

  function MainRun(s: MainState, es: seq<MainEvent>): MainState
    decreases |es|
  {
    if es == [] then s else MainRun(MainStep(s, es[0]), es[1..])
  }

  class MainProcess {
    var mainWindow: Option<Window>
    var mainWindowFinishedLoading: bool
    var bufferedMuxDeepLinks: seq<Link>
    ghost var accepted: seq<Link>
    var sent: seq<Link>
    ghost var lost: seq<Link>

    ghost function Model(): MainState
      reads this
    {
      MainState(mainWindow, mainWindowFinishedLoading, bufferedMuxDeepLinks, accepted, sent, lost)
    }

    constructor ()
      ensures Model() == MAIN_START
    {
      mainWindow, mainWindowFinishedLoading, bufferedMuxDeepLinks, accepted, sent, lost := None, false, [], [], [], [];
    }

    method FlushBufferedMuxDeepLinks(failAt: Option<nat>)
      modifies this`bufferedMuxDeepLinks, this`sent
      ensures Model() == Flush(old(Model()), failAt)
    {
      if mainWindow.None? || !mainWindowFinishedLoading { return; }
      var attempt := 0;
      while |bufferedMuxDeepLinks| > 0
        invariant attempt <= |old(bufferedMuxDeepLinks)| && (failAt.Some? ==> attempt <= failAt.value)
        invariant bufferedMuxDeepLinks == old(bufferedMuxDeepLinks)[attempt..]
        invariant sent == old(sent) + old(bufferedMuxDeepLinks)[..attempt]
        decreases |bufferedMuxDeepLinks|
      {
        var payload := bufferedMuxDeepLinks[0];
        if failAt == Some(attempt) { return; }
        sent := sent + [payload];
        bufferedMuxDeepLinks := bufferedMuxDeepLinks[1..];
        attempt := attempt + 1;
      }
    }

    method HandleMuxDeepLink(link: Option<Link>, sends: bool)
      modifies this
      ensures Model() == Handle(old(Model()), link, sends)
    {
      if link.None? { return; }
      accepted := accepted + [link.value];
      if mainWindow.None? || !mainWindowFinishedLoading {
        bufferedMuxDeepLinks := bufferedMuxDeepLinks + [link.value];
        return;
      }
      if sends {
        sent := sent + [link.value];
      } else {
        lost := lost + [link.value];
      }
    }

    method OnDidFinishLoad(failAt: Option<nat>)
      modifies this
      ensures Model() == MainStep(old(Model()), FinishLoad(failAt))
    {
      mainWindowFinishedLoading := true;
      FlushBufferedMuxDeepLinks(failAt);
    }
  }

  // ---------- conservation in the main process ----------

  predicate Works(e: MainEvent) {
    match e
    case HandleLink(_, sends) => sends
    case FinishLoad(failAt) => failAt.None?
    case _ => true
  }

  // What was accepted was sent or is still buffered, in order, and a loaded window has nothing to wait for.
  ghost predicate Steady(s: MainState) {
    s.accepted == s.sent + s.buffered && (Ready(s) ==> s.buffered == [])
  }

  // The steps that spoil this: a link handed to a loaded window that does not take it, and a flush that fails with
  // links left.
  predicate Disturbs(s: MainState, e: MainEvent) {
    || (e.HandleLink? && e.link.Some? && Ready(s) && !e.sends)
    || (e.FinishLoad? && s.window.Some? && e.failAt.Some? && e.failAt.value < |s.buffered|)
  }

  lemma StepSteadyIff(s: MainState, e: MainEvent)
    requires Steady(s)
    ensures Steady(MainStep(s, e)) <==> !Disturbs(s, e)
    ensures !Disturbs(s, e) ==> MainStep(s, e).lost == s.lost
  {
    var t := MainStep(s, e);
    if e.HandleLink? && Disturbs(s, e) { assert |t.accepted| == |t.sent + t.buffered| + 1; }
  }

  predicate Undisturbed(s: MainState, es: seq<MainEvent>)
    decreases |es|
  {
    es == [] || (!Disturbs(s, es[0]) && Undisturbed(MainStep(s, es[0]), es[1..]))
  }

  ghost predicate SteadyThroughout(s: MainState, es: seq<MainEvent>)
    decreases |es|
  {
    Steady(s) && (es == [] || SteadyThroughout(MainStep(s, es[0]), es[1..]))
  }

  // A run is steady in every state if and only if no step disturbs it, and then it loses nothing.
  lemma {:induction false} SteadyThroughoutIff(s: MainState, es: seq<MainEvent>)
    requires Steady(s)
    ensures SteadyThroughout(s, es) <==> Undisturbed(s, es)
    ensures Undisturbed(s, es) ==> Steady(MainRun(s, es)) && MainRun(s, es).lost == s.lost
    decreases |es|
  {
    if es != [] {
      StepSteadyIff(s, es[0]);
      if !Disturbs(s, es[0]) { SteadyThroughoutIff(MainStep(s, es[0]), es[1..]); }
    }
  }

  lemma {:induction false} SteadyWhileSendsWork(s: MainState, es: seq<MainEvent>)
    requires Steady(s) && forall i :: 0 <= i < |es| ==> Works(es[i])
    ensures Undisturbed(s, es) && Steady(MainRun(s, es)) && MainRun(s, es).lost == s.lost
    decreases |es|
  {
    if es != [] {
      assert Works(es[0]);
      StepSteadyIff(s, es[0]);
      SteadyWhileSendsWork(MainStep(s, es[0]), es[1..]);
    }
  }

  // Nothing is dropped or doubled, whatever fails.
  ghost predicate Conserved(s: MainState) {
    multiset(s.accepted) == multiset(s.sent) + multiset(s.buffered) + multiset(s.lost)
  }

  lemma StepConserves(s: MainState, e: MainEvent)
    requires Conserved(s)
    ensures Conserved(MainStep(s, e))
  {
    match e
    case HandleLink(link, sends) => HandleConserves(s, link, sends);
    case FinishLoad(failAt) => FlushConserves(s.(finishedLoading := true), failAt);
    case CreateWindow(_) =>
    case Closed =>
  }

  lemma HandleConserves(s: MainState, link: Option<Link>, sends: bool)
    requires Conserved(s)
    ensures Conserved(Handle(s, link, sends))
  {
  }

  lemma FlushConserves(s: MainState, failAt: Option<nat>)
    requires Conserved(s)
    ensures Conserved(Flush(s, failAt))
  {
    var n := |s.buffered| - |Flush(s, failAt).buffered|;
    assert s.buffered == s.buffered[..n] + s.buffered[n..];
  }

  lemma {:induction false} LinksAreConserved(s: MainState, es: seq<MainEvent>)
    requires Conserved(s)
    ensures Conserved(MainRun(s, es))
    decreases |es|
  {
    if es != [] {
      StepConserves(s, es[0]);
      LinksAreConserved(MainStep(s, es[0]), es[1..]);
    }
  }

  // Exactly one step loses a link: handing it directly to a loaded window that does not take it. A flush that fails
  // loses and reorders nothing.
  lemma OnlyDirectSendsLose(s: MainState, e: MainEvent)
    ensures MainStep(s, e).lost != s.lost <==> e.HandleLink? && e.link.Some? && Ready(s) && !e.sends
    ensures e.FinishLoad? ==> MainStep(s, e).sent + MainStep(s, e).buffered == s.sent + s.buffered
  {
  }

  // After a flush that failed at the n-th link the rest waits for the next window to load, and a later link
  // overtakes it.
  lemma FailedFlushLetsLinksOvertake(s: MainState, n: nat, link: Link)
    requires Steady(s) && s.window.Some? && n < |s.buffered|
    ensures var t := MainStep(s, FinishLoad(Some(n)));
      && t.sent == s.sent + s.buffered[..n] && t.buffered == s.buffered[n..] && Ready(t)
      && var u := MainStep(t, HandleLink(Some(link), true));
      && u.sent == t.sent + [link] && u.buffered == t.buffered && u.accepted != u.sent + u.buffered + [link]
      && !Steady(u)
  {
    var t := MainStep(s, FinishLoad(Some(n)));
    var u := MainStep(t, HandleLink(Some(link), true));
    assert |u.accepted| < |u.sent + u.buffered + [link]|;
  }

  // ---------- the preload script ----------

  datatype PreloadState = PreloadState(
    pending: seq<Link>,
    subscribers: set<Subscriber>,
    heard: map<Subscriber, seq<Link>>,
    consumed: seq<Link>,
    received: seq<Link>,
    direct: seq<bool>)

  datatype PreloadEvent = Receive(link: Link) | Subscribe(subscriber: Subscriber) | Unsubscribe(subscriber: Subscriber) | Consume

  const PRELOAD_START := PreloadState([], {}, map[], [], [], [])

  function Told(heard: map<Subscriber, seq<Link>>, subscribers: set<Subscriber>, link: Link): map<Subscriber, seq<Link>> {
    map k | k in heard :: if k in subscribers then heard[k] + [link] else heard[k]
  }

  function PreloadStep(s: PreloadState, e: PreloadEvent): PreloadState {
    match e
    case Receive(link) =>
      s.(pending := if s.subscribers == {} then s.pending + [link] else s.pending,
         heard := Told(s.heard, s.subscribers, link),
         received := s.received + [link], direct := s.direct + [s.subscribers != {}])
    case Subscribe(k) => s.(subscribers := s.subscribers + {k}, heard := if k in s.heard then s.heard else s.heard[k := []])
    case Unsubscribe(k) => s.(subscribers := s.subscribers - {k})
    case Consume => s.(pending := [], consumed := s.consumed + s.pending)
  }

  function PreloadRun(s: PreloadState, es: seq<PreloadEvent>): PreloadState
    decreases |es|
  {
    if es == [] then s else PreloadRun(PreloadStep(s, es[0]), es[1..])
  }

  class Preload {
    var pendingDeepLinks: seq<Link>
    var deepLinkSubscribers: set<Subscriber>
    var heard: map<Subscriber, seq<Link>>
    ghost var consumed: seq<Link>
    ghost var received: seq<Link>
    ghost var direct: seq<bool>

    ghost function Model(): PreloadState
      reads this
    {
      PreloadState(pendingDeepLinks, deepLinkSubscribers, heard, consumed, received, direct)
    }

    constructor ()
      ensures Model() == PRELOAD_START
    {
      pendingDeepLinks, deepLinkSubscribers, heard, consumed, received, direct := [], {}, map[], [], [], [];
    }

    method OnIpcDeepLink(payload: Link)
      modifies this
      ensures Model() == PreloadStep(old(Model()), Receive(payload))
    {
      if |deepLinkSubscribers| == 0 { pendingDeepLinks := pendingDeepLinks + [payload]; }
      received, direct := received + [payload], direct + [deepLinkSubscribers != {}];
      var rest := deepLinkSubscribers;
      while rest != {}
        invariant rest <= deepLinkSubscribers == old(deepLinkSubscribers)
        invariant heard == Told(old(heard), deepLinkSubscribers - rest, payload)
        invariant pendingDeepLinks == old(pendingDeepLinks) + if deepLinkSubscribers == {} then [payload] else []
        invariant consumed == old(consumed)
        invariant received == old(received) + [payload] && direct == old(direct) + [deepLinkSubscribers != {}]
        decreases rest
      {
        var k :| k in rest;
        rest := rest - {k};
        if k in heard { heard := heard[k := heard[k] + [payload]]; }
      }
      assert deepLinkSubscribers - {} == deepLinkSubscribers;
    }

    method ConsumePendingDeepLinks() returns (links: seq<Link>)
      modifies this
      ensures Model() == PreloadStep(old(Model()), Consume) && links == old(pendingDeepLinks)
    {
      links := pendingDeepLinks;
      consumed := consumed + pendingDeepLinks;
      pendingDeepLinks := [];
    }

    method OnDeepLink(k: Subscriber)
      modifies this
      ensures Model() == PreloadStep(old(Model()), Subscribe(k))
    {
      deepLinkSubscribers := deepLinkSubscribers + {k};
      if k !in heard { heard := heard[k := []]; }
    }
  }

  // ---------- each link in one place ----------

  // The links received with or without a subscriber.
  function Picked(links: seq<Link>, direct: seq<bool>, which: bool): seq<Link>
    requires |links| == |direct|
  {
    if links == [] then []
    else Picked(links[..|links| - 1], direct[..|links| - 1], which) + (if direct[|links| - 1] == which then [links[|links| - 1]] else [])
  }

  // The links of one list in the order of another that holds them all.
  predicate Within(a: seq<Link>, b: seq<Link>) {
    if a == [] then true
    else if b == [] then false
    else (a[|a| - 1] == b[|b| - 1] && Within(a[..|a| - 1], b[..|b| - 1])) || Within(a, b[..|b| - 1])
  }

  // A link without a subscriber is pending or was consumed; what a subscriber heard came with one; both in order.
  ghost predicate OnePlace(s: PreloadState) {
    && |s.direct| == |s.received|
    && s.consumed + s.pending == Picked(s.received, s.direct, false)
    && s.subscribers <= s.heard.Keys
    && AllWithin(s.heard, Picked(s.received, s.direct, true))
  }

  lemma WithinGrows(a: seq<Link>, b: seq<Link>, link: Link)
    requires Within(a, b)
    ensures Within(a + [link], b + [link]) && Within(a, b + [link])
  {
    assert (a + [link])[..|a|] == a && (b + [link])[..|b|] == b;
  }

  lemma PickedAppend(links: seq<Link>, direct: seq<bool>, link: Link, d: bool, which: bool)
    requires |links| == |direct|
    ensures Picked(links + [link], direct + [d], which) == Picked(links, direct, which) + (if d == which then [link] else [])
  {
    assert (links + [link])[..|links|] == links && (direct + [d])[..|links|] == direct;
  }

  lemma StepKeepsOnePlace(s: PreloadState, e: PreloadEvent)
    requires OnePlace(s)
    ensures OnePlace(PreloadStep(s, e))
  {
    if e.Receive? { ReceiveKeepsOnePlace(s, e.link); }
  }

  lemma ReceiveKeepsOnePlace(s: PreloadState, link: Link)
    requires OnePlace(s)
    ensures OnePlace(PreloadStep(s, Receive(link)))
  {
    var now := s.subscribers != {};
    PickedAppend(s.received, s.direct, link, now, false);
    PickedAppend(s.received, s.direct, link, now, true);
    var before := Picked(s.received, s.direct, true);
    assert before + [] == before;
    ToldWithin(s.heard, s.subscribers, link, before);
  }

  ghost predicate AllWithin(heard: map<Subscriber, seq<Link>>, links: seq<Link>) {
    forall k :: k in heard ==> Within(heard[k], links)
  }

  lemma ToldWithin(heard: map<Subscriber, seq<Link>>, subscribers: set<Subscriber>, link: Link, links: seq<Link>)
    requires AllWithin(heard, links)
    ensures AllWithin(Told(heard, subscribers, link), links + [link])
    ensures subscribers == {} ==> AllWithin(Told(heard, subscribers, link), links)
  {
    forall k | k in heard ensures Within(Told(heard, subscribers, link)[k], links + [link]) {
      WithinGrows(heard[k], links, link);
    }
  }

  // The links a run delivers to the page.
  function Incoming(es: seq<PreloadEvent>): seq<Link> {
    if es == [] then [] else (if es[0].Receive? then [es[0].link] else []) + Incoming(es[1..])
  }

  // While a page stays subscribed it hears exactly what is received, in order.
  lemma {:induction false} SubscribersHearAll(s: PreloadState, es: seq<PreloadEvent>, k: Subscriber)
    requires k in s.subscribers && k in s.heard && Unsubscribe(k) !in es
    ensures var t := PreloadRun(s, es);
      && k in t.subscribers && k in t.heard
      && t.heard[k] == s.heard[k] + Incoming(es) && t.received == s.received + Incoming(es)
    decreases |es|
  {
    if es != [] {
      assert es[0] != Unsubscribe(k);
      var t, now := PreloadStep(s, es[0]), if es[0].Receive? then [es[0].link] else [];
      assert k in t.heard && t.heard[k] == s.heard[k] + now && t.received == s.received + now;
      SubscribersHearAll(t, es[1..], k);
      assert s.heard[k] + now + Incoming(es[1..]) == s.heard[k] + Incoming(es);
      assert s.received + now + Incoming(es[1..]) == s.received + Incoming(es);
    }
  }

  // Who is not subscribed, or no longer, is handed nothing.
  lemma StrangersHearNothing(s: PreloadState, e: PreloadEvent, k: Subscriber)
    requires k !in s.subscribers && k in s.heard
    ensures k in PreloadStep(s, e).heard && PreloadStep(s, e).heard[k] == s.heard[k]
    ensures k in PreloadStep(s, e).subscribers <==> e == Subscribe(k)
    ensures k !in PreloadStep(PreloadStep(s, Subscribe(k)), Unsubscribe(k)).subscribers
  {
  }

  lemma {:induction false} OnePlaceInRuns(s: PreloadState, es: seq<PreloadEvent>)
    requires OnePlace(s)
    ensures OnePlace(PreloadRun(s, es))
    decreases |es|
  {
    if es != [] {
      StepKeepsOnePlace(s, es[0]);
      OnePlaceInRuns(PreloadStep(s, es[0]), es[1..]);
    }
  }

  // Before anyone subscribes, everything is pending.
  lemma {:induction false} AllPending(s: PreloadState, es: seq<PreloadEvent>)
    requires s.subscribers == {} && s.heard == map[] && forall i :: 0 <= i < |es| ==> es[i].Receive?
    ensures var t := PreloadRun(s, es);
      && t.subscribers == {} && t.heard == map[]
      && t.pending == s.pending + Incoming(es) && t.received == s.received + Incoming(es) && t.consumed == s.consumed
    decreases |es|
  {
    if es != [] {
      assert es[0].Receive?;
      AllPending(PreloadStep(s, es[0]), es[1..]);
      assert s.pending + [es[0].link] + Incoming(es[1..]) == s.pending + Incoming(es);
      assert s.received + [es[0].link] + Incoming(es[1..]) == s.received + Incoming(es);
    }
  }

  function Join(s: PreloadState, k: Subscriber): PreloadState {
    PreloadStep(PreloadStep(s, Subscribe(k)), Consume)
  }

  lemma JoinsFresh(s: PreloadState, k: Subscriber)
    requires s.heard == map[]
    ensures var t := Join(s, k);
      && k in t.subscribers && k in t.heard && t.heard[k] == [] && t.pending == []
      && t.received == s.received && t.consumed == s.consumed + s.pending
  {
  }

  lemma JoinedPage(s: PreloadState, k: Subscriber, after: seq<PreloadEvent>)
    requires s.heard == map[] && s.consumed == [] && Unsubscribe(k) !in after
    ensures var t := Join(s, k); var u := PreloadRun(t, after);
      && k in u.heard && u.heard[k] == Incoming(after) && u.received == s.received + Incoming(after)
      && u.consumed == t.consumed == s.pending && u.pending == []
  {
    JoinsFresh(s, k);
    var t := Join(s, k);
    SubscribersHearAll(t, after, k);
    NothingPends(t, after, k);
    assert [] + Incoming(after) == Incoming(after);
  }

  // A page that subscribes and then consumes sees every link, each once and in the order of arrival: first the
  // ones that came before, as the result of consuming, then the later ones as its subscriber.
  lemma SubscribeThenConsume(before: seq<PreloadEvent>, k: Subscriber, after: seq<PreloadEvent>)
    requires forall i :: 0 <= i < |before| ==> before[i].Receive?
    requires Unsubscribe(k) !in after
    ensures var t := Join(PreloadRun(PRELOAD_START, before), k); var u := PreloadRun(t, after);
      && t.consumed == Incoming(before) && k in u.heard && u.heard[k] == Incoming(after)
      && u.received == Incoming(before) + Incoming(after) && u.consumed == t.consumed && u.pending == []
  {
    AllPending(PRELOAD_START, before);
    JoinedPage(PreloadRun(PRELOAD_START, before), k, after);
    assert [] + Incoming(before) == Incoming(before);
  }

  lemma {:induction false} NothingPends(s: PreloadState, es: seq<PreloadEvent>, k: Subscriber)
    requires s.pending == [] && k in s.subscribers && Unsubscribe(k) !in es
    ensures PreloadRun(s, es).pending == [] && PreloadRun(s, es).consumed == s.consumed
    decreases |es|
  {
    if es != [] {
      assert es[0] != Unsubscribe(k);
      assert k in PreloadStep(s, es[0]).subscribers;
      NothingPends(PreloadStep(s, es[0]), es[1..], k);
    }
  }

  // ---------- both hops ----------

  // The main process, the page of its window, the messages between the two, and what was sent to earlier windows.
  datatype System = System(main: MainState, earlier: seq<Link>, channel: seq<Link>, page: PreloadState)

  datatype SystemEvent = InMain(main: MainEvent) | Arrive | InPage(page: PreloadEvent)

  const SYSTEM_START := System(MAIN_START, [], [], PRELOAD_START)

  predicate Enabled(s: System, e: SystemEvent) {
    match e
    case InMain(_) => true
    case Arrive => s.channel != []
    case InPage(p) => !p.Receive?
  }

  // A window that is opened or closed leaves the page before it behind, with all that was sent to it.
  function Step(s: System, e: SystemEvent): System
    requires Enabled(s, e)
  {
    match e
    case InMain(m) =>
      var t := MainStep(s.main, m);
      if m.CreateWindow? || m.Closed? then System(t, s.earlier + s.page.received + s.channel, [], PRELOAD_START)
      else s.(main := t, channel := s.channel + (if |s.main.sent| <= |t.sent| then t.sent[|s.main.sent|..] else []))
    case Arrive => s.(channel := s.channel[1..], page := PreloadStep(s.page, Receive(s.channel[0])))
    case InPage(p) => s.(page := PreloadStep(s.page, p))
  }

  predicate ValidRun(s: System, es: seq<SystemEvent>)
    decreases |es|
  {
    es == [] || (Enabled(s, es[0]) && ValidRun(Step(s, es[0]), es[1..]))
  }

  function Run(s: System, es: seq<SystemEvent>): System
    requires ValidRun(s, es)
    decreases |es|
  {
    if es == [] then s else Run(Step(s, es[0]), es[1..])
  }

  predicate Quiet(s: System, es: seq<SystemEvent>)
    requires ValidRun(s, es)
    decreases |es|
  {
    es == [] || ((es[0].InMain? ==> !Disturbs(s.main, es[0].main)) && Quiet(Step(s, es[0]), es[1..]))
  }

  // Everything accepted was sent to an earlier window, is with the page, on its way, or buffered, in order.
  ghost predicate OnItsWay(s: System) {
    && Steady(s.main) && OnePlace(s.page)
    && s.main.sent == s.earlier + s.page.received + s.channel
  }

  lemma MainStepKeeps(s: System, m: MainEvent)
    requires OnItsWay(s) && !Disturbs(s.main, m)
    ensures OnItsWay(Step(s, InMain(m)))
  {
    StepSteadyIff(s.main, m);
    var t := MainStep(s.main, m);
    assert s.main.sent <= t.sent;
    assert t.sent == s.main.sent + t.sent[|s.main.sent|..];
  }

  lemma SystemStepKeeps(s: System, e: SystemEvent)
    requires OnItsWay(s) && Enabled(s, e) && (e.InMain? ==> !Disturbs(s.main, e.main))
    ensures OnItsWay(Step(s, e))
  {
    match e
    case InMain(m) => MainStepKeeps(s, m);
    case Arrive =>
      StepKeepsOnePlace(s.page, Receive(s.channel[0]));
      assert s.channel == [s.channel[0]] + s.channel[1..];
    case InPage(p) => StepKeepsOnePlace(s.page, p);
  }

  // Over both hops, in every run that nothing disturbs, with windows opening, loading and closing: accepted == sent
  // to earlier windows ++ received ++ in flight ++ buffered; and what was received is pending, was consumed, or was
  // handed to the subscribers, never two of these.
  lemma {:induction false} LinksArriveInOrder(s: System, es: seq<SystemEvent>)
    requires OnItsWay(s) && ValidRun(s, es) && Quiet(s, es)
    ensures var t := Run(s, es);
      && t.main.accepted == t.earlier + t.page.received + t.channel + t.main.buffered
      && OnePlace(t.page)
    decreases |es|
  {
    if es != [] {
      SystemStepKeeps(s, es[0]);
      LinksArriveInOrder(Step(s, es[0]), es[1..]);
    }
  }

  lemma LinksArriveFromTheStart(es: seq<SystemEvent>)
    requires ValidRun(SYSTEM_START, es) && Quiet(SYSTEM_START, es)
    ensures var t := Run(SYSTEM_START, es);
      t.main.accepted == t.earlier + t.page.received + t.channel + t.main.buffered
  {
    LinksArriveInOrder(SYSTEM_START, es);
  }
}
