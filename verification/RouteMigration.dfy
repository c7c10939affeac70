/** What loading the configuration file rewrites: the migration from the gateway switch to routes, and the
    normalising of stored model names. */
module RouteMigration {
  import opened Wrappers
  import opened Text
  import opened ModelNames

  // JSON values as the loader tells them apart. An array item or record value that is no string is None.
  datatype Switch = Unset | Bool(on: bool) | NotBool
  datatype List = NoList | NotList | List(items: seq<Option<string>>)
  datatype Record = NotRecord | Record(entries: seq<(string, Option<string>)>)

  datatype Parsed = Parsed(
    muxGatewayEnabled: Switch,
    muxGatewayModels: List,
    routePriority: List,
    routeOverrides: Record,
    defaultModel: Option<string>,
    hiddenModels: List,
    agentModels: seq<string>,
    subagentModels: seq<string>)

  // ---------- route overrides: a JavaScript object, keys in insertion order ----------

  type Routes = seq<(string, string)>

  predicate Has(routes: Routes, key: string) {
    exists i :: 0 <= i < |routes| && routes[i].0 == key
  }

  function RouteOf(routes: Routes, key: string): Option<string> {
    if routes == [] then None
    else if routes[0].0 == key then Some(routes[0].1)
    else RouteOf(routes[1..], key)
  }

  function SetRoute(routes: Routes, key: string, route: string): (r: Routes)
    ensures |routes| <= |r|
  {
    if routes == [] then [(key, route)]
    else if routes[0].0 == key then [(key, route)] + routes[1..]
    else [routes[0]] + SetRoute(routes[1..], key, route)
  }

  ghost predicate Distinct(routes: Routes) {
    forall i, j :: 0 <= i < j < |routes| ==> routes[i].0 != routes[j].0
  }

  ghost predicate Canonical(routes: Routes) {
    Distinct(routes) && forall i :: 0 <= i < |routes| ==> NormalizeToCanonical(routes[i].0) == routes[i].0
  }

  // normalizeRouteOverridesRecord, with nothing for undefined.
  function CanonicalRoutes(entries: seq<(string, Option<string>)>): Routes {
    if entries == [] then []
    else
      var rest := CanonicalRoutes(entries[..|entries| - 1]);
      var e := entries[|entries| - 1];
      if e.1.Some? then SetRoute(rest, NormalizeToCanonical(e.0), e.1.value) else rest
  }

  function RoutesOf(r: Record): Routes {
    if r.Record? then CanonicalRoutes(r.entries) else []
  }

  function Stored(routes: Routes): (r: seq<(string, Option<string>)>)
    ensures |r| == |routes|
  {
    seq(|routes|, i requires 0 <= i < |routes| => (routes[i].0, Some(routes[i].1)))
  }

  // ---------- the migration ----------

  function Strings(items: seq<Option<string>>): seq<string> {
    if items == [] then []
    else Strings(items[..|items| - 1]) + (if items[|items| - 1].Some? then [items[|items| - 1].value] else [])
  }

  function EligibleGateways(gateways: seq<string>, eligible: set<string>): seq<string> {
    if gateways == [] then []
    else if gateways[0] in eligible then [gateways[0]] + EligibleGateways(gateways[1..], eligible)
    else EligibleGateways(gateways[1..], eligible)
  }

  // seedRoutePriorityFromProviders; `eligible` are the gateways with usable credentials.
  function SeedPriority(eligible: set<string>): Option<seq<string>> {
    var priority := EligibleGateways(GATEWAY_PROVIDERS, eligible) + ["direct"];
    if |priority| > 1 then Some(priority) else None
  }

  function Listed(ss: seq<string>): (r: List) {
    List(seq(|ss|, i requires 0 <= i < |ss| => Some(ss[i])))
  }

  function WithoutGateway(ss: seq<string>): seq<string> {
    if ss == [] then []
    else WithoutGateway(ss[..|ss| - 1]) + (if ss[|ss| - 1] != "mux-gateway" then [ss[|ss| - 1]] else [])
  }

  function ReplaceFirstSlash(s: string): string {
    var i := IndexOf(s, '/');
    if i == -1 then s else s[..i] + ":" + s[i + 1..]
  }

  function LegacyGatewayModel(value: string): Option<string> {
    var trimmed := Trim(value);
    if trimmed == "" then None
    else
      var canonical := NormalizeToCanonical(if ':' in trimmed then trimmed else ReplaceFirstSlash(trimmed));
      if IsValidModelFormat(canonical) then Some(canonical) else None
  }

  // Models to route through the gateway fill the gaps of the overrides.
  function FillGaps(routes: Routes, models: seq<Option<string>>): Routes {
    if models == [] then routes
    else
      var r := FillGaps(routes, models[..|models| - 1]);
      var m := models[|models| - 1];
      if m.None? || Has(r, m.value) then r else SetRoute(r, m.value, "mux-gateway")
  }

  // muxGatewayModels, each in canonical form; None for what is no model.
  function LegacyModels(p: Parsed): seq<Option<string>> {
    var names := if p.muxGatewayModels.List? then Strings(p.muxGatewayModels.items) else [];
    seq(|names|, i requires 0 <= i < |names| => LegacyGatewayModel(names[i]))
  }

  predicate NeedsGatewayMigration(p: Parsed) {
    (!p.muxGatewayModels.NoList? || !p.muxGatewayEnabled.Unset?) && !p.routePriority.List?
  }

  function MigratedPriority(p: Parsed, eligible: set<string>): seq<string> {
    var seeded := SeedPriority(eligible).GetOr(["direct"]);
    if p.muxGatewayEnabled == Bool(false) then
      var rest := WithoutGateway(seeded);
      if rest == [] then ["direct"] else rest
    else seeded
  }

  function MigratedOverrides(p: Parsed): Record {
    if p.muxGatewayEnabled == Bool(false) then p.routeOverrides
    else
      var merged := FillGaps(RoutesOf(p.routeOverrides), LegacyModels(p));
      if merged == RoutesOf(p.routeOverrides) then p.routeOverrides else Record(Stored(merged))
  }

  function MigrateGateway(p: Parsed, eligible: set<string>): Parsed {
    if !NeedsGatewayMigration(p) then p
    else p.(routePriority := Listed(MigratedPriority(p, eligible)), routeOverrides := MigratedOverrides(p))
  }

  function SeedMissing(p: Parsed, eligible: set<string>): Parsed {
    if p.routePriority.List? || SeedPriority(eligible).None? then p
    else p.(routePriority := Listed(SeedPriority(eligible).value))
  }

  predicate StaleSwitch(p: Parsed) {
    p.routePriority.List? && Some("mux-gateway") in p.routePriority.items && p.muxGatewayEnabled == Bool(false)
  }

  function ClearStaleSwitch(p: Parsed): Parsed {
    if StaleSwitch(p) then p.(muxGatewayEnabled := Unset) else p
  }

  function NormalizedNames(ss: seq<string>): (r: seq<string>)
    ensures |r| == |ss|
  {
    seq(|ss|, i requires 0 <= i < |ss| => NormalizeSelectedModel(Trim(ss[i])))
  }

  function NormalizeModels(p: Parsed): Parsed {
    p.(defaultModel := if p.defaultModel.Some? then Some(NormalizeSelectedModel(Trim(p.defaultModel.value))) else None,
       hiddenModels := if p.hiddenModels.List? then Listed(NormalizedNames(Strings(p.hiddenModels.items))) else p.hiddenModels,
       agentModels := NormalizedNames(p.agentModels),
       subagentModels := NormalizedNames(p.subagentModels))
  }

  // What loading leaves in the file.
  function Migrated(p: Parsed, eligible: set<string>): Parsed {
    NormalizeModels(ClearStaleSwitch(SeedMissing(MigrateGateway(p, eligible), eligible)))
  }

  // Whether loading sets its modified flag, and so writes the file.
  predicate Modifies(p: Parsed, eligible: set<string>) {
    || NeedsGatewayMigration(p)
    || (!p.routePriority.List? && SeedPriority(eligible).Some?)
    || StaleSwitch(SeedMissing(MigrateGateway(p, eligible), eligible))
    || NormalizeModels(p) != p
  }

  // ---------- the loader, updating the parsed file in place ----------

  class ParsedConfig {
    var muxGatewayEnabled: Switch
    var muxGatewayModels: List
    var routePriority: List
    var routeOverrides: Record
    var defaultModel: Option<string>
    var hiddenModels: List
    var agentModels: seq<string>
    var subagentModels: seq<string>

    function Value(): Parsed
      reads this
    {
      Parsed(muxGatewayEnabled, muxGatewayModels, routePriority, routeOverrides,
             defaultModel, hiddenModels, agentModels, subagentModels)
    }

    method FillRouteOverrides()
      modifies this`routeOverrides
      ensures Value() == old(Value()).(routeOverrides := MigratedOverrides(old(Value())))
    {
      if muxGatewayEnabled == Bool(false) { return; }
      var legacyModels := LegacyModels(Value());
      ghost var base := RoutesOf(routeOverrides);
      var merged := RoutesOf(routeOverrides);
      var modified := false;
      for i := 0 to |legacyModels|
        invariant routeOverrides == old(routeOverrides)
        invariant merged == FillGaps(base, legacyModels[..i])
        invariant if modified then |merged| > |base| else merged == base
      {
        assert legacyModels[..i + 1][..i] == legacyModels[..i];
        var canonicalModel := legacyModels[i];
        if canonicalModel.None? || Has(merged, canonicalModel.value) { continue; }
        SetRouteAppends(merged, canonicalModel.value, "mux-gateway");
        merged := SetRoute(merged, canonicalModel.value, "mux-gateway");
        modified := true;
      }
      assert legacyModels[..|legacyModels|] == legacyModels;
      if modified { routeOverrides := Record(Stored(merged)); }
    }

    method MigrateOnLoad(eligible: set<string>) returns (configModified: bool)
      modifies this
      ensures Value() == Migrated(old(Value()), eligible)
      ensures configModified == Modifies(old(Value()), eligible)
    {
      configModified := false;
      if NeedsGatewayMigration(Value()) {
        var nextPriority := MigratedPriority(Value(), eligible);
        FillRouteOverrides();
        routePriority := Listed(nextPriority);
        configModified := true;
      }
      if !routePriority.List? && SeedPriority(eligible).Some? {
        routePriority := Listed(SeedPriority(eligible).value);
        configModified := true;
      }
      if routePriority.List? && Some("mux-gateway") in routePriority.items && muxGatewayEnabled == Bool(false) {
        muxGatewayEnabled := Unset;
        configModified := true;
      }
      var normalized := NormalizeModels(Value());
      if normalized != Value() { configModified := true; }
      defaultModel, hiddenModels := normalized.defaultModel, normalized.hiddenModels;
      agentModels, subagentModels := normalized.agentModels, normalized.subagentModels;
    }
  }

  // ---------- route objects ----------

  lemma {:induction false} SetRouteAppends(routes: Routes, key: string, route: string)
    requires !Has(routes, key)
    ensures SetRoute(routes, key, route) == routes + [(key, route)]
  {
    if routes != [] {
      assert routes[0].0 != key;
      forall i | 0 <= i < |routes[1..]| ensures routes[1..][i].0 != key { assert routes[i + 1].0 != key; }
      SetRouteAppends(routes[1..], key, route);
    }
  }

  lemma {:induction false} HasIsRouteOf(routes: Routes, key: string)
    ensures Has(routes, key) <==> RouteOf(routes, key).Some?
  {
    if routes != [] {
      HasIsRouteOf(routes[1..], key);
      if Has(routes[1..], key) {
        var i :| 0 <= i < |routes[1..]| && routes[1..][i].0 == key;
        assert routes[i + 1].0 == key;
      }
      if Has(routes, key) && routes[0].0 != key {
        var i :| 0 <= i < |routes| && routes[i].0 == key;
        assert routes[1..][i - 1].0 == key;
      }
    }
  }

  lemma {:induction false} RouteOfSet(routes: Routes, key: string, route: string, x: string)
    ensures RouteOf(SetRoute(routes, key, route), x) == if x == key then Some(route) else RouteOf(routes, x)
  {
    if routes != [] && routes[0].0 != key { RouteOfSet(routes[1..], key, route, x); }
  }

  lemma {:induction false} SetRouteKeys(routes: Routes, key: string, route: string)
    ensures Has(routes, key) ==> |SetRoute(routes, key, route)| == |routes|
    ensures Has(routes, key) ==> forall i :: 0 <= i < |routes| ==> SetRoute(routes, key, route)[i].0 == routes[i].0
  {
    if routes != [] && routes[0].0 != key {
      SetRouteKeys(routes[1..], key, route);
      if Has(routes, key) {
        var i :| 0 <= i < |routes| && routes[i].0 == key;
        assert routes[1..][i - 1].0 == key;
      }
    }
  }

  lemma SetRouteCanonical(routes: Routes, key: string, route: string)
    requires Canonical(routes) && NormalizeToCanonical(key) == key
    ensures Canonical(SetRoute(routes, key, route))
  {
    if Has(routes, key) { SetRouteKeys(routes, key, route); } else { SetRouteAppends(routes, key, route); }
  }

  lemma {:induction false} CanonicalRoutesCanonical(entries: seq<(string, Option<string>)>)
    ensures Canonical(CanonicalRoutes(entries))
  {
    if entries != [] {
      CanonicalRoutesCanonical(entries[..|entries| - 1]);
      var e := entries[|entries| - 1];
      CanonicalIsIdempotent(e.0);
      if e.1.Some? { SetRouteCanonical(CanonicalRoutes(entries[..|entries| - 1]), NormalizeToCanonical(e.0), e.1.value); }
    }
  }

  // Storing canonical routes and loading them again gives them back.
  lemma {:induction false} StoredLoads(routes: Routes)
    requires Canonical(routes)
    ensures CanonicalRoutes(Stored(routes)) == routes
  {
    if routes != [] {
      var front, last := routes[..|routes| - 1], routes[|routes| - 1];
      StoredLoads(front);
      assert Stored(routes)[..|routes| - 1] == Stored(front);
      assert !Has(front, last.0);
      SetRouteAppends(front, last.0, last.1);
      assert front + [last] == routes;
    }
  }

  lemma LegacyIsCanonical(value: string)
    ensures LegacyGatewayModel(value).Some? ==>
              NormalizeToCanonical(LegacyGatewayModel(value).value) == LegacyGatewayModel(value).value
  {
    var trimmed := Trim(value);
    CanonicalIsIdempotent(if ':' in trimmed then trimmed else ReplaceFirstSlash(trimmed));
  }

  lemma LegacyModelsCanonical(p: Parsed)
    ensures forall m :: m in LegacyModels(p) && m.Some? ==> NormalizeToCanonical(m.value) == m.value
  {
    var names := if p.muxGatewayModels.List? then Strings(p.muxGatewayModels.items) else [];
    forall i | 0 <= i < |names|
      ensures LegacyModels(p)[i].Some? ==> NormalizeToCanonical(LegacyModels(p)[i].value) == LegacyModels(p)[i].value
    {
      LegacyIsCanonical(names[i]);
    }
  }

  lemma {:induction false} FillGapsCanonical(routes: Routes, models: seq<Option<string>>)
    requires Canonical(routes)
    requires forall m :: m in models && m.Some? ==> NormalizeToCanonical(m.value) == m.value
    ensures Canonical(FillGaps(routes, models))
  {
    if models != [] {
      var front, last := models[..|models| - 1], models[|models| - 1];
      FillGapsCanonical(routes, front);
      if last.Some? {
        assert last in models;
        SetRouteCanonical(FillGaps(routes, front), last.value, "mux-gateway");
      }
    }
  }

  lemma {:induction false} FillGapsMeans(routes: Routes, models: seq<Option<string>>, k: string)
    ensures RouteOf(FillGaps(routes, models), k) ==
              if RouteOf(routes, k).Some? then RouteOf(routes, k)
              else if Some(k) in models then Some("mux-gateway") else None
  {
    if models != [] {
      var front, last := models[..|models| - 1], models[|models| - 1];
      FillGapsMeans(routes, front, k);
      assert models == front + [last];
      var r := FillGaps(routes, front);
      if last.Some? {
        HasIsRouteOf(r, last.value);
        RouteOfSet(r, last.value, "mux-gateway", k);
      }
    }
  }

  lemma RoutesOfCanonical(r: Record)
    ensures Canonical(RoutesOf(r))
  {
    if r.Record? { CanonicalRoutesCanonical(r.entries); }
  }

  // ---------- the theorems ----------

  // Every override of the file, under its canonical key, keeps its route. The only routes that appear are
  // gaps filled from legacy models by a migration with the gateway not switched off, and all of those are.
  lemma OverridesKeepTheirRoutes(p: Parsed, eligible: set<string>, k: string)
    ensures var before := RouteOf(RoutesOf(p.routeOverrides), k);
      var filled := NeedsGatewayMigration(p) && p.muxGatewayEnabled != Bool(false) && Some(k) in LegacyModels(p);
      RouteOf(RoutesOf(Migrated(p, eligible).routeOverrides), k) ==
      if before.Some? then before else if filled then Some("mux-gateway") else None
  {
    var routes := RoutesOf(p.routeOverrides);
    RoutesOfCanonical(p.routeOverrides);
    LegacyModelsCanonical(p);
    FillGapsCanonical(routes, LegacyModels(p));
    FillGapsMeans(routes, LegacyModels(p), k);
    StoredLoads(FillGaps(routes, LegacyModels(p)));
  }

  // A stored priority is the user's: it is never altered.
  lemma StoredPriorityIsKept(p: Parsed, eligible: set<string>)
    requires p.routePriority.List?
    ensures Migrated(p, eligible).routePriority == p.routePriority
    ensures RoutesOf(Migrated(p, eligible).routeOverrides) == RoutesOf(p.routeOverrides)
  {
  }

  lemma {:induction false} WithoutGatewayHasNone(ss: seq<string>)
    ensures forall s :: s in WithoutGateway(ss) <==> s in ss && s != "mux-gateway"
  {
    if ss != [] {
      WithoutGatewayHasNone(ss[..|ss| - 1]);
      assert ss == ss[..|ss| - 1] + [ss[|ss| - 1]];
    }
  }

  lemma {:induction false} EligibleMembers(gateways: seq<string>, eligible: set<string>)
    ensures forall g :: g in EligibleGateways(gateways, eligible) <==> g in gateways && g in eligible
  {
    if gateways != [] {
      EligibleMembers(gateways[1..], eligible);
      assert gateways == [gateways[0]] + gateways[1..];
    }
  }

  // A gateway that is switched off is never put into a seeded priority; all other eligible ones are.
  lemma DisabledGatewayIsNotSeeded(p: Parsed, eligible: set<string>)
    requires !p.routePriority.List? && p.muxGatewayEnabled == Bool(false)
    ensures var q := Migrated(p, eligible);
      && q.routePriority.List? && Some("mux-gateway") !in q.routePriority.items
      && q.muxGatewayEnabled == Bool(false) && q.routeOverrides == p.routeOverrides
      && (forall g :: g in GATEWAY_PROVIDERS && g in eligible && g != "mux-gateway" ==> Some(g) in q.routePriority.items)
      && Some("direct") in q.routePriority.items
  {
    var seeded := SeedPriority(eligible).GetOr(["direct"]);
    WithoutGatewayHasNone(seeded);
    EligibleMembers(GATEWAY_PROVIDERS, eligible);
    var priority := MigratedPriority(p, eligible);
    assert forall g :: g in priority ==> g != "mux-gateway";
    assert "direct" in seeded;
    var items := Listed(priority).items;
    forall g | g in priority ensures Some(g) in items {
      var i :| 0 <= i < |priority| && priority[i] == g;
      assert items[i] == Some(g);
    }
    forall item | item in items ensures item != Some("mux-gateway") {
      var i :| 0 <= i < |items| && items[i] == item;
      assert priority[i] in priority;
    }
    assert MigrateGateway(p, eligible).routePriority.items == items;
  }

  lemma {:induction false} StringsOfListed(ss: seq<string>)
    ensures Strings(Listed(ss).items) == ss
  {
    if ss != [] {
      StringsOfListed(ss[..|ss| - 1]);
      assert Listed(ss).items[..|ss| - 1] == Listed(ss[..|ss| - 1]).items;
    }
  }

  lemma NamesSettle(ss: seq<string>)
    ensures NormalizedNames(NormalizedNames(ss)) == NormalizedNames(ss)
  {
    forall i | 0 <= i < |ss| ensures NormalizedNames(NormalizedNames(ss))[i] == NormalizedNames(ss)[i] {
      NameSettles(ss[i]);
    }
  }

  lemma NameSettles(s: string)
    ensures NormalizeSelectedModel(Trim(NormalizeSelectedModel(Trim(s)))) == NormalizeSelectedModel(Trim(s))
  {
    SelectingOnlyTrims(Trim(s));
    TrimTrims(s);
    TrimIsStable(Trim(s));
  }

  lemma ModelsSettle(p: Parsed)
    ensures NormalizeModels(NormalizeModels(p)) == NormalizeModels(p)
  {
    if p.defaultModel.Some? { NameSettles(p.defaultModel.value); }
    if p.hiddenModels.List? {
      StringsOfListed(NormalizedNames(Strings(p.hiddenModels.items)));
      NamesSettle(Strings(p.hiddenModels.items));
    }
    NamesSettle(p.agentModels);
    NamesSettle(p.subagentModels);
  }

  // With the providers unchanged, loading a second time modifies nothing and so writes nothing.
  lemma MigrationConverges(p: Parsed, eligible: set<string>)
    ensures !Modifies(Migrated(p, eligible), eligible)
    ensures Migrated(Migrated(p, eligible), eligible) == Migrated(p, eligible)
  {
    ModelsSettle(ClearStaleSwitch(SeedMissing(MigrateGateway(p, eligible), eligible)));
  }
}
