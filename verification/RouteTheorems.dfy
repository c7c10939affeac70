/** What loading the configuration file makes of the routes: which gateways are seeded, which models are meant. */
module RouteTheorems {
  import opened Wrappers
  import opened Text
  import opened Sequences
  import opened ModelNames
  import opened RouteMigration

  // ---------- the seeded priority ----------

  // The gateways that can be used, in the order in which the program knows them.
  lemma {:induction false} EligibleAre(gateways: seq<string>, eligible: set<string>)
    requires Sequences.Distinct(gateways)
    ensures var e := EligibleGateways(gateways, eligible);
      && (forall g :: g in e <==> g in gateways && g in eligible)
      && (forall i, j :: 0 <= i < j < |e| ==> FirstIndex(gateways, e[i]) < FirstIndex(gateways, e[j]))
  {
    if gateways != [] {
      var rest := EligibleGateways(gateways[1..], eligible);
      assert Sequences.Distinct(gateways[1..]);
      EligibleAre(gateways[1..], eligible);
      assert gateways == [gateways[0]] + gateways[1..];
      assert gateways[0] !in gateways[1..];
      forall g | g in rest ensures FirstIndex(gateways, g) == FirstIndex(gateways[1..], g) + 1 && g != gateways[0] {
      }
    }
  }

  lemma {:induction false} WithoutAppend(a: seq<string>, b: seq<string>)
    ensures WithoutGateway(a + b) == WithoutGateway(a) + WithoutGateway(b)
  {
    if b == [] {
      assert a + b == a;
    } else {
      WithoutAppend(a, b[..|b| - 1]);
      assert (a + b)[..|a + b| - 1] == a + b[..|b| - 1];
    }
  }

  lemma WithoutOne(s: string)
    ensures WithoutGateway([s]) == if s == "mux-gateway" then [] else [s]
  {
    assert [s][..0] == [] && WithoutGateway([]) == [];
  }

  // Taking the switched-off gateway out of the list is not counting it as usable.
  lemma {:induction false} WithoutIsIneligible(gateways: seq<string>, eligible: set<string>)
    ensures WithoutGateway(EligibleGateways(gateways, eligible)) == EligibleGateways(gateways, eligible - {"mux-gateway"})
  {
    if gateways != [] {
      WithoutIsIneligible(gateways[1..], eligible);
      WithoutOne(gateways[0]);
      WithoutAppend([gateways[0]], EligibleGateways(gateways[1..], eligible));
    }
  }

  function Usable(p: Parsed, eligible: set<string>): set<string> {
    if p.muxGatewayEnabled == Bool(false) then eligible - {"mux-gateway"} else eligible
  }

  lemma PriorityIs(p: Parsed, eligible: set<string>)
    ensures MigratedPriority(p, eligible) == EligibleGateways(GATEWAY_PROVIDERS, Usable(p, eligible)) + ["direct"]
  {
    var all := EligibleGateways(GATEWAY_PROVIDERS, eligible);
    WithoutIsIneligible(GATEWAY_PROVIDERS, eligible);
    WithoutAppend(all, ["direct"]);
    WithoutOne("direct");
    assert SeedPriority(eligible).GetOr(["direct"]) == all + ["direct"];
  }

  // A priority that names exactly the usable gateways, in the known order, and the direct route last.
  ghost predicate Seeds(priority: seq<string>, usable: set<string>) {
    var n := |priority| - 1;
    && n >= 0 && priority[n] == "direct"
    && (forall g :: g in priority[..n] <==> g in GATEWAY_PROVIDERS && g in usable)
    && (forall i, j :: 0 <= i < j < n ==> FirstIndex(GATEWAY_PROVIDERS, priority[..n][i]) < FirstIndex(GATEWAY_PROVIDERS, priority[..n][j]))
  }

  lemma EligibleSeeds(usable: set<string>)
    ensures Seeds(EligibleGateways(GATEWAY_PROVIDERS, usable) + ["direct"], usable)
  {
    var e := EligibleGateways(GATEWAY_PROVIDERS, usable);
    EligibleAre(GATEWAY_PROVIDERS, usable);
    assert (e + ["direct"])[..|e|] == e;
  }

  // A file without a priority gets one if it has a switch or models to migrate, or if some gateway can be used: exactly
  // the gateways that can, without one that is switched off.
  lemma SeededPriorityIs(p: Parsed, eligible: set<string>)
    requires !p.routePriority.List?
    ensures var q := Migrated(p, eligible).routePriority;
      && (q.List? <==> NeedsGatewayMigration(p) || exists g :: g in GATEWAY_PROVIDERS && g in eligible)
      && (!q.List? ==> q == p.routePriority)
      && (q.List? ==> exists priority :: q == Listed(priority) && Seeds(priority, Usable(p, eligible)))
  {
    PriorityIs(p, eligible);
    EligibleSeeds(Usable(p, eligible));
    EligibleAre(GATEWAY_PROVIDERS, eligible);
    var priority := EligibleGateways(GATEWAY_PROVIDERS, Usable(p, eligible)) + ["direct"];
    var all := EligibleGateways(GATEWAY_PROVIDERS, eligible);
    if all != [] { assert all[0] in all; }
    if Migrated(p, eligible).routePriority.List? { assert Migrated(p, eligible).routePriority == Listed(priority); }
  }

  // The switch is cleared exactly where a stored priority names the gateway that it switches off.
  lemma SwitchIs(p: Parsed, eligible: set<string>)
    ensures Migrated(p, eligible).muxGatewayEnabled ==
            if p.muxGatewayEnabled == Bool(false) && p.routePriority.List? && Some("mux-gateway") in p.routePriority.items
            then Unset else p.muxGatewayEnabled
    ensures Migrated(p, eligible).muxGatewayModels == p.muxGatewayModels
  {
    if p.muxGatewayEnabled == Bool(false) && !p.routePriority.List? { DisabledGatewayIsNotSeeded(p, eligible); }
  }

  // ---------- the stored models ----------

  lemma {:induction false} StringsAppend(a: seq<Option<string>>, b: seq<Option<string>>)
    ensures Strings(a + b) == Strings(a) + Strings(b)
  {
    if b == [] {
      assert a + b == a;
    } else {
      StringsAppend(a, b[..|b| - 1]);
      assert (a + b)[..|a + b| - 1] == a + b[..|b| - 1];
    }
  }

  // The strings of a list, in order, without what is no string.
  lemma StringsAre(a: seq<Option<string>>, item: Option<string>, b: seq<Option<string>>)
    ensures Strings(a + [item] + b) == Strings(a) + (if item.Some? then [item.value] else []) + Strings(b)
  {
    assert [item][..0] == [] && Strings([]) == [];
    assert Strings([item]) == if item.Some? then [item.value] else [];
    StringsAppend(a, [item]);
    StringsAppend(a + [item], b);
  }

  function Trims(ss: seq<string>): seq<string> {
    seq(|ss|, i requires 0 <= i < |ss| => Trim(ss[i]))
  }

  lemma NamesAreTrimmed(ss: seq<string>)
    ensures NormalizedNames(ss) == Trims(ss)
  {
    forall i | 0 <= i < |ss| ensures NormalizedNames(ss)[i] == Trim(ss[i]) { TrimmedOnce(ss[i]); }
  }

  // Stored model names are trimmed and not otherwise changed; hidden models that are no strings are dropped.
  lemma ModelsAreTrimmed(p: Parsed, eligible: set<string>)
    ensures var q := Migrated(p, eligible);
      && q.defaultModel == (if p.defaultModel.Some? then Some(Trim(p.defaultModel.value)) else None)
      && q.agentModels == Trims(p.agentModels) && q.subagentModels == Trims(p.subagentModels)
      && q.hiddenModels == if p.hiddenModels.List? then Listed(Trims(Strings(p.hiddenModels.items))) else p.hiddenModels
  {
    if p.defaultModel.Some? { TrimmedOnce(p.defaultModel.value); }
    NamesAreTrimmed(p.agentModels);
    NamesAreTrimmed(p.subagentModels);
    if p.hiddenModels.List? { NamesAreTrimmed(Strings(p.hiddenModels.items)); }
  }

  lemma TrimmedOnce(s: string)
    ensures NormalizeSelectedModel(Trim(s)) == Trim(s)
  {
    SelectingOnlyTrims(Trim(s));
    TrimTrims(s);
    TrimIsStable(Trim(s));
  }

  // A legacy gateway model is what follows the gateway's own spelling, or `origin/name` without a gateway.
  lemma LegacyModelIs(gateway: string, origin: string, c: char, name: string)
    requires KindOf(origin) == Some(Direct) && name != "" && !IsSpace(name[|name| - 1])
    ensures Spells(gateway, gateway + ":" + (origin + [c] + name), origin, c, name) ==>
              LegacyGatewayModel(gateway + ":" + (origin + [c] + name)) == Some(origin + ":" + name)
    ensures ':' !in name ==> LegacyGatewayModel(origin + "/" + name) == Some(origin + ":" + name)
  {
    var model := gateway + ":" + (origin + [c] + name);
    DirectNamesHaveNoColon(origin);
    DirectNamesAreWords(origin);
    ColonAt(origin, name);
    if Spells(gateway, model, origin, c, name) {
      GatewaysHaveNoColon(gateway);
      ColonAt(gateway, origin + [c] + name);
      TrimIsStable(model);
      SpellingsAreCanonical(gateway, model, origin, c, name);
      assert model[|gateway|] == ':';
    }
    if ':' !in name { SlashedModel(origin, name); }
  }

  lemma SlashedModel(origin: string, name: string)
    requires KindOf(origin) == Some(Direct) && name != "" && !IsSpace(name[|name| - 1]) && ':' !in name
    ensures LegacyGatewayModel(origin + "/" + name) == Some(origin + ":" + name)
  {
    var slashed := origin + "/" + name;
    DirectNamesHaveNoColon(origin);
    DirectNamesAreWords(origin);
    TrimIsStable(slashed);
    SeparatorAt(origin, '/', name);
    ColonAt(origin, name);
    assert slashed == origin + ['/'] + name;
    assert ReplaceFirstSlash(slashed) == origin + ":" + name;
  }

  lemma DirectNamesAreWords(origin: string)
    requires KindOf(origin) == Some(Direct)
    ensures origin != "" && !IsSpace(origin[0]) && '/' !in origin && KindOf(origin) != Some(Gateway)
  {
  }

  // ---------- the stored overrides ----------

  // The last entry for a model counts, under whatever spelling; an entry that is no string does not.
  lemma {:induction false} LastOverrideCounts(entries: seq<(string, Option<string>)>, i: nat)
    requires i < |entries| && entries[i].1.Some?
    requires forall j :: i < j < |entries| && entries[j].1.Some? ==> NormalizeToCanonical(entries[j].0) != NormalizeToCanonical(entries[i].0)
    ensures RouteOf(CanonicalRoutes(entries), NormalizeToCanonical(entries[i].0)) == entries[i].1
  {
    var front, last := entries[..|entries| - 1], entries[|entries| - 1];
    if last.1.Some? { RouteOfSet(CanonicalRoutes(front), NormalizeToCanonical(last.0), last.1.value, NormalizeToCanonical(entries[i].0)); }
    if i < |entries| - 1 { LastOverrideCounts(front, i); }
  }

  lemma {:induction false} OnlyEntriesCount(entries: seq<(string, Option<string>)>, k: string)
    requires forall j :: 0 <= j < |entries| && entries[j].1.Some? ==> NormalizeToCanonical(entries[j].0) != k
    ensures RouteOf(CanonicalRoutes(entries), k) == None
  {
    if entries != [] {
      var front, last := entries[..|entries| - 1], entries[|entries| - 1];
      OnlyEntriesCount(front, k);
      if last.1.Some? { RouteOfSet(CanonicalRoutes(front), NormalizeToCanonical(last.0), last.1.value, k); }
    }
  }

  // The file is written if and only if loading changes it.
  lemma WrittenIffChanged(p: Parsed, eligible: set<string>)
    ensures Modifies(p, eligible) <==> Migrated(p, eligible) != p
  {
    var m := ClearStaleSwitch(SeedMissing(MigrateGateway(p, eligible), eligible));
    assert NormalizeModels(m) == m.(defaultModel := NormalizeModels(p).defaultModel, hiddenModels := NormalizeModels(p).hiddenModels,
                                    agentModels := NormalizeModels(p).agentModels, subagentModels := NormalizeModels(p).subagentModels);
    if NeedsGatewayMigration(p) { SeededPriorityIs(p, eligible); }
    if StaleSwitch(m) || StaleSwitch(SeedMissing(MigrateGateway(p, eligible), eligible)) { SwitchIs(p, eligible); }
  }
}
