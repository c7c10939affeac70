/** The secrets file: normalising what is on disk, reading and updating one project, and the secrets
    a project effectively gets. */
module SecretsConfig {
  import opened Wrappers
  import opened Text
  import opened Secrets
  import opened SecretResolver

  const GLOBAL_SECRETS_KEY := "__global__"

  type Config = map<string, seq<Secret>>

  // ---------- keys ----------

  predicate IsSlash(c: char) { c == '/' || c == '\\' }

  function StripTrailingSlashes(p: string): (r: string)
    ensures r <= p
  {
    if p != "" && IsSlash(p[|p| - 1]) then StripTrailingSlashes(p[..|p| - 1]) else p
  }

  // The key a path on disk is read under.
  function StoreKey(rawKey: string): string {
    if rawKey == GLOBAL_SECRETS_KEY || StripTrailingSlashes(rawKey) == "" then rawKey
    else StripTrailingSlashes(rawKey)
  }

  // The key a project's secrets are looked up and written under.
  function ProjectKey(path: string): string {
    if StripTrailingSlashes(path) == "" then path else StripTrailingSlashes(path)
  }

  lemma StripStops(p: string)
    ensures StripTrailingSlashes(p) == "" || !IsSlash(StripTrailingSlashes(p)[|StripTrailingSlashes(p)| - 1])
  {
  }

  lemma KeysAgree(p: string)
    ensures ProjectKey(p) == StoreKey(p)
    ensures StoreKey(StoreKey(p)) == StoreKey(p)
  {
    StripStops(p);
    assert !IsSlash(GLOBAL_SECRETS_KEY[|GLOBAL_SECRETS_KEY| - 1]);
  }

  // Two spellings share a key exactly when they differ in trailing slashes only; paths of nothing but
  // slashes stay apart.
  lemma SlashVariantsShareAKey(p: string, q: string)
    ensures StoreKey(p) == StoreKey(q) <==>
              p == q || (StripTrailingSlashes(p) == StripTrailingSlashes(q) && StripTrailingSlashes(p) != "")
  {
    KeysAgree(p);
    KeysAgree(q);
    StripStops(p);
    StripStops(q);
    if p != q && StripTrailingSlashes(p) == "" && StripTrailingSlashes(q) == StoreKey(p) {
      assert StripTrailingSlashes(StripTrailingSlashes(q)) == StripTrailingSlashes(q);
    }
    if p != q && StripTrailingSlashes(q) == "" && StripTrailingSlashes(p) == StoreKey(q) {
      assert StripTrailingSlashes(StripTrailingSlashes(p)) == StripTrailingSlashes(p);
    }
  }

  lemma {:induction false} StripIs(p: string, q: string)
    requires q != "" && !IsSlash(q[|q| - 1])
    ensures StripTrailingSlashes(p) == q <==> q <= p && forall i :: |q| <= i < |p| ==> p[i] == '/' || p[i] == '\\'
  {
    if p != "" && IsSlash(p[|p| - 1]) { StripIs(p[..|p| - 1], q); }
  }

  // A project named like the key of the global secrets, with or without slashes behind it, reads and writes them.
  lemma GlobalNameIsTheGlobals(p: string)
    ensures ProjectKey(p) == GLOBAL_SECRETS_KEY <==>
              GLOBAL_SECRETS_KEY <= p && forall i :: |GLOBAL_SECRETS_KEY| <= i < |p| ==> p[i] == '/' || p[i] == '\\'
  {
    assert !IsSlash(GLOBAL_SECRETS_KEY[|GLOBAL_SECRETS_KEY| - 1]);
    StripIs(p, GLOBAL_SECRETS_KEY);
    if StripTrailingSlashes(p) == "" && p == GLOBAL_SECRETS_KEY { StripStops(p); }
  }

  // ---------- what is on disk ----------

  datatype Flag = Absent | Flag(on: bool) | NotBoolean
  datatype RawSecret = Malformed | Entry(key: string, value: Value, injectAll: Flag)

  // One property of the JSON object; None where the value is not an array.
  datatype Property = Property(key: string, secrets: Option<seq<RawSecret>>)

  predicate IsValue(v: Value) { v.Literal? || v.IsReference() || v.IsOp() }

  function ParseArray(raw: seq<RawSecret>): seq<Secret> {
    if raw == [] then []
    else
      var rest := ParseArray(raw[..|raw| - 1]);
      var e := raw[|raw| - 1];
      if e.Entry? && IsValue(e.value) then
        rest + [Secret(e.key, e.value, if e.injectAll.Flag? then Some(e.injectAll.on) else None)]
      else rest
  }

  lemma {:induction false} ParseAppend(a: seq<RawSecret>, b: seq<RawSecret>)
    ensures ParseArray(a + b) == ParseArray(a) + ParseArray(b)
  {
    if b == [] {
      assert a + b == a;
    } else {
      ParseAppend(a, b[..|b| - 1]);
      assert (a + b)[..|a + b| - 1] == a + b[..|b| - 1];
    }
  }

  // Item by item, in order: an entry whose value is a literal, a reference or an op value is read with its flag if that
  // is a boolean; anything else is dropped.
  lemma ParsedItems(a: seq<RawSecret>, e: RawSecret, b: seq<RawSecret>)
    ensures e.Entry? && (e.value.Literal? || e.value.secret.Some? || e.value.op.Some?) ==>
              ParseArray(a + [e] + b) ==
              ParseArray(a) + [Secret(e.key, e.value, match e.injectAll case Flag(on) => Some(on) case _ => None)] + ParseArray(b)
    ensures e.Malformed? || e.value == Object(None, None) ==> ParseArray(a + [e] + b) == ParseArray(a + b)
  {
    assert [e][..0] == [];
    ParseAppend(a, [e]);
    ParseAppend(a + [e], b);
    ParseAppend(a, b);
  }

  function ParseSecretsArray(raw: Option<seq<RawSecret>>): seq<Secret> {
    ParseArray(raw.GetOr([]))
  }

  function Encode(ss: seq<Secret>): (r: seq<RawSecret>)
    ensures |r| == |ss|
  {
    seq(|ss|, i requires 0 <= i < |ss| =>
      Entry(ss[i].key, ss[i].value, if ss[i].injectAll.Some? then Flag(ss[i].injectAll.value) else Absent))
  }

  predicate Proper(ss: seq<Secret>) {
    forall i :: 0 <= i < |ss| ==> IsValue(ss[i].value)
  }

  lemma {:induction false} ParseEncoded(ss: seq<Secret>)
    requires Proper(ss)
    ensures ParseArray(Encode(ss)) == ss
  {
    if ss != [] {
      ParseEncoded(ss[..|ss| - 1]);
      assert Encode(ss)[..|ss| - 1] == Encode(ss[..|ss| - 1]);
    }
  }

  lemma {:induction false} ParsedIsProper(raw: seq<RawSecret>)
    ensures Proper(ParseArray(raw))
  {
    if raw != [] { ParsedIsProper(raw[..|raw| - 1]); }
  }

  // ---------- normalising ----------

  function AddProperty(c: Config, p: Property): Config {
    var key := StoreKey(p.key);
    var secrets := ParseSecretsArray(p.secrets);
    c[key := if key in c then Merged(c[key] + secrets) else secrets]
  }

  function Normalized(file: seq<Property>): Config {
    if file == [] then map[] else AddProperty(Normalized(file[..|file| - 1]), file[|file| - 1])
  }

  method AddRawProperty(config: Config, p: Property) returns (normalized: Config)
    ensures normalized == AddProperty(config, p)
  {
    var key := p.key;
    if key != GLOBAL_SECRETS_KEY {
      var normalizedKey := StripTrailingSlashes(key);
      key := if normalizedKey != "" then normalizedKey else key;
    }
    var secrets := ParseSecretsArray(p.secrets);
    if key in config {
      secrets := MergeSecretsByKey(config[key], secrets);
    }
    normalized := config[key := secrets];
  }

  method NormalizeSecretsConfig(file: seq<Property>) returns (normalized: Config)
    ensures normalized == Normalized(file)
  {
    normalized := map[];
    for i := 0 to |file|
      invariant normalized == Normalized(file[..i])
    {
      assert file[..i + 1][..i] == file[..i];
      normalized := AddRawProperty(normalized, file[i]);
    }
    assert file[..|file|] == file;
  }

  // All that the file says under the spellings of one key, in file order.
  function Gathered(file: seq<Property>, key: string): seq<seq<Secret>> {
    if file == [] then []
    else
      var front := Gathered(file[..|file| - 1], key);
      var last := file[|file| - 1];
      if StoreKey(last.key) == key then front + [ParseSecretsArray(last.secrets)] else front
  }

  function Flatten(sss: seq<seq<Secret>>): seq<Secret> {
    if sss == [] then [] else Flatten(sss[..|sss| - 1]) + sss[|sss| - 1]
  }

  // Every spelling of a key contributes: one property is read as it is, several are merged by key,
  // the last writer winning over all of them.
  lemma {:induction false} NormalizedMergesVariants(file: seq<Property>, key: string)
    ensures key in Normalized(file) <==> Gathered(file, key) != []
    ensures |Gathered(file, key)| == 1 ==> Normalized(file)[key] == Gathered(file, key)[0]
    ensures |Gathered(file, key)| >= 2 ==> Normalized(file)[key] == Merged(Flatten(Gathered(file, key)))
  {
    if file != [] {
      var front, last := file[..|file| - 1], file[|file| - 1];
      NormalizedMergesVariants(front, key);
      if StoreKey(last.key) == key {
        GathersOneMore(Normalized(front), Gathered(front, key), key, ParseSecretsArray(last.secrets));
      }
    }
  }

  // A config holds under a key what was gathered for it.
  predicate Gathers(c: Config, g: seq<seq<Secret>>, key: string) {
    && (key in c <==> g != [])
    && (|g| == 1 ==> c[key] == g[0])
    && (|g| >= 2 ==> c[key] == Merged(Flatten(g)))
  }

  lemma GathersOneMore(c: Config, g: seq<seq<Secret>>, key: string, more: seq<Secret>)
    requires Gathers(c, g, key)
    ensures Gathers(c[key := if key in c then Merged(c[key] + more) else more], g + [more], key)
  {
    MergeOneMore(g, more);
  }

  lemma MergeOneMore(g: seq<seq<Secret>>, more: seq<Secret>)
    ensures Flatten(g + [more]) == Flatten(g) + more
    ensures |g| == 1 ==> Merged(g[0] + more) == Merged(Flatten(g + [more]))
    ensures |g| >= 2 ==> Merged(Merged(Flatten(g)) + more) == Merged(Flatten(g + [more]))
  {
    assert (g + [more])[..|g|] == g;
    if |g| == 1 {
      assert g[..0] == [] && Flatten(g) == g[0];
    } else {
      MergeIsAssociative(Flatten(g), [], more);
      assert Flatten(g) + [] == Flatten(g) && [] + more == more;
    }
  }

  lemma {:induction false} NormalizedKeys(file: seq<Property>)
    ensures forall k :: k in Normalized(file) ==> StoreKey(k) == k && Proper(Normalized(file)[k])
  {
    if file != [] {
      var front := file[..|file| - 1];
      var last := file[|file| - 1];
      NormalizedKeys(front);
      KeysAgree(last.key);
      ParsedIsProper(last.secrets.GetOr([]));
      var key := StoreKey(last.key);
      if key in Normalized(front) {
        MergedIsProper(Normalized(front)[key] + ParseSecretsArray(last.secrets));
      }
    }
  }

  lemma MergedIsProper(ss: seq<Secret>)
    requires Proper(ss)
    ensures Proper(Merged(ss))
  {
    MergedMeans(ss);
    forall i | 0 <= i < |Merged(ss)| ensures IsValue(Merged(ss)[i].value) {
      LastWriterIsIn(ss, Merged(ss)[i].key);
    }
  }

  lemma {:induction false} LastWriterIsIn(ss: seq<Secret>, k: string)
    ensures LastWriter(ss, k).Some? ==> LastWriter(ss, k).value in ss && LastWriter(ss, k).value.key == k
  {
    if ss != [] && ss[|ss| - 1].key != k { LastWriterIsIn(ss[..|ss| - 1], k); }
  }

  // ---------- writing a config and reading it back ----------

  // `file` spells out a config: each of its keys once, in some order.
  ghost predicate Lists(file: seq<Property>, c: Config) {
    if file == [] then c == map[]
    else
      var last := file[|file| - 1];
      && last.key in c && last.secrets == Some(Encode(c[last.key]))
      && Lists(file[..|file| - 1], c - {last.key})
  }

  ghost predicate Normal(c: Config) {
    forall k :: k in c ==> StoreKey(k) == k && Proper(c[k])
  }

  lemma {:induction false} ReadBack(file: seq<Property>, c: Config)
    requires Lists(file, c) && Normal(c)
    ensures Normalized(file) == c
    decreases |file|
  {
    if file != [] {
      var last := file[|file| - 1];
      var c' := c - {last.key};
      ReadBack(file[..|file| - 1], c');
      ParseEncoded(c[last.key]);
      assert c'[last.key := c[last.key]] == c;
    }
  }

  // Normalising is idempotent: writing out what was read, in any order, and reading it again changes nothing.
  lemma NormalizingIsIdempotent(file: seq<Property>, written: seq<Property>)
    requires Lists(written, Normalized(file))
    ensures Normalized(written) == Normalized(file)
  {
    NormalizedKeys(file);
    ReadBack(written, Normalized(file));
  }

  class SecretsStore {
    var file: seq<Property>

    function Current(): Config
      reads this
    {
      Normalized(file)
    }

    function ProjectSecrets(path: string): seq<Secret>
      reads this
    {
      if ProjectKey(path) in Current() then Current()[ProjectKey(path)] else []
    }

    method LoadSecretsConfig() returns (config: Config)
      ensures config == Current()
    {
      config := NormalizeSecretsConfig(file);
    }

    // Every config is written out; it reads back as it was if and only if its keys and values are normal.
    method SaveSecretsConfig(config: Config)
      modifies this
      ensures Lists(file, config)
      ensures Current() == config <==> Normal(config)
    {
      var written: seq<Property> := [];
      var rest := config.Keys;
      ghost var done: Config := map[];
      while rest != {}
        invariant rest <= config.Keys && done.Keys == config.Keys - rest
        invariant forall k :: k in done ==> done[k] == config[k]
        invariant Lists(written, done)
        decreases rest
      {
        var k :| k in rest;
        ListsOneMore(written, done, k, config[k]);
        written := written + [Property(k, Some(Encode(config[k])))];
        done := done[k := config[k]];
        rest := rest - {k};
      }
      assert done == config;
      file := written;
      NormalizedKeys(written);
      if Normal(config) { ReadBack(written, config); }
    }

    method GetProjectSecrets(path: string) returns (secrets: seq<Secret>)
      ensures secrets == ProjectSecrets(path)
    {
      var config := LoadSecretsConfig();
      var key := StripTrailingSlashes(path);
      key := if key != "" then key else path;
      secrets := if key in config then config[key] else [];
    }

    // Every spelling of the path reads the new secrets back, and every other key reads what it did.
    method UpdateProjectSecrets(path: string, secrets: seq<Secret>)
      requires Proper(secrets)
      modifies this
      ensures Current() == old(Current())[ProjectKey(path) := secrets]
      ensures forall q :: ProjectKey(q) == ProjectKey(path) ==> ProjectSecrets(q) == secrets
      ensures forall q :: ProjectKey(q) != ProjectKey(path) ==> ProjectSecrets(q) == old(ProjectSecrets(q))
    {
      var config := LoadSecretsConfig();
      var key := StripTrailingSlashes(path);
      key := if key != "" then key else path;
      NormalizedKeys(file);
      KeysAgree(path);
      config := config[key := secrets];
      SaveSecretsConfig(config);
    }

    method GetEffectiveSecrets(path: string) returns (secrets: seq<Secret>)
      ensures secrets == Effective(Current(), ProjectKey(path))
    {
      var config := LoadSecretsConfig();
      var key := StripTrailingSlashes(path);
      key := if key != "" then key else path;
      secrets := ComputeEffective(config, key);
    }

    // The injected globals a project sees are exactly the part of its effective secrets that is not its own.
    method GetInjectedGlobalSecrets(path: string) returns (secrets: seq<Secret>)
      ensures secrets == InjectedGlobals(Current(), ProjectKey(path))
    {
      var projectSecrets := GetProjectSecrets(path);
      var effective := GetEffectiveSecrets(path);
      secrets := FilterOut(effective, KeySet(projectSecrets));
      InjectedIsTheFirstPart(Current(), ProjectKey(path));
    }
  }

  lemma ListsOneMore(file: seq<Property>, c: Config, k: string, ss: seq<Secret>)
    requires Lists(file, c) && k !in c
    ensures Lists(file + [Property(k, Some(Encode(ss)))], c[k := ss])
  {
    assert (file + [Property(k, Some(Encode(ss)))])[..|file|] == file;
    assert c[k := ss] - {k} == c;
  }

  // ---------- the effective secrets of a project ----------

  function Stored(c: Config, key: string): seq<Secret> {
    if key in c then c[key] else []
  }

  // The raw values of the global secrets, the last writer of a key winning.
  function RawGlobals(c: Config): RawTable {
    var t := PutAll(Empty, Stored(c, GLOBAL_SECRETS_KEY));
    map k | k in t.at :: t.at[k].value
  }

  function KeySet(ss: seq<Secret>): set<string> {
    set i | 0 <= i < |ss| :: ss[i].key
  }

  function Without(ss: seq<Secret>, keys: set<string>): seq<Secret> {
    if ss == [] then []
    else Without(ss[..|ss| - 1], keys) + (if ss[|ss| - 1].key in keys then [] else [ss[|ss| - 1]])
  }

  // A project secret that refers to a global one takes its value, if that one means anything.
  ghost function ResolveOne(raw: RawTable, s: Secret): Secret {
    if s.value.IsReference() && Trim(s.value.secret.value) != "" && Meaning(raw, Trim(s.value.secret.value)).Some?
    then s.(value := Meaning(raw, Trim(s.value.secret.value)).value)
    else s
  }

  ghost function ResolvedProject(raw: RawTable, ss: seq<Secret>): (r: seq<Secret>)
    ensures |r| == |ss|
  {
    seq(|ss|, i requires 0 <= i < |ss| => ResolveOne(raw, ss[i]))
  }

  // What one global secret contributes: what it means, if it is marked injectAll.
  ghost function InjectedOne(raw: RawTable, s: Secret): (r: seq<Secret>)
    ensures |r| <= 1
  {
    if s.injectAll == Some(true) && Meaning(raw, s.key).Some? then [Secret(s.key, Meaning(raw, s.key).value, None)] else []
  }

  ghost function Injected(raw: RawTable, merged: seq<Secret>): seq<Secret> {
    if merged == [] then []
    else Injected(raw, merged[..|merged| - 1]) + InjectedOne(raw, merged[|merged| - 1])
  }

  ghost function InjectedGlobals(c: Config, key: string): seq<Secret> {
    Without(Injected(RawGlobals(c), Merged(Stored(c, GLOBAL_SECRETS_KEY))), KeySet(Stored(c, key)))
  }

  ghost function Effective(c: Config, key: string): seq<Secret> {
    InjectedGlobals(c, key) + ResolvedProject(RawGlobals(c), Stored(c, key))
  }

  // A table of resolved global secrets: the keys that mean something, with what they mean.
  ghost predicate Resolves(raw: RawTable, byKey: map<string, Value>) {
    && (forall k :: k in byKey <==> Meaning(raw, k).Some?)
    && (forall k :: k in byKey ==> Meaning(raw, k) == Some(byKey[k]))
  }

  method ResolveGlobals(globals: Table) returns (byKey: map<string, Value>)
    requires Ordered(globals)
    ensures Resolves(map k | k in globals.at :: globals.at[k].value, byKey)
  {
    var raw := map k | k in globals.at :: globals.at[k].value;
    var resolver := new GlobalResolver(raw);
    byKey := resolver.ResolveAll(globals.keys);
    forall k ensures k in byKey <==> Meaning(raw, k).Some? { MeaningInTable(raw, globals.keys, byKey, k); }
  }

  method InjectGlobals(ghost raw: RawTable, merged: seq<Secret>, byKey: map<string, Value>) returns (injected: seq<Secret>)
    requires Resolves(raw, byKey)
    ensures injected == Injected(raw, merged)
  {
    injected := [];
    for i := 0 to |merged|
      invariant injected == Injected(raw, merged[..i])
    {
      assert merged[..i + 1][..i] == merged[..i];
      if merged[i].injectAll != Some(true) { continue; }
      if merged[i].key in byKey {
        injected := injected + [Secret(merged[i].key, byKey[merged[i].key], None)];
      }
    }
    assert merged[..|merged|] == merged;
  }

  method ResolveProjectSecrets(ghost raw: RawTable, own: seq<Secret>, byKey: map<string, Value>) returns (resolved: seq<Secret>)
    requires Resolves(raw, byKey)
    ensures resolved == ResolvedProject(raw, own)
  {
    resolved := [];
    for i := 0 to |own|
      invariant resolved == ResolvedProject(raw, own[..i])
    {
      var s := own[i];
      if s.value.IsReference() {
        var target := Trim(s.value.secret.value);
        if target != "" && target in byKey { s := s.(value := byKey[target]); }
      }
      resolved := resolved + [s];
    }
    assert own[..|own|] == own;
  }

  method FilterOut(ss: seq<Secret>, keys: set<string>) returns (kept: seq<Secret>)
    ensures kept == Without(ss, keys)
  {
    kept := [];
    for i := 0 to |ss|
      invariant kept == Without(ss[..i], keys)
    {
      assert ss[..i + 1][..i] == ss[..i];
      if ss[i].key !in keys { kept := kept + [ss[i]]; }
    }
    assert ss[..|ss|] == ss;
  }

  method ComputeEffective(config: Config, key: string) returns (secrets: seq<Secret>)
    ensures secrets == Effective(config, key)
  {
    var finalGlobals := SetAll(Empty, Stored(config, GLOBAL_SECRETS_KEY));
    PutAllOrdered(Empty, Stored(config, GLOBAL_SECRETS_KEY));
    ghost var raw := RawGlobals(config);
    var byKey := ResolveGlobals(finalGlobals);
    var injected := InjectGlobals(raw, Values(finalGlobals), byKey);
    var resolved := ResolveProjectSecrets(raw, Stored(config, key), byKey);
    ResolvingKeepsKeys(raw, Stored(config, key));
    var kept := FilterOut(injected, KeySet(resolved));
    secrets := kept + resolved;
  }

  // A key has an entry in the table of resolved globals exactly when it means something.
  lemma MeaningInTable(raw: RawTable, order: seq<string>, byKey: map<string, Value>, k: string)
    requires forall q :: q in raw <==> q in order
    requires byKey.Keys == set q | q in order && Meaning(raw, q).Some?
    requires forall q :: q in byKey ==> Meaning(raw, q) == Some(byKey[q])
    ensures k in byKey <==> Meaning(raw, k).Some?
  {
    MeaningFollows(raw, k);
  }

  lemma ResolvingKeepsKeys(raw: RawTable, ss: seq<Secret>)
    ensures KeySet(ResolvedProject(raw, ss)) == KeySet(ss)
  {
    var r := ResolvedProject(raw, ss);
    forall k | k in KeySet(ss) ensures k in KeySet(r) {
      var i :| 0 <= i < |ss| && ss[i].key == k;
      assert r[i].key == k;
    }
  }

  // ---------- what the effective secrets are ----------

  lemma {:induction false} MeaningIsResolved(raw: RawTable, key: string, n: nat)
    requires Chase(raw, key, n).Found?
    ensures Chase(raw, key, n).value.Literal? || Chase(raw, key, n).value.IsOp()
    decreases n
  {
    if n > 0 && LookUp(raw, key).Follow? { MeaningIsResolved(raw, LookUp(raw, key).key, n - 1); }
  }

  lemma MeaningIsNoAlias(raw: RawTable, key: string)
    ensures Meaning(raw, key).Some? ==> Meaning(raw, key).value.Literal? || Meaning(raw, key).value.IsOp()
  {
    if n: nat :| Chase(raw, key, n).Found? {
      MeaningIs(raw, key, n);
      MeaningIsResolved(raw, key, n);
    }
  }

  lemma {:induction false} InjectedFrom(raw: RawTable, merged: seq<Secret>, s: Secret)
    ensures s in Injected(raw, merged) <==> exists i :: 0 <= i < |merged| && s in InjectedOne(raw, merged[i])
  {
    if merged != [] {
      var front, last := merged[..|merged| - 1], merged[|merged| - 1];
      InjectedFrom(raw, front, s);
      assert s in Injected(raw, merged) <==> s in Injected(raw, front) || s in InjectedOne(raw, last);
      assert forall i :: 0 <= i < |front| ==> front[i] == merged[i];
      if i :| 0 <= i < |merged| && s in InjectedOne(raw, merged[i]) {
        assert i < |front| ==> s in InjectedOne(raw, front[i]);
      }
    }
  }

  lemma {:induction false} InjectedDistinct(raw: RawTable, merged: seq<Secret>)
    requires DistinctKeys(merged)
    ensures DistinctKeys(Injected(raw, merged))
  {
    if merged != [] {
      var front, last := merged[..|merged| - 1], merged[|merged| - 1];
      InjectedDistinct(raw, front);
      var r := Injected(raw, front);
      forall i | 0 <= i < |r| ensures r[i].key != last.key {
        InjectedFrom(raw, front, r[i]);
        var j :| 0 <= j < |front| && r[i] in InjectedOne(raw, front[j]);
        assert front[j].key != last.key;
      }
    }
  }

  // A global secret marked injectAll, with what its key means.
  ghost predicate Contributed(raw: RawTable, merged: seq<Secret>, s: Secret) {
    && s.injectAll == None && Meaning(raw, s.key) == Some(s.value)
    && exists i :: 0 <= i < |merged| && merged[i].key == s.key && merged[i].injectAll == Some(true)
  }

  // The injected globals are exactly the meanings of the marked keys that mean something.
  lemma InjectedMeans(raw: RawTable, merged: seq<Secret>, s: Secret)
    ensures s in Injected(raw, merged) <==> Contributed(raw, merged, s)
    ensures s in Injected(raw, merged) ==> s.value.Literal? || s.value.IsOp()
  {
    InjectedFrom(raw, merged, s);
    MeaningIsNoAlias(raw, s.key);
    if Meaning(raw, s.key) == Some(s.value) && s.injectAll == None {
      if i :| 0 <= i < |merged| && merged[i].key == s.key && merged[i].injectAll == Some(true) {
        assert s in InjectedOne(raw, merged[i]);
      }
    }
  }

  lemma {:induction false} WithoutMeans(ss: seq<Secret>, keys: set<string>, s: Secret)
    ensures s in Without(ss, keys) <==> s in ss && s.key !in keys
  {
    if ss != [] {
      WithoutMeans(ss[..|ss| - 1], keys, s);
      assert s in ss <==> s in ss[..|ss| - 1] || s == ss[|ss| - 1];
    }
  }

  lemma {:induction false} WithoutDistinct(ss: seq<Secret>, keys: set<string>)
    requires DistinctKeys(ss)
    ensures DistinctKeys(Without(ss, keys))
  {
    if ss != [] {
      var front, kept := ss[..|ss| - 1], Without(ss[..|ss| - 1], keys);
      WithoutDistinct(front, keys);
      forall i | 0 <= i < |kept| ensures kept[i].key != ss[|ss| - 1].key {
        WithoutMeans(front, keys, kept[i]);
        var j :| 0 <= j < |front| && front[j] == kept[i];
        assert ss[j] == kept[i];
      }
    }
  }

  lemma InjectedGlobalsDistinct(c: Config, key: string)
    ensures DistinctKeys(InjectedGlobals(c, key))
  {
    var own, raw, merged := Stored(c, key), RawGlobals(c), Merged(Stored(c, GLOBAL_SECRETS_KEY));
    MergedMeans(Stored(c, GLOBAL_SECRETS_KEY));
    InjectedDistinct(raw, merged);
    WithoutDistinct(Injected(raw, merged), KeySet(own));
  }

  // The injected globals that survive: none of them the project's, each with a final value.
  lemma InjectedGlobalsMean(c: Config, key: string, s: Secret)
    ensures var own := Stored(c, key); var raw := RawGlobals(c); var globals := Merged(Stored(c, GLOBAL_SECRETS_KEY));
      && (s in InjectedGlobals(c, key) <==> s.key !in KeySet(own) && Contributed(raw, globals, s))
      && (s in InjectedGlobals(c, key) ==> s.value.Literal? || s.value.IsOp())
  {
    var own, raw, merged := Stored(c, key), RawGlobals(c), Merged(Stored(c, GLOBAL_SECRETS_KEY));
    InjectedMeans(raw, merged, s);
    WithoutMeans(Injected(raw, merged), KeySet(own), s);
  }

  // A project secret after resolution: still a plain reference only when its target means nothing.
  ghost predicate ResolvedTo(raw: RawTable, s: Secret, r: Secret) {
    && r.key == s.key && r.injectAll == s.injectAll
    && (!s.value.IsReference() ==> r == s)
    && (s.value.IsReference() && Trim(s.value.secret.value) != "" && Meaning(raw, Trim(s.value.secret.value)).Some? ==>
          r.value == Meaning(raw, Trim(s.value.secret.value)).value && (r.value.Literal? || r.value.IsOp()))
    && (r.value.IsReference() && !r.value.IsOp() ==>
          && r == s
          && (Trim(s.value.secret.value) == "" || Meaning(raw, Trim(s.value.secret.value)) == None))
  }

  lemma ResolveOneMeans(raw: RawTable, s: Secret)
    ensures ResolvedTo(raw, s, ResolveOne(raw, s))
  {
    if s.value.IsReference() { MeaningIsNoAlias(raw, Trim(s.value.secret.value)); }
  }

  // A value that refers both to a key and to 1Password is final as a global secret, and a reference as a project's.
  lemma HybridsAreFinalOnlyAsGlobals(raw: RawTable, s: Secret)
    requires s.value.IsReference() && s.value.IsOp()
    ensures s.key in raw && raw[s.key] == s.value ==> Meaning(raw, s.key) == Some(s.value)
    ensures var target := Trim(s.value.secret.value);
      ResolveOne(raw, s) == s <==> target == "" || Meaning(raw, target) == None || Meaning(raw, target) == Some(s.value)
  {
    MeaningFollows(raw, s.key);
  }

  // Injected globals, then the project's own secrets in order. Injected keys are distinct, not keys of the
  // project, and their values are final; a project secret keeps its key and flag, and is still a plain
  // reference only when its target means nothing.
  ghost predicate Splits(raw: RawTable, globals: seq<Secret>, own: seq<Secret>, all: seq<Secret>, n: nat) {
    && |all| == n + |own|
    && DistinctKeys(all[..n])
    && (forall s :: s in all[..n] <==> s.key !in KeySet(own) && Contributed(raw, globals, s))
    && (forall s :: s in all[..n] ==> s.value.Literal? || s.value.IsOp())
    && (forall i :: 0 <= i < |own| ==> ResolvedTo(raw, own[i], all[n + i]))
  }

  lemma EffectiveSplits(c: Config, key: string)
    ensures Splits(RawGlobals(c), Merged(Stored(c, GLOBAL_SECRETS_KEY)), Stored(c, key), Effective(c, key),
                   |InjectedGlobals(c, key)|)
  {
    var own, raw := Stored(c, key), RawGlobals(c);
    var n := |InjectedGlobals(c, key)|;
    InjectedGlobalsDistinct(c, key);
    forall s
      ensures s in InjectedGlobals(c, key) <==>
                s.key !in KeySet(own) && Contributed(raw, Merged(Stored(c, GLOBAL_SECRETS_KEY)), s)
      ensures s in InjectedGlobals(c, key) ==> s.value.Literal? || s.value.IsOp()
    {
      InjectedGlobalsMean(c, key, s);
    }
    assert Effective(c, key)[..n] == InjectedGlobals(c, key);
    forall i | 0 <= i < |own| ensures ResolvedTo(raw, own[i], Effective(c, key)[n + i]) { ResolveOneMeans(raw, own[i]); }
  }

  lemma {:induction false} WithoutAppend(a: seq<Secret>, b: seq<Secret>, keys: set<string>)
    ensures Without(a + b, keys) == Without(a, keys) + Without(b, keys)
  {
    if b == [] {
      assert a + b == a;
    } else {
      WithoutAppend(a, b[..|b| - 1], keys);
      assert (a + b)[..|a + b| - 1] == a + b[..|b| - 1];
    }
  }

  lemma {:induction false} WithoutNone(ss: seq<Secret>, keys: set<string>)
    requires KeySet(ss) <= keys
    ensures Without(ss, keys) == []
  {
    if ss != [] {
      assert ss[|ss| - 1].key in KeySet(ss);
      forall k | k in KeySet(ss[..|ss| - 1]) ensures k in KeySet(ss) {
        var i :| 0 <= i < |ss| - 1 && ss[..|ss| - 1][i].key == k;
        assert ss[i].key == k;
      }
      WithoutNone(ss[..|ss| - 1], keys);
    }
  }

  lemma {:induction false} WithoutTwice(ss: seq<Secret>, keys: set<string>)
    ensures Without(Without(ss, keys), keys) == Without(ss, keys)
  {
    if ss != [] {
      WithoutTwice(ss[..|ss| - 1], keys);
      var last := [ss[|ss| - 1]];
      WithoutAppend(Without(ss[..|ss| - 1], keys), if ss[|ss| - 1].key in keys then [] else last, keys);
      assert last[..0] == [];
    }
  }

  // getInjectedGlobalSecrets filters the effective secrets by the project's keys: that is the first part.
  lemma InjectedIsTheFirstPart(c: Config, key: string)
    ensures Without(Effective(c, key), KeySet(Stored(c, key))) == InjectedGlobals(c, key)
  {
    var own, raw := Stored(c, key), RawGlobals(c);
    var injected := Injected(raw, Merged(Stored(c, GLOBAL_SECRETS_KEY)));
    WithoutAppend(InjectedGlobals(c, key), ResolvedProject(raw, own), KeySet(own));
    ResolvingKeepsKeys(raw, own);
    WithoutNone(ResolvedProject(raw, own), KeySet(own));
    WithoutTwice(injected, KeySet(own));
  }
}
