/** Resolving `{ secret: "KEY" }` references between global secrets: the memoised resolver of the program
    against plain reference chasing. */
module SecretResolver {
  import opened Wrappers
  import opened Text
  import opened Secrets

  type RawTable = map<string, Value>

  // ---------- plain reference chasing ----------

  // One look at a key: a value that stands for itself, another key, or nothing.
  datatype Look = Found(value: Value) | Follow(key: string) | Nothing

  function LookUp(raw: RawTable, key: string): Look {
    if key !in raw then Nothing
    else if raw[key].Literal? || raw[key].IsOp() then Found(raw[key])
    else if raw[key].IsReference() then
      var target := Trim(raw[key].secret.value);
      if target == "" then Nothing else Follow(target)
    else Nothing
  }

  // At most n more references followed; Follow(k) means that the chain has got to k and goes on.
  function Chase(raw: RawTable, key: string, n: nat): Look
    decreases n
  {
    var look := LookUp(raw, key);
    if n == 0 || !look.Follow? then look else Chase(raw, look.key, n - 1)
  }

  // The value a key stands for: the one at the end of its chain of references, however long.
  ghost function Meaning(raw: RawTable, key: string): Option<Value> {
    if exists n: nat :: Chase(raw, key, n).Found? then
      var n: nat :| Chase(raw, key, n).Found?;
      Some(Chase(raw, key, n).value)
    else None
  }

  lemma {:induction false} ChaseSettles(raw: RawTable, key: string, n: nat, m: nat)
    requires n <= m && !Chase(raw, key, n).Follow?
    ensures Chase(raw, key, m) == Chase(raw, key, n)
    decreases n
  {
    if n > 0 && LookUp(raw, key).Follow? {
      ChaseSettles(raw, LookUp(raw, key).key, n - 1, m - 1);
    }
  }

  lemma MeaningIs(raw: RawTable, key: string, n: nat)
    requires Chase(raw, key, n).Found?
    ensures Meaning(raw, key) == Some(Chase(raw, key, n).value)
  {
    var m: nat :| Chase(raw, key, m).Found? && Meaning(raw, key) == Some(Chase(raw, key, m).value);
    if m <= n { ChaseSettles(raw, key, m, n); } else { ChaseSettles(raw, key, n, m); }
  }

  // A key that refers to another means what that one means.
  lemma MeaningFollows(raw: RawTable, key: string)
    ensures LookUp(raw, key).Found? ==> Meaning(raw, key) == Some(LookUp(raw, key).value)
    ensures LookUp(raw, key).Nothing? ==> Meaning(raw, key) == None
    ensures LookUp(raw, key).Follow? ==> Meaning(raw, key) == Meaning(raw, LookUp(raw, key).key)
  {
    var look := LookUp(raw, key);
    match look
    case Found(v) =>
      assert Chase(raw, key, 0).Found?;
      MeaningIs(raw, key, 0);
    case Nothing =>
    case Follow(k) =>
      if n: nat :| Chase(raw, key, n).Found? {
        assert n > 0 && Chase(raw, k, n - 1) == Chase(raw, key, n);
        MeaningIs(raw, key, n);
        MeaningIs(raw, k, n - 1);
      } else {
        forall n: nat ensures !Chase(raw, k, n).Found? {
          assert Chase(raw, key, n + 1) == Chase(raw, k, n);
        }
      }
  }

  // In terms of what is stored: a literal and an op value stand for themselves, a reference for what its trimmed target
  // means, and a key that is missing, refers to nothing, or holds neither field means nothing.
  lemma MeaningOfStored(raw: RawTable, key: string)
    ensures key !in raw ==> Meaning(raw, key) == None
    ensures key in raw && (raw[key].Literal? || raw[key].IsOp()) ==> Meaning(raw, key) == Some(raw[key])
    ensures key in raw && raw[key].Object? && raw[key].op.None? && raw[key].secret.Some? ==>
              Meaning(raw, key) ==
              if Trim(raw[key].secret.value) == "" then None else Meaning(raw, Trim(raw[key].secret.value))
    ensures key in raw && raw[key] == Object(None, None) ==> Meaning(raw, key) == None
  {
    MeaningFollows(raw, key);
  }

  // A path of references: each key refers to the next.
  ghost predicate Path(raw: RawTable, keys: seq<string>) {
    forall i :: 0 <= i < |keys| - 1 ==> LookUp(raw, keys[i]) == Follow(keys[i + 1])
  }

  lemma {:induction false} PathChases(raw: RawTable, keys: seq<string>, n: nat)
    requires keys != [] && Path(raw, keys) && n < |keys| - 1
    ensures Chase(raw, keys[0], n) == Follow(keys[n + 1])
  {
    if n > 0 {
      var rest := keys[1..];
      assert Path(raw, rest) by {
        forall i | 0 <= i < |rest| - 1 ensures LookUp(raw, rest[i]) == Follow(rest[i + 1]) {
          assert LookUp(raw, keys[i + 1]) == Follow(keys[i + 2]);
        }
      }
      PathChases(raw, rest, n - 1);
    }
  }

  // A key whose chain comes back to it means nothing.
  lemma CycleMeansNothing(raw: RawTable, keys: seq<string>)
    requires |keys| >= 2 && Path(raw, keys) && keys[0] == keys[|keys| - 1]
    ensures Meaning(raw, keys[0]) == None
  {
    forall n: nat ensures !Chase(raw, keys[0], n).Found? {
      CycleNeverEnds(raw, keys, n);
    }
  }

  lemma {:induction false} ChaseJumps(raw: RawTable, key: string, a: nat, n: nat)
    requires a < n && Chase(raw, key, a).Follow?
    ensures Chase(raw, key, n) == Chase(raw, Chase(raw, key, a).key, n - a - 1)
    decreases a
  {
    if a > 0 { ChaseJumps(raw, LookUp(raw, key).key, a - 1, n - 1); }
  }

  lemma {:induction false} CycleNeverEnds(raw: RawTable, keys: seq<string>, n: nat)
    requires |keys| >= 2 && Path(raw, keys) && keys[0] == keys[|keys| - 1]
    ensures Chase(raw, keys[0], n).Follow?
    decreases n
  {
    var loop := |keys| - 1;
    if n < loop {
      PathChases(raw, keys, n);
    } else {
      PathChases(raw, keys, loop - 1);
      ChaseJumps(raw, keys[0], loop - 1, n);
      CycleNeverEnds(raw, keys, n - loop);
    }
  }

  // What leads into a key that means nothing means nothing.
  lemma {:induction false} PathSharesMeaning(raw: RawTable, keys: seq<string>)
    requires keys != [] && Path(raw, keys)
    ensures Meaning(raw, keys[0]) == Meaning(raw, keys[|keys| - 1])
  {
    if |keys| > 1 {
      MeaningFollows(raw, keys[0]);
      var rest := keys[1..];
      assert Path(raw, rest) by {
        forall i | 0 <= i < |rest| - 1 ensures LookUp(raw, rest[i]) == Follow(rest[i + 1]) {
          assert LookUp(raw, keys[i + 1]) == Follow(keys[i + 2]);
        }
      }
      PathSharesMeaning(raw, rest);
    }
  }

  lemma OnOrIntoACycleMeansNothing(raw: RawTable, lead: seq<string>, cycle: seq<string>)
    requires |cycle| >= 2 && Path(raw, cycle) && cycle[0] == cycle[|cycle| - 1]
    requires lead != [] && Path(raw, lead) && lead[|lead| - 1] == cycle[0]
    ensures Meaning(raw, lead[0]) == None
  {
    CycleMeansNothing(raw, cycle);
    PathSharesMeaning(raw, lead);
  }

  // ---------- the pigeonhole: chains that end do so within the table ----------

  function Trail(raw: RawTable, key: string, n: nat): (r: seq<string>)
    decreases n
  {
    if n == 0 || !LookUp(raw, key).Follow? then [key] else [key] + Trail(raw, LookUp(raw, key).key, n - 1)
  }

  lemma {:induction false} TrailIsPath(raw: RawTable, key: string, n: nat)
    ensures Path(raw, Trail(raw, key, n)) && Trail(raw, key, n)[0] == key
    ensures n > 0 && Chase(raw, key, n - 1).Follow? ==> |Trail(raw, key, n)| == n + 1
    ensures forall i :: 0 <= i < |Trail(raw, key, n)| - 1 ==> Trail(raw, key, n)[i] in raw
    decreases n
  {
    if n > 0 && LookUp(raw, key).Follow? {
      TrailIsPath(raw, LookUp(raw, key).key, n - 1);
    }
  }

  // More entries than values they can take: two are equal.
  lemma {:induction false} Pigeonhole(xs: seq<string>, holes: set<string>) returns (i: nat, j: nat)
    requires |xs| > |holes| && forall k :: 0 <= k < |xs| ==> xs[k] in holes
    ensures i < j < |xs| && xs[i] == xs[j]
    decreases |xs|
  {
    var last := xs[|xs| - 1];
    if last in xs[..|xs| - 1] {
      i :| 0 <= i < |xs| - 1 && xs[i] == last;
      j := |xs| - 1;
    } else {
      i, j := Pigeonhole(xs[..|xs| - 1], holes - {last});
    }
  }

  // If a chain still goes on after as many references as there are keys, it never ends.
  lemma ChasingIsBounded(raw: RawTable, key: string)
    ensures Chase(raw, key, |raw|).Follow? ==> Meaning(raw, key) == None
    ensures Meaning(raw, key) == (if Chase(raw, key, |raw|).Found? then Some(Chase(raw, key, |raw|).value) else None)
  {
    var n := |raw|;
    if Chase(raw, key, n).Follow? {
      TrailIsPath(raw, key, n + 1);
      var trail := Trail(raw, key, n + 1);
      assert |raw.Keys| == |raw|;
      var i, j := Pigeonhole(trail[..n + 1], raw.Keys);
      SubPath(raw, trail, 0, i);
      SubPath(raw, trail, i, j);
      OnOrIntoACycleMeansNothing(raw, trail[0..i + 1], trail[i..j + 1]);
    } else if Chase(raw, key, n).Found? {
      MeaningIs(raw, key, n);
    } else {
      forall m: nat ensures !Chase(raw, key, m).Found? {
        if m <= n && Chase(raw, key, m).Found? { ChaseSettles(raw, key, m, n); }
        if m > n { ChaseSettles(raw, key, n, m); }
      }
    }
  }

  lemma SubPath(raw: RawTable, keys: seq<string>, i: nat, j: nat)
    requires Path(raw, keys) && i <= j < |keys|
    ensures Path(raw, keys[i..j + 1])
  {
    var part := keys[i..j + 1];
    forall k | 0 <= k < |part| - 1 ensures LookUp(raw, part[k]) == Follow(part[k + 1]) {
      assert LookUp(raw, keys[i + k]) == Follow(keys[i + k + 1]);
    }
  }

  // ---------- the memoised resolver ----------

  class GlobalResolver {
    const raw: RawTable
    var globalResolved: map<string, Option<Value>>
    var globalResolving: set<string>

    constructor (raw: RawTable)
      ensures this.raw == raw && Sound() && globalResolving == {}
    {
      this.raw := raw;
      globalResolved, globalResolving := map[], {};
    }

    // Whatever can be read from the memo, at any moment, is right.
    ghost predicate Sound()
      reads this
    {
      forall k :: k in globalResolved ==> globalResolved[k] == Meaning(raw, k)
    }

    // The keys in progress are a path of references that ends at `key`.
    ghost predicate InProgress(stack: seq<string>, key: string)
      reads this
    {
      && Path(raw, stack + [key])
      && (forall k :: k in globalResolving <==> k in stack)
    }

    method ResolveGlobalKey(key: string, ghost stack: seq<string>) returns (value: Option<Value>)
      requires Sound() && InProgress(stack, key)
      modifies this
      ensures Sound() && globalResolving == old(globalResolving)
      ensures value == Meaning(raw, key)
      ensures key in globalResolved && old(globalResolved.Keys) <= globalResolved.Keys
      decreases raw.Keys - globalResolving
    {
      if key in globalResolved { return globalResolved[key]; }

      if key in globalResolving {
        BackAtKey(raw, stack, key);
        globalResolved := globalResolved[key := None];
        return None;
      }

      MeaningFollows(raw, key);
      globalResolving := globalResolving + {key};
      if key in raw && (raw[key].Literal? || raw[key].IsOp()) {
        value := Some(raw[key]);
      } else if key in raw && raw[key].IsReference() {
        var target := Trim(raw[key].secret.value);
        if target == "" {
          value := None;
        } else {
          GrowPath(raw, stack, key, target);
          value := ResolveGlobalKey(target, stack + [key]);
        }
      } else {
        value := None;
      }
      globalResolved := globalResolved[key := value];
      globalResolving := globalResolving - {key};
    }

    // The driver: every key of the table in some order, keeping those that mean something.
    method ResolveAll(order: seq<string>) returns (byKey: map<string, Value>)
      requires Sound() && globalResolving == {}
      modifies this
      ensures byKey.Keys == set k | k in order && Meaning(raw, k).Some?
      ensures forall k :: k in byKey ==> Meaning(raw, k) == Some(byKey[k])
    {
      byKey := map[];
      for i := 0 to |order|
        invariant Sound() && globalResolving == {}
        invariant byKey.Keys == set k | k in order[..i] && Meaning(raw, k).Some?
        invariant forall k :: k in byKey ==> Meaning(raw, k) == Some(byKey[k])
      {
        assert order[..i + 1] == order[..i] + [order[i]];
        var value := ResolveGlobalKey(order[i], []);
        if value.Some? { byKey := byKey[order[i] := value.value]; }
      }
      assert order[..|order|] == order;
    }
  }

  lemma GrowPath(raw: RawTable, stack: seq<string>, key: string, target: string)
    requires Path(raw, stack + [key]) && LookUp(raw, key) == Follow(target)
    ensures Path(raw, stack + [key] + [target])
  {
    var keys := stack + [key] + [target];
    forall i | 0 <= i < |keys| - 1 ensures LookUp(raw, keys[i]) == Follow(keys[i + 1]) {
      if i < |stack| { assert LookUp(raw, (stack + [key])[i]) == Follow((stack + [key])[i + 1]); }
    }
  }

  // A key met again while it is in progress is on a cycle.
  lemma BackAtKey(raw: RawTable, stack: seq<string>, key: string)
    requires Path(raw, stack + [key]) && key in stack
    ensures Meaning(raw, key) == None
  {
    var i :| 0 <= i < |stack| && stack[i] == key;
    SubPath(raw, stack + [key], i, |stack|);
    CycleMeansNothing(raw, (stack + [key])[i..|stack| + 1]);
  }
}
