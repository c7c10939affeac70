/** Secrets: merging by key, resolving references between global secrets, and the effective view. */
module Secrets {
  import opened Sequences
  import opened Wrappers
  import opened Text

  // A stored value is a literal, or an object that refers to another key, to 1Password, or to both.
  datatype Value =
    | Literal(text: string)
    | Object(secret: Option<string>, op: Option<string>)
  {
    predicate IsReference() { Object? && secret.Some? }
    predicate IsOp() { Object? && op.Some? }
  }

  datatype Secret = Secret(key: string, value: Value, injectAll: Option<bool>)

  // ---------- a JavaScript Map: keys keep the place where they were first set ----------

  datatype Table = Table(keys: seq<string>, at: map<string, Secret>)

  function Put(t: Table, s: Secret): Table {
    Table(if s.key in t.at then t.keys else t.keys + [s.key], t.at[s.key := s])
  }

  function PutAll(t: Table, ss: seq<Secret>): Table {
    if ss == [] then t else Put(PutAll(t, ss[..|ss| - 1]), ss[|ss| - 1])
  }

  const Empty := Table([], map[])

  ghost predicate Ordered(t: Table) {
    && (forall k :: k in t.keys <==> k in t.at)
    && (forall i, j :: 0 <= i < j < |t.keys| ==> t.keys[i] != t.keys[j])
    && (forall k :: k in t.at ==> t.at[k].key == k)
  }

  function Values(t: Table): (r: seq<Secret>)
    requires forall k :: k in t.keys ==> k in t.at
    ensures |r| == |t.keys|
  {
    seq(|t.keys|, i requires 0 <= i < |t.keys| => t.at[t.keys[i]])
  }

  lemma {:induction false} PutAllOrdered(t: Table, ss: seq<Secret>)
    requires Ordered(t)
    ensures Ordered(PutAll(t, ss))
  {
    if ss != [] {
      PutAllOrdered(t, ss[..|ss| - 1]);
    }
  }

  // Merge-by-key of one list: what Array.from(map.values()) gives after setting every entry.
  function Merged(ss: seq<Secret>): (r: seq<Secret>) {
    PutAllOrdered(Empty, ss);
    Values(PutAll(Empty, ss))
  }

  method SetAll(table: Table, ss: seq<Secret>) returns (t: Table)
    ensures t == PutAll(table, ss)
  {
    t := table;
    for i := 0 to |ss|
      invariant t == PutAll(table, ss[..i])
    {
      assert ss[..i + 1][..i] == ss[..i];
      t := Put(t, ss[i]);
    }
    assert ss[..|ss|] == ss;
  }

  method MergeSecretsByKey(primary: seq<Secret>, secondary: seq<Secret>) returns (r: seq<Secret>)
    ensures r == Merged(primary + secondary)
  {
    var mergedByKey := SetAll(Empty, primary);
    mergedByKey := SetAll(mergedByKey, secondary);
    PutAllAppend(Empty, primary, secondary);
    PutAllOrdered(Empty, primary + secondary);
    r := Values(mergedByKey);
  }

  // ---------- what a merge is ----------

  function Keys(ss: seq<Secret>): seq<string> {
    seq(|ss|, i requires 0 <= i < |ss| => ss[i].key)
  }

  predicate DistinctKeys(ss: seq<Secret>) {
    forall i, j :: 0 <= i < j < |ss| ==> ss[i].key != ss[j].key
  }

  // The last entry written under a key.
  function LastWriter(ss: seq<Secret>, k: string): Option<Secret> {
    if ss == [] then None
    else if ss[|ss| - 1].key == k then Some(ss[|ss| - 1])
    else LastWriter(ss[..|ss| - 1], k)
  }

  lemma {:induction false} PutAllMeans(ss: seq<Secret>)
    ensures var t := PutAll(Empty, ss);
      && t.keys == Firsts(Keys(ss))
      && (forall k :: k in t.at <==> k in Keys(ss))
      && (forall k :: k in t.at ==> LastWriter(ss, k) == Some(t.at[k]))
      && (forall k :: k !in t.at ==> LastWriter(ss, k) == None)
  {
    if ss != [] {
      var front := ss[..|ss| - 1];
      PutAllMeans(front);
      assert Keys(ss)[..|ss| - 1] == Keys(front);
      assert Keys(ss) == Keys(front) + [ss[|ss| - 1].key];
    }
  }

  // Every key once, with what was last written under it.
  lemma MergedMeans(ss: seq<Secret>)
    ensures Keys(Merged(ss)) == Firsts(Keys(ss))
    ensures forall i :: 0 <= i < |Merged(ss)| ==> LastWriter(ss, Merged(ss)[i].key) == Some(Merged(ss)[i])
    ensures DistinctKeys(Merged(ss))
    ensures forall k :: k in Keys(Merged(ss)) <==> k in Keys(ss)
  {
    PutAllOrdered(Empty, ss);
    PutAllMeans(ss);
    var t := PutAll(Empty, ss);
    assert Keys(Merged(ss)) == t.keys;
    forall i | 0 <= i < |Merged(ss)| ensures Merged(ss)[i].key == t.keys[i] { assert t.keys[i] in t.at; }
  }

  // And in the order in which the keys first occur.
  lemma MergedInOrder(ss: seq<Secret>)
    ensures forall i :: 0 <= i < |Merged(ss)| ==> Merged(ss)[i].key in Keys(ss)
    ensures forall i, j :: 0 <= i < j < |Merged(ss)| ==>
              FirstIndex(Keys(ss), Merged(ss)[i].key) < FirstIndex(Keys(ss), Merged(ss)[j].key)
  {
    MergedMeans(ss);
    FirstsIs(Keys(ss));
    assert forall i :: 0 <= i < |Merged(ss)| ==> Merged(ss)[i].key == Firsts(Keys(ss))[i] by {
      forall i | 0 <= i < |Merged(ss)| ensures Merged(ss)[i].key == Firsts(Keys(ss))[i] {
        assert Keys(Merged(ss))[i] == Merged(ss)[i].key;
      }
    }
  }

  lemma {:induction false} PutAllAppend(t: Table, a: seq<Secret>, b: seq<Secret>)
    ensures PutAll(t, a + b) == PutAll(PutAll(t, a), b)
  {
    if b == [] {
      assert a + b == a;
    } else {
      PutAllAppend(t, a, b[..|b| - 1]);
      assert (a + b)[..|a + b| - 1] == a + b[..|b| - 1];
    }
  }

  // Writing an entry later, or in the place of an earlier one with its key, is the same.
  lemma {:induction false} PutInPlace(t: Table, z: seq<Secret>, i: nat, e: Secret)
    requires Ordered(t) && i < |z| && z[i].key == e.key
    requires forall j :: 0 <= j < |z| && j != i ==> z[j].key != e.key
    ensures PutAll(t, z[i := e]) == Put(PutAll(t, z), e)
  {
    var front := z[..|z| - 1];
    if i == |z| - 1 {
      assert z[i := e][..|z| - 1] == front;
    } else {
      var last := z[|z| - 1];
      PutInPlace(t, front, i, e);
      assert z[i := e][..|z| - 1] == front[i := e] && z[i := e][|z| - 1] == last;
      assert PutAll(t, z[i := e]) == Put(Put(PutAll(t, front), e), last);
      assert PutAll(t, z) == Put(PutAll(t, front), last);
      PutAllHas(t, front, i);
      PutsCommute(PutAll(t, front), e, last);
    }
  }

  lemma PutsCommute(t: Table, e: Secret, s: Secret)
    requires e.key in t.at && e.key != s.key
    ensures Put(Put(t, e), s) == Put(Put(t, s), e)
  {
    assert t.at[e.key := e][s.key := s] == t.at[s.key := s][e.key := e];
  }

  lemma {:induction false} PutAllHas(t: Table, z: seq<Secret>, i: nat)
    requires i < |z|
    ensures z[i].key in PutAll(t, z).at
  {
    if i < |z| - 1 { PutAllHas(t, z[..|z| - 1], i); }
  }

  lemma MergedAppends(y: seq<Secret>, e: Secret)
    requires e.key !in Keys(y)
    ensures Merged(y + [e]) == Merged(y) + [e]
  {
    assert (y + [e])[..|y|] == y;
    PutAllOrdered(Empty, y);
    PutAllOrdered(Empty, y + [e]);
    PutAllMeans(y);
  }

  lemma MergedReplaces(y: seq<Secret>, e: Secret, i: nat)
    requires i < |Merged(y)| && Merged(y)[i].key == e.key
    ensures Merged(y + [e]) == Merged(y)[i := e]
  {
    assert (y + [e])[..|y|] == y;
    PutAllOrdered(Empty, y);
    PutAllOrdered(Empty, y + [e]);
    var t := PutAll(Empty, y);
    forall j | 0 <= j < |t.keys| ensures Merged(y + [e])[j] == Merged(y)[i := e][j] {
      assert t.keys[i] in t.at && t.keys[j] in t.at;
    }
  }

  lemma {:induction false} PutAllOfMerged(t: Table, y: seq<Secret>)
    requires Ordered(t)
    ensures PutAll(t, Merged(y)) == PutAll(t, y)
  {
    if y == [] {
      assert Merged(y) == [];
    } else {
      var front, e := y[..|y| - 1], y[|y| - 1];
      assert y == front + [e];
      PutAllOfMerged(t, front);
      MergedMeans(front);
      if e.key in Keys(front) {
        assert e.key in Keys(Merged(front));
        var i :| 0 <= i < |Merged(front)| && Keys(Merged(front))[i] == e.key;
        MergedReplaces(front, e, i);
        PutInPlace(t, Merged(front), i, e);
      } else {
        MergedAppends(front, e);
        assert (Merged(front) + [e])[..|Merged(front)|] == Merged(front);
      }
    }
  }

  lemma MergedOnTheLeft(a: seq<Secret>, b: seq<Secret>)
    ensures PutAll(Empty, Merged(a) + b) == PutAll(Empty, a + b)
  {
    PutAllAppend(Empty, Merged(a), b);
    PutAllOfMerged(Empty, a);
    PutAllAppend(Empty, a, b);
  }

  lemma MergedOnTheRight(a: seq<Secret>, b: seq<Secret>)
    ensures PutAll(Empty, a + Merged(b)) == PutAll(Empty, a + b)
  {
    PutAllAppend(Empty, a, Merged(b));
    PutAllOrdered(Empty, a);
    PutAllOfMerged(PutAll(Empty, a), b);
    PutAllAppend(Empty, a, b);
  }

  lemma MergedOfTable(a: seq<Secret>, b: seq<Secret>)
    requires PutAll(Empty, a) == PutAll(Empty, b)
    ensures Merged(a) == Merged(b)
  {
  }

  // Merging is associative: three lists give the same in either order.
  lemma MergeIsAssociative(a: seq<Secret>, b: seq<Secret>, c: seq<Secret>)
    ensures Merged(Merged(a + b) + c) == Merged(a + Merged(b + c))
    ensures Merged(Merged(a + b) + c) == Merged(a + b + c)
  {
    MergedOnTheLeft(a + b, c);
    MergedOfTable(Merged(a + b) + c, a + b + c);
    MergedOnTheRight(a, b + c);
    MergedOfTable(a + Merged(b + c), a + (b + c));
    assert a + b + c == a + (b + c);
  }

  lemma MergedIsStable(ss: seq<Secret>)
    ensures Merged(Merged(ss)) == Merged(ss)
  {
    PutAllOfMerged(Empty, ss);
  }
}
