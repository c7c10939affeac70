/** Keeping a generated block between two comment markers of a skill file, in write mode and in check mode. */
module MarkerInjection {
  import opened Wrappers
  import opened Text

  // ---------- newlines ----------

  function ReplaceCrLf(s: string): string {
    if s == "" then ""
    else if |s| >= 2 && s[0] == '\r' && s[1] == '\n' then ['\n'] + ReplaceCrLf(s[2..])
    else [s[0]] + ReplaceCrLf(s[1..])
  }

  function ReplaceCr(s: string): string {
    if s == "" then "" else [if s[0] == '\r' then '\n' else s[0]] + ReplaceCr(s[1..])
  }

  function NormalizeNewlines(input: string): string {
    ReplaceCr(ReplaceCrLf(input))
  }

  lemma {:induction false} ReplaceCrLeavesNone(s: string)
    ensures '\r' !in ReplaceCr(s)
  {
    if s != "" { ReplaceCrLeavesNone(s[1..]); }
  }

  lemma {:induction false} NothingToReplace(s: string)
    requires '\r' !in s
    ensures ReplaceCrLf(s) == s && ReplaceCr(s) == s
  {
    if s != "" { NothingToReplace(s[1..]); }
  }

  // Normal texts have no carriage return, and only they are left alone; so normalising twice is normalising once.
  lemma NormalizingIs(s: string)
    ensures '\r' !in NormalizeNewlines(s)
    ensures NormalizeNewlines(s) == s <==> '\r' !in s
    ensures NormalizeNewlines(NormalizeNewlines(s)) == NormalizeNewlines(s)
  {
    ReplaceCrLeavesNone(ReplaceCrLf(s));
    NothingToReplace(NormalizeNewlines(s));
    if '\r' !in s { NothingToReplace(s); }
  }

  lemma {:induction false} CrLfAppend(a: string, b: string)
    requires '\r' !in a
    ensures ReplaceCrLf(a + b) == a + ReplaceCrLf(b)
  {
    if a == "" {
      assert a + b == b;
    } else {
      assert (a + b)[1..] == a[1..] + b;
      CrLfAppend(a[1..], b);
      assert [a[0]] + (a[1..] + ReplaceCrLf(b)) == a + ReplaceCrLf(b);
    }
  }

  lemma {:induction false} CrAppend(a: string, b: string)
    ensures ReplaceCr(a + b) == ReplaceCr(a) + ReplaceCr(b)
  {
    if a == "" {
      assert a + b == b;
    } else {
      assert (a + b)[1..] == a[1..] + b;
      CrAppend(a[1..], b);
    }
  }

  // Every line end, a pair or a lone carriage return, becomes one newline, and nothing else changes.
  lemma NormalizingReplaces(a: string, b: string)
    requires '\r' !in a
    ensures NormalizeNewlines(a) == a
    ensures NormalizeNewlines(a + "\r\n" + b) == a + "\n" + NormalizeNewlines(b)
    ensures b == "" || b[0] != '\n' ==> NormalizeNewlines(a + "\r" + b) == a + "\n" + NormalizeNewlines(b)
  {
    NothingToReplace(a);
    PairIsReplaced(a, b);
    if b == "" || b[0] != '\n' { LoneIsReplaced(a, b); }
  }

  lemma PairIsReplaced(a: string, b: string)
    requires '\r' !in a
    ensures NormalizeNewlines(a + "\r\n" + b) == a + "\n" + NormalizeNewlines(b)
  {
    assert a + "\r\n" + b == a + ("\r\n" + b) && ("\r\n" + b)[2..] == b;
    CrLfAppend(a, "\r\n" + b);
    NothingToReplace(a);
    CrAppend(a, ['\n'] + ReplaceCrLf(b));
    assert (['\n'] + ReplaceCrLf(b))[1..] == ReplaceCrLf(b);
  }

  lemma LoneIsReplaced(a: string, b: string)
    requires '\r' !in a && (b == "" || b[0] != '\n')
    ensures NormalizeNewlines(a + "\r" + b) == a + "\n" + NormalizeNewlines(b)
  {
    assert a + "\r" + b == a + ("\r" + b) && ("\r" + b)[1..] == b;
    CrLfAppend(a, "\r" + b);
    NothingToReplace(a);
    CrAppend(a, ['\r'] + ReplaceCrLf(b));
    assert (['\r'] + ReplaceCrLf(b))[1..] == ReplaceCrLf(b);
  }

  // ---------- searching ----------

  // The first occurrence at or after `from`, or -1.
  function FindFrom(s: string, pat: string, from: nat): (r: int)
    requires from <= |s|
    ensures r == -1 || (from <= r && OccursAt(s, pat, r))
    ensures forall i: nat :: from <= i <= |s| && (r == -1 || i < r) ==> !OccursAt(s, pat, i)
    decreases |s| - from
  {
    if OccursAt(s, pat, from) then from
    else if from == |s| then -1
    else FindFrom(s, pat, from + 1)
  }

  function Find(s: string, pat: string): (r: int)
    ensures r == -1 || (0 <= r && OccursAt(s, pat, r))
    ensures forall i: nat :: i <= |s| && (r == -1 || i < r) ==> !OccursAt(s, pat, i)
  {
    FindFrom(s, pat, 0)
  }

  lemma FindIs(s: string, pat: string, i: nat)
    requires i <= |s| && OccursAt(s, pat, i)
    requires forall j: nat :: j < i ==> !OccursAt(s, pat, j)
    ensures Find(s, pat) == i
  {
  }

  // What a prefix holds, the whole text holds at the same place, and conversely.
  lemma OccursInPrefix(s: string, t: string, pat: string, i: nat)
    requires i + |pat| <= |s| <= |t| && t[..|s|] == s
    ensures OccursAt(t, pat, i) <==> OccursAt(s, pat, i)
  {
    assert forall k :: 0 <= k < |s| ==> t[k] == t[..|s|][k];
  }

  // ---------- injection ----------

  // The two comments that name a block.
  function BeginMarker(name: string): string {
    "<!-- BEGIN " + name + " -->"
  }

  function EndMarker(name: string): string {
    "<!-- END " + name + " -->"
  }

  // The text after an injection, with the block already trimmed.
  function Layout(before: string, block: string, after: string): string {
    before + "\n" + block + "\n" + after
  }

  // None where the program throws: a marker is missing, or the end marker comes first.
  function InjectBetween(content: string, begin: string, end: string, block: string): Option<string> {
    var b, e := Find(content, begin), Find(content, end);
    if b == -1 || e == -1 || e < b then None
    else Some(Layout(content[..b + |begin|], TrimEnd(block), content[e..]))
  }

  function Inject(content: string, name: string, block: string): Option<string> {
    InjectBetween(content, BeginMarker(name), EndMarker(name), block)
  }

  // Trimming an end drops white space and nothing else.
  lemma {:induction false} TrimEndIs(s: string)
    ensures TrimEnd(s) <= s && forall i :: |TrimEnd(s)| <= i < |s| ==> IsSpace(s[i])
    ensures TrimEnd(s) == "" || !IsSpace(TrimEnd(s)[|TrimEnd(s)| - 1])
  {
    if s != "" && IsSpace(s[|s| - 1]) { TrimEndIs(s[..|s| - 1]); }
  }

  // Injection fails exactly without both markers in this order. Otherwise everything up to and with the first begin
  // marker, and everything from the first end marker on, is unchanged, and between them is the block on its own lines.
  lemma InjectionKeepsTheRest(content: string, name: string, block: string)
    ensures var b, e := Find(content, BeginMarker(name)), Find(content, EndMarker(name)); var u := Inject(content, name, block);
      && (u.Some? <==> 0 <= b <= e)
      && (u.Some? ==>
            exists t, n: nat :: n == b + |BeginMarker(name)| && n <= |content| && e <= |content|
              && t <= block && (forall i :: |t| <= i < |block| ==> IsSpace(block[i])) && (t == "" || !IsSpace(t[|t| - 1]))
              && u.value == content[..n] + "\n" + t + "\n" + content[e..])
  {
    var b, e := Find(content, BeginMarker(name)), Find(content, EndMarker(name));
    TrimEndIs(block);
    if 0 <= b <= e {
      var n: nat := b + |BeginMarker(name)|;
      assert Inject(content, name, block).value == content[..n] + "\n" + TrimEnd(block) + "\n" + content[e..];
    }
  }

  // ---------- injecting again ----------

  lemma LayoutParts(before: string, block: string, after: string)
    ensures var u := Layout(before, block, after); var n := |before| + 1 + |block| + 1;
      && |u| == n + |after| && u[..|before|] == before && u[|before|] == '\n'
      && u[|before| + 1..n - 1] == block && u[n - 1] == '\n' && u[n..] == after
  {
  }

  lemma OccursInside(s: string, pat: string, lo: nat, hi: nat, i: nat)
    requires lo <= i && i + |pat| <= hi <= |s|
    ensures OccursAt(s, pat, i) <==> OccursAt(s[lo..hi], pat, i - lo)
  {
    assert forall k :: lo <= k < hi ==> s[k] == s[lo..hi][k - lo];
    assert forall k :: 0 <= k < hi - lo ==> s[lo..hi][k] == s[lo + k];
  }

  lemma BeginAgain(c: string, u: string, begin: string)
    requires Find(c, begin) != -1 && Find(c, begin) + |begin| <= |u|
    requires u[..Find(c, begin) + |begin|] == c[..Find(c, begin) + |begin|]
    ensures Find(u, begin) == Find(c, begin)
  {
    var b := Find(c, begin);
    var before := c[..b + |begin|];
    forall j: nat | j <= b ensures OccursAt(u, begin, j) <==> OccursAt(c, begin, j) {
      OccursInPrefix(before, u, begin, j);
      OccursInPrefix(before, c, begin, j);
    }
    FindIs(u, begin, b);
  }

  lemma LayoutSuffix(before: string, block: string, after: string, e: nat)
    requires e <= |Layout(before, block, after)|
    ensures var u := Layout(before, block, after);
      Layout(before, block, u[e..]) == u <==> e == |before| + 1 + |block| + 1
  {
    var u := Layout(before, block, after);
    LayoutParts(before, block, after);
    LayoutParts(before, block, u[e..]);
  }

  // Between its own markers the block is closed by the second one, not earlier.
  predicate ClosesOnce(begin: string, end: string, block: string) {
    Find(Layout(begin, TrimEnd(block), end), end) == |begin| + 1 + |TrimEnd(block)| + 1
  }

  // What lies between the markers of a new text is the block between its own markers.
  lemma FrameInside(before: string, begin: string, t: string, end: string, after: string, b: nat)
    requires |before| == b + |begin| && before[b..] == begin && end <= after
    ensures var u := Layout(before, t, after); var n := |before| + 1 + |t| + 1;
      n + |end| <= |u| && u[b..n + |end|] == Layout(begin, t, end)
  {
    LayoutParts(before, t, after);
    LayoutParts(begin, t, end);
    assert after == end + after[|end|..] && before == before[..b] + begin;
    assert Layout(before, t, after) == before[..b] + Layout(begin, t, end) + after[|end|..];
  }

  // The end marker is found in a new text where the frame holds it first.
  lemma EndAgain(u: string, b: nat, n: nat, frame: string, end: string)
    requires b <= n && n + |end| <= |u| && frame == u[b..n + |end|] && OccursAt(u, end, n)
    requires forall j: nat :: j < b ==> !OccursAt(u, end, j)
    ensures b <= Find(u, end) <= n && (Find(u, end) == n <==> Find(frame, end) == n - b)
  {
    forall j: nat | b <= j <= n ensures OccursAt(u, end, j) <==> OccursAt(frame, end, j - b) {
      OccursInside(u, end, b, n + |end|, j);
    }
    var e, f := Find(u, end), Find(frame, end);
    assert OccursAt(u, end, b + (n - b)) && OccursAt(frame, end, n - b);
    if e < n { assert OccursAt(frame, end, e - b); }
    if f < n - b { assert OccursAt(u, end, b + f); }
  }

  // Before the opening marker there is no closing one, in the old text and in the new.
  lemma NoEarlierEnd(c: string, u: string, begin: string, end: string, b: nat)
    requires |end| <= |begin| && b == Find(c, begin) && (Find(c, end) == -1 || b <= Find(c, end))
    requires b + |begin| <= |u| && u[..b + |begin|] == c[..b + |begin|]
    ensures forall j: nat :: j < b ==> !OccursAt(u, end, j)
  {
    var before := c[..b + |begin|];
    forall j: nat | j < b ensures !OccursAt(u, end, j) {
      OccursInPrefix(before, u, end, j);
      OccursInPrefix(before, c, end, j);
    }
  }

  // Both markers are found again, the end marker where it was put if and only if the block closes once.
  lemma FoundAgain(c: string, begin: string, end: string, block: string, b: nat, e: nat)
    requires end != "" && |end| <= |begin| && b == Find(c, begin) && e == Find(c, end) && b <= e
    ensures var before, after, t := c[..b + |begin|], c[e..], TrimEnd(block);
      var u := Layout(before, t, after); var n := |before| + 1 + |t| + 1;
      && Find(u, begin) == b && b <= Find(u, end) <= n && (Find(u, end) == n <==> ClosesOnce(begin, end, block))
  {
    var before, after, t := c[..b + |begin|], c[e..], TrimEnd(block);
    var u := Layout(before, t, after);
    LayoutParts(before, t, after);
    BeginAgain(c, u, begin);
    NoEarlierEnd(c, u, begin, end, b);
    MarkersAt(c, begin, end, b, e);
    EndFoundAgain(before, begin, t, end, after, b);
  }

  lemma EndFoundAgain(before: string, begin: string, t: string, end: string, after: string, b: nat)
    requires |before| == b + |begin| && before[b..] == begin && end <= after && OccursAt(after, end, 0)
    requires forall j: nat :: j < b ==> !OccursAt(Layout(before, t, after), end, j)
    ensures var e := Find(Layout(before, t, after), end); var n := |before| + 1 + |t| + 1;
      b <= e <= n && (e == n <==> Find(Layout(begin, t, end), end) == n - b)
  {
    var u, n := Layout(before, t, after), |before| + 1 + |t| + 1;
    LayoutParts(before, t, after);
    FrameInside(before, begin, t, end, after, b);
    OccursInside(u, end, n, |u|, n);
    EndAgain(u, b, n, Layout(begin, t, end), end);
  }

  lemma MarkersAt(c: string, begin: string, end: string, b: nat, e: nat)
    requires OccursAt(c, begin, b) && OccursAt(c, end, e)
    ensures c[..b + |begin|][b..] == begin && end <= c[e..] && OccursAt(c[e..], end, 0)
  {
    OccursInside(c, end, e, |c|, e);
    assert c[e..e + |end|] == end && c[e..][..|end|] == end;
  }

  // Injecting into a text with the block in it gives the same text if and only if the end marker behind it is found.
  lemma InjectLayout(begin: string, end: string, before: string, block: string, after: string)
    requires Find(Layout(before, TrimEnd(block), after), begin) != -1
    requires |before| == Find(Layout(before, TrimEnd(block), after), begin) + |begin|
    requires Find(Layout(before, TrimEnd(block), after), begin) <= Find(Layout(before, TrimEnd(block), after), end)
    ensures var u := Layout(before, TrimEnd(block), after);
      && InjectBetween(u, begin, end, block).Some?
      && (InjectBetween(u, begin, end, block).value == u <==> Find(u, end) == |before| + 1 + |TrimEnd(block)| + 1)
  {
    var u := Layout(before, TrimEnd(block), after);
    LayoutParts(before, TrimEnd(block), after);
    LayoutSuffix(before, TrimEnd(block), after, Find(u, end));
  }

  lemma LayoutAgain(c: string, begin: string, end: string, block: string, b: nat, e: nat)
    requires end != "" && |end| <= |begin| && b == Find(c, begin) && e == Find(c, end) && b <= e
    ensures var u := Layout(c[..b + |begin|], TrimEnd(block), c[e..]);
      && InjectBetween(u, begin, end, block).Some?
      && (InjectBetween(u, begin, end, block).value == u <==> ClosesOnce(begin, end, block))
  {
    FoundAgain(c, begin, end, block, b, e);
    InjectLayout(begin, end, c[..b + |begin|], block, c[e..]);
  }

  lemma InjectBetweenAgain(c: string, begin: string, end: string, block: string)
    requires end != "" && |end| <= |begin| && InjectBetween(c, begin, end, block).Some?
    ensures var u := InjectBetween(c, begin, end, block).value;
      && InjectBetween(u, begin, end, block).Some?
      && (InjectBetween(u, begin, end, block).value == u <==> ClosesOnce(begin, end, block))
  {
    LayoutAgain(c, begin, end, block, Find(c, begin), Find(c, end));
  }

  // Injection is idempotent on every text with its markers, whatever their name, if and only if the block closes once.
  lemma InjectAgain(content: string, name: string, block: string)
    requires Inject(content, name, block).Some?
    ensures var u := Inject(content, name, block).value;
      && Inject(u, name, block).Some?
      && (Inject(u, name, block) == Some(u) <==> ClosesOnce(BeginMarker(name), EndMarker(name), block))
  {
    InjectBetweenAgain(content, BeginMarker(name), EndMarker(name), block);
  }

  // ---------- which blocks close once ----------

  // An occurrence does not cross a newline it does not hold.
  lemma NoCrossing(s: string, pat: string, i: nat, at: nat)
    requires OccursAt(s, pat, i) && '\n' !in pat && at < |s| && s[at] == '\n'
    ensures i + |pat| <= at || at < i
  {
  }

  lemma {:induction false} TrimmingKeepsOccurrences(s: string, pat: string)
    requires pat != "" && !IsSpace(pat[|pat| - 1])
    ensures Occurs(TrimEnd(s), pat) <==> Occurs(s, pat)
  {
    if s != "" && IsSpace(s[|s| - 1]) {
      var t := s[..|s| - 1];
      TrimmingKeepsOccurrences(t, pat);
      forall i: nat | i <= |s| ensures OccursAt(s, pat, i) <==> i <= |t| && OccursAt(t, pat, i) {
        if OccursAt(s, pat, i) { assert s[i + |pat| - 1] == pat[|pat| - 1]; }
        if i + |pat| <= |t| { OccursInPrefix(t, s, pat, i); }
      }
      if Occurs(s, pat) {
        var i: nat :| i <= |s| && OccursAt(s, pat, i);
        assert i <= |t| && OccursAt(t, pat, i);
      }
      if Occurs(t, pat) {
        var i: nat :| i <= |t| && OccursAt(t, pat, i);
        assert OccursAt(s, pat, i);
      }
    }
  }

  // The opening marker holds no closing one.
  lemma BeginHasNoEnd(name: string, j: nat)
    ensures !OccursAt(BeginMarker(name), EndMarker(name), j)
  {
    var begin, end := BeginMarker(name), EndMarker(name);
    assert begin[0] == '<' && begin[1] == '!' && begin[2] == '-' && begin[5] == 'B' && end[0] == '<' && end[5] == 'E';
    if j <= 2 { assert begin[j] != end[0] || begin[j + 5] != end[5]; }
  }

  lemma EndIsOneLine(name: string)
    requires '\n' !in name
    ensures '\n' !in EndMarker(name)
  {
    var end := EndMarker(name);
    forall i | 0 <= i < |end| ensures end[i] != '\n' {
      if 9 <= i < 9 + |name| { assert end[i] == name[i - 9]; }
    }
  }

  // Under a name of one line those are the blocks without the end marker.
  lemma ClosesOnceIff(name: string, block: string)
    requires '\n' !in name
    ensures ClosesOnce(BeginMarker(name), EndMarker(name), block) <==> !Occurs(block, EndMarker(name))
  {
    var begin, end := BeginMarker(name), EndMarker(name);
    EndIsOneLine(name);
    TrimmingKeepsOccurrences(block, end);
    forall j: nat ensures !OccursAt(begin, end, j) { BeginHasNoEnd(name, j); }
    FirstEnd(begin, TrimEnd(block), end);
  }

  lemma FirstEnd(begin: string, t: string, end: string)
    requires end != "" && '\n' !in end && forall j: nat :: !OccursAt(begin, end, j)
    ensures Find(Layout(begin, t, end), end) == |begin| + 1 + |t| + 1 <==> !Occurs(t, end)
  {
    var u := Layout(begin, t, end);
    LastEnd(u, begin, t, end);
    EndsBetween(u, begin, t, end, Find(u, end));
    if Occurs(t, end) { var _ := EndInBlock(u, begin, t, end); }
  }

  lemma LastEnd(u: string, begin: string, t: string, end: string)
    requires end != "" && u == Layout(begin, t, end)
    ensures OccursAt(u, end, |begin| + 1 + |t| + 1)
  {
    var n := |begin| + 1 + |t| + 1;
    LayoutParts(begin, t, end);
    OccursInside(u, end, n, |u|, n);
  }

  lemma EndInBlock(u: string, begin: string, t: string, end: string) returns (e: nat)
    requires u == Layout(begin, t, end) && Occurs(t, end)
    ensures e + |end| <= |begin| + 1 + |t| && OccursAt(u, end, e)
  {
    var k: nat :| k <= |t| && OccursAt(t, end, k);
    e := |begin| + 1 + k;
    LayoutParts(begin, t, end);
    OccursInside(u, end, |begin| + 1, |begin| + 1 + |t|, e);
  }

  // An end marker before the last one is in the block.
  lemma EndsBetween(u: string, begin: string, t: string, end: string, e: nat)
    requires end != "" && '\n' !in end && u == Layout(begin, t, end) && OccursAt(u, end, e) && !OccursAt(begin, end, e)
    ensures e < |begin| + 1 + |t| + 1 ==> Occurs(t, end)
  {
    var n := |begin| + 1 + |t| + 1;
    LayoutParts(begin, t, end);
    NoCrossing(u, end, e, |begin|);
    NoCrossing(u, end, e, n - 1);
    if e + |end| <= |begin| { OccursInPrefix(begin, u, end, e); }
    if |begin| < e < n {
      OccursInside(u, end, |begin| + 1, n - 1, e);
      assert OccursAt(t, end, e - |begin| - 1);
    }
  }

  // ---------- write mode and check mode ----------

  // The skill file, and what the generated module embeds, if there is one.
  datatype Files = Files(skillFile: string, output: Option<string>)

  // What a run leaves, and whether it succeeds. A check run writes nothing, and fails if a file is out of sync.
  datatype Generated = Generated(files: Files, ok: bool)

  // One run over both files; `format` renders the module from the skill it embeds, and `sync` is the flag that keeps
  // the skill file in step. None where a marker is missing.
  function Generate(files: Files, check: bool, sync: bool, name: string, block: string, format: string -> string): Option<Generated> {
    var content := NormalizeNewlines(files.skillFile);
    var updated := Inject(content, name, block);
    if updated.None? then None
    else
      var stale := sync && updated.value != content;
      var formatted := Some(format(updated.value));
      if check then Some(Generated(files, files.output == formatted && !stale))
      else Some(Generated(Files(if stale then updated.value else files.skillFile, formatted), true))
  }

  lemma InjectedHoldsBlock(content: string, name: string, block: string)
    requires Inject(content, name, block).Some?
    ensures forall x :: x in TrimEnd(block) ==> x in Inject(content, name, block).value
    ensures forall x :: x in Inject(content, name, block).value ==> x in content || x in TrimEnd(block) || x == '\n'
  {
    var b, e := Find(content, BeginMarker(name)), Find(content, EndMarker(name));
    var before, after, t := content[..b + |BeginMarker(name)|], content[e..], TrimEnd(block);
    assert Inject(content, name, block).value == before + "\n" + t + "\n" + after;
  }

  // Check mode accepts exactly the module of the injected skill and, with the flag, a skill file whose normal form
  // injection leaves alone.
  lemma CheckAccepts(files: Files, sync: bool, name: string, block: string, format: string -> string)
    ensures var c := Generate(files, true, sync, name, block, format);
      var content := NormalizeNewlines(files.skillFile); var injected := Inject(content, name, block);
      c.Some? && c.value.ok <==>
        injected.Some? && files.output == Some(format(injected.value)) && (sync ==> injected == Some(content))
  {
  }

  // What a block must be for a written skill file to stay in step.
  predicate Stable(name: string, block: string) {
    ClosesOnce(BeginMarker(name), EndMarker(name), block) && '\r' !in TrimEnd(block)
  }

  // A text that was injected and read back is left alone by the next injection if and only if the block is stable.
  lemma InjectedIsNormal(content: string, name: string, block: string)
    requires '\r' !in content && Inject(content, name, block).Some?
    ensures var u := Inject(content, name, block).value;
      && (Inject(NormalizeNewlines(u), name, block) == Some(NormalizeNewlines(u)) <==> Stable(name, block))
      && (Stable(name, block) ==> NormalizeNewlines(u) == u)
  {
    var u := Inject(content, name, block).value;
    InjectAgain(content, name, block);
    InjectedHoldsBlock(content, name, block);
    NormalizingIs(u);
    if '\r' in TrimEnd(block) && Inject(NormalizeNewlines(u), name, block).Some? {
      InjectedHoldsBlock(NormalizeNewlines(u), name, block);
    }
  }

  // A check run after a write run succeeds if and only if the skill file is not kept in step or the block is stable.
  lemma WriteThenCheck(files: Files, sync: bool, name: string, block: string, format: string -> string)
    requires Generate(files, false, sync, name, block, format).Some?
    ensures var w := Generate(files, false, sync, name, block, format).value.files;
      var c := Generate(w, true, sync, name, block, format);
      c.Some? && c.value.ok <==> !sync || Stable(name, block)
  {
    var content := NormalizeNewlines(files.skillFile);
    NormalizingIs(files.skillFile);
    InjectedIsNormal(content, name, block);
    CheckAccepts(Generate(files, false, sync, name, block, format).value.files, sync, name, block, format);
  }
}
