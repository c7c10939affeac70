/** The generator of noisy output: whatever the random choices are, its lines and bytes stay in hard bounds, and
    the phrase to be found again is in exactly one line of the noise. An assertion that fails in the program is
    a `None` or a `false` here. */
module NoisyOutput {
  import opened LoremWords
  import opened Text
  import opened Wrappers

  const SYSTEM1_BASH_MIN_LINES := 10
  const SYSTEM1_BASH_MIN_TOTAL_BYTES := 4 * 1024
  const BASH_HARD_MAX_LINES := 300
  const BASH_MAX_TOTAL_BYTES := 16 * 1024
  const BASH_MAX_LINE_BYTES := 1024
  const MAX_WORDS := 200
  const TEXT_LINE_TARGET_LEN := 96
  const NEEDLE_WORDS := ["maecenas", "faucibus", "mollis", "interdum"]

  // ---------- bytes ----------

  // The bytes of a text in UTF-8.
  function ByteLength(s: string): nat {
    if s == "" then 0
    else
      var n := s[0] as int;
      (if n < 0x80 then 1 else if n < 0x800 then 2 else if n < 0x10000 then 3 else 4) + ByteLength(s[1..])
  }

  predicate Ascii(s: string) {
    forall i :: 0 <= i < |s| ==> s[i] as int < 0x80
  }

  lemma {:induction false} AsciiBytes(s: string)
    requires Ascii(s)
    ensures ByteLength(s) == |s|
  {
    if s != "" { AsciiBytes(s[1..]); }
  }

  method LineBytesWithNewline(line: string) returns (bytes: Option<nat>)
    ensures bytes.Some? <==> ByteLength(line) < BASH_MAX_LINE_BYTES
    ensures bytes.Some? ==> bytes.value == ByteLength(line) + 1
  {
    var n := ByteLength(line);
    bytes := if n < BASH_MAX_LINE_BYTES then Some(n + 1) else None;
  }

  // ---------- words and their lengths ----------

  // The length of some words, each with the space after it.
  function WordsLen(ws: seq<string>): nat {
    if ws == [] then 0 else |ws[0]| + 1 + WordsLen(ws[1..])
  }

  predicate AllAscii(ws: seq<string>) {
    forall i :: 0 <= i < |ws| ==> Ascii(ws[i])
  }

  lemma {:induction false} WordsLenAppend(a: seq<string>, b: seq<string>)
    ensures WordsLen(a + b) == WordsLen(a) + WordsLen(b)
  {
    if a == [] {
      assert a + b == b;
    } else {
      assert (a + b)[1..] == a[1..] + b;
      WordsLenAppend(a[1..], b);
    }
  }

  lemma WordsLenOne(w: string)
    ensures WordsLen([w]) == |w| + 1
  {
    assert [w][1..] == [];
  }

  lemma WordsLenReplace(ws: seq<string>, i: nat, w: string)
    requires i < |ws|
    ensures WordsLen(ws[i := w]) == WordsLen(ws) - |ws[i]| + |w|
  {
    assert ws == ws[..i] + ([ws[i]] + ws[i + 1..]) && ws[i := w] == ws[..i] + ([w] + ws[i + 1..]);
    WordsLenAppend(ws[..i], [ws[i]] + ws[i + 1..]);
    WordsLenAppend(ws[..i], [w] + ws[i + 1..]);
    WordsLenAppend([ws[i]], ws[i + 1..]);
    WordsLenAppend([w], ws[i + 1..]);
    WordsLenOne(ws[i]);
    WordsLenOne(w);
  }

  lemma {:induction false} JoinedLength(ws: seq<string>)
    requires ws != []
    ensures |Join(ws, " ")| == WordsLen(ws) - 1
  {
    if |ws| > 1 { JoinedLength(ws[1..]); } else { assert ws[1..] == []; }
  }

  lemma {:induction false} JoinedAscii(ws: seq<string>, sep: string)
    requires AllAscii(ws) && Ascii(sep)
    ensures Ascii(Join(ws, sep))
  {
    if |ws| > 1 { JoinedAscii(ws[1..], sep); }
  }

  lemma {:induction false} JoinAppend(a: seq<string>, b: seq<string>, sep: string)
    requires a != [] && b != []
    ensures Join(a + b, sep) == Join(a, sep) + sep + Join(b, sep)
  {
    if |a| == 1 {
      assert (a + b)[1..] == b;
    } else {
      assert (a + b)[1..] == a[1..] + b;
      JoinAppend(a[1..], b, sep);
    }
  }

  // ---------- a sentence ----------

  function Upper(c: char): char {
    if 'a' <= c <= 'z' then (c as int - 32) as char else c
  }

  function CapitalizeFirstLetter(text: string): string
    requires text != ""
  {
    [Upper(text[0])] + text[1..]
  }

  // Only the first letter changes, to its capital.
  lemma CapitalIs(text: string)
    requires text != "" && 'a' <= text[0] <= 'z'
    ensures var r := CapitalizeFirstLetter(text); |r| == |text| && r[0] as int - 'A' as int == text[0] as int - 'a' as int && r[1..] == text[1..]
  {
  }

  method RandomInt(lo: int, hi: int) returns (r: int)
    requires lo < hi
    ensures lo <= r < hi
  {
    r :| lo <= r < hi;
  }

  method RandomLoremWord() returns (w: string)
    ensures Fits(w)
  {
    WordsFit();
    var i := RandomInt(0, |LOREM_WORDS|);
    w := LOREM_WORDS[i];
  }

  method RandomWords(targetLen: nat) returns (words: Option<seq<string>>)
    ensures targetLen + MIN_WORD + 1 <= (MIN_WORD + 1) * MAX_WORDS ==> words.Some?
    ensures words.Some? ==> targetLen <= WordsLen(words.value) < targetLen + MAX_WORD + 1
    ensures words.Some? ==> AllFit(words.value) && |words.value| < MAX_WORDS
    ensures words.Some? ==> targetLen <= (MAX_WORD + 1) * |words.value|
  {
    var ws := [];
    var currentLen := 0;
    while currentLen < targetLen
      invariant currentLen == WordsLen(ws) < targetLen + MAX_WORD + 1
      invariant AllFit(ws) && 3 * |ws| <= currentLen <= (MAX_WORD + 1) * |ws| && |ws| < MAX_WORDS
      decreases targetLen + MAX_WORD + 1 - currentLen
    {
      var next := RandomLoremWord();
      WordsLenAppend(ws, [next]);
      WordsLenOne(next);
      ws := ws + [next];
      currentLen := currentLen + |next| + 1;
      if |ws| >= MAX_WORDS { return None; }
    }
    words := Some(ws);
  }

  // The lengths a sentence can have without a phrase.
  predicate SentenceLength(n: int, targetLen: nat) {
    targetLen <= n <= targetLen + MAX_WORD + 1
  }

  // Neither the limit of words nor the limit of bytes can ever stop such a sentence.
  predicate SurelyMade(targetLen: nat, phraseWords: seq<string>) {
    && 0 < targetLen && targetLen + MIN_WORD + 1 <= (MIN_WORD + 1) * MAX_WORDS
    && AllAscii(phraseWords) && targetLen + MAX_WORD + 1 + WordsLen(phraseWords) < BASH_MAX_LINE_BYTES
  }

  method MakeLoremSentence(targetLen: nat, phraseWords: seq<string>) returns (sentence: Option<string>)
    ensures SurelyMade(targetLen, phraseWords) ==> sentence.Some?
    ensures sentence.Some? ==> 0 < targetLen && ByteLength(sentence.value) < BASH_MAX_LINE_BYTES
    ensures sentence.Some? ==> SentenceLength(|sentence.value| - WordsLen(phraseWords), targetLen)
    ensures sentence.Some? && AllAscii(phraseWords) ==> Ascii(sentence.value)
    ensures sentence.Some? && phraseWords != [] && targetLen > MAX_WORD + 1 ==> Occurs(sentence.value, Join(phraseWords, " "))
    ensures sentence.Some? && phraseWords == [] ==> !HasNeedle(sentence.value)
    ensures sentence.Some? ==> IsSentence(sentence.value, targetLen, phraseWords)
  {
    if targetLen == 0 { return None; }
    var chosen := RandomWords(targetLen);
    if chosen.None? { return None; }
    FitIsOrdinary(chosen.value);
    var words := AddComma(chosen.value);
    var insertAt := 0;
    if phraseWords != [] {
      var minIndex := if 6 <= |words| - 1 then 6 else |words| - 1;
      var maxIndex := if minIndex + 1 >= |words| - 3 then minIndex + 1 else |words| - 3;
      insertAt := RandomInt(minIndex, maxIndex);
    }
    InsertedLength(words, insertAt, phraseWords);
    var text := Join(words[..insertAt] + phraseWords + words[insertAt..], " ");
    var line := CapitalizeFirstLetter(text) + ".";
    SentenceIs(words, insertAt, phraseWords, text);
    var bytes := LineBytesWithNewline(line);
    sentence := if bytes.Some? then Some(line) else None;
    assert MadeOf(line, chosen.value, words, insertAt, phraseWords);
    MadeIsSentence(line, targetLen, chosen.value, words, insertAt, phraseWords);
  }

  // Words of the table, perhaps with a comma, and the phrase before one of them.
  ghost predicate MadeOf(line: string, words: seq<string>, r: seq<string>, at: nat, phrase: seq<string>) {
    && AllFit(words) && words != [] && Commas(words, r) && at < |r| == |words|
    && (phrase != [] ==> at >= 6 || at == |words| - 1)
    && Join(r[..at] + phrase + r[at..], " ") != ""
    && line == CapitalizeFirstLetter(Join(r[..at] + phrase + r[at..], " ")) + "."
  }

  // It ends with a full stop; with enough words, or without a phrase, it starts with a capital letter, and the phrase
  // stands behind six words at least and before one.
  ghost predicate IsSentence(line: string, targetLen: nat, phrase: seq<string>) {
    && line != "" && line[|line| - 1] == '.'
    && (phrase == [] || targetLen > MAX_WORD + 1 ==> 'A' <= line[0] <= 'Z')
    && (phrase != [] && targetLen > 6 * (MAX_WORD + 1) ==>
          exists words, r, at: nat :: MadeOf(line, words, r, at, phrase) && 6 <= at < |words|)
  }

  lemma MadeIsSentence(line: string, targetLen: nat, words: seq<string>, r: seq<string>, at: nat, phrase: seq<string>)
    requires MadeOf(line, words, r, at, phrase) && targetLen <= (MAX_WORD + 1) * |words|
    ensures IsSentence(line, targetLen, phrase)
  {
    var text := Join(r[..at] + phrase + r[at..], " ");
    assert r[0] == words[0] && Fits(words[0]);
    if phrase == [] || at > 0 {
      assert (r[..at] + phrase + r[at..])[0] == r[0];
      assert text[0] == words[0][0];
    }
  }

  // Why the sentence is what it is said to be.
  lemma SentenceIs(words: seq<string>, at: nat, phrase: seq<string>, text: string)
    requires at <= |words| && words != [] && AllOrdinary(words) && text != ""
    requires text == Join(words[..at] + phrase + words[at..], " ")
    ensures AllAscii(phrase) ==> Ascii(CapitalizeFirstLetter(text) + ".")
    ensures AllAscii(phrase) ==> ByteLength(CapitalizeFirstLetter(text) + ".") == |text| + 1
    ensures phrase != [] && at > 0 ==> Occurs(CapitalizeFirstLetter(text) + ".", Join(phrase, " "))
    ensures phrase == [] ==> !HasNeedle(CapitalizeFirstLetter(text) + ".")
  {
    var pre, post := words[..at], words[at..];
    if AllAscii(phrase) {
      JoinedAscii(pre + phrase + post, " ");
      AsciiBytes(CapitalizeFirstLetter(text) + ".");
    }
    if phrase != [] && at > 0 { PhraseInside(pre, phrase, post, text); }
    if phrase == [] {
      assert pre + phrase + post == words;
      OrdinaryHasNoNeedle(words);
    }
  }

  // ---------- no needle by chance ----------

  ghost predicate HasNeedle(line: string) {
    Occurs(line, Join(NEEDLE_WORDS, " "))
  }

  // One piece of a text between spaces that is not the second word of the needle.
  predicate Ordinary(w: string) {
    Ascii(w) && ' ' !in w && w != NEEDLE_WORDS[1]
  }

  predicate AllOrdinary(ws: seq<string>) {
    forall i :: 0 <= i < |ws| ==> Ordinary(ws[i])
  }

  lemma FitIsOrdinary(ws: seq<string>)
    requires AllFit(ws)
    ensures AllOrdinary(ws)
  {
    forall i | 0 <= i < |ws| ensures Ordinary(ws[i]) { assert Fits(ws[i]); }
  }

  lemma NeedleIs()
    ensures Join(NEEDLE_WORDS, " ") == "maecenas" + [' '] + "faucibus" + [' '] + "mollis interdum"
  {
    assert NEEDLE_WORDS[1..] == ["faucibus", "mollis", "interdum"];
    assert ["faucibus", "mollis", "interdum"][1..] == ["mollis", "interdum"];
    assert ["mollis", "interdum"][1..] == ["interdum"];
  }

  // A word between two spaces is a piece.
  lemma PieceBetween(line: string, before: string, w: string, after: string)
    requires Occurs(line, before + [' '] + w + [' '] + after) && ' ' !in w
    ensures w in Split(line, ' ')
  {
    var p := before + [' '] + w + [' '] + after;
    var i: nat :| i <= |line| && OccursAt(line, p, i);
    assert line[i..i + |p|] == p;
    var a, b := line[..i] + before, after + line[i + |p|..];
    assert line == line[..i] + p + line[i + |p|..] == a + [' '] + (w + [' '] + b);
    SplitConcat(a, ' ', w + [' '] + b);
    SplitFirst(w, ' ', b);
  }

  lemma NeedleSplits(line: string)
    requires HasNeedle(line)
    ensures NEEDLE_WORDS[1] in Split(line, ' ')
  {
    NeedleIs();
    PieceBetween(line, "maecenas", "faucibus", "mollis interdum");
  }

  lemma {:induction false} SplitJoined(ws: seq<string>)
    requires ws != [] && forall i :: 0 <= i < |ws| ==> ' ' !in ws[i]
    ensures Split(Join(ws, " "), ' ') == ws
  {
    if |ws| == 1 {
      SplitOne(ws[0], ' ');
    } else {
      SplitFirst(ws[0], ' ', Join(ws[1..], " "));
      SplitJoined(ws[1..]);
    }
  }

  // Neither the capital letter nor the full stop makes a word of the needle.
  lemma OrdinaryHasNoNeedle(words: seq<string>)
    requires words != [] && AllOrdinary(words) && Join(words, " ") != ""
    ensures !HasNeedle(CapitalizeFirstLetter(Join(words, " ")) + ".")
  {
    var capital := CapitalizeFirstLetter(Join(words, " "));
    SplitJoined(words);
    CapitalPieces(Join(words, " "), NEEDLE_WORDS[1]);
    FullStopPieces(capital, NEEDLE_WORDS[1]);
    if HasNeedle(capital + ".") { NeedleSplits(capital + "."); }
  }

  lemma CapitalPieces(text: string, w: string)
    requires text != "" && w !in Split(text, ' ') && w != "" && 'a' <= w[0] <= 'z'
    ensures w !in Split(CapitalizeFirstLetter(text), ' ')
  {
    var rest := text[1..];
    assert text == [text[0]] + rest;
    if text[0] != ' ' {
      SplitPrepend(text[0], rest, ' ');
      SplitPrepend(Upper(text[0]), rest, ' ');
    }
  }

  lemma FullStopPieces(text: string, w: string)
    requires w !in Split(text, ' ') && w != "" && w[|w| - 1] != '.'
    ensures w !in Split(text + ".", ' ')
  {
    SplitAppend(text, '.', ' ');
  }

  // A comma behind one word in roughly the middle, if there are enough words.
  ghost predicate Commas(words: seq<string>, r: seq<string>) {
    if |words| <= 12 then r == words
    else exists k :: 4 <= k < 9 && k < |words| - 2 && r == words[k := words[k] + ","]
  }

  method AddComma(words: seq<string>) returns (r: seq<string>)
    requires AllOrdinary(words)
    ensures Commas(words, r)
    ensures AllOrdinary(r) && |r| == |words| && WordsLen(words) <= WordsLen(r) <= WordsLen(words) + 1
  {
    r := words;
    if |words| > 12 {
      var commaAt := RandomInt(4, if 9 <= |words| - 2 then 9 else |words| - 2);
      var word := words[commaAt];
      WordsLenReplace(words, commaAt, word + ",");
      assert Ordinary(word + ",") by { assert (word + ",")[|word|] != NEEDLE_WORDS[1][7]; }
      r := words[commaAt := word + ","];
    }
  }

  lemma InsertedLength(words: seq<string>, at: nat, phrase: seq<string>)
    requires at <= |words| && words != []
    ensures |Join(words[..at] + phrase + words[at..], " ")| == WordsLen(words) + WordsLen(phrase) - 1
  {
    var pre, post := words[..at], words[at..];
    assert words == pre + post;
    WordsLenAppend(pre, post);
    WordsLenAppend(pre + phrase, post);
    WordsLenAppend(pre, phrase);
    JoinedLength(pre + phrase + post);
  }

  lemma JoinAround(pre: seq<string>, phrase: seq<string>, post: seq<string>) returns (before: string, after: string)
    requires pre != [] && phrase != []
    ensures Join(pre + phrase + post, " ") == before + Join(phrase, " ") + after && before != ""
  {
    JoinAppend(pre, phrase, " ");
    before := Join(pre, " ") + " ";
    if post == [] {
      assert pre + phrase + post == pre + phrase;
      after := "";
    } else {
      JoinAppend(pre + phrase, post, " ");
      after := " " + Join(post, " ");
      assert before + Join(phrase, " ") + after == (before + Join(phrase, " ")) + " " + Join(post, " ");
    }
  }

  // Behind at least one word the phrase is not touched by the capital letter.
  lemma PhraseInside(pre: seq<string>, phrase: seq<string>, post: seq<string>, text: string)
    requires pre != [] && phrase != [] && text == Join(pre + phrase + post, " ") && text != ""
    ensures Occurs(CapitalizeFirstLetter(text) + ".", Join(phrase, " "))
  {
    var before, after := JoinAround(pre, phrase, post);
    CapitalIsBefore(text, before, Join(phrase, " "), after);
  }

  lemma CapitalIsBefore(text: string, before: string, p: string, after: string)
    requires text == before + p + after && before != ""
    ensures OccursAt(CapitalizeFirstLetter(text) + ".", p, |before|)
  {
    var sentence := CapitalizeFirstLetter(text) + ".";
    forall k | |before| <= k < |before| + |p| ensures sentence[k] == p[k - |before|] { assert sentence[k] == text[k]; }
  }

  // ---------- a burst ----------

  const NEEDLE_LEN := 34

  lemma NeedleWordsAre()
    ensures AllAscii(NEEDLE_WORDS) && WordsLen(NEEDLE_WORDS) == NEEDLE_LEN
  {
    assert NEEDLE_WORDS[1..] == ["faucibus", "mollis", "interdum"];
    assert ["faucibus", "mollis", "interdum"][1..] == ["mollis", "interdum"];
    assert ["mollis", "interdum"][1..] == ["interdum"];
    WordsLenOne("interdum");
  }

  // A line, longer by the needle if it has one.
  ghost predicate IsLine(line: string) {
    Ascii(line) && SentenceLength(|line| - (if HasNeedle(line) then NEEDLE_LEN else 0), TEXT_LINE_TARGET_LEN)
  }

  method MakeLine(needle: bool) returns (line: string)
    ensures IsLine(line) && (HasNeedle(line) <==> needle) && ByteLength(line) == |line|
  {
    NeedleWordsAre();
    var made := MakeLoremSentence(TEXT_LINE_TARGET_LEN, if needle then NEEDLE_WORDS else []);
    line := made.value;
    AsciiBytes(line);
  }

  // Every line with its newline.
  function TotalBytes(lines: seq<string>): nat {
    if lines == [] then 0 else TotalBytes(lines[..|lines| - 1]) + |lines[|lines| - 1]| + 1
  }

  class Burst {
    var lines: seq<string>
    var totalBytes: nat

    ghost predicate Valid()
      reads this
    {
      totalBytes == TotalBytes(lines) && forall i :: 0 <= i < |lines| ==> IsLine(lines[i])
    }

    constructor ()
      ensures Valid() && lines == []
    {
      lines, totalBytes := [], 0;
    }

    // Fails exactly where one of the two assertions of the program does.
    method AddLine(line: string) returns (ok: bool)
      requires Valid() && IsLine(line)
      modifies this
      ensures Valid()
      ensures ok <==> old(|lines|) + 1 < BASH_HARD_MAX_LINES && old(totalBytes) + |line| + 1 < BASH_MAX_TOTAL_BYTES
      ensures lines == if ok then old(lines) + [line] else old(lines)
      ensures totalBytes == if ok then old(totalBytes) + |line| + 1 else old(totalBytes)
    {
      AsciiBytes(line);
      var lineBytes := LineBytesWithNewline(line);
      ok := |lines| + 1 < BASH_HARD_MAX_LINES && totalBytes + lineBytes.value < BASH_MAX_TOTAL_BYTES;
      if !ok { return; }
      lines := lines + [line];
      totalBytes := totalBytes + lineBytes.value;
      assert lines[..|lines| - 1] == old(lines);
    }
  }

  // The needle is in the one line after the first `after`, if it was asked for and there are that many.
  ghost predicate OneNeedle(lines: seq<string>, wanted: bool, after: nat) {
    forall i :: 0 <= i < |lines| ==> (HasNeedle(lines[i]) <==> wanted && i == after)
  }

  // The bytes of a line without the needle.
  const MIN_LINE_BYTES := TEXT_LINE_TARGET_LEN + 1
  const MAX_LINE_BYTES := TEXT_LINE_TARGET_LEN + MAX_WORD + 2

  // What the first loop keeps: enough room for every further line.
  ghost predicate Filling(n: nat, bytes: nat, inserted: bool) {
    MIN_LINE_BYTES * n <= bytes <= MAX_LINE_BYTES * n + (if inserted then NEEDLE_LEN else 0)
  }

  method FillToMinimum(burst: Burst, includeNeedle: bool, after: nat) returns (needleInserted: bool)
    requires burst.Valid() && burst.lines == [] && 8 <= after < 18
    modifies burst
    ensures burst.Valid() && OneNeedle(burst.lines, includeNeedle, after)
    ensures needleInserted == includeNeedle
    ensures SYSTEM1_BASH_MIN_LINES < |burst.lines| <= 43 && after < |burst.lines|
    ensures MIN_LINE_BYTES * |burst.lines| <= burst.totalBytes
    ensures SYSTEM1_BASH_MIN_TOTAL_BYTES < burst.totalBytes <= SYSTEM1_BASH_MIN_TOTAL_BYTES + MAX_LINE_BYTES + NEEDLE_LEN
  {
    needleInserted := false;
    while |burst.lines| <= SYSTEM1_BASH_MIN_LINES || burst.totalBytes <= SYSTEM1_BASH_MIN_TOTAL_BYTES
      invariant burst.Valid() && OneNeedle(burst.lines, includeNeedle, after)
      invariant needleInserted == (includeNeedle && |burst.lines| > after)
      invariant Filling(|burst.lines|, burst.totalBytes, needleInserted)
      invariant burst.totalBytes <= SYSTEM1_BASH_MIN_TOTAL_BYTES + MAX_LINE_BYTES + NEEDLE_LEN
      decreases BASH_MAX_TOTAL_BYTES - burst.totalBytes
    {
      var needle := includeNeedle && !needleInserted && |burst.lines| >= after;
      var line := MakeLine(needle);
      var ok := burst.AddLine(line);
      // The assertions of the program hold here.
      assert ok;
      if needle { needleInserted := true; }
    }
  }

  // A target within the limit is met without a failing assertion, and one far enough beyond it never is: in
  // between it is a matter of chance.
  method AddNoise(burst: Burst, targetMaxTotalBytes: nat) returns (ok: bool)
    requires burst.Valid() && |burst.lines| < BASH_HARD_MAX_LINES && burst.totalBytes < BASH_MAX_TOTAL_BYTES
    requires MIN_LINE_BYTES * |burst.lines| <= burst.totalBytes
    modifies burst
    ensures targetMaxTotalBytes <= BASH_MAX_TOTAL_BYTES ==> ok
    ensures targetMaxTotalBytes >= BASH_MAX_TOTAL_BYTES + MAX_LINE_BYTES ==> !ok
    ensures burst.Valid() && |burst.lines| < BASH_HARD_MAX_LINES && burst.totalBytes < BASH_MAX_TOTAL_BYTES
    ensures old(burst.totalBytes) <= burst.totalBytes
    ensures burst.totalBytes < targetMaxTotalBytes || burst.totalBytes == old(burst.totalBytes)
    ensures old(burst.lines) <= burst.lines
    ensures forall i :: |old(burst.lines)| <= i < |burst.lines| ==> !HasNeedle(burst.lines[i])
  {
    while true
      invariant burst.Valid() && |burst.lines| < BASH_HARD_MAX_LINES && burst.totalBytes < BASH_MAX_TOTAL_BYTES
      invariant MIN_LINE_BYTES * |burst.lines| <= burst.totalBytes
      invariant old(burst.totalBytes) <= burst.totalBytes
      invariant burst.totalBytes < targetMaxTotalBytes || burst.totalBytes == old(burst.totalBytes)
      invariant old(burst.lines) <= burst.lines
      invariant forall i :: |old(burst.lines)| <= i < |burst.lines| ==> !HasNeedle(burst.lines[i])
      decreases BASH_MAX_TOTAL_BYTES - burst.totalBytes
    {
      var candidate := MakeLine(false);
      var candidateBytes := LineBytesWithNewline(candidate);
      if |burst.lines| + 1 >= BASH_HARD_MAX_LINES { return true; }
      if burst.totalBytes + candidateBytes.value >= targetMaxTotalBytes { return true; }
      var added := burst.AddLine(candidate);
      if !added { return false; }
    }
  }

  lemma {:induction false} OutputBytes(lines: seq<string>)
    requires lines != []
    ensures |Join(lines, "\n") + "\n"| == TotalBytes(lines)
  {
    var front, last := lines[..|lines| - 1], lines[|lines| - 1];
    if |lines| > 1 {
      OutputBytes(front);
      JoinAppend(front, [last], "\n");
      assert lines == front + [last];
    }
  }

  // What a burst is: the bounds of the whole and of every line, and the needle in exactly one line if it was asked
  // for, and else in none.
  ghost predicate IsBurst(output: string, lines: seq<string>, includeNeedle: bool) {
    && output == Join(lines, "\n") + "\n"
    && SYSTEM1_BASH_MIN_LINES < |lines| < BASH_HARD_MAX_LINES
    && SYSTEM1_BASH_MIN_TOTAL_BYTES < ByteLength(output) < BASH_MAX_TOTAL_BYTES
    && (forall i :: 0 <= i < |lines| ==> IsLine(lines[i]))
    && exists n :: 8 <= n < 18 && n < |lines| && OneNeedle(lines, includeNeedle, n)
  }

  // Every burst is one, for every choice; a target within the limit always gives one, one far enough beyond it never.
  method GenerateBurst(includeNeedle: bool, targetMaxTotalBytes: nat) returns (output: Option<string>, lines: seq<string>)
    ensures targetMaxTotalBytes <= BASH_MAX_TOTAL_BYTES ==> output.Some?
    ensures targetMaxTotalBytes >= BASH_MAX_TOTAL_BYTES + MAX_LINE_BYTES ==> output.None?
    ensures output.Some? ==> IsBurst(output.value, lines, includeNeedle)
  {
    var burst := new Burst();
    var needleInsertAfterLines := RandomInt(8, 18);
    var needleInserted := FillToMinimum(burst, includeNeedle, needleInsertAfterLines);
    // The program would add the needle here, but the first loop always has.
    if includeNeedle && !needleInserted { assert false; }
    var ok := AddNoise(burst, targetMaxTotalBytes);
    lines := burst.lines;
    if !ok { return None, lines; }
    output := Some(Join(lines, "\n") + "\n");
    OutputBytes(lines);
    JoinedAscii(lines, "\n");
    AsciiBytes(output.value);
    assert ByteLength(output.value) == burst.totalBytes;
    assert OneNeedle(lines, includeNeedle, needleInsertAfterLines);
  }
}
