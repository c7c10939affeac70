/** The card that asks the user a question: an answer is parsed into a draft, the draft is edited, and printed
    as an answer again. */
module AskUserQuestion {
  import opened Sequences
  import opened Wrappers
  import opened Text

  datatype Question = Question(labels: seq<string>, multiSelect: bool)
  datatype Draft = Draft(selected: seq<string>, otherText: string)

  const OTHER_VALUE := "__other__"
  const NO_ANSWER := Draft([], "")

  // ---------- the parts of an answer ----------

  // Every piece trimmed, and the empty ones dropped.
  function Clean(pieces: seq<string>): seq<string> {
    if pieces == [] then []
    else (if Trim(pieces[0]) == "" then [] else [Trim(pieces[0])]) + Clean(pieces[1..])
  }

  function Tokens(answer: string): seq<string> {
    Clean(Split(answer, ','))
  }

  function Chosen(labels: seq<string>, tokens: seq<string>): seq<string> {
    if tokens == [] then []
    else Chosen(labels, tokens[..|tokens| - 1]) + (if tokens[|tokens| - 1] in labels then [tokens[|tokens| - 1]] else [])
  }

  function Others(labels: seq<string>, tokens: seq<string>): seq<string> {
    if tokens == [] then []
    else Others(labels, tokens[..|tokens| - 1]) + (if tokens[|tokens| - 1] in labels then [] else [tokens[|tokens| - 1]])
  }

  // The labels among the tokens, then "other" if there is anything else.
  function DraftOf(labels: seq<string>, tokens: seq<string>): Draft {
    var others := Others(labels, tokens);
    Draft(Chosen(labels, tokens) + (if others == [] then [] else [OTHER_VALUE]), Join(others, ", "))
  }

  // The tokens of an answer to a question: a single choice is one token.
  function AnswerTokens(question: Question, answer: string): seq<string> {
    if question.multiSelect then Tokens(answer) else if Trim(answer) == "" then [] else [Trim(answer)]
  }

  function Parsed(question: Question, answer: string): Draft {
    DraftOf(question.labels, AnswerTokens(question, answer))
  }

  function Parts(draft: Draft): seq<string> {
    seq(|draft.selected|, i requires 0 <= i < |draft.selected| =>
      if draft.selected[i] == OTHER_VALUE then Trim(draft.otherText) else draft.selected[i])
  }

  function Printed(question: Question, draft: Draft): string {
    if question.multiSelect then Join(Parts(draft), ", ")
    else if draft.selected == [] then "" else Parts(draft)[0]
  }

  predicate IsQuestionAnswered(draft: Draft) {
    draft.selected != [] && (OTHER_VALUE in draft.selected ==> Trim(draft.otherText) != "")
  }

  // ---------- the code ----------

  method ParsePrefilledAnswer(question: Question, answer: string) returns (draft: Draft)
    ensures draft == Parsed(question, answer)
  {
    var trimmed := Trim(answer);
    TokensOfTrim(answer);
    if |trimmed| == 0 { return NO_ANSWER; }
    if !question.multiSelect {
      SingleDraft(question.labels, trimmed);
      if trimmed in question.labels { return Draft([trimmed], ""); }
      return Draft([OTHER_VALUE], trimmed);
    }
    var tokens := Clean(Split(trimmed, ','));
    var selected, otherParts := [], [];
    for i := 0 to |tokens|
      invariant selected == Chosen(question.labels, tokens[..i])
      invariant otherParts == Others(question.labels, tokens[..i])
    {
      assert tokens[..i + 1][..i] == tokens[..i];
      if tokens[i] in question.labels {
        selected := selected + [tokens[i]];
      } else {
        otherParts := otherParts + [tokens[i]];
      }
    }
    assert tokens[..|tokens|] == tokens;
    if |otherParts| > 0 { selected := selected + [OTHER_VALUE]; }
    draft := Draft(selected, Join(otherParts, ", "));
  }

  method DraftToAnswerString(question: Question, draft: Draft) returns (answer: string)
    ensures answer == Printed(question, draft)
  {
    var parts := [];
    for i := 0 to |draft.selected|
      invariant parts == Parts(draft)[..i]
    {
      var chosen := draft.selected[i];
      parts := parts + [if chosen == OTHER_VALUE then Trim(draft.otherText) else chosen];
    }
    assert Parts(draft)[..|draft.selected|] == Parts(draft);
    if !question.multiSelect { return if |parts| > 0 then parts[0] else ""; }
    answer := Join(parts, ", ");
  }

  // ---------- tokens ----------

  lemma {:induction false} CleanAppend(a: seq<string>, b: seq<string>)
    ensures Clean(a + b) == Clean(a) + Clean(b)
  {
    if a == [] {
      assert a + b == b;
    } else {
      CleanAppend(a[1..], b);
      assert (a + b)[0] == a[0] && (a + b)[1..] == a[1..] + b;
      var first := if Trim(a[0]) == "" then [] else [Trim(a[0])];
      assert first + (Clean(a[1..]) + Clean(b)) == (first + Clean(a[1..])) + Clean(b);
    }
  }

  lemma CleanOne(s: string)
    ensures Clean([s]) == if Trim(s) == "" then [] else [Trim(s)]
  {
  }

  lemma CleanFirst(a: string, b: string, rest: seq<string>)
    requires Trim(a) == Trim(b)
    ensures Clean([a] + rest) == Clean([b] + rest)
  {
    CleanAppend([a], rest);
    CleanAppend([b], rest);
    CleanOne(a);
    CleanOne(b);
  }

  lemma CleanLast(front: seq<string>, a: string, b: string)
    requires Trim(a) == Trim(b)
    ensures Clean(front + [a]) == Clean(front + [b])
  {
    CleanAppend(front, [a]);
    CleanAppend(front, [b]);
    CleanOne(a);
    CleanOne(b);
  }

  // White space at an end of an answer changes no token.
  lemma TokensPrepend(c: char, s: string)
    requires IsSpace(c)
    ensures Tokens([c] + s) == Tokens(s)
  {
    SplitPrepend(c, s, ',');
    var r := Split(s, ',');
    TrimOfPrepend(r[0], c);
    CleanFirst([c] + r[0], r[0], r[1..]);
    assert [r[0]] + r[1..] == r;
  }

  lemma TokensAppend(s: string, c: char)
    requires IsSpace(c)
    ensures Tokens(s + [c]) == Tokens(s)
  {
    SplitAppend(s, c, ',');
    var r := Split(s, ',');
    var front, last := r[..|r| - 1], r[|r| - 1];
    TrimOfAppend(last, c);
    CleanLast(front, last + [c], last);
    assert front + [last] == r;
  }

  lemma {:induction false} TokensOfTrimStart(s: string)
    ensures Tokens(TrimStart(s)) == Tokens(s)
  {
    if s != "" && IsSpace(s[0]) {
      TokensOfTrimStart(s[1..]);
      TokensPrepend(s[0], s[1..]);
      assert [s[0]] + s[1..] == s;
    }
  }

  lemma {:induction false} TokensOfTrimEnd(s: string)
    ensures Tokens(TrimEnd(s)) == Tokens(s)
  {
    if s != "" && IsSpace(s[|s| - 1]) {
      TokensOfTrimEnd(s[..|s| - 1]);
      TokensAppend(s[..|s| - 1], s[|s| - 1]);
      assert s[..|s| - 1] + [s[|s| - 1]] == s;
    }
  }

  lemma TokensOfTrim(s: string)
    ensures Tokens(Trim(s)) == Tokens(s)
    ensures Trim(s) == "" ==> Tokens(s) == []
  {
    TokensOfTrimStart(s);
    TokensOfTrimEnd(TrimStart(s));
  }

  lemma SingleDraft(labels: seq<string>, token: string)
    ensures DraftOf(labels, [token]) == if token in labels then Draft([token], "") else Draft([OTHER_VALUE], token)
  {
    assert [token][..0] == [];
    assert Chosen(labels, []) == [] && Others(labels, []) == [];
    if token in labels {
      assert Chosen(labels, [token]) == [token] && Others(labels, [token]) == [];
      assert Join([], ", ") == "";
    } else {
      assert Chosen(labels, [token]) == [] && Others(labels, [token]) == [token];
      assert Join([token], ", ") == token;
    }
  }

  // What every token looks like, and then it is its own only token.
  predicate IsToken(t: string) {
    t != "" && Trimmed(t) && ',' !in t
  }

  lemma TokenIsItself(t: string)
    requires IsToken(t)
    ensures Tokens(t) == [t]
  {
    SplitOne(t, ',');
    TrimIsStable(t);
    CleanOne(t);
  }

  lemma {:induction false} CleanIsTokens(pieces: seq<string>)
    requires forall i :: 0 <= i < |pieces| ==> ',' !in pieces[i]
    ensures forall t :: t in Clean(pieces) ==> IsToken(t)
  {
    if pieces != [] {
      CleanIsTokens(pieces[1..]);
      TrimTrims(pieces[0]);
      var pre, post := TrimIsMiddle(pieces[0]);
      forall i | 0 <= i < |Trim(pieces[0])| ensures Trim(pieces[0])[i] != ',' {
        assert pieces[0][|pre| + i] == Trim(pieces[0])[i];
      }
    }
  }

  lemma TokensAreTokens(s: string)
    ensures forall t :: t in Tokens(s) ==> IsToken(t)
  {
    SplitHasNoSeparator(s, ',');
    CleanIsTokens(Split(s, ','));
  }

  lemma TokensOfTwo(p: string, q: string)
    ensures Tokens(p + ", " + q) == Tokens(p) + Tokens(q)
  {
    assert p + ", " + q == p + [','] + ([' '] + q);
    SplitConcat(p, ',', [' '] + q);
    CleanAppend(Split(p, ','), Split([' '] + q, ','));
    TokensPrepend(' ', q);
  }

  // Commas part the tokens; what is between two is one token, trimmed, or none if it is blank.
  lemma TokensAre(p: string, q: string)
    ensures Tokens(p + "," + q) == Tokens(p) + Tokens(q)
    ensures ',' !in p ==> Tokens(p) == if Trim(p) == "" then [] else [Trim(p)]
  {
    assert p + "," + q == p + [','] + q;
    SplitConcat(p, ',', q);
    CleanAppend(Split(p, ','), Split(q, ','));
    if ',' !in p {
      SplitOne(p, ',');
      CleanOne(p);
    }
  }

  function AllTokens(parts: seq<string>): seq<string> {
    if parts == [] then [] else Tokens(parts[0]) + AllTokens(parts[1..])
  }

  // Whatever the parts are, the tokens of the joined answer are theirs, in order.
  lemma {:induction false} TokensOfJoin(parts: seq<string>)
    ensures Tokens(Join(parts, ", ")) == AllTokens(parts)
  {
    if |parts| > 1 {
      TokensOfJoin(parts[1..]);
      TokensOfTwo(parts[0], Join(parts[1..], ", "));
    } else if |parts| == 1 {
      assert parts[1..] == [];
    } else {
      CleanOne("");
    }
  }

  lemma {:induction false} AllTokensOfTokens(ts: seq<string>)
    requires forall t :: t in ts ==> IsToken(t)
    ensures AllTokens(ts) == ts
  {
    if ts != [] {
      TokenIsItself(ts[0]);
      AllTokensOfTokens(ts[1..]);
    }
  }

  lemma TokensOfJoinedTokens(ts: seq<string>)
    requires forall t :: t in ts ==> IsToken(t)
    ensures Tokens(Join(ts, ", ")) == ts
  {
    TokensOfJoin(ts);
    AllTokensOfTokens(ts);
  }

  // ---------- chosen labels and other tokens ----------

  lemma {:induction false} ChosenAppend(labels: seq<string>, a: seq<string>, b: seq<string>)
    ensures Chosen(labels, a + b) == Chosen(labels, a) + Chosen(labels, b)
  {
    if b == [] {
      assert a + b == a;
    } else {
      ChosenAppend(labels, a, b[..|b| - 1]);
      assert (a + b)[..|a + b| - 1] == a + b[..|b| - 1];
    }
  }

  lemma {:induction false} OthersAppend(labels: seq<string>, a: seq<string>, b: seq<string>)
    ensures Others(labels, a + b) == Others(labels, a) + Others(labels, b)
  {
    if b == [] {
      assert a + b == a;
    } else {
      OthersAppend(labels, a, b[..|b| - 1]);
      assert (a + b)[..|a + b| - 1] == a + b[..|b| - 1];
    }
  }

  lemma {:induction false} PartitionIs(labels: seq<string>, ts: seq<string>)
    ensures forall t :: t in Chosen(labels, ts) <==> t in ts && t in labels
    ensures forall t :: t in Others(labels, ts) <==> t in ts && t !in labels
  {
    if ts != [] {
      var front := ts[..|ts| - 1];
      PartitionIs(labels, front);
      assert forall t :: t in ts <==> t in front || t == ts[|ts| - 1] by { assert ts == front + [ts[|ts| - 1]]; }
    }
  }

  lemma {:induction false} PartsAre(labels: seq<string>, ts: seq<string>)
    ensures forall i :: 0 <= i < |Chosen(labels, ts)| ==> Chosen(labels, ts)[i] in labels
    ensures forall i :: 0 <= i < |Others(labels, ts)| ==> Others(labels, ts)[i] !in labels
  {
    if ts != [] { PartsAre(labels, ts[..|ts| - 1]); }
  }

  lemma {:induction false} AllChosen(labels: seq<string>, ts: seq<string>)
    requires forall i :: 0 <= i < |ts| ==> ts[i] in labels
    ensures Chosen(labels, ts) == ts && Others(labels, ts) == []
  {
    if ts != [] {
      AllChosen(labels, ts[..|ts| - 1]);
      assert ts == ts[..|ts| - 1] + [ts[|ts| - 1]];
    }
  }

  lemma {:induction false} NoneChosen(labels: seq<string>, ts: seq<string>)
    requires forall i :: 0 <= i < |ts| ==> ts[i] !in labels
    ensures Chosen(labels, ts) == [] && Others(labels, ts) == ts
  {
    if ts != [] {
      NoneChosen(labels, ts[..|ts| - 1]);
      assert ts == ts[..|ts| - 1] + [ts[|ts| - 1]];
    }
  }

  // ---------- what is parsed ----------

  // A token that is a label is chosen, in its place; any other one is left for "other", in its place.
  lemma TokensPart(labels: seq<string>, a: seq<string>, t: string, b: seq<string>)
    ensures Chosen(labels, a + [t] + b) == Chosen(labels, a) + (if t in labels then [t] else []) + Chosen(labels, b)
    ensures Others(labels, a + [t] + b) == Others(labels, a) + (if t in labels then [] else [t]) + Others(labels, b)
  {
    ChosenAppend(labels, a, [t]);
    ChosenAppend(labels, a + [t], b);
    OthersAppend(labels, a, [t]);
    OthersAppend(labels, a + [t], b);
    SingleDraft(labels, t);
    assert [t][..0] == [] && Chosen(labels, []) == [] && Others(labels, []) == [];
  }

  // What a draft says of the answer. One choice: the whole answer is a label, or the text for "other". Several: the
  // labels among its tokens, then "other" if there is anything else, which is the text.
  lemma ParsedMeans(q: Question, a: string)
    ensures !q.multiSelect ==>
              Parsed(q, a) == if Trim(a) == "" then Draft([], "")
                              else if Trim(a) in q.labels then Draft([Trim(a)], "") else Draft([OTHER_VALUE], Trim(a))
    ensures q.multiSelect ==>
              var d, ts := Parsed(q, a), Tokens(a); var others := exists t :: t in ts && t !in q.labels;
              && d.selected == Chosen(q.labels, ts) + (if others then [OTHER_VALUE] else [])
              && Tokens(d.otherText) == Others(q.labels, ts) && (!others ==> d.otherText == "")
  {
    if q.multiSelect {
      var ts := Tokens(a);
      OtherTokensAgain(q, a);
      PartitionIs(q.labels, ts);
      if Others(q.labels, ts) != [] { assert Others(q.labels, ts)[0] in Others(q.labels, ts); }
    } else if Trim(a) != "" {
      SingleDraft(q.labels, Trim(a));
    } else {
      assert Chosen(q.labels, []) == [] && Others(q.labels, []) == [];
    }
  }

  // ---------- what is printed ----------

  lemma {:induction false} JoinSnoc(parts: seq<string>, last: string, sep: string)
    requires parts != []
    ensures Join(parts + [last], sep) == Join(parts, sep) + sep + last
  {
    if |parts| == 1 {
      assert (parts + [last])[1..] == [last];
    } else {
      assert (parts + [last])[1..] == parts[1..] + [last];
      JoinSnoc(parts[1..], last, sep);
    }
  }

  // A single choice prints what was chosen first; several are printed one after the other, with a comma and a space
  // between them; "other" stands for the trimmed text.
  lemma PrintedIs(q: Question, d: Draft, chosen: string)
    ensures var text := if chosen == OTHER_VALUE then Trim(d.otherText) else chosen;
      && (!q.multiSelect ==> Printed(q, Draft([], d.otherText)) == "" && Printed(q, Draft([chosen] + d.selected, d.otherText)) == text)
      && (q.multiSelect ==>
            Printed(q, Draft(d.selected + [chosen], d.otherText)) ==
            if d.selected == [] then text else Printed(q, d) + ", " + text)
  {
    var text := if chosen == OTHER_VALUE then Trim(d.otherText) else chosen;
    assert Parts(Draft(d.selected + [chosen], d.otherText)) == Parts(d) + [text];
    if d.selected != [] { JoinSnoc(Parts(d), text, ", "); }
  }

  // The tokens of a draft: every "other" stands for the tokens typed for it.
  function Expand(selected: seq<string>, typed: seq<string>): seq<string> {
    if selected == [] then []
    else (if selected[0] == OTHER_VALUE then typed else [selected[0]]) + Expand(selected[1..], typed)
  }

  lemma {:induction false} TokensOfParts(d: Draft)
    requires forall t :: t in d.selected && t != OTHER_VALUE ==> IsToken(t)
    ensures AllTokens(Parts(d)) == Expand(d.selected, Tokens(d.otherText))
    decreases |d.selected|
  {
    if d.selected != [] {
      var rest := Draft(d.selected[1..], d.otherText);
      TokensOfParts(rest);
      assert Parts(d)[1..] == Parts(rest);
      if d.selected[0] == OTHER_VALUE {
        TokensOfTrim(d.otherText);
      } else {
        TokenIsItself(d.selected[0]);
      }
    }
  }

  lemma TokensOfPrinted(q: Question, d: Draft)
    requires q.multiSelect
    requires forall t :: t in d.selected && t != OTHER_VALUE ==> IsToken(t)
    ensures Tokens(Printed(q, d)) == Expand(d.selected, Tokens(d.otherText))
  {
    TokensOfJoin(Parts(d));
    TokensOfParts(d);
  }

  lemma {:induction false} ExpandAppend(a: seq<string>, b: seq<string>, typed: seq<string>)
    ensures Expand(a + b, typed) == Expand(a, typed) + Expand(b, typed)
  {
    if a == [] {
      assert a + b == b;
    } else {
      ExpandAppend(a[1..], b, typed);
      assert (a + b)[0] == a[0] && (a + b)[1..] == a[1..] + b;
      var first := if a[0] == OTHER_VALUE then typed else [a[0]];
      assert first + (Expand(a[1..], typed) + Expand(b, typed)) == (first + Expand(a[1..], typed)) + Expand(b, typed);
    }
  }

  lemma {:induction false} ExpandPlain(selected: seq<string>, typed: seq<string>)
    requires OTHER_VALUE !in selected
    ensures Expand(selected, typed) == selected
  {
    if selected != [] { ExpandPlain(selected[1..], typed); }
  }

  lemma ExpandOther(typed: seq<string>)
    ensures Expand([OTHER_VALUE], typed) == typed
  {
    assert [OTHER_VALUE][1..] == [];
  }

  // Without anything typed the "other"s vanish.
  lemma {:induction false} ExpandNothing(selected: seq<string>)
    ensures forall t :: t in Expand(selected, []) <==> t in selected && t != OTHER_VALUE
  {
    if selected != [] {
      ExpandNothing(selected[1..]);
      assert selected == [selected[0]] + selected[1..];
    }
  }

  lemma {:induction false} ExpandHoldsTyped(labels: seq<string>, selected: seq<string>, typed: seq<string>)
    requires OTHER_VALUE in selected && forall t :: t in typed ==> t !in labels
    ensures |Others(labels, Expand(selected, typed))| >= |typed|
  {
    var rest := Expand(selected[1..], typed);
    if selected[0] == OTHER_VALUE {
      OthersAppend(labels, typed, rest);
      NoneChosen(labels, typed);
    } else {
      OthersAppend(labels, [selected[0]], rest);
      assert OTHER_VALUE in selected[1..];
      ExpandHoldsTyped(labels, selected[1..], typed);
    }
  }

  // ---------- parse, print, parse ----------

  // Without the marker among the labels that were named, printing keeps the tokens: labels first, then the rest.
  lemma PrintedTokens(q: Question, ts: seq<string>)
    requires q.multiSelect && (forall t :: t in ts ==> IsToken(t)) && OTHER_VALUE !in Chosen(q.labels, ts)
    ensures Tokens(Printed(q, DraftOf(q.labels, ts))) == Chosen(q.labels, ts) + Others(q.labels, ts)
  {
    var d, x, y := DraftOf(q.labels, ts), Chosen(q.labels, ts), Others(q.labels, ts);
    PartitionIs(q.labels, ts);
    TokensOfJoinedTokens(y);
    TokensOfPrinted(q, d);
    ExpandPlain(x, y);
    if y == [] {
      assert d.selected == x && x + y == x;
    } else {
      ExpandAppend(x, [OTHER_VALUE], y);
      ExpandOther(y);
    }
  }

  lemma Repartition(labels: seq<string>, x: seq<string>, y: seq<string>)
    requires forall i :: 0 <= i < |x| ==> x[i] in labels
    requires forall i :: 0 <= i < |y| ==> y[i] !in labels
    ensures Chosen(labels, x + y) == x && Others(labels, x + y) == y
  {
    ChosenAppend(labels, x, y);
    OthersAppend(labels, x, y);
    AllChosen(labels, x);
    NoneChosen(labels, y);
  }

  lemma MultiStable(q: Question, ts: seq<string>)
    requires q.multiSelect && (forall t :: t in ts ==> IsToken(t)) && !(OTHER_VALUE in q.labels && OTHER_VALUE in ts)
    ensures Parsed(q, Printed(q, DraftOf(q.labels, ts))) == DraftOf(q.labels, ts)
  {
    assert OTHER_VALUE !in Chosen(q.labels, ts) by { PartitionIs(q.labels, ts); }
    PrintedTokens(q, ts);
    PartsAre(q.labels, ts);
    Repartition(q.labels, Chosen(q.labels, ts), Others(q.labels, ts));
  }

  // The marker was named and nothing else was left over: it is printed as nothing and lost.
  lemma MarkerIsLost(q: Question, ts: seq<string>)
    requires q.multiSelect && (forall t :: t in ts ==> IsToken(t))
    requires OTHER_VALUE in Chosen(q.labels, ts) && Others(q.labels, ts) == []
    ensures OTHER_VALUE in DraftOf(q.labels, ts).selected
    ensures OTHER_VALUE !in Parsed(q, Printed(q, DraftOf(q.labels, ts))).selected
  {
    var d, x := DraftOf(q.labels, ts), Chosen(q.labels, ts);
    PartitionIs(q.labels, ts);
    assert d.selected == x;
    CleanOne("");
    TokensOfPrinted(q, d);
    ExpandNothing(x);
    var us := Tokens(Printed(q, d));
    PartitionIs(q.labels, us);
    assert Others(q.labels, us) == [] by {
      forall i | 0 <= i < |us| ensures us[i] in q.labels { assert us[i] in x; }
      AllChosen(q.labels, us);
    }
  }

  // Something else was left over: it is printed for the marker too, and so comes back twice.
  lemma OthersComeTwice(q: Question, ts: seq<string>)
    requires q.multiSelect && (forall t :: t in ts ==> IsToken(t))
    requires OTHER_VALUE in Chosen(q.labels, ts) && Others(q.labels, ts) != []
    ensures |Others(q.labels, Tokens(Printed(q, DraftOf(q.labels, ts))))| >= 2 * |Others(q.labels, ts)|
    ensures Tokens(DraftOf(q.labels, ts).otherText) == Others(q.labels, ts)
  {
    var d, x, y := DraftOf(q.labels, ts), Chosen(q.labels, ts), Others(q.labels, ts);
    PartitionIs(q.labels, ts);
    TokensOfJoinedTokens(y);
    TokensOfPrinted(q, d);
    ExpandAppend(x, [OTHER_VALUE], y);
    ExpandOther(y);
    OthersAppend(q.labels, Expand(x, y), y);
    PartsAre(q.labels, ts);
    NoneChosen(q.labels, y);
    ExpandHoldsTyped(q.labels, x, y);
  }

  lemma MultiUnstable(q: Question, ts: seq<string>)
    requires q.multiSelect && (forall t :: t in ts ==> IsToken(t)) && OTHER_VALUE in q.labels && OTHER_VALUE in ts
    ensures Parsed(q, Printed(q, DraftOf(q.labels, ts))) != DraftOf(q.labels, ts)
  {
    assert OTHER_VALUE in Chosen(q.labels, ts) by { PartitionIs(q.labels, ts); }
    if Others(q.labels, ts) == [] {
      MarkerIsLost(q, ts);
    } else {
      OthersComeTwice(q, ts);
      OtherTokensAgain(q, Printed(q, DraftOf(q.labels, ts)));
    }
  }

  lemma OtherTokensAgain(q: Question, a: string)
    requires q.multiSelect
    ensures Tokens(Parsed(q, a).otherText) == Others(q.labels, Tokens(a))
  {
    TokensAreTokens(a);
    PartitionIs(q.labels, Tokens(a));
    TokensOfJoinedTokens(Others(q.labels, Tokens(a)));
  }

  lemma SingleRoundTrip(q: Question, a: string)
    requires !q.multiSelect
    ensures Parsed(q, Printed(q, Parsed(q, a))) == Parsed(q, a) <==>
            !(OTHER_VALUE in q.labels && OTHER_VALUE in AnswerTokens(q, a))
  {
    var t := Trim(a);
    TrimTrims(a);
    TrimIsStable(t);
    if t != "" {
      SingleDraft(q.labels, t);
      assert Parts(Parsed(q, a))[0] == if t == OTHER_VALUE && t in q.labels then Trim("") else t;
      assert Trim("") == "";
    }
  }

  // Parsing is stable under printing and parsing again, for every answer but one that names an option which is
  // spelled like the marker for "other".
  lemma AnswersRoundTrip(q: Question, a: string)
    ensures Parsed(q, Printed(q, Parsed(q, a))) == Parsed(q, a) <==>
            !(OTHER_VALUE in q.labels && OTHER_VALUE in AnswerTokens(q, a))
  {
    if q.multiSelect {
      TokensAreTokens(a);
      if OTHER_VALUE in q.labels && OTHER_VALUE in Tokens(a) {
        MultiUnstable(q, Tokens(a));
      } else {
        MultiStable(q, Tokens(a));
      }
    } else {
      SingleRoundTrip(q, a);
    }
  }

  // A parsed answer counts as answered if it has a token, unless an option spelled like the marker was named
  // and nothing else was.
  lemma ParsedIsAnswered(q: Question, a: string)
    ensures var ts := AnswerTokens(q, a);
      IsQuestionAnswered(Parsed(q, a)) <==>
        ts != [] && (OTHER_VALUE in q.labels && OTHER_VALUE in ts ==> Others(q.labels, ts) != [])
  {
    var ts := AnswerTokens(q, a);
    var y := Others(q.labels, ts);
    PartitionIs(q.labels, ts);
    if q.multiSelect {
      TokensAreTokens(a);
      TokensOfJoinedTokens(y);
      TokensOfTrim(Join(y, ", "));
    } else if ts != [] {
      SingleDraft(q.labels, ts[0]);
      TrimTrims(a);
      TrimIsStable(ts[0]);
      assert [ts[0]][..0] == [];
    }
    assert Trim("") == "";
  }

  // ---------- edits ----------

  datatype Edit = Toggle(chosen: string) | Type(text: string)

  function Remove(s: seq<string>, x: string): seq<string> {
    if s == [] then [] else (if s[0] == x then [] else [s[0]]) + Remove(s[1..], x)
  }

  function ToggleSelection(q: Question, current: Option<Draft>, chosen: string): Draft {
    var draft := current.GetOr(NO_ANSWER);
    if !q.multiSelect then Draft([chosen], if chosen == OTHER_VALUE then draft.otherText else "")
    else
      var before := Firsts(draft.selected);
      var selected := if chosen in before then Remove(before, chosen) else before + [chosen];
      Draft(selected, if OTHER_VALUE in selected then draft.otherText else "")
  }

  function UpdateOtherText(current: Option<Draft>, text: string): Draft {
    var draft := current.GetOr(Draft([OTHER_VALUE], ""));
    Draft(if OTHER_VALUE in draft.selected then draft.selected else draft.selected + [OTHER_VALUE], text)
  }

  function Edited(q: Question, current: Option<Draft>, edits: seq<Edit>): Option<Draft>
    decreases |edits|
  {
    if edits == [] then current
    else Edited(q, Some(match edits[0]
                        case Toggle(chosen) => ToggleSelection(q, current, chosen)
                        case Type(text) => UpdateOtherText(current, text)), edits[1..])
  }

  predicate OtherIsSelected(d: Draft) {
    d.otherText != "" ==> OTHER_VALUE in d.selected
  }

  lemma ParsedSelectsOther(q: Question, a: string)
    ensures OtherIsSelected(Parsed(q, a))
  {
  }

  lemma {:induction false} EditsSelectOther(q: Question, current: Option<Draft>, edits: seq<Edit>)
    requires current.Some? ==> OtherIsSelected(current.value)
    ensures var d := Edited(q, current, edits); d.Some? ==> OtherIsSelected(d.value)
    decreases |edits|
  {
    if edits != [] {
      EditsSelectOther(q, Some(match edits[0]
                               case Toggle(chosen) => ToggleSelection(q, current, chosen)
                               case Type(text) => UpdateOtherText(current, text)), edits[1..]);
    }
  }

  // No draft that is reached from an answer, or from nothing, by any edits holds text without "other".
  lemma ReachableDraftsSelectOther(q: Question, answer: Option<string>, edits: seq<Edit>)
    ensures var d := Edited(q, Some(if answer.Some? then Parsed(q, answer.value) else NO_ANSWER), edits);
      d.Some? ==> OtherIsSelected(d.value)
  {
    if answer.Some? { ParsedSelectsOther(q, answer.value); }
    EditsSelectOther(q, Some(if answer.Some? then Parsed(q, answer.value) else NO_ANSWER), edits);
  }

  lemma {:induction false} RemoveIs(s: seq<string>, x: string)
    requires Distinct(s)
    ensures forall t :: t in Remove(s, x) <==> t in s && t != x
    ensures Distinct(Remove(s, x))
  {
    if s != [] {
      assert Distinct(s[1..]);
      RemoveIs(s[1..], x);
      assert s == [s[0]] + s[1..];
      assert s[0] !in s[1..];
    }
  }

  // A toggle changes the membership of its own label and of no other, and leaves no duplicates.
  lemma ToggleFlips(q: Question, d: Draft, chosen: string)
    requires q.multiSelect
    ensures var r := ToggleSelection(q, Some(d), chosen).selected;
      && (forall t :: t in r <==> (t in d.selected) != (t == chosen))
      && Distinct(r)
  {
    FirstsIs(d.selected);
    RemoveIs(Firsts(d.selected), chosen);
  }

  lemma {:induction false} RemoveCuts(s: seq<string>, i: nat)
    requires Distinct(s) && i < |s|
    ensures Remove(s, s[i]) == s[..i] + s[i + 1..]
  {
    if i == 0 {
      assert s[0] !in s[1..];
      RemoveNothing(s[1..], s[0]);
    } else {
      assert Distinct(s[1..]) && s[1..][i - 1] == s[i];
      RemoveCuts(s[1..], i - 1);
      assert s[1..][..i - 1] == s[1..i] && s[1..][i..] == s[i + 1..];
      assert s[..i] == [s[0]] + s[1..i];
    }
  }

  lemma {:induction false} RemoveNothing(s: seq<string>, x: string)
    requires x !in s
    ensures Remove(s, x) == s
  {
    if s != [] { RemoveNothing(s[1..], x); }
  }

  // Without a draft a toggle makes the choice.
  lemma FirstToggleIs(q: Question, chosen: string)
    ensures ToggleSelection(q, None, chosen) == Draft([chosen], "")
  {
  }

  // A toggle of one choice replaces it. Of several it cuts the label out where it is, or puts it last, and the text is
  // kept exactly while "other" is selected.
  lemma ToggleIs(q: Question, d: Draft, chosen: string)
    ensures var r := ToggleSelection(q, Some(d), chosen); var before := Firsts(d.selected);
      && (!q.multiSelect ==> r == Draft([chosen], if chosen == OTHER_VALUE then d.otherText else ""))
      && (q.multiSelect ==> r.otherText == if OTHER_VALUE in r.selected then d.otherText else "")
      && (q.multiSelect && chosen !in d.selected ==> r.selected == before + [chosen])
      && (q.multiSelect && chosen in d.selected ==>
            exists i :: 0 <= i < |before| && before[i] == chosen && r.selected == before[..i] + before[i + 1..])
  {
    if q.multiSelect {
      FirstsIs(d.selected);
      if chosen in d.selected {
        CutOut(Firsts(d.selected), chosen);
        assert ToggleSelection(q, Some(d), chosen).selected == Remove(Firsts(d.selected), chosen);
      }
    }
  }

  lemma CutOut(s: seq<string>, x: string)
    requires Distinct(s) && x in s
    ensures exists i :: 0 <= i < |s| && s[i] == x && Remove(s, x) == s[..i] + s[i + 1..]
  {
    var i :| 0 <= i < |s| && s[i] == x;
    RemoveCuts(s, i);
  }

  // Typing sets the text and selects "other", last if it was not selected, and changes no other choice.
  lemma TypingIs(d: Draft, text: string)
    ensures var r := UpdateOtherText(Some(d), text);
      && r.otherText == text
      && r.selected == if OTHER_VALUE in d.selected then d.selected else d.selected + [OTHER_VALUE]
    ensures UpdateOtherText(None, text) == Draft([OTHER_VALUE], text)
  {
  }

  // Text typed for a single choice is the answer only if "other" was the first choice; otherwise the label stays
  // the answer.
  lemma TypingOverAChoice(q: Question, d: Draft, text: string)
    requires !q.multiSelect
    ensures Printed(q, UpdateOtherText(Some(d), text)) ==
            if d.selected == [] || d.selected[0] == OTHER_VALUE then Trim(text) else d.selected[0]
  {
  }
}
