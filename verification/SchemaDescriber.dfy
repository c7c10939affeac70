/** The description of an input schema in the command line's help: a text of one line, or of several with the
    nested ones indented. */
module SchemaDescriber {
  import opened Wrappers
  import opened Text

  datatype Wrap = Optional | Nullable | Default

  /** What the describer can tell apart. Texts of literals and enum entries are their JSON. A schema that lacks
      its options, shape, element or entries is `Plain` with the name of its type. */
  datatype Schema =
    | NotASchema
    | Wrapper(wrap: Wrap, inner: Schema)
    | EmptyWrapper(wrap: Wrap)
    | Plain(name: string)
    | Literal(text: Option<string>)
    | Enumeration(texts: seq<string>)
    | ArrayOf(element: Schema)
    | Union(options: seq<Schema>, discriminator: Option<string>)
    | Object(shape: seq<Field>)

  datatype Field = Field(key: string, schema: Schema)

  // ---------- the code ----------

  function Unwrap(s: Schema): (r: Schema)
    ensures r == s || r < s
    ensures !r.Wrapper?
  {
    if s.Wrapper? then Unwrap(s.inner) else s
  }

  method UnwrapSchema(schema: Schema) returns (current: Schema)
    ensures current == Unwrap(schema)
  {
    current := schema;
    while current.Wrapper?
      invariant Unwrap(current) == Unwrap(schema)
      decreases current
    {
      current := current.inner;
    }
  }

  predicate IsOptionalField(s: Schema) {
    (s.Wrapper? || s.EmptyWrapper?) && (s.wrap.Optional? || s.wrap.Default?)
  }

  function FieldOf(shape: seq<Field>, name: string): Option<Schema> {
    if shape == [] then None else if shape[0].key == name then Some(shape[0].schema) else FieldOf(shape[1..], name)
  }

  predicate HasLiteral(option: Schema, name: string) {
    option.Object? && FieldOf(option.shape, name).Some? && FieldOf(option.shape, name).value.Literal?
  }

  const COMMON_FIELDS := ["type", "kind", "tag", "variant"]

  // The first common field that is a literal in every option.
  function DetectFrom(options: seq<Schema>, names: seq<string>): Option<string> {
    if names == [] then None
    else if forall i :: 0 <= i < |options| ==> HasLiteral(options[i], names[0]) then Some(names[0])
    else DetectFrom(options, names[1..])
  }

  method DetectCommonDiscriminator(options: seq<Schema>) returns (name: Option<string>)
    ensures name == DetectFrom(options, COMMON_FIELDS)
  {
    for f := 0 to |COMMON_FIELDS|
      invariant DetectFrom(options, COMMON_FIELDS[f..]) == DetectFrom(options, COMMON_FIELDS)
    {
      var allHaveLiteral := true;
      for i := 0 to |options|
        invariant allHaveLiteral
        invariant forall j :: 0 <= j < i ==> HasLiteral(options[j], COMMON_FIELDS[f])
      {
        if !HasLiteral(options[i], COMMON_FIELDS[f]) {
          allHaveLiteral := false;
          break;
        }
      }
      if allHaveLiteral { return Some(COMMON_FIELDS[f]); }
    }
    name := None;
  }

  function Decimal(n: nat): string {
    if n < 10 then [('0' as int + n) as char] else Decimal(n / 10) + Decimal(n % 10)
  }

  function Spaces(n: nat): string {
    seq(n, _ => ' ')
  }

  function LabelOf(option: Schema, i: nat, discriminator: Option<string>): string {
    if discriminator.Some? && discriminator.value != "" && HasLiteral(option, discriminator.value)
      && FieldOf(option.shape, discriminator.value).value.text.Some?
    then discriminator.value + "=" + FieldOf(option.shape, discriminator.value).value.text.value
    else "Variant " + Decimal(i + 1)
  }

  function VariantLine(option: Schema, i: nat, discriminator: Option<string>, desc: string, width: nat): string {
    var head := Spaces(width) + LabelOf(option, i, discriminator);
    if desc[..if desc == "" then 0 else 1] == "\n" then head + ":" + desc else head + ": " + desc
  }

  // The lines of the variants that have a description.
  function VariantLines(options: seq<Schema>, i: nat, discriminator: Option<string>, descs: seq<string>, width: nat): seq<string>
    requires |options| == |descs|
  {
    if options == [] then []
    else
      var rest := VariantLines(options[1..], i + 1, discriminator, descs[1..], width);
      if descs[0] == "" then rest else [VariantLine(options[0], i, discriminator, descs[0], width)] + rest
  }

  predicate Primitive(descs: seq<string>) {
    forall i :: 0 <= i < |descs| ==> '\n' !in descs[i]
  }

  function Describe(s: Schema, indent: nat): string
    decreases s, 2
  {
    DescribeUnwrapped(Unwrap(s), indent)
  }

  function DescribeUnwrapped(u: Schema, indent: nat): string
    requires !u.Wrapper?
    decreases u, 1
  {
    match u
    case NotASchema => "unknown"
    case EmptyWrapper(_) => "unknown"
    case Plain(name) => name
    case Literal(text) => text.GetOr("literal")
    case Enumeration(texts) => Join(texts, "|")
    case ArrayOf(element) =>
      if element.NotASchema? then "array"
      else
        var e := Unwrap(element);
        if e.Object? then "Array of:\n" + Join(FieldLines(e.shape, indent + 1), "\n")
        else if e.Union? && StartsWith(DescribeUnwrapped(e, indent), "One of:") then "Array of " + DescribeUnwrapped(e, indent)
        else DescribeUnwrapped(e, indent) + "[]"
    case Union(options, discriminator) =>
      var descs := DescribeAll(options, indent);
      if descs == [] then "union"
      else if Primitive(descs) then Join(descs, "|")
      else
        var d := if discriminator.Some? then discriminator else DetectFrom(options, COMMON_FIELDS);
        "One of:\n" + Join(VariantLines(options, 0, d, descs, 4 * (indent + 1)), "\n")
    case Object(shape) => "\n" + Join(FieldLines(shape, indent + 1), "\n")
  }

  function DescribeAll(options: seq<Schema>, indent: nat): (r: seq<string>)
    ensures |r| == |options|
    decreases options, 0
  {
    if options == [] then [] else [Describe(options[0], indent)] + DescribeAll(options[1..], indent)
  }

  predicate StartsWith(s: string, p: string) {
    |p| <= |s| && s[..|p|] == p
  }

  // One field: its key, a mark if it is optional, and its type on the same line or below.
  function FieldLine(key: string, field: Schema, desc: string, indent: nat): string {
    var head := Spaces(4 * indent) + "- " + key + (if IsOptionalField(field) then "?" else "") + ":";
    if desc == "" then head + " unknown" else if desc[0] == '\n' then head + desc else head + " " + desc
  }

  // Nothing for a field that is no schema.
  function FieldText(field: Field, indent: nat): seq<string>
    decreases field, 3
  {
    if field.schema.NotASchema? then []
    else [FieldLine(field.key, field.schema, Describe(field.schema, indent), indent)]
  }

  function FieldLines(shape: seq<Field>, indent: nat): seq<string>
    decreases shape, 0
  {
    if shape == [] then [] else FieldLines(shape[..|shape| - 1], indent) + FieldText(shape[|shape| - 1], indent)
  }

  method DescribeObjectFieldsHierarchical(shape: seq<Field>, indent: nat) returns (text: string)
    ensures text == Join(FieldLines(shape, indent), "\n")
  {
    var lines := [];
    for i := 0 to |shape|
      invariant lines == FieldLines(shape[..i], indent)
    {
      assert shape[..i + 1][..i] == shape[..i];
      lines := lines + FieldText(shape[i], indent);
    }
    assert shape[..|shape|] == shape;
    text := Join(lines, "\n");
  }

  // ---------- indentation ----------

  // Every line after the first is empty or starts with at least `width` spaces.
  predicate Indented(s: string, width: nat) {
    forall i :: 0 <= i < |s| && s[i] == '\n' ==> LineAt(s, i + 1, width)
  }

  // What follows is the end, an empty line, or `width` spaces.
  predicate LineAt(s: string, at: nat, width: nat) {
    at >= |s| || s[at] == '\n' || (at + width <= |s| && forall k :: at <= k < at + width ==> s[k] == ' ')
  }

  predicate OneLine(s: string) {
    '\n' !in s
  }

  lemma OneLineIndented(s: string, width: nat)
    requires OneLine(s)
    ensures Indented(s, width)
  {
  }

  lemma IndentedLess(s: string, width: nat, less: nat)
    requires Indented(s, width) && less <= width
    ensures Indented(s, less)
  {
    forall i | 0 <= i < |s| && s[i] == '\n' ensures LineAt(s, i + 1, less) { assert LineAt(s, i + 1, width); }
  }

  // Two indented texts in a row, if the first does not stop at a line start or the second starts like a line.
  lemma IndentedAppend(a: string, b: string, width: nat)
    requires Indented(a, width) && Indented(b, width)
    requires a == "" || a[|a| - 1] != '\n' || LineAt(b, 0, width)
    ensures Indented(a + b, width)
  {
    var s := a + b;
    forall i | 0 <= i < |s| && s[i] == '\n' ensures LineAt(s, i + 1, width) {
      if i < |a| {
        assert a[i] == '\n' && LineAt(a, i + 1, width);
      } else {
        assert b[i - |a|] == '\n' && LineAt(b, i - |a| + 1, width);
      }
    }
  }

  // Lines that start with their indentation.
  predicate Whole(line: string, width: nat) {
    Indented(line, width) && LineAt(line, 0, width)
  }

  predicate AllWhole(lines: seq<string>, width: nat) {
    forall i :: 0 <= i < |lines| ==> Whole(lines[i], width)
  }

  lemma {:induction false} IndentedJoin(lines: seq<string>, width: nat)
    requires AllWhole(lines, width)
    ensures Indented(Join(lines, "\n"), width) && LineAt(Join(lines, "\n"), 0, width)
  {
    if |lines| > 1 {
      var rest := Join(lines[1..], "\n");
      assert Whole(lines[0], width);
      IndentedJoin(lines[1..], width);
      IndentedAppend("\n", rest, width);
      IndentedAppend(lines[0], "\n" + rest, width);
      assert lines[0] + "\n" + rest == lines[0] + ("\n" + rest);
    }
  }

  lemma {:induction false} OneLineJoin(parts: seq<string>, sep: string)
    requires OneLine(sep) && forall i :: 0 <= i < |parts| ==> OneLine(parts[i])
    ensures OneLine(Join(parts, sep))
  {
    if |parts| > 1 { OneLineJoin(parts[1..], sep); }
  }

  // No name, key or literal has a newline in it.
  predicate Clean(s: Schema) {
    match s
    case NotASchema => true
    case Wrapper(_, inner) => Clean(inner)
    case EmptyWrapper(_) => true
    case Plain(name) => OneLine(name)
    case Literal(text) => OneLine(text.GetOr(""))
    case Enumeration(texts) => forall i :: 0 <= i < |texts| ==> OneLine(texts[i])
    case ArrayOf(element) => Clean(element)
    case Union(options, discriminator) => OneLine(discriminator.GetOr("")) && AllClean(options)
    case Object(shape) => FieldsClean(shape)
  }

  predicate AllClean(options: seq<Schema>) {
    options == [] || (Clean(options[0]) && AllClean(options[1..]))
  }

  predicate FieldsClean(shape: seq<Field>) {
    shape == []
    || (FieldsClean(shape[..|shape| - 1]) && OneLine(shape[|shape| - 1].key) && Clean(shape[|shape| - 1].schema))
  }

  lemma {:induction false} FieldOfClean(shape: seq<Field>, name: string)
    requires FieldsClean(shape) && FieldOf(shape, name).Some?
    ensures Clean(FieldOf(shape, name).value)
    decreases |shape|
  {
    FieldIsClean(shape, 0);
    if shape[0].key != name {
      TailIsClean(shape);
      FieldOfClean(shape[1..], name);
    }
  }

  lemma {:induction false} FieldIsClean(shape: seq<Field>, i: nat)
    requires FieldsClean(shape) && i < |shape|
    ensures OneLine(shape[i].key) && Clean(shape[i].schema)
    decreases |shape|
  {
    if i < |shape| - 1 { FieldIsClean(shape[..|shape| - 1], i); }
  }

  lemma {:induction false} TailIsClean(shape: seq<Field>)
    requires FieldsClean(shape) && shape != []
    ensures FieldsClean(shape[1..])
    decreases |shape|
  {
    if |shape| > 1 {
      TailIsClean(shape[..|shape| - 1]);
      assert shape[1..][..|shape| - 2] == shape[..|shape| - 1][1..];
    }
  }

  lemma {:induction false} UnwrapClean(s: Schema)
    requires Clean(s)
    ensures Clean(Unwrap(s))
  {
    if s.Wrapper? { UnwrapClean(s.inner); }
  }

  lemma {:induction false} DecimalOneLine(n: nat)
    ensures OneLine(Decimal(n))
  {
    if n >= 10 {
      DecimalOneLine(n / 10);
      DecimalOneLine(n % 10);
    }
  }

  lemma LabelOneLine(option: Schema, i: nat, discriminator: Option<string>)
    requires Clean(option) && OneLine(discriminator.GetOr(""))
    ensures OneLine(LabelOf(option, i, discriminator)) && LabelOf(option, i, discriminator) != ""
  {
    DecimalOneLine(i + 1);
    if discriminator.Some? && HasLiteral(option, discriminator.value) { FieldOfClean(option.shape, discriminator.value); }
  }

  // A head that starts with its indentation, then a description on the same line or below.
  lemma HeadThenDesc(head: string, desc: string, width: nat)
    requires OneLine(head) && LineAt(head, 0, width) && head != "" && Indented(desc, width)
    ensures Whole(head + desc, width)
  {
    OneLineIndented(head, width);
    IndentedAppend(head, desc, width);
  }

  lemma SpacesThen(width: nat, rest: string)
    requires OneLine(rest) && rest != ""
    ensures OneLine(Spaces(width) + rest) && LineAt(Spaces(width) + rest, 0, width)
  {
  }

  lemma VariantIndented(option: Schema, i: nat, discriminator: Option<string>, desc: string, width: nat)
    requires Clean(option) && OneLine(discriminator.GetOr("")) && Indented(desc, width)
    ensures Whole(VariantLine(option, i, discriminator, desc, width), width)
  {
    var text := LabelOf(option, i, discriminator);
    LabelOneLine(option, i, discriminator);
    SpacesThen(width, text + ":");
    SpacesThen(width, text + ": ");
    assert Spaces(width) + (text + ":") == Spaces(width) + text + ":";
    assert Spaces(width) + (text + ": ") == Spaces(width) + text + ": ";
    HeadThenDesc(Spaces(width) + text + ":", desc, width);
    HeadThenDesc(Spaces(width) + text + ": ", desc, width);
  }

  lemma {:induction false} VariantsIndented(options: seq<Schema>, i: nat, discriminator: Option<string>, descs: seq<string>, width: nat)
    requires |options| == |descs| && AllClean(options) && OneLine(discriminator.GetOr(""))
    requires forall j :: 0 <= j < |descs| ==> Indented(descs[j], width)
    ensures AllWhole(VariantLines(options, i, discriminator, descs, width), width)
    decreases |options|
  {
    if options != [] {
      VariantsIndented(options[1..], i + 1, discriminator, descs[1..], width);
      VariantIndented(options[0], i, discriminator, descs[0], width);
    }
  }

  lemma FieldIndented(key: string, field: Schema, desc: string, indent: nat)
    requires OneLine(key) && Indented(desc, 4 * indent)
    ensures Whole(FieldLine(key, field, desc, indent), 4 * indent)
  {
    var rest := "- " + key + (if IsOptionalField(field) then "?" else "") + ":";
    var head := Spaces(4 * indent) + rest;
    assert head == Spaces(4 * indent) + "- " + key + (if IsOptionalField(field) then "?" else "") + ":";
    SpacesThen(4 * indent, rest);
    SpacesThen(4 * indent, rest + " ");
    SpacesThen(4 * indent, rest + " unknown");
    assert Spaces(4 * indent) + (rest + " ") == head + " " && Spaces(4 * indent) + (rest + " unknown") == head + " unknown";
    OneLineIndented(head + " unknown", 4 * indent);
    HeadThenDesc(head, desc, 4 * indent);
    HeadThenDesc(head + " ", desc, 4 * indent);
  }

  lemma DetectedOneLine(options: seq<Schema>, names: seq<string>)
    requires forall i :: 0 <= i < |names| ==> OneLine(names[i])
    ensures OneLine(DetectFrom(options, names).GetOr(""))
  {
  }

  // ---------- how a description ends ----------

  // The description is empty.
  predicate Blank(s: Schema) {
    match s
    case Wrapper(_, inner) => Blank(inner)
    case Plain(name) => name == ""
    case Literal(text) => text == Some("")
    case Enumeration(texts) => texts == [] || texts == [""]
    case Union(options, _) => |options| == 1 && Blank(options[0])
    case _ => false
  }

  predicate AllBlank(options: seq<Schema>) {
    forall i :: 0 <= i < |options| ==> Blank(options[i])
  }

  // The description stops at the start of a line: an object without fields does, and what has such a description
  // in its last line does.
  predicate EndsOpen(s: Schema) {
    match s
    case Wrapper(_, inner) => EndsOpen(inner)
    case ArrayOf(element) => var e := Unwrap(element); (e.Object? || e.Union?) && EndsOpen(e)
    case Union(options, _) => LastEndsOpen(options)
    case Object(shape) => ShapeEndsOpen(shape)
    case _ => false
  }

  // The last option with a description does.
  predicate LastEndsOpen(options: seq<Schema>) {
    options != [] && (LastEndsOpen(options[1..]) || (AllBlank(options[1..]) && EndsOpen(options[0])))
  }

  // The last field that is a schema does, or there is none.
  predicate ShapeEndsOpen(shape: seq<Field>) {
    if shape == [] then true
    else if shape[|shape| - 1].schema.NotASchema? then ShapeEndsOpen(shape[..|shape| - 1])
    else EndsOpen(shape[|shape| - 1].schema)
  }

  // What can be seen of a schema is what its description does.
  lemma {:induction false} EndsIff(s: Schema, indent: nat)
    requires Clean(s)
    ensures EndsLine(Describe(s, indent)) <==> EndsOpen(s)
    ensures Describe(s, indent) == "" <==> Blank(s)
    decreases s, 1
  {
    match s
    case Wrapper(_, inner) => EndsIff(inner, indent);
    case Enumeration(texts) =>
      OneLineJoin(texts, "|");
      BlankJoin(texts);
    case ArrayOf(element) =>
      if !element.NotASchema? {
        UnwrapClean(element);
        var e := Unwrap(element);
        EndsIff(e, indent);
        if e.Object? { ShapeEnds(e.shape, indent + 1, "Array of:\n"); }
        if e.Union? && EndsOpen(e) { UnionStart(e, indent); }
      }
    case Union(options, discriminator) =>
      AllEnd(options, indent);
      UnionEnds(options, discriminator, DescribeAll(options, indent), 4 * (indent + 1));
    case Object(shape) => ShapeEnds(shape, indent + 1, "\n");
    case _ =>
  }

  lemma {:induction false} AllEnd(options: seq<Schema>, indent: nat)
    requires AllClean(options)
    ensures EndLike(options, DescribeAll(options, indent))
    decreases options, 0
  {
    if options != [] {
      EndsIff(options[0], indent);
      AllEnd(options[1..], indent);
    }
  }

  predicate EndLike(options: seq<Schema>, descs: seq<string>) {
    && |options| == |descs|
    && forall j :: 0 <= j < |descs| ==> (EndsLine(descs[j]) <==> EndsOpen(options[j])) && (descs[j] == "" <==> Blank(options[j]))
  }

  lemma BlankJoin(parts: seq<string>)
    ensures Join(parts, "|") == "" <==> parts == [] || parts == [""]
  {
  }

  // A text ends where the last of its lines does.
  lemma {:induction false} JoinEnds(lines: seq<string>, sep: string)
    requires lines != [] && lines[|lines| - 1] != ""
    ensures Join(lines, sep) != "" && (EndsLine(Join(lines, sep)) <==> EndsLine(lines[|lines| - 1]))
  {
    if |lines| > 1 {
      JoinEnds(lines[1..], sep);
      EndOfAppend(lines[0] + sep, Join(lines[1..], sep));
    }
  }

  lemma EndOfAppend(a: string, b: string)
    requires b != ""
    ensures EndsLine(a + b) <==> EndsLine(b)
  {
  }

  lemma VariantEnds(option: Schema, i: nat, discriminator: Option<string>, desc: string, width: nat)
    requires desc != ""
    ensures var line := VariantLine(option, i, discriminator, desc, width); line != "" && (EndsLine(line) <==> EndsLine(desc))
  {
    var head := Spaces(width) + LabelOf(option, i, discriminator);
    EndOfAppend(head + ":", desc);
    EndOfAppend(head + ": ", desc);
  }

  // The last of some lines ends open, or there are none.
  predicate EndLikeLast(lines: seq<string>, options: seq<Schema>) {
    if lines == [] then AllBlank(options) && !LastEndsOpen(options)
    else !AllBlank(options) && lines[|lines| - 1] != "" && (EndsLine(lines[|lines| - 1]) <==> LastEndsOpen(options))
  }

  lemma {:induction false} VariantsEnd(options: seq<Schema>, i: nat, discriminator: Option<string>, descs: seq<string>, width: nat)
    requires EndLike(options, descs)
    ensures EndLikeLast(VariantLines(options, i, discriminator, descs, width), options)
    decreases |options|
  {
    if options != [] {
      var rest := VariantLines(options[1..], i + 1, discriminator, descs[1..], width);
      VariantsEnd(options[1..], i + 1, discriminator, descs[1..], width);
      if descs[0] != "" { VariantEnds(options[0], i, discriminator, descs[0], width); }
      EndsBefore(options, descs[0], VariantLine(options[0], i, discriminator, descs[0], width), rest);
    }
  }

  lemma EndsBefore(options: seq<Schema>, desc: string, line: string, rest: seq<string>)
    requires options != [] && EndLikeLast(rest, options[1..])
    requires (EndsLine(desc) <==> EndsOpen(options[0])) && (desc == "" <==> Blank(options[0]))
    requires desc != "" ==> line != "" && (EndsLine(line) <==> EndsLine(desc))
    ensures EndLikeLast(if desc == "" then rest else [line] + rest, options)
  {
    assert AllBlank(options) <==> Blank(options[0]) && AllBlank(options[1..]) by {
      assert options == [options[0]] + options[1..];
    }
  }

  lemma {:induction false} NoneEndsOpen(options: seq<Schema>)
    requires forall i :: 0 <= i < |options| ==> !EndsOpen(options[i])
    ensures !LastEndsOpen(options)
    decreases |options|
  {
    if options != [] { NoneEndsOpen(options[1..]); }
  }

  lemma UnionEnds(options: seq<Schema>, discriminator: Option<string>, descs: seq<string>, width: nat)
    requires EndLike(options, descs)
    ensures Primitive(descs) ==> !LastEndsOpen(options) && !EndsLine(Join(descs, "|"))
    ensures Join(descs, "|") == "" <==> options == [] || (|options| == 1 && Blank(options[0]))
    ensures !Primitive(descs) ==>
      var d := if discriminator.Some? then discriminator else DetectFrom(options, COMMON_FIELDS);
      EndsLine("One of:\n" + Join(VariantLines(options, 0, d, descs, width), "\n")) <==> LastEndsOpen(options)
  {
    BlankJoin(descs);
    if Primitive(descs) {
      PrimitiveEnds(options, descs);
    } else {
      var d := if discriminator.Some? then discriminator else DetectFrom(options, COMMON_FIELDS);
      VariantsEnd(options, 0, d, descs, width);
      NotPrimitiveIsNotBlank(options, descs);
      LinesEnd(VariantLines(options, 0, d, descs, width), "One of:\n");
    }
  }

  lemma PrimitiveEnds(options: seq<Schema>, descs: seq<string>)
    requires EndLike(options, descs) && Primitive(descs)
    ensures !LastEndsOpen(options) && !EndsLine(Join(descs, "|"))
  {
    OneLineJoin(descs, "|");
    NoneEndsOpen(options);
  }

  lemma NotPrimitiveIsNotBlank(options: seq<Schema>, descs: seq<string>)
    requires EndLike(options, descs) && !Primitive(descs)
    ensures !AllBlank(options)
  {
    var j :| 0 <= j < |descs| && '\n' in descs[j];
    assert !Blank(options[j]);
  }

  lemma LinesEnd(lines: seq<string>, head: string)
    requires lines != [] && lines[|lines| - 1] != ""
    ensures EndsLine(head + Join(lines, "\n")) <==> EndsLine(lines[|lines| - 1])
  {
    JoinEnds(lines, "\n");
    EndOfAppend(head, Join(lines, "\n"));
  }

  // A union of several lines says so.
  lemma UnionStart(e: Schema, indent: nat)
    requires e.Union? && EndsLine(DescribeUnwrapped(e, indent))
    ensures StartsWith(DescribeUnwrapped(e, indent), "One of:")
  {
    var descs := DescribeAll(e.options, indent);
    if Primitive(descs) { OneLineJoin(descs, "|"); }
  }

  // An object's text after a head that ends a line.
  lemma {:induction false} ShapeEnds(shape: seq<Field>, indent: nat, head: string)
    requires FieldsClean(shape) && EndsLine(head)
    ensures EndsLine(head + Join(FieldLines(shape, indent), "\n")) <==> ShapeEndsOpen(shape)
    decreases shape, 1
  {
    var ls := FieldLines(shape, indent);
    FieldsEnd(shape, indent);
    if ls != [] { LinesEnd(ls, head); }
  }

  lemma {:induction false} FieldsEnd(shape: seq<Field>, indent: nat)
    requires FieldsClean(shape)
    ensures var ls := FieldLines(shape, indent);
      if ls == [] then ShapeEndsOpen(shape) else ls[|ls| - 1] != "" && (EndsLine(ls[|ls| - 1]) <==> ShapeEndsOpen(shape))
    decreases shape, 0
  {
    if shape != [] {
      var last := shape[|shape| - 1];
      if last.schema.NotASchema? {
        FieldsEnd(shape[..|shape| - 1], indent);
      } else {
        EndsIff(last.schema, indent);
        FieldEnds(last.key, last.schema, Describe(last.schema, indent), indent);
      }
    }
  }

  lemma FieldEnds(key: string, field: Schema, desc: string, indent: nat)
    ensures FieldLine(key, field, desc, indent) != ""
    ensures EndsLine(FieldLine(key, field, desc, indent)) <==> EndsLine(desc)
  {
    var head := Spaces(4 * indent) + "- " + key + (if IsOptionalField(field) then "?" else "") + ":";
    EndOfAppend(head, " unknown");
    if desc != "" {
      EndOfAppend(head, desc);
      EndOfAppend(head + " ", desc);
    }
  }

  // ---------- where the brackets of an array go ----------

  // No array puts its brackets behind an array whose description stops at the start of a line.
  predicate Smooth(s: Schema) {
    match s
    case Wrapper(_, inner) => Smooth(inner)
    case ArrayOf(element) => var e := Unwrap(element); Smooth(e) && (e.ArrayOf? ==> !EndsOpen(e))
    case Union(options, _) => AllSmooth(options)
    case Object(shape) => FieldsSmooth(shape)
    case _ => true
  }

  predicate AllSmooth(options: seq<Schema>) {
    options == [] || (Smooth(options[0]) && AllSmooth(options[1..]))
  }

  predicate FieldsSmooth(shape: seq<Field>) {
    shape == [] || (FieldsSmooth(shape[..|shape| - 1]) && Smooth(shape[|shape| - 1].schema))
  }

  lemma {:induction false} UnwrapSmooth(s: Schema)
    ensures Smooth(Unwrap(s)) <==> Smooth(s)
  {
    if s.Wrapper? { UnwrapSmooth(s.inner); }
  }

  // ---------- smooth descriptions are indented ----------

  lemma {:induction false} DescriptionsAreIndented(s: Schema, indent: nat)
    requires Clean(s) && Smooth(s)
    ensures Indented(Describe(s, indent), 4 * (indent + 1))
    decreases s, 2
  {
    UnwrapClean(s);
    UnwrapSmooth(s);
    UnwrappedIndented(Unwrap(s), indent);
  }

  lemma {:induction false} UnwrappedIndented(u: Schema, indent: nat)
    requires !u.Wrapper? && Clean(u) && Smooth(u)
    ensures Indented(DescribeUnwrapped(u, indent), 4 * (indent + 1))
    decreases u, 1
  {
    var width := 4 * (indent + 1);
    match u
    case NotASchema =>
    case EmptyWrapper(_) =>
    case Plain(_) =>
    case Literal(_) =>
    case Enumeration(texts) =>
      OneLineJoin(texts, "|");
    case ArrayOf(element) =>
      if !element.NotASchema? {
        UnwrapClean(element);
        ArrayIndented(Unwrap(element), indent);
      }
    case Union(options, discriminator) =>
      AllIndented(options, indent);
      UnionIndented(options, discriminator, DescribeAll(options, indent), width);
    case Object(shape) =>
      ShapeIndented(shape, indent + 1, "\n");
  }

  lemma {:induction false} ArrayIndented(e: Schema, indent: nat)
    requires !e.Wrapper? && Clean(e) && Smooth(e) && (e.ArrayOf? ==> !EndsOpen(e))
    ensures e.Object? ==> Indented("Array of:\n" + Join(FieldLines(e.shape, indent + 1), "\n"), 4 * (indent + 1))
    ensures Indented("Array of " + DescribeUnwrapped(e, indent), 4 * (indent + 1))
    ensures !(e.Object? || (e.Union? && StartsWith(DescribeUnwrapped(e, indent), "One of:"))) ==>
      Indented(DescribeUnwrapped(e, indent) + "[]", 4 * (indent + 1))
    decreases e, 2
  {
    if e.Object? { ShapeIndented(e.shape, indent + 1, "Array of:\n"); }
    UnwrappedIndented(e, indent);
    EndsIff(e, indent);
    if e.Union? && EndsOpen(e) { UnionStart(e, indent); }
    AroundIndented(DescribeUnwrapped(e, indent), 4 * (indent + 1));
  }

  lemma AroundIndented(desc: string, width: nat)
    requires Indented(desc, width)
    ensures Indented("Array of " + desc, width)
    ensures !EndsLine(desc) ==> Indented(desc + "[]", width)
  {
    IndentedAppend("Array of ", desc, width);
    if !EndsLine(desc) { IndentedAppend(desc, "[]", width); }
  }

  lemma {:induction false} ShapeIndented(shape: seq<Field>, indent: nat, head: string)
    requires FieldsClean(shape) && FieldsSmooth(shape) && Indented(head, 4 * indent)
    ensures Indented(head + Join(FieldLines(shape, indent), "\n"), 4 * indent)
    decreases shape, 1
  {
    FieldsIndented(shape, indent);
    IndentedJoin(FieldLines(shape, indent), 4 * indent);
    IndentedAppend(head, Join(FieldLines(shape, indent), "\n"), 4 * indent);
  }

  lemma UnionIndented(options: seq<Schema>, discriminator: Option<string>, descs: seq<string>, width: nat)
    requires |descs| == |options| && AllClean(options) && OneLine(discriminator.GetOr(""))
    requires forall j :: 0 <= j < |descs| ==> Indented(descs[j], width)
    ensures Primitive(descs) ==> Indented(Join(descs, "|"), width)
    ensures var d := if discriminator.Some? then discriminator else DetectFrom(options, COMMON_FIELDS);
      Indented("One of:\n" + Join(VariantLines(options, 0, d, descs, width), "\n"), width)
  {
    var d := if discriminator.Some? then discriminator else DetectFrom(options, COMMON_FIELDS);
    if Primitive(descs) { OneLineJoin(descs, "|"); }
    DetectedOneLine(options, COMMON_FIELDS);
    VariantsIndented(options, 0, d, descs, width);
    var ls := VariantLines(options, 0, d, descs, width);
    IndentedJoin(ls, width);
    IndentedAppend("One of:\n", Join(ls, "\n"), width);
  }

  lemma {:induction false} AllIndented(options: seq<Schema>, indent: nat)
    requires AllClean(options) && AllSmooth(options)
    ensures forall j :: 0 <= j < |options| ==> Indented(DescribeAll(options, indent)[j], 4 * (indent + 1))
    decreases options, 0
  {
    if options != [] {
      DescriptionsAreIndented(options[0], indent);
      AllIndented(options[1..], indent);
    }
  }

  lemma {:induction false} FieldsIndented(shape: seq<Field>, indent: nat)
    requires FieldsClean(shape) && FieldsSmooth(shape)
    ensures AllWhole(FieldLines(shape, indent), 4 * indent)
    decreases shape, 0
  {
    if shape != [] {
      var last := shape[|shape| - 1];
      FieldsIndented(shape[..|shape| - 1], indent);
      DescriptionsAreIndented(last.schema, indent);
      IndentedLess(Describe(last.schema, indent), 4 * (indent + 1), 4 * indent);
      FieldIndented(last.key, last.schema, Describe(last.schema, indent), indent);
    }
  }

  // ---------- others are not ----------

  // Brackets at the start of a line.
  predicate Ragged(s: string) {
    exists i :: 0 <= i < |s| - 1 && s[i] == '\n' && s[i + 1] == '['
  }

  lemma RaggedIsNotIndented(s: string, width: nat)
    requires Ragged(s) && width > 0
    ensures !Indented(s, width)
  {
    var i :| 0 <= i < |s| - 1 && s[i] == '\n' && s[i + 1] == '[';
    assert !LineAt(s, i + 1, width);
  }

  lemma RaggedAppend(a: string, b: string)
    ensures Ragged(a) || Ragged(b) ==> Ragged(a + b)
  {
    var s := a + b;
    if i :| 0 <= i < |a| - 1 && a[i] == '\n' && a[i + 1] == '[' { assert s[i] == '\n' && s[i + 1] == '['; }
    if i :| 0 <= i < |b| - 1 && b[i] == '\n' && b[i + 1] == '[' {
      assert s[|a| + i] == '\n' && s[|a| + i + 1] == '[';
    }
  }

  lemma {:induction false} RaggedJoin(lines: seq<string>, sep: string, j: nat)
    requires j < |lines| && Ragged(lines[j])
    ensures Ragged(Join(lines, sep))
  {
    if |lines| > 1 {
      var rest := Join(lines[1..], sep);
      RaggedAppend(lines[0], sep);
      RaggedAppend(lines[0] + sep, rest);
      if j > 0 { RaggedJoin(lines[1..], sep, j - 1); }
    }
  }

  predicate SomeLineRagged(lines: seq<string>) {
    exists k :: 0 <= k < |lines| && Ragged(lines[k])
  }

  lemma {:induction false} RaggedVariant(options: seq<Schema>, i: nat, discriminator: Option<string>, descs: seq<string>, width: nat, j: nat)
    requires |options| == |descs| && j < |descs| && Ragged(descs[j])
    ensures SomeLineRagged(VariantLines(options, i, discriminator, descs, width))
    decreases |options|
  {
    var rest := VariantLines(options[1..], i + 1, discriminator, descs[1..], width);
    var line := VariantLine(options[0], i, discriminator, descs[0], width);
    if j == 0 {
      var head := Spaces(width) + LabelOf(options[0], i, discriminator);
      RaggedAppend(head + ":", descs[0]);
      RaggedAppend(head + ": ", descs[0]);
    } else {
      RaggedVariant(options[1..], i + 1, discriminator, descs[1..], width, j - 1);
    }
    RaggedLines(line, rest);
  }

  lemma RaggedLines(line: string, rest: seq<string>)
    ensures Ragged(line) || SomeLineRagged(rest) ==> SomeLineRagged([line] + rest)
  {
    assert ([line] + rest)[0] == line;
    if k :| 0 <= k < |rest| && Ragged(rest[k]) { assert ([line] + rest)[k + 1] == rest[k]; }
  }

  lemma {:induction false} UnsmoothIsRagged(s: Schema, indent: nat)
    requires Clean(s) && !Smooth(s)
    ensures Ragged(Describe(s, indent))
    decreases s, 2
  {
    UnwrapClean(s);
    UnwrapSmooth(s);
    UnwrappedRagged(Unwrap(s), indent);
  }

  lemma {:induction false} UnwrappedRagged(u: Schema, indent: nat)
    requires !u.Wrapper? && Clean(u) && !Smooth(u)
    ensures Ragged(DescribeUnwrapped(u, indent))
    decreases u, 1
  {
    match u
    case ArrayOf(element) =>
      UnwrapClean(element);
      ArrayRagged(Unwrap(element), indent);
    case Union(options, discriminator) =>
      var j := SomeRagged(options, indent);
      var descs := DescribeAll(options, indent);
      RaggedJoin(descs, "|", j);
      var d := if discriminator.Some? then discriminator else DetectFrom(options, COMMON_FIELDS);
      RaggedVariant(options, 0, d, descs, 4 * (indent + 1), j);
      var ls := VariantLines(options, 0, d, descs, 4 * (indent + 1));
      var k :| 0 <= k < |ls| && Ragged(ls[k]);
      RaggedJoin(ls, "\n", k);
      RaggedAppend("One of:\n", Join(ls, "\n"));
    case Object(shape) =>
      FieldRagged(shape, indent + 1);
      RaggedAppend("\n", Join(FieldLines(shape, indent + 1), "\n"));
  }

  lemma {:induction false} ArrayRagged(e: Schema, indent: nat)
    requires !e.Wrapper? && Clean(e) && !(Smooth(e) && (e.ArrayOf? ==> !EndsOpen(e)))
    ensures e.Object? ==> Ragged("Array of:\n" + Join(FieldLines(e.shape, indent + 1), "\n"))
    ensures e.Union? ==> Ragged("Array of " + DescribeUnwrapped(e, indent))
    ensures !e.Object? ==> Ragged(DescribeUnwrapped(e, indent) + "[]")
    ensures !e.NotASchema?
    decreases e, 2
  {
    if e.Object? {
      FieldRagged(e.shape, indent + 1);
      RaggedAppend("Array of:\n", Join(FieldLines(e.shape, indent + 1), "\n"));
    } else {
      var desc := DescribeUnwrapped(e, indent);
      if !Smooth(e) {
        UnwrappedRagged(e, indent);
        RaggedAppend("Array of ", desc);
        RaggedAppend(desc, "[]");
      } else {
        EndsIff(e, indent);
        assert (desc + "[]")[|desc| - 1] == '\n' && (desc + "[]")[|desc|] == '[';
      }
    }
  }

  lemma {:induction false} SomeRagged(options: seq<Schema>, indent: nat) returns (j: nat)
    requires AllClean(options) && !AllSmooth(options)
    ensures j < |options| && Ragged(DescribeAll(options, indent)[j])
    decreases options, 0
  {
    if !Smooth(options[0]) {
      UnsmoothIsRagged(options[0], indent);
      j := 0;
    } else {
      var k := SomeRagged(options[1..], indent);
      j := k + 1;
    }
  }

  lemma {:induction false} FieldRagged(shape: seq<Field>, indent: nat)
    requires FieldsClean(shape) && !FieldsSmooth(shape)
    ensures Ragged(Join(FieldLines(shape, indent), "\n"))
    decreases shape, 1
  {
    var j := SomeFieldRagged(shape, indent);
    RaggedJoin(FieldLines(shape, indent), "\n", j);
  }

  lemma {:induction false} SomeFieldRagged(shape: seq<Field>, indent: nat) returns (j: nat)
    requires FieldsClean(shape) && !FieldsSmooth(shape)
    ensures j < |FieldLines(shape, indent)| && Ragged(FieldLines(shape, indent)[j])
    decreases shape, 0
  {
    var last := shape[|shape| - 1];
    if !FieldsSmooth(shape[..|shape| - 1]) {
      j := SomeFieldRagged(shape[..|shape| - 1], indent);
    } else {
      UnsmoothIsRagged(last.schema, indent);
      assert FieldLines(shape, indent) == FieldLines(shape[..|shape| - 1], indent) + FieldText(last, indent);
      assert |FieldText(last, indent)| == 1;
      var head := Spaces(4 * indent) + "- " + last.key + (if IsOptionalField(last.schema) then "?" else "") + ":";
      RaggedAppend(head, Describe(last.schema, indent));
      RaggedAppend(head + " ", Describe(last.schema, indent));
      j := |FieldLines(shape, indent)| - 1;
    }
  }

  // ---------- the theorem ----------

  // With keys and names of one line, every continuation line of a description at level n is empty or starts with
  // 4(n + 1) spaces, if and only if no array has to put its brackets at the start of a line.
  lemma IndentedIff(s: Schema, indent: nat)
    requires Clean(s)
    ensures Indented(Describe(s, indent), 4 * (indent + 1)) <==> Smooth(s)
  {
    if Smooth(s) {
      DescriptionsAreIndented(s, indent);
    } else {
      UnsmoothIsRagged(s, indent);
      RaggedIsNotIndented(Describe(s, indent), 4 * (indent + 1));
    }
  }

  // An array of arrays of objects without fields does.
  lemma EmptyObjectsInArraysAreRagged()
    ensures var s := ArrayOf(ArrayOf(Object([]))); Clean(s) && Describe(s, 0) == "Array of:\n[]" && !Smooth(s)
  {
    var inner := ArrayOf(Object([]));
    assert DescribeUnwrapped(inner, 0) == "Array of:\n";
    assert Describe(ArrayOf(inner), 0) == "Array of:\n" + "[]";
  }

  // ---------- schemas without empty objects ----------

  // Every object has a field that is a schema.
  predicate Full(s: Schema) {
    match s
    case Wrapper(_, inner) => Full(inner)
    case ArrayOf(element) => Full(element)
    case Union(options, _) => AllFull(options)
    case Object(shape) => shape != [] && FieldsFull(shape)
    case _ => true
  }

  predicate AllFull(options: seq<Schema>) {
    options == [] || (Full(options[0]) && AllFull(options[1..]))
  }

  predicate FieldsFull(shape: seq<Field>) {
    shape == []
    || (FieldsFull(shape[..|shape| - 1]) && !shape[|shape| - 1].schema.NotASchema? && Full(shape[|shape| - 1].schema))
  }

  lemma {:induction false} UnwrapFull(s: Schema)
    requires Full(s)
    ensures Full(Unwrap(s))
  {
    if s.Wrapper? { UnwrapFull(s.inner); }
  }

  lemma {:induction false} FullStops(s: Schema)
    requires Full(s)
    ensures !EndsOpen(s)
    decreases s, 1
  {
    match s
    case Wrapper(_, inner) => FullStops(inner);
    case ArrayOf(element) =>
      UnwrapFull(element);
      FullStops(Unwrap(element));
    case Union(options, _) => AllFullStop(options);
    case Object(shape) => FullStops(shape[|shape| - 1].schema);
    case _ =>
  }

  lemma {:induction false} AllFullStop(options: seq<Schema>)
    requires AllFull(options)
    ensures !LastEndsOpen(options)
    decreases options, 0
  {
    if options != [] {
      FullStops(options[0]);
      AllFullStop(options[1..]);
    }
  }

  lemma {:induction false} FullIsSmooth(s: Schema)
    requires Full(s)
    ensures Smooth(s)
    decreases s, 1
  {
    match s
    case Wrapper(_, inner) => FullIsSmooth(inner);
    case ArrayOf(element) =>
      UnwrapFull(element);
      FullIsSmooth(Unwrap(element));
      FullStops(Unwrap(element));
    case Union(options, _) => AllFullSmooth(options);
    case Object(shape) => FieldsFullSmooth(shape);
    case _ =>
  }

  lemma {:induction false} AllFullSmooth(options: seq<Schema>)
    requires AllFull(options)
    ensures AllSmooth(options)
    decreases options, 0
  {
    if options != [] {
      FullIsSmooth(options[0]);
      AllFullSmooth(options[1..]);
    }
  }

  lemma {:induction false} FieldsFullSmooth(shape: seq<Field>)
    requires FieldsFull(shape)
    ensures FieldsSmooth(shape)
    decreases shape, 0
  {
    if shape != [] {
      FieldsFullSmooth(shape[..|shape| - 1]);
      FullIsSmooth(shape[|shape| - 1].schema);
    }
  }

  // So schemas whose objects all have fields are always described with their indentation.
  lemma FullDescriptionsAreIndented(s: Schema, indent: nat)
    requires Clean(s) && Full(s)
    ensures Indented(Describe(s, indent), 4 * (indent + 1))
  {
    FullIsSmooth(s);
    DescriptionsAreIndented(s, indent);
  }
}
