/** What the description of an input schema says: the keys of its fields, the labels of its variants, its types. */
module SchemaNames {
  import opened Wrappers
  import opened Text
  import opened SchemaDescriber

  // ---------- fields ----------

  // The fields that are schemas, in order.
  function Described(shape: seq<Field>): seq<Field> {
    if shape == [] then []
    else Described(shape[..|shape| - 1]) + (if shape[|shape| - 1].schema.NotASchema? then [] else [shape[|shape| - 1]])
  }

  // A line, or block of lines, for a field: its indentation, its key, a mark if it may be left out, and its type.
  ghost predicate Names(line: string, field: Field, indent: nat) {
    var mark := if field.schema.Wrapper? || field.schema.EmptyWrapper? then
                  (if field.schema.wrap.Nullable? then "" else "?") else "";
    exists gap :: Gap(gap, Describe(field.schema, indent))
      && line == Spaces(4 * indent) + "- " + field.key + mark + ":" + gap + Shown(Describe(field.schema, indent))
  }

  // A type stands on the same line after a space, or below.
  predicate Gap(gap: string, desc: string) {
    gap == if desc != "" && desc[0] == '\n' then "" else " "
  }

  function Shown(desc: string): string {
    if desc == "" then "unknown" else desc
  }

  lemma FieldIsNamed(field: Field, indent: nat)
    ensures Names(FieldLine(field.key, field.schema, Describe(field.schema, indent), indent), field, indent)
  {
    var desc := Describe(field.schema, indent);
    var mark := if IsOptionalField(field.schema) then "?" else "";
    var head := Spaces(4 * indent) + "- " + field.key + mark + ":";
    var gap := if desc != "" && desc[0] == '\n' then "" else " ";
    assert head + " unknown" == head + " " + "unknown" && head + desc == head + "" + desc;
    assert Gap(gap, desc) && FieldLine(field.key, field.schema, desc, indent) == head + gap + Shown(desc);
  }

  // Every field that is a schema has its own line, in order, and nothing else has one.
  lemma {:induction false} FieldsAreNamed(shape: seq<Field>, indent: nat, i: nat)
    requires i < |Described(shape)|
    ensures |FieldLines(shape, indent)| == |Described(shape)|
    ensures Names(FieldLines(shape, indent)[i], Described(shape)[i], indent)
    decreases |shape|
  {
    var front, last := shape[..|shape| - 1], shape[|shape| - 1];
    if !last.schema.NotASchema? { FieldIsNamed(last, indent); }
    FieldsAreCounted(front, indent);
    if i < |Described(front)| { FieldsAreNamed(front, indent, i); }
  }

  lemma {:induction false} FieldsAreCounted(shape: seq<Field>, indent: nat)
    ensures |FieldLines(shape, indent)| == |Described(shape)|
    decreases |shape|
  {
    if shape != [] { FieldsAreCounted(shape[..|shape| - 1], indent); }
  }

  // ---------- variants ----------

  // The number that a decimal text is.
  function Value(s: string): int {
    if s == "" then 0 else 10 * Value(s[..|s| - 1]) + (s[|s| - 1] as int - '0' as int)
  }

  lemma {:induction false} DecimalIsValue(n: nat)
    ensures Value(Decimal(n)) == n
  {
    if n < 10 {
      assert Decimal(n)[..0] == "";
    } else {
      DecimalIsValue(n / 10);
      var front, last := Decimal(n / 10), Decimal(n % 10);
      assert |last| == 1 && (front + last)[..|front + last| - 1] == front;
    }
  }

  // The option's own value of the discriminator, or its number.
  predicate Labels(text: string, option: Schema, i: nat, discriminator: Option<string>) {
    if discriminator.Some? && discriminator.value != "" && option.Object?
      && FieldOf(option.shape, discriminator.value).Some? && FieldOf(option.shape, discriminator.value).value.Literal?
      && FieldOf(option.shape, discriminator.value).value.text.Some?
    then text == discriminator.value + "=" + FieldOf(option.shape, discriminator.value).value.text.value
    else |text| > 8 && text[..8] == "Variant " && Value(text[8..]) == i + 1
  }

  lemma VariantIsLabelled(option: Schema, i: nat, discriminator: Option<string>)
    ensures Labels(LabelOf(option, i, discriminator), option, i, discriminator)
  {
    DecimalIsValue(i + 1);
    DecimalIsNotEmpty(i + 1);
    assert ("Variant " + Decimal(i + 1))[..8] == "Variant " && ("Variant " + Decimal(i + 1))[8..] == Decimal(i + 1);
  }

  lemma {:induction false} DecimalIsNotEmpty(n: nat)
    ensures Decimal(n) != ""
  {
    if n >= 10 { DecimalIsNotEmpty(n / 10); }
  }

  // Every option with a description has its own line, in order: its indentation, its label, a colon, its description.
  ghost predicate ShowsVariant(line: string, option: Schema, i: nat, discriminator: Option<string>, desc: string, width: nat) {
    exists text, gap :: Labels(text, option, i, discriminator) && Gap(gap, desc) && line == Spaces(width) + text + ":" + gap + desc
  }

  // The places of the descriptions that are not empty, in order.
  function NotEmpty(descs: seq<string>): seq<nat> {
    if descs == [] then []
    else NotEmpty(descs[..|descs| - 1]) + (if descs[|descs| - 1] == "" then [] else [|descs| - 1])
  }

  lemma {:induction false} VariantsAreShown(options: seq<Schema>, i: nat, discriminator: Option<string>, descs: seq<string>, width: nat, k: nat)
    requires |options| == |descs| && k < |NotEmpty(descs)|
    ensures |VariantLines(options, i, discriminator, descs, width)| == |NotEmpty(descs)| && NotEmpty(descs)[k] < |descs|
    ensures var j := NotEmpty(descs)[k];
      ShowsVariant(VariantLines(options, i, discriminator, descs, width)[k], options[j], i + j, discriminator, descs[j], width)
    decreases |options|
  {
    var n := |options| - 1;
    VariantLinesSnoc(options, i, discriminator, descs, width);
    VariantsAreCounted(options[..n], i, discriminator, descs[..n], width);
    if k < |NotEmpty(descs[..n])| {
      VariantsAreShown(options[..n], i, discriminator, descs[..n], width, k);
    } else {
      VariantIsShown(options[n], i + n, discriminator, descs[n], width);
    }
  }

  lemma {:induction false} VariantsAreCounted(options: seq<Schema>, i: nat, discriminator: Option<string>, descs: seq<string>, width: nat)
    requires |options| == |descs|
    ensures |VariantLines(options, i, discriminator, descs, width)| == |NotEmpty(descs)|
    decreases |options|
  {
    if options != [] {
      VariantLinesSnoc(options, i, discriminator, descs, width);
      VariantsAreCounted(options[..|options| - 1], i, discriminator, descs[..|options| - 1], width);
    }
  }

  lemma {:induction false} VariantLinesSnoc(options: seq<Schema>, i: nat, discriminator: Option<string>, descs: seq<string>, width: nat)
    requires |options| == |descs| > 0
    ensures var n := |options| - 1;
      VariantLines(options, i, discriminator, descs, width) ==
      VariantLines(options[..n], i, discriminator, descs[..n], width)
      + (if descs[n] == "" then [] else [VariantLine(options[n], i + n, discriminator, descs[n], width)])
    decreases |options|
  {
    var n := |options| - 1;
    if n > 0 {
      VariantLinesSnoc(options[1..], i + 1, discriminator, descs[1..], width);
      assert options[1..][..n - 1] == options[..n][1..] && descs[1..][..n - 1] == descs[..n][1..];
    }
  }

  lemma VariantIsShown(option: Schema, i: nat, discriminator: Option<string>, desc: string, width: nat)
    requires desc != ""
    ensures ShowsVariant(VariantLine(option, i, discriminator, desc, width), option, i, discriminator, desc, width)
  {
    var text := LabelOf(option, i, discriminator);
    var gap := if desc[0] == '\n' then "" else " ";
    VariantIsLabelled(option, i, discriminator);
    assert desc[..1] == "\n" <==> desc[0] == '\n';
    var head := Spaces(width) + text;
    assert head + ": " + desc == head + ":" + " " + desc && head + ":" + desc == head + ":" + "" + desc;
    assert Labels(text, option, i, discriminator) && Gap(gap, desc);
    assert VariantLine(option, i, discriminator, desc, width) == Spaces(width) + text + ":" + gap + desc;
  }

  // The discriminator is the first of the common fields that every option holds a literal in.
  lemma {:induction false} DetectedIs(options: seq<Schema>, names: seq<string>, k: nat)
    requires k < |names|
    ensures (forall i :: 0 <= i < |options| ==> HasLiteral(options[i], names[k]))
            && (forall j :: 0 <= j < k ==> exists i :: 0 <= i < |options| && !HasLiteral(options[i], names[j])) ==>
              DetectFrom(options, names) == Some(names[k])
    ensures DetectFrom(options, names).Some? ==>
              DetectFrom(options, names).value in names
              && forall i :: 0 <= i < |options| ==> HasLiteral(options[i], DetectFrom(options, names).value)
  {
    var here := forall i :: 0 <= i < |options| ==> HasLiteral(options[i], names[0]);
    if !here && |names| > 1 {
      DetectedIs(options, names[1..], if k > 0 then k - 1 else 0);
      assert k > 0 ==> names[1..][k - 1] == names[k];
      assert forall j :: 0 <= j < k - 1 ==> names[1..][j] == names[j + 1];
    }
  }

  // ---------- types ----------

  // Wrappers leave no trace in the type.
  lemma WrappersAreTransparent(w: Wrap, s: Schema, indent: nat)
    ensures Describe(Wrapper(w, s), indent) == Describe(s, indent)
  {
  }

  // What is not made of other schemas is described by its name, its literal or its entries.
  lemma LeavesAreNamed(name: string, texts: seq<string>, indent: nat)
    requires texts != [] && forall i :: 0 <= i < |texts| ==> '|' !in texts[i]
    ensures Describe(Plain(name), indent) == name
    ensures Describe(Literal(Some(name)), indent) == name && Describe(Literal(None), indent) == "literal"
    ensures Split(Describe(Enumeration(texts), indent), '|') == texts
    ensures Describe(NotASchema, indent) == "unknown" && forall w :: Describe(EmptyWrapper(w), indent) == "unknown"
  {
    SplitBars(texts);
  }

  lemma {:induction false} SplitBars(texts: seq<string>)
    requires texts != [] && forall i :: 0 <= i < |texts| ==> '|' !in texts[i]
    ensures Split(Join(texts, "|"), '|') == texts
  {
    if |texts| == 1 {
      SplitOne(texts[0], '|');
    } else {
      SplitFirst(texts[0], '|', Join(texts[1..], "|"));
      SplitBars(texts[1..]);
    }
  }

  // An array says what it is an array of.
  lemma ArraysSayOfWhat(element: Schema, indent: nat)
    requires !element.NotASchema?
    ensures var e, desc := Unwrap(element), Describe(ArrayOf(element), indent);
      && (e.Object? ==> desc == "Array of:\n" + Join(FieldLines(e.shape, indent + 1), "\n"))
      && (e.Union? && StartsWith(Describe(e, indent), "One of:") ==> desc == "Array of " + Describe(e, indent))
      && (!e.Object? && !(e.Union? && StartsWith(Describe(e, indent), "One of:")) ==> desc == Describe(element, indent) + "[]")
    ensures Describe(ArrayOf(NotASchema), indent) == "array"
  {
  }

  // A union of one-line types is all of them between bars; any other one has a line for every variant.
  lemma UnionsSayOfWhat(options: seq<Schema>, discriminator: Option<string>, indent: nat)
    ensures var desc, descs := Describe(Union(options, discriminator), indent), DescribeAll(options, indent);
      && (options == [] ==> desc == "union")
      && (options != [] && Primitive(descs) ==> desc == Join(descs, "|"))
      && (options != [] && !Primitive(descs) ==>
            desc == "One of:\n" + Join(VariantLines(options, 0, if discriminator.Some? then discriminator
                                                                else DetectFrom(options, COMMON_FIELDS), descs, 4 * (indent + 1)), "\n"))
    ensures forall i :: 0 <= i < |options| ==> DescribeAll(options, indent)[i] == Describe(options[i], indent)
  {
    AllAreDescribed(options, indent);
  }

  lemma {:induction false} AllAreDescribed(options: seq<Schema>, indent: nat)
    ensures forall i :: 0 <= i < |options| ==> DescribeAll(options, indent)[i] == Describe(options[i], indent)
    decreases |options|
  {
    if options != [] { AllAreDescribed(options[1..], indent); }
  }
}
