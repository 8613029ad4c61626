/** A reader for the block YAML that spec/yaml.ts emits, written from the YAML 1.2.2
    specification, and the proof of exactly which values survive the trip. */
module YamlReader {
  import opened Wrappers
  import opened Text
  import opened YamlValues
  import opened YamlScalars
  import opened YamlEmitter

  datatype Parse<+T> = Fail | Got(value: T, rest: seq<Line>)

  /** A key that reads as itself: plain characters, no indicator in front. */
  predicate PlainKey(k: string) {
    k != "" && AllPlain(k) && k[0] != '-' && k[0] != '@'
  }

  /** A block sequence entry (section 8.2.1): a dash, then a blank or the end of the line. */
  predicate IsDash(t: string) {
    t == "-" || (|t| >= 2 && t[0] == '-' && t[1] == ' ')
  }

  /** The position of the first `:` that ends a line or has a blank after it (section 8.2.2). */
  function ColonAt(t: string): Option<nat> {
    if t == "" then None
    else if t[0] == ':' && (|t| == 1 || t[1] == ' ') then Some(0)
    else match ColonAt(t[1..]) case None => None case Some(i) => Some(i + 1)
  }

  lemma ColonInRange(t: string)
    ensures ColonAt(t).Some? ==> ColonAt(t).value < |t| && (ColonAt(t).value + 1 < |t| ==> |t| >= ColonAt(t).value + 2)
  {
  }

  datatype KeyText = KeyText(key: string, rest: Option<string>)

  /** A mapping line: its key, and what follows on the same line. */
  function SplitKey(t: string): Option<KeyText> {
    ColonInRange(t);
    match ColonAt(t)
    case None => None
    case Some(i) =>
      if !PlainKey(t[..i]) then None
      else Some(KeyText(t[..i], if i + 1 == |t| then None else Some(t[i + 2..])))
  }

  predicate Below(ls: seq<Line>, n: nat) {
    ls == [] || ls[0].indent < n
  }

  function Leaf(r: Result<Value, YamlError>, rest: seq<Line>): Parse<Value> {
    if r.Ok? then Got(r.value, rest) else Fail
  }

  function AsList(p: Parse<seq<Value>>): Parse<Value> {
    if p.Got? then Got(List(p.value), p.rest) else Fail
  }

  function AsRecord(p: Parse<seq<Field>>): Parse<Value> {
    if p.Got? then Got(Record(p.value), p.rest) else Fail
  }

  function Keyed(key: string, p: Parse<Value>): Parse<Field> {
    if p.Got? then Got(Field(key, Some(p.value)), p.rest) else Fail
  }

  /** A block node: a sequence or a mapping, at the indentation of its first line. */
  function ReadBlock(ls: seq<Line>): (r: Parse<Value>)
    requires ls != []
    ensures r.Got? ==> |r.rest| < |ls|
    decreases |ls|, 4
  {
    if IsDash(ls[0].text) then
      AsList(ReadSequence(ls, ls[0].indent))
    else
      AsRecord(ReadMapping(ls, ls[0].indent))
  }

  function ReadSequence(ls: seq<Line>, n: nat): (r: Parse<seq<Value>>)
    ensures r.Got? ==> |r.rest| <= |ls| && (!Below(ls, n) ==> |r.rest| < |ls|)
    decreases |ls|, 3
  {
    if Below(ls, n) then Got([], ls)
    else if ls[0].indent > n || !IsDash(ls[0].text) then Fail
    else
      match ReadItem(ls, n)
      case Fail => Fail
      case Got(v, rest) =>
        match ReadSequence(rest, n) case Fail => Fail case Got(vs, rest') => Got([v] + vs, rest')
  }

  /** One entry. After `- ` a mapping may start on the same line; it is then indented as if
      the dash were blank. */
  function ReadItem(ls: seq<Line>, n: nat): (r: Parse<Value>)
    ensures r.Got? ==> |r.rest| < |ls|
    decreases |ls|, 2
  {
    if ls == [] || !IsDash(ls[0].text) then Fail
    else if ls[0].text == "-" then ReadNested(ls, n)
    else
      var text := ls[0].text[2..];
      if IsDash(text) then Fail
      else if SplitKey(text).Some? then
        var inner := [Line(n + 2, text)] + ls[1..];
        AsRecord(ReadMapping(inner, n + 2))
      else
        Leaf(ReadScalar(text), ls[1..])
  }

  function ReadMapping(ls: seq<Line>, n: nat): (r: Parse<seq<Field>>)
    ensures r.Got? ==> |r.rest| <= |ls| && (!Below(ls, n) ==> |r.rest| < |ls|)
    decreases |ls|, 1
  {
    if Below(ls, n) then Got([], ls)
    else if ls[0].indent > n || IsDash(ls[0].text) || SplitKey(ls[0].text).None? then Fail
    else
      match ReadEntry(ls, n)
      case Fail => Fail
      case Got(f, rest) =>
        match ReadMapping(rest, n) case Fail => Fail case Got(fs, rest') => Got([f] + fs, rest')
  }

  function ReadEntry(ls: seq<Line>, n: nat): (r: Parse<Field>)
    ensures r.Got? ==> |r.rest| < |ls|
    decreases |ls|, 0, 1
  {
    if ls == [] || SplitKey(ls[0].text).None? then Fail
    else
      var k := SplitKey(ls[0].text).value;
      Keyed(k.key, if k.rest.None? then ReadNested(ls, n) else Leaf(ReadScalar(k.rest.value), ls[1..]))
  }

  /** The node below a line that names none: what is indented deeper, or nothing at all. */
  function ReadNested(ls: seq<Line>, n: nat): (r: Parse<Value>)
    requires ls != []
    ensures r.Got? ==> |r.rest| < |ls|
    decreases |ls|, 0, 0
  {
    if Below(ls[1..], n + 1) then Got(Null, ls[1..]) else ReadBlock(ls[1..])
  }

  /** Lines of a document, with nothing left over. A document marker is not a value. */
  function ReadLines(ls: seq<Line>): Result<Value, YamlError>
    requires ls != []
  {
    if ls[0].indent != 0 || ls[0].text == "---" || ls[0].text == "..." then Err(NotInSubset)
    else if IsDash(ls[0].text) || SplitKey(ls[0].text).Some? then
      match ReadBlock(ls)
      case Fail => Err(NotInSubset)
      case Got(v, rest) => if rest == [] then Ok(v) else Err(NotInSubset)
    else if |ls| == 1 then ReadScalar(ls[0].text)
    else Err(NotInSubset)
  }

  function BlankRun(s: string): (k: nat)
    ensures k <= |s| && (forall i | 0 <= i < k :: s[i] == ' ') && (k < |s| ==> s[k] != ' ')
  {
    if s == "" || s[0] != ' ' then 0 else 1 + BlankRun(s[1..])
  }

  function Indented(s: string): Line {
    Line(BlankRun(s), s[BlankRun(s)..])
  }

  function AllIndented(ss: seq<string>): seq<Line> {
    seq(|ss|, i requires 0 <= i < |ss| => Indented(ss[i]))
  }

  /** A document. The empty one is null. */
  function ReadDocument(text: string): Result<Value, YamlError> {
    if text == "" then Ok(Null)
    else if text[|text| - 1] != '\n' then Err(NotInSubset)
    else ReadLines(AllIndented(Split(text[..|text| - 1], '\n')))
  }
}

module YamlRoundTrip {
  import opened Wrappers
  import opened Sequences
  import opened Text
  import opened YamlValues
  import opened YamlScalars
  import opened YamlEmitter
  import opened YamlReader

  // ── The values in question ────────────────────────────────────────────────

  predicate KeysPlain(v: Value) {
    match v
    case List(items) => forall x | x in items :: KeysPlain(x)
    case Record(fields) => forall f | f in fields :: FieldPlain(f)
    case _ => true
  }

  predicate FieldPlain(f: Field) {
    f.value.Some? ==> PlainKey(f.key) && KeysPlain(f.value.value)
  }

  /** Every string in the value is one the emitter's text preserves. */
  predicate AllPreserved(v: Value) {
    match v
    case List(items) => forall x | x in items :: AllPreserved(x)
    case Record(fields) => forall f | f in fields :: FieldPreserved(f)
    case _ => ScalarPreserved(v)
  }

  predicate FieldPreserved(f: Field) {
    f.value.Some? ==> AllPreserved(f.value.value)
  }

  /** At the top of a document there is no room for an empty collection, and two plain
      strings are document markers. */
  predicate TopPreserved(v: Value) {
    match v
    case List(items) => items != []
    case Record(fields) => !NoFields(fields)
    case Str(s) => s != "---" && s != "..."
    case _ => true
  }

  // ── Physical lines ────────────────────────────────────────────────────────

  /** The lines a reader sees: a raw line break inside a text starts a new one. */
  function Physical(ls: seq<Line>): seq<Line> {
    if ls == [] then [] else PhysicalLine(ls[0]) + Physical(ls[1..])
  }

  function PhysicalLine(l: Line): seq<Line> {
    var parts := Split(l.text, '\n');
    [Line(l.indent, parts[0])] + AllIndented(parts[1..])
  }

  lemma {:induction false} PhysicalAppend(a: seq<Line>, b: seq<Line>)
    ensures Physical(a + b) == Physical(a) + Physical(b)
  {
    if a == [] {
      Empty(b);
      Empty(Physical(b));
    } else {
      PhysicalAppend(a[1..], b);
      AppendTail(a, b);
      Assoc(PhysicalLine(a[0]), Physical(a[1..]), Physical(b));
    }
  }

  lemma PhysicalUnbroken(l: Line)
    requires '\n' !in l.text
    ensures Physical([l]) == [l]
  {
    SplitWhole(l.text, '\n');
    Empty([l]);
  }

  /** What a line break leaves of a scalar's text on its first line. */
  function Cut(v: Value): string
    requires IsScalar(v)
  {
    Split(ScalarText(v), '\n')[0]
  }

  predicate StartsWith(ls: seq<Line>, l: Line) {
    ls != [] && ls[0] == l
  }

  /** The first physical line of `prefix` followed by a scalar; it is the only one when the
      scalar is preserved. */
  lemma PhysicalScalar(n: nat, prefix: string, v: Value)
    requires IsScalar(v) && '\n' !in prefix
    ensures StartsWith(Physical([Line(n, prefix + ScalarText(v))]), Line(n, prefix + Cut(v)))
    ensures ScalarPreserved(v) ==> Physical([Line(n, prefix + ScalarText(v))]) == [Line(n, prefix + Cut(v))]
  {
    ScalarRoundTrip(v);
    SplitPrefix(prefix, ScalarText(v), '\n');
    if ScalarPreserved(v) {
      SplitWhole(ScalarText(v), '\n');
      PhysicalUnbroken(Line(n, prefix + ScalarText(v)));
    }
  }

  lemma ReadCut(v: Value)
    requires IsScalar(v)
    ensures Cut(v) != "" && Cut(v)[0] == ScalarText(v)[0]
    ensures ScalarPreserved(v) ==> Cut(v) == ScalarText(v) && ReadScalar(Cut(v)) == Ok(v)
    ensures !ScalarPreserved(v) ==> ReadScalar(Cut(v)).Err?
  {
    var t := ScalarText(v);
    ScalarRoundTrip(v);
    ScalarStart(v);
    SplitPrefix([t[0]], t[1..], '\n');
    assert [t[0]] + t[1..] == t;
    if ScalarPreserved(v) {
      SplitWhole(t, '\n');
    }
  }

  lemma ScalarStart(v: Value)
    requires IsScalar(v)
    ensures ScalarText(v) != "" && ScalarText(v)[0] != ' ' && ScalarText(v)[0] != '\n'
  {
    match v
    case Num(n) =>
      IntTextShape(n);
      assert IsPlainChar(IntText(n)[0]);
    case Str(s) =>
      if !NeedsQuotes(s) { assert IsPlainChar(s[0]); }
    case _ =>
  }

  // ── Keys and dashes ───────────────────────────────────────────────────────

  lemma {:induction false} ColonAfter(k: string, t: string)
    requires ':' !in k
    requires t == ":" || (|t| >= 2 && t[..2] == ": ")
    ensures ColonAt(k + t) == Some(|k|)
  {
    if k == "" {
      assert k + t == t;
    } else {
      assert k[0] in k && forall c | c in k[1..] :: c in k;
      assert (k + t)[1..] == k[1..] + t;
      ColonAfter(k[1..], t);
    }
  }

  lemma KeyLine(k: string, rest: Option<string>)
    requires PlainKey(k)
    ensures var t := k + (if rest.None? then ":" else ": " + rest.value);
            && SplitKey(t) == Some(KeyText(k, rest)) && !IsDash(t) && t != "---" && t != "..."
            && t[0] != ' ' && t[0] != '\n'
    ensures '\n' !in k + ": " && '\n' !in k + ":"
  {
    var tail := if rest.None? then ":" else ": " + rest.value;
    var t := k + tail;
    forall i | 0 <= i < |k| ensures k[i] != ':' && k[i] != '\n' { assert IsPlainChar(k[i]); }
    ColonAfter(k, tail);
    assert t[..|k|] == k;
    assert t[|k|] == ':';
    assert rest.Some? ==> t[|k| + 2..] == rest.value;
    assert IsPlainChar(t[0]);
    assert "---"[0] == '-' && "..."[0] == '.';
    assert ':' !in "..." && t[|k|] in t;
  }

  /** A scalar's text, or what a line break leaves of it, is never mistaken for a mapping. */
  lemma ScalarIsNoKey(v: Value)
    requires IsScalar(v)
    ensures SplitKey(Cut(v)).None?
  {
    var t := ScalarText(v);
    if t[0] == '"' {
      SplitPrefix([t[0]], t[1..], '\n');
      assert [t[0]] + t[1..] == t;
      var cut := Split(t, '\n')[0];
      ColonInRange(cut);
      if ColonAt(cut).Some? && ColonAt(cut).value > 0 {
        assert cut[..ColonAt(cut).value][0] == '"';
      }
    } else {
      PlainText(v);
      PlainIsPrintable(t);
      SplitWhole(t, '\n');
      NoColon(t);
    }
  }

  lemma PlainText(v: Value)
    requires IsScalar(v) && ScalarText(v) != "" && ScalarText(v)[0] != '"'
    ensures AllPlain(ScalarText(v))
  {
    match v
    case Num(n) => IntTextShape(n);
    case _ =>
  }

  lemma {:induction false} NoColon(t: string)
    requires AllPlain(t)
    ensures ColonAt(t).None?
  {
    if t != "" {
      assert IsPlainChar(t[0]);
      forall i | 0 <= i < |t[1..]| ensures IsPlainChar(t[1..][i]) { assert IsPlainChar(t[i + 1]); }
      NoColon(t[1..]);
    }
  }

  // ── How blocks begin ──────────────────────────────────────────────────────

  /** A line that opens a mapping. */
  predicate OpensMapping(t: string) {
    !IsDash(t) && SplitKey(t).Some? && t != "---" && t != "..."
  }

  lemma PhysicalHead(ls: seq<Line>)
    requires ls != []
    ensures Physical(ls) == Physical([ls[0]]) + Physical(ls[1..])
  {
    HeadTail(ls);
    PhysicalAppend([ls[0]], ls[1..]);
  }

  lemma UnbrokenHead(ls: seq<Line>)
    requires ls != [] && '\n' !in ls[0].text
    ensures Physical(ls) == [ls[0]] + Physical(ls[1..])
  {
    PhysicalHead(ls);
    PhysicalUnbroken(ls[0]);
  }

  predicate Opens(ls: seq<Line>, n: nat) {
    ls != [] && ls[0].indent == n && OpensMapping(ls[0].text)
  }

  predicate Dashed(ls: seq<Line>, n: nat) {
    ls != [] && ls[0].indent == n && IsDash(ls[0].text)
  }

  /** A line with a key and, on the same line, its value. */
  predicate Names(t: string, key: string, value: string) {
    SplitKey(t) == Some(KeyText(key, Some(value))) && OpensMapping(t)
  }

  lemma KeyedText(key: string, value: string)
    requires PlainKey(key)
    ensures Names(key + ": " + value, key, value)
  {
    KeyLine(key, Some(value));
    assert key + ": " + value == key + (": " + value);
  }

  lemma FieldStart(f: Field, n: nat)
    requires f.value.Some? && PlainKey(f.key)
    ensures Opens(Physical(FieldLines(f, n)), n)
  {
    KeyLine(f.key, None);
    if IsScalar(f.value.value) {
      PhysicalScalar(n, f.key + ": ", f.value.value);
      KeyedText(f.key, Cut(f.value.value));
    } else {
      EmptyCollection(f.key, "[]");
      EmptyCollection(f.key, "{}");
      UnbrokenHead(FieldLines(f, n));
    }
  }

  lemma EmptyCollection(k: string, t: string)
    requires PlainKey(k) && (t == "[]" || t == "{}")
    ensures Names(k + ": " + t, k, t) && '\n' !in k + ": " + t && k + ": []" == k + ": " + "[]" && k + ": {}" == k + ": " + "{}"
  {
    KeyLine(k, None);
    KeyedText(k, t);
  }

  lemma {:induction false} EntriesStart(fields: seq<Field>, n: nat)
    requires forall f | f in fields :: FieldPlain(f)
    requires EntryLines(fields, n) != []
    ensures Opens(Physical(EntryLines(fields, n)), n)
  {
    PhysicalAppend(FieldLines(fields[0], n), EntryLines(fields[1..], n));
    assert fields[0] in fields && forall f | f in fields[1..] :: f in fields;
    if fields[0].value.Some? {
      FieldStart(fields[0], n);
    } else {
      assert [] + EntryLines(fields[1..], n) == EntryLines(fields[1..], n);
      EntriesStart(fields[1..], n);
    }
  }

  lemma ItemStart(v: Value, n: nat)
    ensures Dashed(Physical(ItemLinesOf(v, n)), n)
  {
    match v
    case List(items) => UnbrokenHead(ItemLinesOf(v, n));
    case Record(fields) =>
      if EntryLines(fields, n + 2) == [] {
        UnbrokenHead(ItemLinesOf(v, n));
      } else {
        HoistStart(EntryLines(fields, n + 2), n);
      }
    case _ => ScalarItemStart(v, n);
  }

  lemma ScalarItemStart(v: Value, n: nat)
    requires IsScalar(v)
    ensures Dashed(Physical([Line(n, "- " + ScalarText(v))]), n)
  {
    PhysicalScalar(n, "- ", v);
  }

  /** Hoisting puts the dash before the first physical line and leaves the others alone. */
  lemma HoistStart(sub: seq<Line>, n: nat)
    requires sub != []
    ensures Physical(sub) != []
    ensures Physical(Hoist(sub, n)) == [Line(n, "- " + Physical(sub)[0].text)] + Physical(sub)[1..]
  {
    var l, dash, below := sub[0], Line(n, "- " + sub[0].text), Physical(sub[1..]);
    var parts := Split(l.text, '\n');
    var more := AllIndented(parts[1..]);
    SplitPrefix("- ", l.text, '\n');
    ConsTail(dash, sub[1..]);
    assert PhysicalLine(dash) == [Line(n, "- " + parts[0])] + more;
    Assoc([Line(n, "- " + parts[0])], more, below);
    Assoc([Line(l.indent, parts[0])], more, below);
    ConsTail(Line(l.indent, parts[0]), more + below);
  }

  lemma ItemsStart(items: seq<Value>, n: nat)
    requires items != []
    ensures Dashed(Physical(ItemLines(items, n)), n)
  {
    ItemStart(items[0], n);
    PhysicalAppend(ItemLinesOf(items[0], n), ItemLines(items[1..], n));
  }

  /** The first line of a block stays the first line of the block and what follows it. */
  lemma HeadOf(ls: seq<Line>, tail: seq<Line>)
    requires ls != []
    ensures ls + tail == [ls[0]] + (ls[1..] + tail)
  {
    HeadTail(ls);
    Assoc([ls[0]], ls[1..], tail);
  }

  // ── One line at a time ────────────────────────────────────────────────────

  lemma ReadScalarItem(n: nat, text: string, rest: seq<Line>)
    requires !IsDash(text) && SplitKey(text).None?
    ensures ReadItem([Line(n, "- " + text)] + rest, n) == Leaf(ReadScalar(text), rest)
  {
    ConsTail(Line(n, "- " + text), rest);
    assert ("- " + text)[2..] == text;
  }

  lemma ReadNestedItem(n: nat, rest: seq<Line>)
    requires !Below(rest, n + 1)
    ensures ReadItem([Line(n, "-")] + rest, n) == ReadBlock(rest)
  {
    ConsTail(Line(n, "-"), rest);
  }

  lemma ReadHoistedItem(n: nat, text: string, rest: seq<Line>)
    requires !IsDash(text) && SplitKey(text).Some?
    ensures ReadItem([Line(n, "- " + text)] + rest, n) == AsRecord(ReadMapping([Line(n + 2, text)] + rest, n + 2))
  {
    ConsTail(Line(n, "- " + text), rest);
    assert ("- " + text)[2..] == text;
  }

  lemma ReadScalarEntry(n: nat, t: string, rest: seq<Line>)
    requires SplitKey(t).Some? && SplitKey(t).value.rest.Some?
    ensures var k := SplitKey(t).value;
            ReadEntry([Line(n, t)] + rest, n) == Keyed(k.key, Leaf(ReadScalar(k.rest.value), rest))
  {
    ConsTail(Line(n, t), rest);
  }

  lemma ReadNestedEntry(n: nat, t: string, rest: seq<Line>)
    requires SplitKey(t).Some? && SplitKey(t).value.rest.None? && !Below(rest, n + 1)
    ensures ReadEntry([Line(n, t)] + rest, n) == Keyed(SplitKey(t).value.key, ReadBlock(rest))
  {
    ConsTail(Line(n, t), rest);
  }

  /** Reading an element of a block and then the rest of the block. */
  lemma ReadSequenceStep(a: seq<Line>, b: seq<Line>, n: nat)
    requires Dashed(a, n)
    ensures var i, s := ReadItem(a + b, n), ReadSequence(a + b, n);
            && (i.Fail? || ReadSequence(i.rest, n).Fail? ==> s.Fail?)
            && (i.Got? && ReadSequence(i.rest, n).Got? ==>
                  s == Got([i.value] + ReadSequence(i.rest, n).value, ReadSequence(i.rest, n).rest))
  {
    assert (a + b)[0] == a[0];
  }

  lemma ReadMappingStep(a: seq<Line>, b: seq<Line>, n: nat)
    requires Opens(a, n)
    ensures var e, m := ReadEntry(a + b, n), ReadMapping(a + b, n);
            && (e.Fail? || ReadMapping(e.rest, n).Fail? ==> m.Fail?)
            && (e.Got? && ReadMapping(e.rest, n).Got? ==>
                  m == Got([e.value] + ReadMapping(e.rest, n).value, ReadMapping(e.rest, n).rest))
  {
    assert (a + b)[0] == a[0];
  }

  // ── The round trip ────────────────────────────────────────────────────────

  predicate ItemsPreserved(items: seq<Value>) {
    forall x | x in items :: AllPreserved(x)
  }

  predicate FieldsPreserved(fields: seq<Field>) {
    forall f | f in fields :: FieldPreserved(f)
  }

  lemma PreservedUnfolds(v: Value)
    ensures v.List? ==> AllPreserved(v) == ItemsPreserved(v.items) && Defined(v) == List(DefinedItems(v.items))
    ensures v.Record? ==> AllPreserved(v) == FieldsPreserved(v.fields) && Defined(v) == Record(DefinedFields(v.fields))
    ensures IsScalar(v) ==> AllPreserved(v) == ScalarPreserved(v) && Defined(v) == v
  {
  }

  lemma ItemsPreservedStep(items: seq<Value>)
    requires items != []
    ensures ItemsPreserved(items) <==> AllPreserved(items[0]) && ItemsPreserved(items[1..])
  {
    assert items == [items[0]] + items[1..];
  }

  lemma FieldsPreservedStep(fields: seq<Field>)
    requires fields != []
    ensures FieldsPreserved(fields) <==> FieldPreserved(fields[0]) && FieldsPreserved(fields[1..])
  {
    assert fields == [fields[0]] + fields[1..];
  }

  /** A sequence reads back, up to the first line indented less than it, exactly when all
      its strings are preserved; otherwise reading it fails. */
  lemma {:induction false} ItemsRead(items: seq<Value>, n: nat, tail: seq<Line>)
    requires forall x | x in items :: KeysPlain(x)
    ensures ItemsPreserved(items) && Below(tail, n) ==>
            ReadSequence(Physical(ItemLines(items, n)) + tail, n) == Got(DefinedItems(items), tail)
    ensures !ItemsPreserved(items) ==> ReadSequence(Physical(ItemLines(items, n)) + tail, n).Fail?
    decreases items, 1
  {
    if items == [] {
      Empty(tail);
    } else {
      var first, rest := Physical(ItemLinesOf(items[0], n)), Physical(ItemLines(items[1..], n)) + tail;
      assert items[0] in items && forall x | x in items[1..] :: x in items;
      ItemsPreservedStep(items);
      PhysicalAppend(ItemLinesOf(items[0], n), ItemLines(items[1..], n));
      Assoc(first, Physical(ItemLines(items[1..], n)), tail);
      if items[1..] != [] {
        ItemsStart(items[1..], n);
      } else {
        Empty(tail);
      }
      ItemStart(items[0], n);
      ReadSequenceStep(first, rest, n);
      ItemRead(items[0], n, rest);
      ItemsRead(items[1..], n, tail);
    }
  }

  /** `p` is `v` read back with `tail` left over, if `v` is preserved and `tail` is out of
      the way; it is a failure if `v` is not preserved. */
  predicate Reads(p: Parse<Value>, v: Value, ok: bool, tail: seq<Line>, n: nat) {
    (ok && Below(tail, n) ==> p == Got(v, tail)) && (!ok ==> p.Fail?)
  }

  lemma {:induction false} ItemRead(v: Value, n: nat, tail: seq<Line>)
    requires KeysPlain(v)
    ensures Reads(ReadItem(Physical(ItemLinesOf(v, n)) + tail, n), Defined(v), AllPreserved(v), tail, n + 1)
    decreases v, 0
  {
    PreservedUnfolds(v);
    match v
    case List(items) =>
      if items == [] {
        EmptyItem("[]", n, tail);
        assert ItemLinesOf(v, n) == [Line(n, "- " + "[]")];
      } else {
        ListBlockRead(items, n, tail);
        NestedItem(ItemLinesOf(v, n), n, tail);
        assert ItemLinesOf(v, n)[1..] == ItemLines(items, n + 2);
      }
    case Record(fields) =>
      EntryIndent(fields, n + 2);
      if EntryLines(fields, n + 2) == [] {
        EmptyItem("{}", n, tail);
        NothingToLose(fields);
        assert ItemLinesOf(v, n) == [Line(n, "- " + "{}")];
      } else {
        HoistRead(fields, n, tail);
        assert ItemLinesOf(v, n) == Hoist(EntryLines(fields, n + 2), n);
      }
    case _ =>
      ScalarItem(v, n, tail);
      assert ItemLinesOf(v, n) == [Line(n, "- " + ScalarText(v))];
  }

  lemma NestedItem(ls: seq<Line>, n: nat, tail: seq<Line>)
    requires StartsWith(ls, Line(n, "-")) && !Below(Physical(ls[1..]) + tail, n + 1)
    ensures ReadItem(Physical(ls) + tail, n) == ReadBlock(Physical(ls[1..]) + tail)
  {
    UnbrokenHead(ls);
    ReadNestedItem(n, Physical(ls[1..]) + tail);
    HeadOf(Physical(ls), tail);
  }

  lemma EmptyItem(t: string, n: nat, tail: seq<Line>)
    requires t == "[]" || t == "{}"
    ensures ReadItem(Physical([Line(n, "- " + t)]) + tail, n) == Got(if t == "[]" then List([]) else Record([]), tail)
    ensures "- []" == "- " + "[]" && "- {}" == "- " + "{}"
  {
    PhysicalUnbroken(Line(n, "- " + t));
    assert ColonAt(t[1..][1..]).None? && ColonAt(t[1..]).None? && ColonAt(t).None?;
    ReadScalarItem(n, t, tail);
  }

  lemma ScalarItem(v: Value, n: nat, tail: seq<Line>)
    requires IsScalar(v)
    ensures Reads(ReadItem(Physical([Line(n, "- " + ScalarText(v))]) + tail, n), v, ScalarPreserved(v), tail, n + 1)
  {
    PhysicalScalar(n, "- ", v);
    var ls := Physical([Line(n, "- " + ScalarText(v))]);
    ReadCut(v);
    ScalarIsNoKey(v);
    ScalarDash(v);
    HeadOf(ls, tail);
    if IsDash(Cut(v)) {
      assert ("- " + Cut(v))[2..] == Cut(v);
      assert ReadItem(ls + tail, n).Fail?;
    } else {
      ReadScalarItem(n, Cut(v), ls[1..] + tail);
    }
  }

  /** A scalar that starts like a dash is one the reader rejects anyway. */
  lemma ScalarDash(v: Value)
    requires IsScalar(v)
    ensures IsDash(Cut(v)) ==> !ScalarPreserved(v)
  {
    var t := ScalarText(v);
    if t[0] != '"' {
      PlainText(v);
      PlainIsPrintable(t);
      SplitWhole(t, '\n');
      assert IsDash(t) ==> t == "-" by {
        assert |t| >= 2 ==> IsPlainChar(t[1]);
      }
      if v.Num? { IntTextShape(v.n); }
    } else {
      SplitPrefix([t[0]], t[1..], '\n');
      assert [t[0]] + t[1..] == t;
    }
  }

  /** A record without defined fields holds no string at all. */
  lemma NothingToLose(fields: seq<Field>)
    requires NoFields(fields)
    ensures FieldsPreserved(fields) && DefinedFields(fields) == []
  {
    EntryIndent(fields, 0);
  }

  /** The nested block of a non-empty list. */
  lemma {:induction false} ListBlockRead(items: seq<Value>, n: nat, tail: seq<Line>)
    requires items != [] && forall x | x in items :: KeysPlain(x)
    ensures !Below(Physical(ItemLines(items, n + 2)) + tail, n + 1)
    ensures Reads(ReadBlock(Physical(ItemLines(items, n + 2)) + tail), List(DefinedItems(items)), ItemsPreserved(items), tail, n + 1)
    decreases items, 2
  {
    ItemsStart(items, n + 2);
    ItemsRead(items, n + 2, tail);
  }

  /** The nested block of a record with defined fields. */
  lemma {:induction false} RecordBlockRead(fields: seq<Field>, n: nat, tail: seq<Line>)
    requires !NoFields(fields) && forall f | f in fields :: FieldPlain(f)
    ensures !Below(Physical(EntryLines(fields, n + 2)) + tail, n + 1)
    ensures Reads(ReadBlock(Physical(EntryLines(fields, n + 2)) + tail), Record(DefinedFields(fields)), FieldsPreserved(fields), tail, n + 1)
    decreases fields, 2
  {
    EntryIndent(fields, n + 2);
    EntriesStart(fields, n + 2);
    EntriesRead(fields, n + 2, tail);
  }

  /** A record whose first key shares the line with the dash. */
  lemma {:induction false} HoistRead(fields: seq<Field>, n: nat, tail: seq<Line>)
    requires EntryLines(fields, n + 2) != [] && forall f | f in fields :: FieldPlain(f)
    ensures Reads(ReadItem(Physical(Hoist(EntryLines(fields, n + 2), n)) + tail, n), Record(DefinedFields(fields)), FieldsPreserved(fields), tail, n + 1)
    decreases fields, 2
  {
    var sub := EntryLines(fields, n + 2);
    var plain := Physical(sub);
    EntriesStart(fields, n + 2);
    EntriesRead(fields, n + 2, tail);
    HoistStart(sub, n);
    ReadHoistedItem(n, plain[0].text, plain[1..] + tail);
    HeadOf(Physical(Hoist(sub, n)), tail);
    HeadOf(plain, tail);
  }

  lemma {:induction false} EntriesRead(fields: seq<Field>, n: nat, tail: seq<Line>)
    requires forall f | f in fields :: FieldPlain(f)
    ensures FieldsPreserved(fields) && Below(tail, n) ==>
            ReadMapping(Physical(EntryLines(fields, n)) + tail, n) == Got(DefinedFields(fields), tail)
    ensures !FieldsPreserved(fields) ==> ReadMapping(Physical(EntryLines(fields, n)) + tail, n).Fail?
    decreases fields, 1
  {
    if fields == [] {
      Empty(tail);
    } else {
      var f, more := fields[0], fields[1..];
      var first, rest := Physical(FieldLines(f, n)), Physical(EntryLines(more, n)) + tail;
      assert f in fields && forall x | x in more :: x in fields;
      FieldsPreservedStep(fields);
      PhysicalAppend(FieldLines(f, n), EntryLines(more, n));
      Assoc(first, Physical(EntryLines(more, n)), tail);
      EntriesRead(more, n, tail);
      if f.value.None? {
        Empty(rest);
        Empty(DefinedFields(more));
      } else {
        EntryIndent(more, n);
        if EntryLines(more, n) != [] {
          EntriesStart(more, n);
        } else {
          Empty(tail);
          NothingToLose(more);
        }
        FieldStart(f, n);
        ReadMappingStep(first, rest, n);
        EntryRead(f, n, rest);
      }
    }
  }

  /** The same for a field, by its key and its value. */
  predicate ReadsField(p: Parse<Field>, key: string, v: Value, ok: bool, tail: seq<Line>, n: nat) {
    (ok && Below(tail, n) ==> p == Got(Field(key, Some(v)), tail)) && (!ok ==> p.Fail?)
  }

  lemma {:induction false} EntryRead(f: Field, n: nat, tail: seq<Line>)
    requires f.value.Some? && FieldPlain(f)
    ensures ReadsField(ReadEntry(Physical(FieldLines(f, n)) + tail, n), f.key, Defined(f.value.value), FieldPreserved(f), tail, n + 1)
    decreases f, 0
  {
    PreservedUnfolds(f.value.value);
    match f.value.value
    case List(items) =>
      if items == [] {
        EmptyEntry(f.key, "[]", n, tail);
      } else {
        ListBlockRead(items, n, tail);
        NestedEntry(f.key, FieldLines(f, n), n, tail);
        assert FieldLines(f, n)[1..] == ItemLines(items, n + 2);
      }
    case Record(fields) =>
      if NoFields(fields) {
        EmptyEntry(f.key, "{}", n, tail);
        NothingToLose(fields);
      } else {
        RecordBlockRead(fields, n, tail);
        NestedEntry(f.key, FieldLines(f, n), n, tail);
        assert FieldLines(f, n)[1..] == EntryLines(fields, n + 2);
      }
    case v => ScalarEntry(f.key, v, n, tail);
  }

  lemma NestedEntry(key: string, ls: seq<Line>, n: nat, tail: seq<Line>)
    requires PlainKey(key) && StartsWith(ls, Line(n, key + ":")) && !Below(Physical(ls[1..]) + tail, n + 1)
    ensures ReadEntry(Physical(ls) + tail, n) == Keyed(key, ReadBlock(Physical(ls[1..]) + tail))
  {
    KeyLine(key, None);
    UnbrokenHead(ls);
    ReadNestedEntry(n, key + ":", Physical(ls[1..]) + tail);
    HeadOf(Physical(ls), tail);
  }

  lemma EmptyEntry(key: string, t: string, n: nat, tail: seq<Line>)
    requires PlainKey(key) && (t == "[]" || t == "{}")
    ensures ReadEntry(Physical([Line(n, key + ": " + t)]) + tail, n) ==
            Got(Field(key, Some(if t == "[]" then List([]) else Record([]))), tail)
    ensures key + ": []" == key + ": " + "[]" && key + ": {}" == key + ": " + "{}"
  {
    EmptyCollection(key, t);
    PhysicalUnbroken(Line(n, key + ": " + t));
    ReadScalarEntry(n, key + ": " + t, tail);
  }

  lemma ScalarEntry(key: string, v: Value, n: nat, tail: seq<Line>)
    requires PlainKey(key) && IsScalar(v)
    ensures ReadsField(ReadEntry(Physical([Line(n, key + ": " + ScalarText(v))]) + tail, n), key, v, ScalarPreserved(v), tail, n + 1)
  {
    KeyLine(key, None);
    PhysicalScalar(n, key + ": ", v);
    KeyedText(key, Cut(v));
    ReadCut(v);
    var ls := Physical([Line(n, key + ": " + ScalarText(v))]);
    HeadOf(ls, tail);
    ReadScalarEntry(n, key + ": " + Cut(v), ls[1..] + tail);
  }

  // ── Documents ─────────────────────────────────────────────────────────────

  /** Text that starts at its own column, so that indentation can be told from text. */
  predicate Flush(l: Line) {
    l.text != "" && l.text[0] != ' ' && l.text[0] != '\n'
  }

  lemma {:induction false} RunOfSpaces(n: nat, t: string)
    requires t != "" && t[0] != ' '
    ensures Indented(Spaces(n) + t) == Line(n, t)
  {
    var s := Spaces(n) + t;
    if n == 0 {
      assert s == t;
    } else {
      RunOfSpaces(n - 1, t);
      assert s[1..] == Spaces(n - 1) + t;
    }
    assert s[n..] == t;
  }

  /** Splitting the rendered text at line breaks gives the physical lines. */
  lemma {:induction false} RenderedPhysical(ls: seq<Line>)
    requires forall l | l in ls :: Flush(l)
    ensures AllIndented(SplitEach(Rendered(ls), '\n')) == Physical(ls)
  {
    if ls != [] {
      assert ls[0] in ls && forall x | x in ls[1..] :: x in ls;
      RenderedPhysical(ls[1..]);
      assert Rendered(ls)[1..] == Rendered(ls[1..]);
      RenderedLinePhysical(ls[0]);
      AllIndentedAppend(Split(Render(ls[0]), '\n'), SplitEach(Rendered(ls[1..]), '\n'));
    }
  }

  lemma AllIndentedAppend(a: seq<string>, b: seq<string>)
    ensures AllIndented(a + b) == AllIndented(a) + AllIndented(b)
  {
  }

  lemma RenderedLinePhysical(l: Line)
    requires Flush(l)
    ensures AllIndented(Split(Render(l), '\n')) == PhysicalLine(l)
  {
    var parts := Split(l.text, '\n');
    SplitPrefix(Spaces(l.indent), l.text, '\n');
    HeadTail(l.text);
    SplitPrefix([l.text[0]], l.text[1..], '\n');
    RunOfSpaces(l.indent, parts[0]);
    AllIndentedAppend([Spaces(l.indent) + parts[0]], parts[1..]);
    assert AllIndented([Spaces(l.indent) + parts[0]]) == [Line(l.indent, parts[0])];
  }

  lemma {:induction false} EntriesFlush(fields: seq<Field>, n: nat)
    requires forall f | f in fields :: FieldPlain(f)
    ensures forall l | l in EntryLines(fields, n) :: Flush(l)
    decreases fields, 1
  {
    if fields != [] {
      var f := fields[0];
      assert f in fields && forall x | x in fields[1..] :: x in fields;
      EntriesFlush(fields[1..], n);
      assert FieldPlain(f);
      if f.value.Some? {
        KeyLine(f.key, None);
        match f.value.value
        case List(items) =>
          assert KeysPlain(f.value.value);
          ItemsFlush(items, n + 2);
        case Record(inner) =>
          assert KeysPlain(f.value.value);
          EntriesFlush(inner, n + 2);
        case _ =>
      }
    }
  }

  lemma {:induction false} ItemsFlush(items: seq<Value>, n: nat)
    requires forall x | x in items :: KeysPlain(x)
    ensures forall l | l in ItemLines(items, n) :: Flush(l)
    decreases items, 1
  {
    if items != [] {
      assert items[0] in items && forall x | x in items[1..] :: x in items;
      ItemsFlush(items[1..], n);
      match items[0]
      case List(inner) => ItemsFlush(inner, n + 2);
      case Record(fields) => EntriesFlush(fields, n + 2);
      case _ =>
    }
  }

  lemma DocumentFlush(v: Value)
    requires KeysPlain(v)
    ensures forall l | l in DocumentLines(v) :: Flush(l)
  {
    match v
    case List(items) => ItemsFlush(items, 0);
    case Record(fields) => EntriesFlush(fields, 0);
    case _ => ScalarStart(v);
  }

  lemma DocumentPhysical(v: Value)
    requires KeysPlain(v)
    ensures ReadDocument(Document(v)) ==
            if DocumentLines(v) == [] then Ok(Null) else ReadLines(Physical(DocumentLines(v)))
  {
    var ls := DocumentLines(v);
    if ls != [] {
      var body := Join(Rendered(ls), "\n");
      assert (body + "\n")[..|body + "\n"| - 1] == body;
      SplitJoined(Rendered(ls), '\n');
      DocumentFlush(v);
      RenderedPhysical(ls);
    }
  }

  lemma TopList(items: seq<Value>)
    requires KeysPlain(List(items)) && items != []
    ensures Physical(ItemLines(items, 0)) != []
    ensures ReadLines(Physical(ItemLines(items, 0))) == Ok(Defined(List(items))) <==> AllPreserved(List(items))
  {
    ItemsStart(items, 0);
    Empty(Physical(ItemLines(items, 0)));
    ItemsRead(items, 0, []);
    DashIsNoMarker(Physical(ItemLines(items, 0))[0].text);
  }

  lemma TopRecord(fields: seq<Field>)
    requires KeysPlain(Record(fields)) && EntryLines(fields, 0) != []
    ensures Physical(EntryLines(fields, 0)) != []
    ensures ReadLines(Physical(EntryLines(fields, 0))) == Ok(Defined(Record(fields))) <==> AllPreserved(Record(fields))
    ensures !NoFields(fields)
  {
    EntryIndent(fields, 0);
    EntriesStart(fields, 0);
    Empty(Physical(EntryLines(fields, 0)));
    EntriesRead(fields, 0, []);
  }

  /** What `toYaml` writes reads back as the value it was given, without its undefined
      entries, exactly when every string in it is preserved and the top has a form of its
      own. */
  lemma RoundTrip(v: Value)
    requires KeysPlain(v)
    ensures ReadDocument(Document(v)) == Ok(Defined(v)) <==> AllPreserved(v) && TopPreserved(v)
  {
    DocumentPhysical(v);
    match v
    case List(items) => if items != [] { TopList(items); }
    case Record(fields) =>
      EntryIndent(fields, 0);
      if EntryLines(fields, 0) != [] { TopRecord(fields); }
    case _ => TopScalar(v);
  }

  lemma DashIsNoMarker(t: string)
    requires IsDash(t)
    ensures t != "---" && t != "..."
  {
    assert "---"[1] == '-' && "..."[0] == '.';
  }

  /** A document whose first line is neither a key nor indented. */
  lemma TopCut(ls: seq<Line>, v: Value, cut: string)
    requires StartsWith(ls, Line(0, cut)) && SplitKey(cut).None? && IsScalar(v)
    ensures IsDash(cut) ==> ReadLines(ls) != Ok(v)
    ensures cut == "---" || cut == "..." ==> ReadLines(ls).Err?
    ensures !IsDash(cut) && ReadScalar(cut).Err? ==> ReadLines(ls).Err?
    ensures !IsDash(cut) && cut != "---" && cut != "..." && |ls| == 1 ==> ReadLines(ls) == ReadScalar(cut)
  {
  }

  lemma MarkerText(v: Value)
    requires IsScalar(v)
    ensures !TopPreserved(v) ==> ScalarText(v) == v.s && Cut(v) == v.s
    ensures TopPreserved(v) ==> ScalarText(v) != "---" && ScalarText(v) != "..."
  {
    if v.Str? && (v.s == "---" || v.s == "...") {
      MarkersAreUnquoted(v.s);
    } else {
      NoMarker(v);
    }
  }

  lemma TopScalar(v: Value)
    requires IsScalar(v)
    ensures ReadLines(Physical(DocumentLines(v))) == Ok(v) <==> ScalarPreserved(v) && TopPreserved(v)
  {
    Empty(ScalarText(v));
    Empty(Cut(v));
    PhysicalScalar(0, "", v);
    ReadCut(v);
    ScalarIsNoKey(v);
    ScalarDash(v);
    MarkerText(v);
    TopCut(Physical([Line(0, ScalarText(v))]), v, Cut(v));
  }

  lemma NoMarker(v: Value)
    requires IsScalar(v) && TopPreserved(v)
    ensures ScalarText(v) != "---" && ScalarText(v) != "..."
  {
    match v
    case Num(n) => IntTextShape(n);
    case Str(s) =>
      if NeedsQuotes(s) {
        assert "---"[0] != '"' && "..."[0] != '"';
      }
    case _ =>
  }

  lemma MarkersAreUnquoted(s: string)
    requires s == "---" || s == "..."
    ensures !NeedsQuotes(s) && '\n' !in s && Split(s, '\n') == [s]
  {
    var u := Unsigned(s);
    assert u == if s == "---" then "--" else "...";
    assert ToLower(s)[0] == s[0] && ToLower(s) !in RESERVED;
    assert DigitRun(u) == 0 && u[0..] == u && DigitRun(u[1..]) == 0;
    SplitWhole(s, '\n');
  }
}
