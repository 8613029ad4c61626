/** clients/devbox/src/spec/yaml.ts: what a value looks like as YAML text.

    The emitter works on lines. A line is kept here as an indentation and a text that starts
    at that column; the methods at the end build the same lines as strings, the way the
    source does, and are proved equal to this description. */
module YamlValues {
  import opened Wrappers

  const MAX_SAFE_INTEGER := 9007199254740991

  /** A JavaScript number that is an integer `String()` prints in full and exactly. */
  type JsInt = n: int | -MAX_SAFE_INTEGER <= n <= MAX_SAFE_INTEGER

  /** The value space of the emitter. A field's value is `None` where JavaScript holds
      `undefined`; fields come in `Object.entries` order. */
  datatype Value =
    | Null
    | Bool(b: bool)
    | Num(n: JsInt)
    | Str(s: string)
    | List(items: seq<Value>)
    | Record(fields: seq<Field>)

  datatype Field = Field(key: string, value: Option<Value>)

  predicate IsScalar(v: Value) {
    v.Null? || v.Bool? || v.Num? || v.Str?
  }

  /** The value with its undefined entries gone. */
  function Defined(v: Value): Value {
    match v
    case List(items) => List(DefinedItems(items))
    case Record(fields) => Record(DefinedFields(fields))
    case _ => v
  }

  function DefinedItems(items: seq<Value>): (r: seq<Value>)
    ensures |r| == |items|
  {
    if items == [] then [] else [Defined(items[0])] + DefinedItems(items[1..])
  }

  function DefinedFields(fields: seq<Field>): seq<Field> {
    if fields == [] then []
    else
      var first := if fields[0].value.Some? then [Field(fields[0].key, Some(Defined(fields[0].value.value)))] else [];
      first + DefinedFields(fields[1..])
  }
}

module YamlScalars {
  import opened Wrappers
  import opened Sequences
  import opened Text
  import opened YamlValues

  predicate IsDigit(c: char) {
    '0' <= c <= '9'
  }

  /** `PLAIN_RE`, one character of it. */
  predicate IsPlainChar(c: char) {
    'A' <= c <= 'Z' || 'a' <= c <= 'z' || IsDigit(c) || c in "_@./+-"
  }

  predicate AllPlain(s: string) {
    forall i | 0 <= i < |s| :: IsPlainChar(s[i])
  }

  function LowerChar(c: char): char {
    if 'A' <= c <= 'Z' then c - 'A' + 'a' else c
  }

  function ToLower(s: string): string {
    seq(|s|, i requires 0 <= i < |s| => LowerChar(s[i]))
  }

  const RESERVED: set<string> := {"true", "false", "null", "yes", "no", "on", "off", "~"}

  predicate AllDigits(s: string) {
    forall i | 0 <= i < |s| :: IsDigit(s[i])
  }

  /** The number of digits at the front of `s`. */
  function DigitRun(s: string): (k: nat)
    ensures k <= |s| && AllDigits(s[..k]) && (k < |s| ==> !IsDigit(s[k]))
  {
    if s == "" || !IsDigit(s[0]) then 0 else 1 + DigitRun(s[1..])
  }

  function Unsigned(s: string): string {
    if s != "" && (s[0] == '+' || s[0] == '-') then s[1..] else s
  }

  /** Nothing, or `e`/`E`, an optional sign and digits. */
  predicate IsExponent(s: string) {
    s == "" || ((s[0] == 'e' || s[0] == 'E') && Unsigned(s[1..]) != "" && AllDigits(Unsigned(s[1..])))
  }

  /** Digits with an optional fraction, or a bare fraction; then an optional exponent. */
  predicate IsDecimal(s: string) {
    var k := DigitRun(s);
    var r := s[k..];
    if r != "" && r[0] == '.' then
      var j := DigitRun(r[1..]);
      k + j > 0 && IsExponent(r[1 + j..])
    else k > 0 && IsExponent(r)
  }

  predicate IsRadix(s: string, marks: string, digit: char -> bool) {
    |s| > 2 && s[0] == '0' && s[1] in marks && forall i | 2 <= i < |s| :: digit(s[i])
  }

  const HEX := (c: char) => IsDigit(c) || 'a' <= c <= 'f' || 'A' <= c <= 'F'
  const OCTAL := (c: char) => '0' <= c <= '7'
  const BINARY := (c: char) => c == '0' || c == '1'

  /** `!Number.isNaN(Number(s))` on a non-empty string of plain characters. */
  predicate IsJsNumeric(s: string) {
    || IsDecimal(Unsigned(s))
    || Unsigned(s) == "Infinity"
    || IsRadix(s, "xX", HEX)
    || IsRadix(s, "oO", OCTAL)
    || IsRadix(s, "bB", BINARY)
  }

  predicate NeedsQuotes(s: string) {
    s == "" || !AllPlain(s) || ToLower(s) in RESERVED || IsJsNumeric(s)
  }

  // ── Which strings look like something else ────────────────────────────────

  predicate Digits(s: string) {
    forall i | 0 <= i < |s| :: '0' <= s[i] <= '9'
  }

  /** Nothing, or `e` or `E`, a sign or none, and digits. */
  predicate ExponentIs(e: string, mark: string, sign: string, digits: string) {
    e == "" || (e == mark + sign + digits && mark in ["e", "E"] && sign in ["", "+", "-"] && digits != "" && Digits(digits))
  }

  ghost predicate Exponent(e: string) {
    exists mark, sign, digits :: ExponentIs(e, mark, sign, digits)
  }

  predicate DecimalIs(s: string, a: string, point: string, b: string, e: string) {
    s == a + point + b + e && Digits(a) && Digits(b) && point in ["", "."] && (point == "" ==> b == "") && a + b != ""
  }

  /** Digits, of which some may stand behind a point, and an exponent or none. */
  ghost predicate Decimal(s: string) {
    exists a, point, b, e :: DecimalIs(s, a, point, b, e) && Exponent(e)
  }

  lemma DigitsMean(s: string)
    ensures Digits(s) <==> AllDigits(s)
  {
  }

  lemma {:induction false} RunIs(a: string, rest: string)
    requires Digits(a) && (rest == "" || !('0' <= rest[0] <= '9'))
    ensures DigitRun(a + rest) == |a|
  {
    if a == "" {
      Sequences.Empty(rest);
    } else {
      AppendTail(a, rest);
      RunIs(a[1..], rest);
    }
  }

  lemma SignIs(sign: string, digits: string)
    requires sign in ["", "+", "-"] && digits != "" && Digits(digits)
    ensures Unsigned(sign + digits) == digits
  {
    if sign == "" {
      Sequences.Empty(digits);
    } else {
      AppendTail(sign, digits);
      Sequences.Empty(digits);
    }
  }

  lemma SignLeaves(s: string) returns (sign: string)
    ensures sign in ["", "+", "-"] && s == sign + Unsigned(s)
  {
    if s != "" && (s[0] == '+' || s[0] == '-') {
      sign := [s[0]];
      HeadTail(s);
    } else {
      sign := "";
      Sequences.Empty(s);
    }
  }

  lemma ExponentMeans(e: string)
    ensures Exponent(e) <==> IsExponent(e)
  {
    if mark, sign, digits :| ExponentIs(e, mark, sign, digits) {
      if e != "" {
        Assoc(mark, sign, digits);
        AppendTail(mark, sign + digits);
        Sequences.Empty(sign + digits);
        SignIs(sign, digits);
        DigitsMean(digits);
      }
    }
    if IsExponent(e) {
      if e == "" {
        assert ExponentIs(e, "", "", "");
      } else {
        var sign := SignLeaves(e[1..]);
        var digits := Unsigned(e[1..]);
        HeadTail(e);
        Assoc([e[0]], sign, digits);
        assert ExponentIs(e, [e[0]], sign, digits);
      }
    }
  }

  lemma ExponentBegins(e: string)
    requires Exponent(e)
    ensures e == "" || (e[0] in ['e', 'E'] && !('0' <= e[0] <= '9') && e[0] != '.')
  {
    ExponentMeans(e);
  }

  lemma Apart(a: string, b: string)
    ensures (a + b)[..|a|] == a && (a + b)[|a|..] == b
  {
  }

  lemma WholeDecimal(a: string, e: string)
    requires Digits(a) && a != "" && Exponent(e)
    ensures IsDecimal(a + e)
  {
    ExponentMeans(e);
    ExponentBegins(e);
    RunIs(a, e);
    Apart(a, e);
  }

  lemma PointDecimal(a: string, b: string, e: string)
    requires Digits(a) && Digits(b) && |a| + |b| > 0 && Exponent(e)
    ensures IsDecimal(a + ("." + (b + e)))
  {
    var r := "." + (b + e);
    ExponentMeans(e);
    ExponentBegins(e);
    RunIs(a, r);
    Apart(a, r);
    RunIs(b, e);
    Apart(b, e);
    Apart(".", b + e);
    DropBehind(".", b, e);
  }

  lemma DropBehind(p: string, b: string, e: string)
    ensures (p + (b + e))[|p| + |b|..] == e
  {
  }

  lemma DecimalParts(s: string, a: string, point: string, b: string, e: string)
    requires DecimalIs(s, a, point, b, e) && Exponent(e)
    ensures IsDecimal(s)
  {
    if point == "" {
      assert s == a + e && a + b == a;
      WholeDecimal(a, e);
    } else {
      assert s == a + ("." + (b + e)) && |a + b| == |a| + |b|;
      PointDecimal(a, b, e);
    }
  }

  /** A decimal without a point. */
  lemma WholeFound(s: string, k: nat)
    requires k <= |s| && 0 < k && AllDigits(s[..k]) && IsExponent(s[k..])
    ensures Decimal(s)
  {
    var a, e := s[..k], s[k..];
    ExponentMeans(e);
    DigitsMean(a);
    assert s == a + "" + "" + e && a + "" == a;
    assert DecimalIs(s, a, "", "", e);
  }

  lemma PointFound(a: string, b: string, e: string)
    requires AllDigits(a) && AllDigits(b) && |a| + |b| > 0 && IsExponent(e)
    ensures Decimal(a + ("." + (b + e)))
  {
    var s := a + ("." + (b + e));
    ExponentMeans(e);
    DigitsMean(a);
    DigitsMean(b);
    assert s == a + "." + b + e && |a + b| > 0;
    assert DecimalIs(s, a, ".", b, e);
  }

  lemma CutAt(s: string, k: nat)
    requires k <= |s|
    ensures s == s[..k] + s[k..]
  {
  }

  lemma DecimalFound(s: string)
    requires IsDecimal(s)
    ensures Decimal(s)
  {
    var k := DigitRun(s);
    var r := s[k..];
    if r != "" && r[0] == '.' {
      var tail := r[1..];
      var j := DigitRun(tail);
      CutAt(s, k);
      HeadTail(r);
      CutAt(tail, j);
      assert tail[j..] == r[1 + j..];
      PointFound(s[..k], tail[..j], tail[j..]);
    } else {
      WholeFound(s, k);
    }
  }

  lemma DecimalMeans(s: string)
    ensures Decimal(s) <==> IsDecimal(s)
  {
    if a, point, b, e :| DecimalIs(s, a, point, b, e) && Exponent(e) {
      DecimalParts(s, a, point, b, e);
    }
    if IsDecimal(s) {
      DecimalFound(s);
    }
  }

  /** `0`, a letter, and digits below the base. */
  predicate BasedOn(s: string, letters: seq<char>, base: nat) {
    |s| >= 3 && s[0] == '0' && s[1] in letters && forall c | c in s[2..] :: DigitBelow(c, base)
  }

  predicate DigitBelow(c: char, base: nat) {
    || ('0' <= c <= '9' && (c - '0') as nat < base)
    || ('a' <= c <= 'z' && (c - 'a') as nat + 10 < base)
    || ('A' <= c <= 'Z' && (c - 'A') as nat + 10 < base)
  }

  lemma BasedOnMeans(s: string)
    ensures BasedOn(s, ['x', 'X'], 16) <==> IsRadix(s, "xX", HEX)
    ensures BasedOn(s, ['o', 'O'], 8) <==> IsRadix(s, "oO", OCTAL)
    ensures BasedOn(s, ['b', 'B'], 2) <==> IsRadix(s, "bB", BINARY)
    ensures BasedOn(s, ['x'], 16) <==> IsRadix(s, "x", HEX)
    ensures BasedOn(s, ['o'], 8) <==> IsRadix(s, "o", OCTAL)
  {
    if |s| >= 3 {
      assert forall i | 2 <= i < |s| :: s[2..][i - 2] == s[i];
      DigitsOf(s, 16, HEX);
      DigitsOf(s, 8, OCTAL);
      DigitsOf(s, 2, BINARY);
    }
  }

  lemma DigitsOf(s: string, base: nat, digit: char -> bool)
    requires |s| >= 3 && forall c :: DigitBelow(c, base) <==> digit(c)
    ensures (forall c | c in s[2..] :: DigitBelow(c, base)) <==> forall i | 2 <= i < |s| :: digit(s[i])
  {
    if forall c | c in s[2..] :: DigitBelow(c, base) {
      forall i | 2 <= i < |s| ensures digit(s[i]) {
        assert s[2..][i - 2] == s[i];
      }
    }
  }

  predicate SignedBy(s: string, sign: string, rest: string) {
    sign in ["", "+", "-"] && s == sign + rest
  }

  /** A decimal, or one of these words, with a sign or none. */
  ghost predicate SignedNumber(s: string, words: seq<string>) {
    exists sign, rest :: SignedBy(s, sign, rest) && (rest in words || Decimal(rest))
  }

  predicate NoSign(rest: string) {
    rest != "" && rest[0] != '+' && rest[0] != '-'
  }

  lemma UnsignedIs(s: string, sign: string, rest: string)
    requires SignedBy(s, sign, rest) && NoSign(rest)
    ensures Unsigned(s) == rest
  {
    Apart(sign, rest);
  }

  lemma DecimalNoSign(rest: string)
    requires Decimal(rest)
    ensures NoSign(rest)
  {
    DecimalMeans(rest);
  }

  lemma SignedMeans(s: string, words: seq<string>)
    requires forall w | w in words :: NoSign(w)
    ensures SignedNumber(s, words) <==> Unsigned(s) in words || IsDecimal(Unsigned(s))
  {
    if sign, rest :| SignedBy(s, sign, rest) && (rest in words || Decimal(rest)) {
      if Decimal(rest) {
        DecimalNoSign(rest);
        DecimalMeans(rest);
      }
      UnsignedIs(s, sign, rest);
    }
    var sign := SignLeaves(s);
    assert SignedBy(s, sign, Unsigned(s));
    DecimalMeans(Unsigned(s));
  }

  /** What `Number` takes for a number: a decimal or `Infinity` with a sign or none, or a whole
      number in base 16, 8 or 2. */
  ghost predicate LooksNumeric(s: string) {
    || SignedNumber(s, ["Infinity"])
    || BasedOn(s, ['x', 'X'], 16) || BasedOn(s, ['o', 'O'], 8) || BasedOn(s, ['b', 'B'], 2)
  }

  lemma LooksNumericMeans(s: string)
    ensures LooksNumeric(s) <==> IsJsNumeric(s)
  {
    BasedOnMeans(s);
    assert "Infinity"[0] == 'I';
    SignedMeans(s, ["Infinity"]);
  }

  /** The same letters, in whatever case. */
  predicate SameLetters(s: string, w: string) {
    |s| == |w| && forall i | 0 <= i < |s| :: s[i] == w[i] || ('A' <= s[i] <= 'Z' && s[i] as int + 32 == w[i] as int)
  }

  lemma {:induction false} SameLettersMeans(s: string, w: string)
    requires forall i | 0 <= i < |w| :: !('A' <= w[i] <= 'Z')
    ensures SameLetters(s, w) <==> ToLower(s) == w
  {
    if SameLetters(s, w) {
      assert forall i | 0 <= i < |s| :: ToLower(s)[i] == w[i];
    }
    if ToLower(s) == w {
      forall i | 0 <= i < |s| ensures s[i] == w[i] || ('A' <= s[i] <= 'Z' && s[i] as int + 32 == w[i] as int) {
        assert ToLower(s)[i] == w[i];
      }
    }
  }

  predicate AWord(s: string) {
    || SameLetters(s, "true") || SameLetters(s, "false") || SameLetters(s, "null") || SameLetters(s, "yes")
    || SameLetters(s, "no") || SameLetters(s, "on") || SameLetters(s, "off") || SameLetters(s, "~")
  }

  lemma AWordMeans(s: string)
    ensures AWord(s) <==> ToLower(s) in RESERVED
  {
    SameLettersMeans(s, "true");
    SameLettersMeans(s, "false");
    SameLettersMeans(s, "null");
    SameLettersMeans(s, "yes");
    SameLettersMeans(s, "no");
    SameLettersMeans(s, "on");
    SameLettersMeans(s, "off");
    SameLettersMeans(s, "~");
  }

  /** A string is quoted exactly when it is empty, holds a character other than a letter, a digit
      or one of `_@./+-`, is one of eight words in whatever case, or looks numeric. */
  lemma QuotedWhen(s: string)
    ensures NeedsQuotes(s) <==>
            || s == "" || AWord(s) || LooksNumeric(s)
            || exists i | 0 <= i < |s| ::
                 !('A' <= s[i] <= 'Z' || 'a' <= s[i] <= 'z' || '0' <= s[i] <= '9' || s[i] in ['_', '@', '.', '/', '+', '-'])
  {
    AWordMeans(s);
    LooksNumericMeans(s);
    assert forall c :: IsPlainChar(c) <==> 'A' <= c <= 'Z' || 'a' <= c <= 'z' || '0' <= c <= '9' || c in ['_', '@', '.', '/', '+', '-'];
  }

  function Digit(d: nat): char
    requires d < 10
  {
    '0' + d as char
  }

  function NatText(n: nat): (s: string)
    ensures s != "" && AllDigits(s)
  {
    if n < 10 then [Digit(n)] else NatText(n / 10) + [Digit(n % 10)]
  }

  function IntText(n: int): string {
    if n < 0 then "-" + NatText(-n) else NatText(n)
  }

  function Escape(s: string): string {
    ReplaceChar(ReplaceChar(s, '\\', "\\\\"), '"', "\\\"")
  }

  function ScalarText(v: Value): string
    requires IsScalar(v)
  {
    match v
    case Null => "null"
    case Bool(b) => if b then "true" else "false"
    case Num(n) => IntText(n)
    case Str(s) => if NeedsQuotes(s) then "\"" + Escape(s) + "\"" else s
  }

  // ── Reading a scalar back ─────────────────────────────────────────────────

  datatype YamlError = NotInSubset

  /** A character allowed inside double quotes on one line (YAML 1.2.2, production nb-json). */
  predicate IsPrintable(c: char) {
    c == '\t' || c >= ' '
  }

  /** The rest of a double-quoted scalar (section 7.3.1), with the two escapes in use. */
  function Unquote(t: string): Result<string, YamlError> {
    if t == "" then Err(NotInSubset)
    else if t[0] == '"' then if |t| == 1 then Ok("") else Err(NotInSubset)
    else if t[0] == '\\' then
      if |t| > 1 && (t[1] == '\\' || t[1] == '"') then Push(t[1], Unquote(t[2..])) else Err(NotInSubset)
    else if IsPrintable(t[0]) then Push(t[0], Unquote(t[1..]))
    else Err(NotInSubset)
  }

  function Push(c: char, r: Result<string, YamlError>): Result<string, YamlError> {
    if r.Ok? then Ok([c] + r.value) else r
  }

  function DigitsValue(s: string): nat
    requires AllDigits(s)
  {
    if s == "" then 0
    else
      assert IsDigit(s[|s| - 1]);
      10 * DigitsValue(s[..|s| - 1]) + (s[|s| - 1] - '0') as nat
  }

  const INFINITIES: set<string> := {".inf", ".Inf", ".INF"}
  const NANS: set<string> := {".nan", ".NaN", ".NAN"}

  predicate IsNotFinite(t: string) {
    Unsigned(t) in INFINITIES || t in NANS
  }

  /** The plain words of the core schema that are not strings. */
  function WordValue(t: string): Option<Value> {
    if t == "null" || t == "Null" || t == "NULL" then Some(Null)
    else if t == "true" || t == "True" || t == "TRUE" then Some(Bool(true))
    else if t == "false" || t == "False" || t == "FALSE" then Some(Bool(false))
    else None
  }

  predicate IsInteger(t: string) {
    AllDigits(Unsigned(t)) && Unsigned(t) != ""
  }

  function IntegerValue(t: string): Result<Value, YamlError>
    requires IsInteger(t)
  {
    var n: int := DigitsValue(Unsigned(t));
    var m := if t[0] == '-' then -n else n;
    if -MAX_SAFE_INTEGER <= m <= MAX_SAFE_INTEGER then Ok(Num(m)) else Err(NotInSubset)
  }

  predicate IsOtherNumber(t: string) {
    IsDecimal(Unsigned(t)) || IsRadix(t, "x", HEX) || IsRadix(t, "o", OCTAL) || IsNotFinite(t)
  }

  /** Numbers of the core schema that are not whole or decimal text alone: with a point or an
      exponent, in base 16 or 8, infinite, or not a number. */
  lemma OtherNumberMeans(t: string)
    ensures IsOtherNumber(t) <==>
            SignedNumber(t, [".inf", ".Inf", ".INF"]) || t in [".nan", ".NaN", ".NAN"] || BasedOn(t, ['x'], 16) || BasedOn(t, ['o'], 8)
  {
    BasedOnMeans(t);
    assert ".inf"[0] == '.' && ".Inf"[0] == '.' && ".INF"[0] == '.';
    SignedMeans(t, [".inf", ".Inf", ".INF"]);
  }

  /** Tag resolution of a plain scalar by the core schema (section 10.3.2). `-` alone and a
      leading `@` cannot start one (section 5.3); numbers that are not safe integers resolve
      to numbers outside this value space. */
  function Resolve(t: string): Result<Value, YamlError> {
    if t == "" || !AllPlain(t) || t == "-" || t[0] == '@' then Err(NotInSubset)
    else if WordValue(t).Some? then Ok(WordValue(t).value)
    else if IsInteger(t) then IntegerValue(t)
    else if IsOtherNumber(t) then Err(NotInSubset)
    else Ok(Str(t))
  }

  function ReadScalar(t: string): Result<Value, YamlError> {
    if t == "{}" then Ok(Record([]))
    else if t == "[]" then Ok(List([]))
    else if t != "" && t[0] == '"' then
      var r := Unquote(t[1..]);
      if r.Ok? then Ok(Str(r.value)) else Err(r.error)
    else Resolve(t)
  }

  /** The strings the emitter's text preserves: no line break or other control character, and
      none of the plain forms it forgets to quote. */
  predicate Preserved(s: string) {
    && AllPrintable(s)
    && (s != "" && AllPlain(s) ==> s != "-" && s[0] != '@' && !IsNotFinite(s))
  }

  predicate ScalarPreserved(v: Value)
    requires IsScalar(v)
  {
    v.Str? ==> Preserved(v.s)
  }

  // ── Laws ──────────────────────────────────────────────────────────────────

  lemma {:induction false} NatTextValue(n: nat)
    ensures DigitsValue(NatText(n)) == n
  {
    if n < 10 {
      assert NatText(n)[..0] == "";
      assert DigitsValue("") == 0;
    } else {
      NatTextValue(n / 10);
      var s := NatText(n);
      assert s[..|s| - 1] == NatText(n / 10);
    }
  }

  lemma NotAWord(t: string)
    requires t != "" && (IsDigit(t[0]) || t[0] == '-')
    ensures WordValue(t) == None
  {
  }

  lemma DigitsAreDecimal(s: string)
    requires s != "" && AllDigits(s)
    ensures IsDecimal(s)
  {
    assert IsDigit(s[0]);
    assert DigitRun(s) == |s| && s[|s|..] == "";
  }

  lemma IntTextShape(n: int)
    ensures var t, s := IntText(n), NatText(if n < 0 then -n else n);
            AllPlain(t) && Unsigned(t) == s && (if n < 0 then t[0] == '-' && t == "-" + s else IsDigit(t[0]) && t == s)
  {
    var t, s := IntText(n), NatText(if n < 0 then -n else n);
    assert IsDigit(s[0]);
    forall i | 0 <= i < |t| ensures IsPlainChar(t[i]) {
      assert if n < 0 then i > 0 ==> t[i] == s[i - 1] else t[i] == s[i];
    }
    assert n < 0 ==> t[1..] == s;
  }

  lemma IntegerTextValue(n: JsInt)
    ensures IsInteger(IntText(n)) && IntegerValue(IntText(n)) == Ok(Num(n))
  {
    IntTextShape(n);
    NatTextValue(if n < 0 then -n else n);
  }

  lemma NumRead(n: JsInt)
    ensures ReadScalar(IntText(n)) == Ok(Num(n)) && '\n' !in IntText(n)
  {
    var t := IntText(n);
    IntTextShape(n);
    IntegerTextValue(n);
    NotAWord(t);
    PlainIsPrintable(t);
    assert ReadScalar(t) == Resolve(t);
    assert Resolve(t) == IntegerValue(t);
  }

  function EscapedChar(c: char): string {
    if c == '\\' then "\\\\" else if c == '"' then "\\\"" else [c]
  }

  /** Escaping backslashes and then quotes treats every character on its own. */
  lemma EscapeStep(s: string)
    requires s != ""
    ensures Escape(s) == EscapedChar(s[0]) + Escape(s[1..])
  {
    var inner := ReplaceChar(s[1..], '\\', "\\\\");
    if s[0] == '\\' {
      var two := "\\\\" + inner;
      assert two[1..] == "\\" + inner && two[1..][1..] == inner;
      assert ReplaceChar(two, '"', "\\\"") == "\\" + ReplaceChar(two[1..], '"', "\\\"");
      assert ReplaceChar(two[1..], '"', "\\\"") == "\\" + Escape(s[1..]);
    } else {
      assert ([s[0]] + inner)[1..] == inner;
    }
  }

  lemma UnquoteStep(c: char, u: string)
    ensures Unquote(EscapedChar(c) + u) == if IsPrintable(c) then Push(c, Unquote(u)) else Err(NotInSubset)
  {
    var t := EscapedChar(c) + u;
    assert t[|EscapedChar(c)|..] == u;
  }

  predicate AllPrintable(s: string) {
    forall i | 0 <= i < |s| :: IsPrintable(s[i])
  }

  lemma AllPrintableStep(s: string)
    requires s != ""
    ensures AllPrintable(s) <==> IsPrintable(s[0]) && AllPrintable(s[1..])
  {
    assert forall i | 0 < i < |s| :: s[i] == s[1..][i - 1];
  }

  /** Reading undoes escaping when every character may stand on a line. */
  lemma {:induction false} UnquoteEscaped(s: string)
    requires AllPrintable(s)
    ensures Unquote(Escape(s) + "\"") == Ok(s) && '\n' !in Escape(s) + "\""
  {
    if s == "" {
      assert Escape(s) + "\"" == "\"";
    } else {
      AllPrintableStep(s);
      EscapeStep(s);
      UnquoteEscaped(s[1..]);
      UnquoteStep(s[0], Escape(s[1..]) + "\"");
      Assoc(EscapedChar(s[0]), Escape(s[1..]), "\"");
      HeadTail(s);
    }
  }

  /** Otherwise what comes before the first line break is already refused: it holds a
      character that may not stand there, or the quotes are still open. */
  lemma {:induction false} UnquoteBroken(s: string)
    requires !AllPrintable(s)
    ensures Unquote(Split(Escape(s) + "\"", '\n')[0]).Err?
  {
    AllPrintableStep(s);
    EscapeStep(s);
    var u := Escape(s[1..]) + "\"";
    Assoc(EscapedChar(s[0]), Escape(s[1..]), "\"");
    if s[0] == '\n' {
      ConsTail(s[0], u);
    } else {
      SplitPrefix(EscapedChar(s[0]), u, '\n');
      UnquoteStep(s[0], Split(u, '\n')[0]);
      if IsPrintable(s[0]) {
        UnquoteBroken(s[1..]);
      }
    }
  }

  lemma PlainIsPrintable(s: string)
    requires AllPlain(s)
    ensures '\n' !in s && AllPrintable(s)
  {
    forall i | 0 <= i < |s| ensures IsPrintable(s[i]) && s[i] != '\n' { assert IsPlainChar(s[i]); }
  }

  lemma WordsAreReserved(t: string)
    ensures WordValue(t).Some? ==> ToLower(t) in RESERVED
  {
    assert ToLower("null") == "null" == ToLower("Null") == ToLower("NULL");
    assert ToLower("true") == "true" == ToLower("True") == ToLower("TRUE");
    assert ToLower("false") == "false" == ToLower("False") == ToLower("FALSE");
  }

  lemma UnquotedRead(s: string)
    requires !NeedsQuotes(s)
    ensures ReadScalar(s) == (if Preserved(s) then Ok(Str(s)) else Err(NotInSubset))
  {
    WordsAreReserved(s);
    PlainIsPrintable(s);
    assert IsPlainChar(s[0]);
    if IsInteger(s) {
      DigitsAreDecimal(Unsigned(s));
    }
    assert IsOtherNumber(s) <==> IsNotFinite(s) by {
      RadixMarks(s);
    }
    assert ReadScalar(s) == Resolve(s);
  }

  lemma RadixMarks(s: string)
    ensures IsRadix(s, "x", HEX) || IsRadix(s, "o", OCTAL) ==> IsJsNumeric(s)
  {
    assert 'x' in "xX" && 'o' in "oO";
  }

  /** A scalar survives being written and read exactly when it is preserved; otherwise the
      first physical line of its text is rejected. */
  lemma ScalarRoundTrip(v: Value)
    requires IsScalar(v)
    ensures ScalarText(v) != ""
    ensures ScalarPreserved(v) ==> '\n' !in ScalarText(v) && ReadScalar(ScalarText(v)) == Ok(v)
    ensures !ScalarPreserved(v) ==> ReadScalar(Split(ScalarText(v), '\n')[0]).Err?
  {
    match v
    case Null =>
    case Bool(b) =>
    case Num(n) => NumRead(n);
    case Str(s) => StringRoundTrip(s);
  }

  lemma StringRoundTrip(s: string)
    ensures ScalarText(Str(s)) != ""
    ensures Preserved(s) ==> '\n' !in ScalarText(Str(s)) && ReadScalar(ScalarText(Str(s))) == Ok(Str(s))
    ensures !Preserved(s) ==> ReadScalar(Split(ScalarText(Str(s)), '\n')[0]).Err?
  {
    if NeedsQuotes(s) {
      QuotedRead(s);
    } else {
      UnquotedRead(s);
      PlainIsPrintable(s);
      SplitWhole(s, '\n');
    }
  }

  lemma QuotedRead(s: string)
    requires NeedsQuotes(s)
    ensures var t := "\"" + Escape(s) + "\"";
            if Preserved(s) then '\n' !in t && ReadScalar(t) == Ok(Str(s))
            else ReadScalar(Split(t, '\n')[0]).Err?
  {
    var u := Escape(s) + "\"";
    Assoc("\"", Escape(s), "\"");
    ConsTail('"', u);
    if s != "" && AllPlain(s) && (s == "-" || s[0] == '@' || IsNotFinite(s)) {
      MissedFormsAreUnquoted(s);
    }
    if AllPrintable(s) {
      UnquoteEscaped(s);
    } else {
      UnquoteBroken(s);
      SplitPrefix("\"", u, '\n');
      ConsTail('"', Split(u, '\n')[0]);
    }
  }

  /** The forms the emitter misses are never quoted. */
  lemma MissedFormsAreUnquoted(s: string)
    requires s != "" && AllPlain(s)
    requires s == "-" || s[0] == '@' || IsNotFinite(s)
    ensures !NeedsQuotes(s)
  {
    var l, u := ToLower(s), Unsigned(s);
    assert l[0] == s[0] && l !in RESERVED;
    if IsNotFinite(s) {
      assert u[0] == '.' && !IsDigit(u[1]);
      assert DigitRun(u) == 0 && u[0..] == u && DigitRun(u[1..]) == 0;
    } else {
      assert u == (if s == "-" then "" else s);
      assert DigitRun(u) == 0 && u[0..] == u;
    }
  }
}

module YamlEmitter {
  import opened Wrappers
  import opened Sequences
  import opened Text
  import opened YamlValues
  import opened YamlScalars

  /** A line: what stands at column `indent`. */
  datatype Line = Line(indent: nat, text: string)

  function Spaces(n: nat): (s: string)
    ensures |s| == n && forall i | 0 <= i < n :: s[i] == ' '
  {
    seq(n, _ => ' ')
  }

  function Render(l: Line): string {
    Spaces(l.indent) + l.text
  }

  function Rendered(ls: seq<Line>): seq<string> {
    seq(|ls|, i requires 0 <= i < |ls| => Render(ls[i]))
  }

  predicate NoFields(fields: seq<Field>) {
    forall f | f in fields :: f.value.None?
  }

  // ── What is emitted ───────────────────────────────────────────────────────

  function FieldLines(f: Field, n: nat): seq<Line> {
    if f.value.None? then []
    else
      match f.value.value
      case List(items) =>
        if items == [] then [Line(n, f.key + ": []")] else [Line(n, f.key + ":")] + ItemLines(items, n + 2)
      case Record(fields) =>
        if NoFields(fields) then [Line(n, f.key + ": {}")] else [Line(n, f.key + ":")] + EntryLines(fields, n + 2)
      case v => [Line(n, f.key + ": " + ScalarText(v))]
  }

  function EntryLines(fields: seq<Field>, n: nat): seq<Line> {
    if fields == [] then [] else FieldLines(fields[0], n) + EntryLines(fields[1..], n)
  }

  /** A record's first line moves up onto the dash. */
  function Hoist(sub: seq<Line>, n: nat): seq<Line>
    requires sub != []
  {
    [Line(n, "- " + sub[0].text)] + sub[1..]
  }

  function ItemLinesOf(v: Value, n: nat): seq<Line> {
    match v
    case List(items) => if items == [] then [Line(n, "- []")] else [Line(n, "-")] + ItemLines(items, n + 2)
    case Record(fields) =>
      var sub := EntryLines(fields, n + 2);
      if sub == [] then [Line(n, "- {}")] else Hoist(sub, n)
    case v => [Line(n, "- " + ScalarText(v))]
  }

  function ItemLines(items: seq<Value>, n: nat): seq<Line> {
    if items == [] then [] else ItemLinesOf(items[0], n) + ItemLines(items[1..], n)
  }

  function DocumentLines(v: Value): seq<Line> {
    match v
    case List(items) => ItemLines(items, 0)
    case Record(fields) => EntryLines(fields, 0)
    case v => [Line(0, ScalarText(v))]
  }

  function Document(v: Value): string {
    var lines := Rendered(DocumentLines(v));
    if lines == [] then "" else Join(lines, "\n") + "\n"
  }

  // ── The emitter itself ────────────────────────────────────────────────────

  method EmitEntries(obj: seq<Field>, pad: string) returns (lines: seq<string>)
    requires pad == Spaces(|pad|)
    ensures lines == Rendered(EntryLines(obj, |pad|))
    decreases obj, 0
  {
    lines := [];
    DeeperPad(pad);
    for i := 0 to |obj|
      invariant lines == Rendered(EntryLines(obj[..i], |pad|))
    {
      EntryLinesSnoc(obj, i, |pad|);
      ghost var before, field := EntryLines(obj[..i], |pad|), FieldLines(obj[i], |pad|);
      RenderedAppend(before, field);
      var key, value := obj[i].key, obj[i].value;
      if value.None? {
        Empty(Rendered(before));
        continue;
      }
      match value.value {
        case List(items) =>
          if |items| == 0 {
            RenderedLine(pad, key + ": []");
            lines := lines + [pad + (key + ": []")];
          } else {
            RenderedLine(pad, key + ":");
            var sub := EmitList(items, pad + "  ");
            NestedLines(pad, key + ":", field);
            lines := lines + ([pad + (key + ":")] + sub);
          }
        case Record(fields) =>
          if NoFields(fields) {
            RenderedLine(pad, key + ": {}");
            lines := lines + [pad + (key + ": {}")];
          } else {
            var sub := EmitEntries(fields, pad + "  ");
            NestedLines(pad, key + ":", field);
            lines := lines + ([pad + (key + ":")] + sub);
          }
        case v =>
          RenderedLine(pad, key + ": " + ScalarText(v));
          lines := lines + [pad + (key + ": " + ScalarText(v))];
      }
    }
    assert obj[..|obj|] == obj;
  }

  method EmitList(arr: seq<Value>, pad: string) returns (lines: seq<string>)
    requires pad == Spaces(|pad|)
    ensures lines == Rendered(ItemLines(arr, |pad|))
    decreases arr, 0
  {
    lines := [];
    DeeperPad(pad);
    for i := 0 to |arr|
      invariant lines == Rendered(ItemLines(arr[..i], |pad|))
    {
      ItemLinesSnoc(arr, i, |pad|);
      RenderedAppend(ItemLines(arr[..i], |pad|), ItemLinesOf(arr[i], |pad|));
      match arr[i] {
        case List(items) =>
          if |items| == 0 {
            RenderedLine(pad, "- []");
            lines := lines + [pad + "- []"];
          } else {
            var sub := EmitList(items, pad + "  ");
            NestedLines(pad, "-", ItemLinesOf(arr[i], |pad|));
            lines := lines + ([pad + "-"] + sub);
          }
        case Record(fields) =>
          var sub := EmitRecordItem(fields, pad);
          lines := lines + sub;
        case v =>
          RenderedLine(pad, "- " + ScalarText(v));
          lines := lines + [pad + ("- " + ScalarText(v))];
      }
    }
    assert arr[..|arr|] == arr;
  }

  /** A record inside a list: its first key is hoisted onto the dash line. */
  method EmitRecordItem(record: seq<Field>, pad: string) returns (sub: seq<string>)
    requires pad == Spaces(|pad|)
    ensures sub == Rendered(ItemLinesOf(Record(record), |pad|))
    decreases record, 1
  {
    DeeperPad(pad);
    sub := EmitEntries(record, pad + "  ");
    if |sub| == 0 {
      RenderedLine(pad, "- {}");
      sub := [pad + "- {}"];
    } else {
      EntryIndent(record, |pad| + 2);
      HoistedText(EntryLines(record, |pad| + 2), |pad|);
      sub := sub[0 := pad + "- " + sub[0][|pad| + 2..]];
    }
  }

  /** `toYaml`. */
  method ToYaml(value: Value) returns (text: string)
    ensures text == Document(value)
  {
    var lines: seq<string>;
    match value {
      case List(items) => lines := EmitList(items, "");
      case Record(fields) => lines := EmitEntries(fields, "");
      case v => lines := [ScalarText(v)];
    }
    RenderedDocument(value, lines);
    text := if |lines| != 0 then Join(lines, "\n") + "\n" else "";
  }

  lemma RenderedDocument(v: Value, lines: seq<string>)
    requires match v
             case List(items) => lines == Rendered(ItemLines(items, 0))
             case Record(fields) => lines == Rendered(EntryLines(fields, 0))
             case _ => lines == [ScalarText(v)]
    ensures lines == Rendered(DocumentLines(v)) && Document(v) == if |lines| != 0 then Join(lines, "\n") + "\n" else ""
  {
    if IsScalar(v) {
      Sequences.Empty(ScalarText(v));
    }
  }

  lemma RenderedAppend(a: seq<Line>, b: seq<Line>)
    ensures Rendered(a + b) == Rendered(a) + Rendered(b)
  {
  }

  /** A pushed line is a rendered one. */
  lemma RenderedLine(pad: string, text: string)
    requires pad == Spaces(|pad|)
    ensures Rendered([Line(|pad|, text)]) == [pad + text]
  {
  }

  lemma NestedLines(pad: string, text: string, ls: seq<Line>)
    requires pad == Spaces(|pad|) && ls != [] && ls[0] == Line(|pad|, text)
    ensures Rendered(ls) == [pad + text] + Rendered(ls[1..])
  {
    HeadTail(ls);
    RenderedAppend([ls[0]], ls[1..]);
    RenderedLine(pad, text);
  }

  lemma DeeperPad(pad: string)
    requires pad == Spaces(|pad|)
    ensures pad + "  " == Spaces(|pad| + 2)
  {
  }

  /** Replacing the indentation of the first string by a dash is the hoist. */
  lemma HoistedText(ls: seq<Line>, n: nat)
    requires ls != [] && ls[0].indent == n + 2
    ensures var sub := Rendered(ls);
            sub[0 := Spaces(n) + "- " + sub[0][n + 2..]] == Rendered(Hoist(ls, n))
  {
    var sub := Rendered(ls);
    assert sub[0][n + 2..] == ls[0].text;
    assert Spaces(n) + "- " + ls[0].text == Render(Line(n, "- " + ls[0].text));
  }

  lemma {:induction false} EntryLinesSnoc(fields: seq<Field>, i: nat, n: nat)
    requires i < |fields|
    ensures EntryLines(fields[..i + 1], n) == EntryLines(fields[..i], n) + FieldLines(fields[i], n)
  {
    if i == 0 {
      assert fields[..1] == [fields[0]];
    } else {
      EntryLinesSnoc(fields[1..], i - 1, n);
      assert fields[..i + 1][1..] == fields[1..][..i];
      assert fields[..i][1..] == fields[1..][..i - 1];
    }
  }

  lemma {:induction false} ItemLinesSnoc(items: seq<Value>, i: nat, n: nat)
    requires i < |items|
    ensures ItemLines(items[..i + 1], n) == ItemLines(items[..i], n) + ItemLinesOf(items[i], n)
  {
    if i == 0 {
      assert items[..1] == [items[0]];
    } else {
      ItemLinesSnoc(items[1..], i - 1, n);
      assert items[..i + 1][1..] == items[1..][..i];
      assert items[..i][1..] == items[1..][..i - 1];
    }
  }

  /** The first line of a record stands at its own indentation, so cutting that many
      characters off cuts nothing else. */
  lemma {:induction false} EntryIndent(fields: seq<Field>, n: nat)
    ensures EntryLines(fields, n) != [] ==> EntryLines(fields, n)[0].indent == n
    ensures EntryLines(fields, n) == [] <==> NoFields(fields)
    ensures EntryLines(fields, n) == [] <==> DefinedFields(fields) == []
  {
    if fields != [] {
      EntryIndent(fields[1..], n);
      assert fields[0] in fields && forall f | f in fields[1..] :: f in fields;
      assert forall f | f in fields :: f == fields[0] || f in fields[1..];
    }
  }
}
