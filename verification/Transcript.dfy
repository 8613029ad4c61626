/** clients/devbox/src/transcript.ts: rewriting the paths inside a transcript. */
module Transcript {
  import opened Wrappers
  import opened Sequences
  import opened Text

  datatype Mapping = Mapping(from: string, to: string)

  // ── One pass ──────────────────────────────────────────────────────────────

  /** The alternative a regular expression `from1|from2|…` picks at the front of `text`. */
  function FirstMatch(text: string, ms: seq<Mapping>): (r: Option<string>)
    ensures r.Some? ==> r.value <= text && exists m | m in ms :: m.from == r.value
    ensures r.None? ==> forall m | m in ms :: !(m.from <= text)
  {
    if ms == [] then None
    else if ms[0].from <= text then Some(ms[0].from)
    else FirstMatch(text, ms[1..])
  }

  /** `new Map(mappings)`: a later entry for the same key replaces an earlier one. */
  function Table(ms: seq<Mapping>): (t: map<string, string>)
    ensures forall k :: k in t <==> exists m | m in ms :: m.from == k
    ensures forall k | k in t :: Mapping(k, t[k]) in ms
  {
    if ms == [] then map[]
    else
      var last := ms[|ms| - 1];
      assert ms == ms[..|ms| - 1] + [last];
      Table(ms[..|ms| - 1])[last.from := last.to]
  }

  /** `text.replace(re, lookup)` with a global expression: left to right, output never
      rescanned; after an empty match the next character is copied. */
  function ApplyMappings(text: string, ms: seq<Mapping>): string
    decreases |text|
  {
    match FirstMatch(text, ms)
    case None => if text == "" then "" else [text[0]] + ApplyMappings(text[1..], ms)
    case Some(from) =>
      var to := Table(ms)[from];
      if from != "" then to + ApplyMappings(text[|from|..], ms)
      else if text == "" then to
      else to + [text[0]] + ApplyMappings(text[1..], ms)
  }

  // ── What the pass means ───────────────────────────────────────────────────

  /** The longest key, of at most `k` characters, that `text` starts with. */
  function LongestUpTo(text: string, keys: set<string>, k: nat): (r: Option<nat>)
    requires k <= |text|
    ensures r.Some? ==> r.value <= k && text[..r.value] in keys
    ensures forall n | 0 <= n <= k && text[..n] in keys :: r.Some? && n <= r.value
  {
    if text[..k] in keys then Some(k) else if k == 0 then None else LongestUpTo(text, keys, k - 1)
  }

  function Longest(text: string, keys: set<string>): (r: Option<nat>)
    ensures r.Some? ==> r.value <= |text| && text[..r.value] in keys
    ensures forall n | 0 <= n <= |text| && text[..n] in keys :: r.Some? && n <= r.value
  {
    LongestUpTo(text, keys, |text|)
  }

  /** The left-to-right scan that replaces the longest key at each position. It sees a table,
      not a list: no order can matter to it. */
  function LongestScan(text: string, t: map<string, string>): string
    decreases |text|
  {
    match Longest(text, t.Keys)
    case None => if text == "" then "" else [text[0]] + LongestScan(text[1..], t)
    case Some(n) =>
      var to := t[text[..n]];
      if n > 0 then to + LongestScan(text[n..], t)
      else if text == "" then to
      else to + [text[0]] + LongestScan(text[1..], t)
  }

  predicate LongestFirst(ms: seq<Mapping>) {
    forall i, j | 0 <= i < j < |ms| :: |ms[i].from| >= |ms[j].from|
  }

  predicate DistinctFroms(ms: seq<Mapping>) {
    forall i, j | 0 <= i < j < |ms| :: ms[i].from != ms[j].from
  }

  lemma {:induction false} FirstIsLongest(text: string, ms: seq<Mapping>)
    requires LongestFirst(ms)
    ensures FirstMatch(text, ms).Some? ==> forall m | m in ms && m.from <= text :: |m.from| <= |FirstMatch(text, ms).value|
  {
    if ms != [] {
      FirstIsLongest(text, ms[1..]);
      HeadTail(ms);
      assert forall m | m in ms[1..] :: |ms[0].from| >= |m.from|;
    }
  }

  lemma LongestIs(text: string, keys: set<string>, key: string)
    requires key in keys && key <= text
    requires forall k | k in keys && k <= text :: |k| <= |key|
    ensures Longest(text, keys) == Some(|key|) && text[..|key|] == key
  {
    assert text[..|key|] == key;
    var n := Longest(text, keys).value;
    assert text[..n] <= text;
  }

  lemma LongestIsNone(text: string, keys: set<string>)
    requires forall k | k in keys :: !(k <= text)
    ensures Longest(text, keys) == None
  {
    assert forall n | 0 <= n <= |text| :: text[..n] <= text;
  }

  lemma FirstMatchIsLongest(text: string, ms: seq<Mapping>)
    requires LongestFirst(ms)
    ensures Longest(text, Table(ms).Keys) == if FirstMatch(text, ms).None? then None else Some(|FirstMatch(text, ms).value|)
    ensures FirstMatch(text, ms).Some? ==> text[..|FirstMatch(text, ms).value|] == FirstMatch(text, ms).value
  {
    FirstIsLongest(text, ms);
    var r := FirstMatch(text, ms);
    if r.Some? {
      LongestIs(text, Table(ms).Keys, r.value);
    } else {
      LongestIsNone(text, Table(ms).Keys);
    }
  }

  /** Sorted longest first, the one-pass replacement is the longest-match scan. */
  lemma {:induction false} ApplyIsLongestScan(text: string, ms: seq<Mapping>)
    requires LongestFirst(ms)
    ensures ApplyMappings(text, ms) == LongestScan(text, Table(ms))
    decreases |text|
  {
    FirstMatchIsLongest(text, ms);
    match FirstMatch(text, ms)
    case None => if text != "" { ApplyIsLongestScan(text[1..], ms); }
    case Some(from) =>
      if from != "" {
        ApplyIsLongestScan(text[|from|..], ms);
      } else if text != "" {
        ApplyIsLongestScan(text[1..], ms);
      }
  }

  /** Two sorted lists with the same entries rewrite alike, however ties were broken. */
  lemma OrderIrrelevant(text: string, a: seq<Mapping>, b: seq<Mapping>)
    requires LongestFirst(a) && LongestFirst(b) && DistinctFroms(a)
    requires forall m :: m in a <==> m in b
    ensures ApplyMappings(text, a) == ApplyMappings(text, b)
  {
    ApplyIsLongestScan(text, a);
    ApplyIsLongestScan(text, b);
    SameTable(a, b);
  }

  lemma SameTable(a: seq<Mapping>, b: seq<Mapping>)
    requires DistinctFroms(a)
    requires forall m :: m in a <==> m in b
    ensures Table(a) == Table(b)
  {
    forall k | k in Table(a) ensures k in Table(b) && Table(a)[k] == Table(b)[k] {
      var m := Mapping(k, Table(a)[k]);
      assert m in b && k in Table(b);
      var n := Mapping(k, Table(b)[k]);
      assert n in a;
      var i :| 0 <= i < |a| && a[i] == m;
      var j :| 0 <= j < |a| && a[j] == n;
    }
    forall k | k in Table(b) ensures k in Table(a) {
      assert Mapping(k, Table(b)[k]) in a;
    }
  }

  // ── There and back ────────────────────────────────────────────────────────

  /** `back` undoes `t` entry by entry. */
  predicate Inverse(t: map<string, string>, back: map<string, string>) {
    && (forall k | k in t :: t[k] in back && back[t[k]] == k)
    && (forall v | v in back :: back[v] in t && t[back[v]] == v)
  }

  /** No key and no replacement is the empty string. */
  predicate NonEmpty(t: map<string, string>) {
    "" !in t && forall k | k in t :: t[k] != ""
  }

  /** Read along the rewritten text, the longest replacement found at each point is the one
      the rewriting put there; where it copied a character there is none. */
  predicate Unambiguous(text: string, t: map<string, string>, back: map<string, string>)
    requires NonEmpty(t)
    decreases |text|
  {
    var found := Longest(LongestScan(text, t), back.Keys);
    match Longest(text, t.Keys)
    case None => text == "" || (found.None? && Unambiguous(text[1..], t, back))
    case Some(n) => n == 0 || (found == Some(|t[text[..n]]|) && Unambiguous(text[n..], t, back))
  }

  predicate PrefixFree(keys: set<string>) {
    forall a, b | a in keys && b in keys && a <= b :: a == b
  }

  lemma EmptyScan(t: map<string, string>)
    requires "" !in t
    ensures LongestScan("", t) == ""
  {
  }

  /** Rewriting back restores the text wherever the rewritten text is unambiguous. */
  lemma {:induction false} BackRestores(text: string, t: map<string, string>, back: map<string, string>)
    requires NonEmpty(t) && Inverse(t, back) && Unambiguous(text, t, back)
    ensures LongestScan(LongestScan(text, t), back) == text
    decreases |text|
  {
    var out := LongestScan(text, t);
    match Longest(text, t.Keys)
    case None =>
      if text == "" {
        NoEmptyBack(t, back);
      } else {
        BackRestores(text[1..], t, back);
        ConsTail(text[0], LongestScan(text[1..], t));
        HeadTail(text);
      }
    case Some(n) =>
      var from := text[..n];
      var to, rest := t[from], LongestScan(text[n..], t);
      BackRestores(text[n..], t, back);
      PrefixOf(to, rest);
      assert text == from + text[n..];
  }

  lemma NoEmptyBack(t: map<string, string>, back: map<string, string>)
    requires NonEmpty(t) && Inverse(t, back)
    ensures "" !in back && LongestScan("", back) == ""
  {
    assert forall v | v in back :: t[back[v]] != "";
    EmptyScan(back);
  }

  lemma PrefixOf(a: string, b: string)
    ensures (a + b)[..|a|] == a && (a + b)[|a|..] == b
  {
  }

  /** A replacement found on the way back puts its key into the result. */
  lemma MatchBringsKey(text: string, out: string, t: map<string, string>, back: map<string, string>)
    requires NonEmpty(t) && Inverse(t, back)
    requires Longest(out, back.Keys).Some? && LongestScan(out, back) == text
    ensures Longest(text, t.Keys).Some?
  {
    NoEmptyBack(t, back);
    var n := Longest(out, back.Keys).value;
    var k := back[out[..n]];
    PrefixOf(k, LongestScan(out[n..], back));
    assert text[..|k|] in t.Keys;
  }

  /** And only there, once no replacement is a prefix of another. */
  lemma {:induction false} OnlyUnambiguousRestores(text: string, t: map<string, string>, back: map<string, string>)
    requires NonEmpty(t) && Inverse(t, back) && PrefixFree(back.Keys)
    requires LongestScan(LongestScan(text, t), back) == text
    ensures Unambiguous(text, t, back)
    decreases |text|
  {
    var out := LongestScan(text, t);
    var found := Longest(out, back.Keys);
    NoEmptyBack(t, back);
    match Longest(text, t.Keys)
    case None =>
      if text != "" {
        ConsTail(text[0], LongestScan(text[1..], t));
        if found.Some? {
          MatchBringsKey(text, out, t, back);
        }
        ConsTail(text[0], LongestScan(out[1..], back));
        OnlyUnambiguousRestores(text[1..], t, back);
      }
    case Some(n) =>
      var from := text[..n];
      var to, rest := t[from], LongestScan(text[n..], t);
      PrefixOf(to, rest);
      assert out[..|to|] in back.Keys;
      assert out[..|to|] <= out[..found.value];
      PrefixOf(from, LongestScan(rest, back));
      OnlyUnambiguousRestores(text[n..], t, back);
  }

  /** Pull after push: reversed mappings restore every text that reads unambiguously, and
      when no replacement is a prefix of another they restore no other. */
  lemma PullAfterPush(text: string, push: seq<Mapping>, pull: seq<Mapping>)
    requires LongestFirst(push) && LongestFirst(pull)
    requires NonEmpty(Table(push)) && Inverse(Table(push), Table(pull))
    ensures Unambiguous(text, Table(push), Table(pull)) ==> ApplyMappings(ApplyMappings(text, push), pull) == text
    ensures PrefixFree(Table(pull).Keys) && ApplyMappings(ApplyMappings(text, push), pull) == text ==>
            Unambiguous(text, Table(push), Table(pull))
  {
    ApplyIsLongestScan(text, push);
    ApplyIsLongestScan(ApplyMappings(text, push), pull);
    if Unambiguous(text, Table(push), Table(pull)) {
      BackRestores(text, Table(push), Table(pull));
    }
    if PrefixFree(Table(pull).Keys) && ApplyMappings(ApplyMappings(text, push), pull) == text {
      OnlyUnambiguousRestores(text, Table(push), Table(pull));
    }
  }

  // ── The condition without the recursion ───────────────────────────────────

  /** The rewriting copied the character at place `i` of its result from the text. */
  predicate Copied(text: string, t: map<string, string>, i: nat)
    decreases |text|
  {
    match Longest(text, t.Keys)
    case None => text != "" && (i == 0 || Copied(text[1..], t, i - 1))
    case Some(n) => n > 0 && i >= |t[text[..n]]| && Copied(text[n..], t, i - |t[text[..n]]|)
  }

  function Copies(text: string, t: map<string, string>): nat -> bool {
    (i: nat) => Copied(text, t, i)
  }

  /** A key begins at place `i`. */
  predicate BeginsAt(text: string, i: nat, keys: set<string>) {
    i <= |text| && Longest(text[i..], keys).Some?
  }

  ghost predicate Clear(text: string, at: nat -> bool, keys: set<string>) {
    forall i: nat | at(i) :: !BeginsAt(text, i, keys)
  }

  /** No replacement begins at a character that was copied. */
  ghost predicate NoneAtCopies(text: string, t: map<string, string>, back: map<string, string>) {
    Clear(LongestScan(text, t), Copies(text, t), back.Keys)
  }

  lemma ClearBehind(put: string, behind: string, at: nat -> bool, atBehind: nat -> bool, keys: set<string>)
    requires forall i: nat :: atBehind(i) <==> at(i + |put|)
    ensures Clear(put + behind, at, keys) <==>
            Clear(behind, atBehind, keys) && forall i: nat | i < |put| && at(i) :: !BeginsAt(put + behind, i, keys)
  {
    if Clear(put + behind, at, keys) {
      forall i: nat | atBehind(i) ensures !BeginsAt(behind, i, keys) {
        assert at(i + |put|);
        if i <= |behind| {
          assert (put + behind)[i + |put|..] == behind[i..];
        }
      }
    } else {
      var i: nat :| at(i) && BeginsAt(put + behind, i, keys);
      if i >= |put| {
        assert atBehind(i - |put|);
        assert (put + behind)[i..] == behind[i - |put|..];
      }
    }
  }

  lemma LongestHere(to: string, rest: string, keys: set<string>)
    requires PrefixFree(keys) && to in keys
    ensures Longest(to + rest, keys) == Some(|to|)
  {
    var out := to + rest;
    PrefixOf(to, rest);
    var n := Longest(out, keys).value;
    assert out[..|to|] <= out[..n];
  }

  lemma NoneAtCopiesEmpty(t: map<string, string>, back: map<string, string>)
    requires NonEmpty(t)
    ensures NoneAtCopies("", t, back)
  {
    forall i: nat ensures !Copies("", t)(i) {
      assert Longest("", t.Keys).None?;
    }
  }

  lemma ClearCons(c: char, behind: string, at: nat -> bool, atBehind: nat -> bool, keys: set<string>)
    requires at(0) && forall i: nat :: atBehind(i) <==> at(i + 1)
    ensures Clear([c] + behind, at, keys) <==> Longest([c] + behind, keys).None? && Clear(behind, atBehind, keys)
  {
    var out := [c] + behind;
    ClearBehind([c], behind, at, atBehind, keys);
    assert out[0..] == out;
    assert BeginsAt(out, 0, keys) <==> Longest(out, keys).Some?;
  }

  lemma CopiesNext(text: string, t: map<string, string>)
    requires text != "" && Longest(text, t.Keys).None?
    ensures Copies(text, t)(0) && forall i: nat :: Copies(text[1..], t)(i) <==> Copies(text, t)(i + 1)
  {
  }

  lemma NoneAtCopiesCopied(text: string, t: map<string, string>, back: map<string, string>)
    requires text != "" && Longest(text, t.Keys).None?
    ensures NoneAtCopies(text, t, back) <==> Longest(LongestScan(text, t), back.Keys).None? && NoneAtCopies(text[1..], t, back)
  {
    CopiesNext(text, t);
    assert LongestScan(text, t) == [text[0]] + LongestScan(text[1..], t);
    ClearCons(text[0], LongestScan(text[1..], t), Copies(text, t), Copies(text[1..], t), back.Keys);
  }

  lemma NoneAtCopiesReplaced(text: string, t: map<string, string>, back: map<string, string>)
    requires Longest(text, t.Keys).Some? && Longest(text, t.Keys).value > 0
    ensures NoneAtCopies(text, t, back) <==> NoneAtCopies(text[Longest(text, t.Keys).value..], t, back)
  {
    var n := Longest(text, t.Keys).value;
    ClearBehind(t[text[..n]], LongestScan(text[n..], t), Copies(text, t), Copies(text[n..], t), back.Keys);
  }

  lemma {:induction false} UnambiguousIff(text: string, t: map<string, string>, back: map<string, string>)
    requires NonEmpty(t) && Inverse(t, back) && PrefixFree(back.Keys)
    ensures Unambiguous(text, t, back) <==> NoneAtCopies(text, t, back)
    decreases |text|
  {
    match Longest(text, t.Keys)
    case None =>
      if text == "" {
        NoneAtCopiesEmpty(t, back);
      } else {
        UnambiguousIff(text[1..], t, back);
        NoneAtCopiesCopied(text, t, back);
      }
    case Some(n) =>
      UnambiguousIff(text[n..], t, back);
      NoneAtCopiesReplaced(text, t, back);
      LongestHere(t[text[..n]], LongestScan(text[n..], t), back.Keys);
  }

  /** With replacements none of which is a prefix of another, exactly those texts come back in
      whose rewriting no replacement begins at a copied character. */
  lemma PullAfterPushIff(text: string, push: seq<Mapping>, pull: seq<Mapping>)
    requires LongestFirst(push) && LongestFirst(pull)
    requires NonEmpty(Table(push)) && Inverse(Table(push), Table(pull)) && PrefixFree(Table(pull).Keys)
    ensures ApplyMappings(ApplyMappings(text, push), pull) == text <==> NoneAtCopies(text, Table(push), Table(pull))
  {
    PullAfterPush(text, push, pull);
    UnambiguousIff(text, Table(push), Table(pull));
  }

  // ── Transcripts, line by line ─────────────────────────────────────────────

  function Records(lines: seq<string>): seq<string> {
    if lines == [] then []
    else (if IsBlank(lines[0]) then [] else [lines[0]]) + Records(lines[1..])
  }

  function ApplyEach(lines: seq<string>, ms: seq<Mapping>): seq<string> {
    seq(|lines|, i requires 0 <= i < |lines| => ApplyMappings(lines[i], ms))
  }

  datatype RewriteError = InvalidJson(line: string)

  /** `rewriteJsonl`, with the JSON parser as a parameter. */
  method RewriteJsonl(content: string, ms: seq<Mapping>, isJson: string -> bool)
    returns (r: Result<string, RewriteError>)
    ensures r.Ok? <==> forall l | l in ApplyEach(Records(Split(content, '\n')), ms) :: isJson(l)
    ensures r.Ok? ==> r.value == Join(ApplyEach(Records(Split(content, '\n')), ms), "\n") + "\n"
    ensures r.Err? ==> r.error.line in ApplyEach(Records(Split(content, '\n')), ms) && !isJson(r.error.line)
  {
    var lines := Split(content, '\n');
    var out: seq<string> := [];
    ghost var all := ApplyEach(Records(lines), ms);
    assert lines[..|lines|] == lines && lines[..0] == [];
    for i := 0 to |lines|
      invariant out == ApplyEach(Records(lines[..i]), ms)
      invariant out <= all
      invariant forall l | l in out :: isJson(l)
    {
      RecordsSplit(lines, i);
      if IsBlank(lines[i]) {
        continue;
      }
      var rewritten := ApplyMappings(lines[i], ms);
      assert Records(lines[..i + 1]) == Records(lines[..i]) + [lines[i]];
      assert ApplyEach(Records(lines[..i + 1]), ms) == out + [rewritten];
      assert all[|out|] == rewritten;
      if !isJson(rewritten) {
        return Err(InvalidJson(rewritten));
      }
      out := out + [rewritten];
    }
    return Ok(Join(out, "\n") + "\n");
  }

  lemma {:induction false} RecordsAppend(a: seq<string>, b: seq<string>)
    ensures Records(a + b) == Records(a) + Records(b)
  {
    if a == [] {
      Empty(b);
    } else {
      AppendTail(a, b);
      RecordsAppend(a[1..], b);
    }
  }

  lemma RecordsSplit(lines: seq<string>, i: nat)
    requires i < |lines|
    ensures Records(lines[..i + 1]) == Records(lines[..i]) + (if IsBlank(lines[i]) then [] else [lines[i]])
    ensures Records(lines[..i]) <= Records(lines) && Records(lines[..i + 1]) <= Records(lines)
  {
    TakeNext(lines, i);
    RecordsAppend(lines[..i], [lines[i]]);
    Empty(if IsBlank(lines[i]) then [] else [lines[i]]);
    TakeDrop(lines, i);
    RecordsAppend(lines[..i], lines[i..]);
    TakeDrop(lines, i + 1);
    RecordsAppend(lines[..i + 1], lines[i + 1..]);
  }

  /** Keys that cannot straddle a line break. */
  predicate WithinLines(ms: seq<Mapping>) {
    forall m | m in ms :: m.from != "" && '\n' !in m.from
  }

  lemma BreakInside(from: string, a: string, b: string)
    requires from <= a + "\n" + b && |a| < |from|
    ensures '\n' in from
  {
    assert from[|a|] == (a + "\n" + b)[|a|];
  }

  lemma PrefixWithinLine(from: string, a: string, b: string)
    requires '\n' !in from
    ensures from <= a + "\n" + b <==> from <= a
  {
    var whole := a + "\n" + b;
    if from <= whole && |a| < |from| {
      BreakInside(from, a, b);
    }
    assert whole[..|a|] == a;
    assert |from| <= |a| ==> whole[..|from|] == a[..|from|];
  }

  lemma {:induction false} MatchWithinLine(a: string, b: string, ms: seq<Mapping>)
    requires WithinLines(ms)
    ensures FirstMatch(a + "\n" + b, ms) == FirstMatch(a, ms)
  {
    if ms != [] {
      var from := ms[0].from;
      assert ms[0] in ms && WithinLines(ms[1..]);
      PrefixWithinLine(from, a, b);
      MatchWithinLine(a, b, ms[1..]);
    }
  }

  lemma DropLine(a: string, b: string, n: nat)
    requires n <= |a|
    ensures (a + "\n" + b)[n..] == a[n..] + "\n" + b
    ensures a != "" ==> (a + "\n" + b)[0] == a[0]
  {
    DropAppend(a, "\n", n);
    DropAppend(a + "\n", b, n);
  }

  lemma PrependLine(x: string, a: string, b: string)
    ensures x + (a + "\n" + b) == x + a + "\n" + b
  {
    Assoc(x, a + "\n", b);
    Assoc(x, a, "\n");
  }

  lemma {:induction false} ApplyAcrossLines(a: string, b: string, ms: seq<Mapping>)
    requires WithinLines(ms)
    ensures ApplyMappings(a + "\n" + b, ms) == ApplyMappings(a, ms) + "\n" + ApplyMappings(b, ms)
    decreases |a|
  {
    MatchWithinLine(a, b, ms);
    match FirstMatch(a, ms)
    case None =>
      if a == "" {
        Empty("\n");
        ConsTail('\n', b);
      } else {
        ApplyAcrossLines(a[1..], b, ms);
        DropLine(a, b, 1);
        PrependLine([a[0]], ApplyMappings(a[1..], ms), ApplyMappings(b, ms));
      }
    case Some(from) =>
      ApplyAcrossLines(a[|from|..], b, ms);
      DropLine(a, b, |from|);
      PrependLine(Table(ms)[from], ApplyMappings(a[|from|..], ms), ApplyMappings(b, ms));
  }

  /** Rewriting a transcript line by line is one rewrite of its records joined. */
  lemma {:induction false} LinesAreOneText(lines: seq<string>, ms: seq<Mapping>)
    requires WithinLines(ms)
    ensures Join(ApplyEach(lines, ms), "\n") == ApplyMappings(Join(lines, "\n"), ms)
  {
    if lines == [] {
      assert forall m | m in ms :: !(m.from <= "");
    } else if |lines| > 1 {
      LinesAreOneText(lines[1..], ms);
      assert ApplyEach(lines, ms)[1..] == ApplyEach(lines[1..], ms);
      ApplyAcrossLines(lines[0], Join(lines[1..], "\n"), ms);
    }
  }

  /** What a successful rewrite writes: one pass over the joined records. */
  lemma JsonlIsOneRewrite(content: string, ms: seq<Mapping>)
    requires WithinLines(ms)
    ensures Join(ApplyEach(Records(Split(content, '\n')), ms), "\n") + "\n" ==
            ApplyMappings(Join(Records(Split(content, '\n')), "\n"), ms) + "\n"
  {
    LinesAreOneText(Records(Split(content, '\n')), ms);
  }

  /** A rewrite that keeps to its line. */
  lemma {:induction false} ApplyKeepsLine(line: string, ms: seq<Mapping>)
    requires '\n' !in line && forall m | m in ms :: '\n' !in m.to
    ensures '\n' !in ApplyMappings(line, ms)
    decreases |line|
  {
    match FirstMatch(line, ms)
    case None =>
      if line != "" { ApplyKeepsLine(line[1..], ms); }
    case Some(from) =>
      assert Mapping(from, Table(ms)[from]) in ms;
      if from != "" {
        ApplyKeepsLine(line[|from|..], ms);
      } else if line != "" {
        ApplyKeepsLine(line[1..], ms);
      }
  }

  lemma {:induction false} RecordsOfRecords(lines: seq<string>)
    requires forall l | l in lines :: !IsBlank(l)
    ensures Records(lines + [""]) == lines
  {
    if lines == [] {
      Empty([""]);
    } else {
      RecordsOfRecords(lines[1..]);
      AppendTail(lines, [""]);
      HeadTail(lines);
    }
  }

  /** Records written out are the records read back. */
  lemma RecordsBack(records: seq<string>)
    requires forall l | l in records :: '\n' !in l && !IsBlank(l)
    ensures Records(Split(Join(records, "\n") + "\n", '\n')) == records
  {
    var body := Join(records, "\n");
    SplitAppend(body, "", '\n');
    Empty(body + "\n");
    if records == [] {
      assert Records([""] + [""]) == [] by {
        ConsTail("", [""]);
      }
    } else {
      SplitJoin(records, '\n');
      RecordsOfRecords(records);
    }
  }

  /** The file a push writes. */
  function Pushed(records: seq<string>, push: seq<Mapping>): string {
    Join(ApplyEach(records, push), "\n") + "\n"
  }

  lemma RewrittenAreRecords(records: seq<string>, push: seq<Mapping>, isJson: string -> bool)
    requires forall r | r in records :: '\n' !in r
    requires forall m | m in push :: '\n' !in m.to
    requires forall l | IsBlank(l) :: !isJson(l)
    requires forall l | l in ApplyEach(records, push) :: isJson(l)
    ensures Records(Split(Pushed(records, push), '\n')) == ApplyEach(records, push)
  {
    var rewritten := ApplyEach(records, push);
    forall l | l in rewritten ensures '\n' !in l && !IsBlank(l) {
      var i :| 0 <= i < |rewritten| && rewritten[i] == l;
      ApplyKeepsLine(records[i], push);
    }
    RecordsBack(rewritten);
  }

  lemma EachRestored(records: seq<string>, push: seq<Mapping>, pull: seq<Mapping>)
    requires LongestFirst(push) && LongestFirst(pull)
    requires NonEmpty(Table(push)) && Inverse(Table(push), Table(pull))
    ensures (forall l | l in records :: Unambiguous(l, Table(push), Table(pull))) ==>
              ApplyEach(ApplyEach(records, push), pull) == records
    ensures PrefixFree(Table(pull).Keys) && ApplyEach(ApplyEach(records, push), pull) == records ==>
              forall l | l in records :: Unambiguous(l, Table(push), Table(pull))
  {
    var back := ApplyEach(ApplyEach(records, push), pull);
    forall i | 0 <= i < |records|
      ensures Unambiguous(records[i], Table(push), Table(pull)) ==> back[i] == records[i]
      ensures PrefixFree(Table(pull).Keys) && back[i] == records[i] ==> Unambiguous(records[i], Table(push), Table(pull))
    {
      PullAfterPush(records[i], push, pull);
    }
  }

  /** Pull after push, on whole transcripts: when the pushed records are JSON (and blank
      lines are not), the pull sees exactly those records. They come back as they were when
      each is unambiguous, and, no replacement being a prefix of another, only then. */
  lemma JsonlPullAfterPush(content: string, push: seq<Mapping>, pull: seq<Mapping>, isJson: string -> bool)
    requires LongestFirst(push) && LongestFirst(pull)
    requires NonEmpty(Table(push)) && Inverse(Table(push), Table(pull))
    requires forall m | m in push :: '\n' !in m.to
    requires forall l | IsBlank(l) :: !isJson(l)
    requires forall l | l in ApplyEach(Records(Split(content, '\n')), push) :: isJson(l)
    ensures var records := Records(Split(content, '\n'));
            var pulled := ApplyEach(Records(Split(Pushed(records, push), '\n')), pull);
            && ((forall l | l in records :: Unambiguous(l, Table(push), Table(pull))) ==> pulled == records)
            && (PrefixFree(Table(pull).Keys) && pulled == records ==>
                  forall l | l in records :: Unambiguous(l, Table(push), Table(pull)))
  {
    var records := Records(Split(content, '\n'));
    RecordsAreLines(Split(content, '\n'));
    RewrittenAreRecords(records, push, isJson);
    EachRestored(records, push, pull);
  }

  lemma {:induction false} RecordsAreLines(lines: seq<string>)
    ensures forall l | l in Records(lines) :: l in lines
  {
    if lines != [] {
      RecordsAreLines(lines[1..]);
    }
  }

  // ── The mapping list ──────────────────────────────────────────────────────

  predicate IsAlnum(c: char) {
    'a' <= c <= 'z' || 'A' <= c <= 'Z' || '0' <= c <= '9'
  }

  /** The directory-name form of a path: everything but letters and digits is a dash. */
  function EncodeCwd(s: string): string {
    seq(|s|, i requires 0 <= i < |s| => if IsAlnum(s[i]) then s[i] else '-')
  }

  function Encoded(m: Mapping): Mapping {
    Mapping(EncodeCwd(m.from), EncodeCwd(m.to))
  }

  function Variants(m: Mapping): seq<Mapping> {
    if Encoded(m).from != m.from then [m, Encoded(m)] else [m]
  }

  function AllVariants(base: seq<Mapping>): seq<Mapping> {
    if base == [] then [] else AllVariants(base[..|base| - 1]) + Variants(base[|base| - 1])
  }

  /** The table in which the first entry for a key is the one that counts. */
  function FirstWins(all: seq<Mapping>): map<string, string> {
    if all == [] then map[]
    else
      var before, last := FirstWins(all[..|all| - 1]), all[|all| - 1];
      if last.from in before then before else before[last.from := last.to]
  }

  /** The index of the first `=`, or -1. */
  function IndexOfEquals(s: string): (i: int)
    ensures -1 <= i < |s|
  {
    if s == "" then -1
    else if s[0] == '=' then 0
    else if IndexOfEquals(s[1..]) < 0 then -1
    else 1 + IndexOfEquals(s[1..])
  }

  predicate WellFormedMap(m: string) {
    0 < IndexOfEquals(m) < |m| - 1
  }

  function UserMapping(m: string): Mapping
    requires WellFormedMap(m)
  {
    Mapping(m[..IndexOfEquals(m)], m[IndexOfEquals(m) + 1..])
  }

  function SegmentEnd(s: string, i: nat): (k: nat)
    requires i <= |s|
    ensures i <= k <= |s|
    decreases |s| - i
  {
    if i == |s| || s[i] == '/' then i else SegmentEnd(s, i + 1)
  }

  /** `/^(\/Users\/[^/]+|\/home\/[^/]+)/`. */
  function HomePrefix(s: string): Option<string> {
    if "/Users/" <= s && SegmentEnd(s, 7) > 7 then Some(s[..SegmentEnd(s, 7)])
    else if "/home/" <= s && SegmentEnd(s, 6) > 6 then Some(s[..SegmentEnd(s, 6)])
    else None
  }

  /** Letters and digits stay, every other character becomes a dash. */
  lemma EncodedAt(s: string, i: nat)
    requires i < |s|
    ensures |EncodeCwd(s)| == |s|
    ensures EncodeCwd(s)[i] == if 'a' <= s[i] <= 'z' || 'A' <= s[i] <= 'Z' || '0' <= s[i] <= '9' then s[i] else '-'
  {
  }

  predicate HomeIs(s: string, h: string, root: string, user: string, rest: string) {
    h == root + user && s == h + rest && user != "" && '/' !in user && (rest == "" || rest[0] == '/')
  }

  lemma {:induction false} SegmentEndIs(s: string, i: nat, user: string, rest: string)
    requires i <= |s| && s[i..] == user + rest && '/' !in user && (rest == "" || rest[0] == '/')
    ensures SegmentEnd(s, i) == i + |user|
    decreases |user|
  {
    if user == "" {
      assert i == |s| || s[i] == s[i..][0];
    } else {
      assert s[i] == s[i..][0] == user[0] && user[0] in user;
      assert s[i + 1..] == s[i..][1..] == user[1..] + rest;
      SegmentEndIs(s, i + 1, user[1..], rest);
    }
  }

  lemma {:induction false} SegmentEndFound(s: string, i: nat)
    requires i <= |s|
    ensures '/' !in s[i..SegmentEnd(s, i)] && (SegmentEnd(s, i) == |s| || s[SegmentEnd(s, i)] == '/')
    decreases |s| - i
  {
    if i < |s| && s[i] != '/' {
      SegmentEndFound(s, i + 1);
      assert s[i..SegmentEnd(s, i)] == [s[i]] + s[i + 1..SegmentEnd(s, i)];
    }
  }

  lemma HomeUnder(s: string, root: string, user: string, rest: string)
    requires HomeIs(s, root + user, root, user, rest)
    ensures root <= s && SegmentEnd(s, |root|) == |root| + |user| && s[..SegmentEnd(s, |root|)] == root + user
  {
    assert s[|root|..] == user + rest;
    SegmentEndIs(s, |root|, user, rest);
  }

  lemma HomeCut(s: string, root: string)
    requires root <= s && SegmentEnd(s, |root|) > |root|
    ensures exists user, rest :: HomeIs(s, s[..SegmentEnd(s, |root|)], root, user, rest)
  {
    var end := SegmentEnd(s, |root|);
    SegmentEndFound(s, |root|);
    assert s[..end] == root + s[|root|..end] && s == s[..end] + s[end..];
    assert HomeIs(s, s[..end], root, s[|root|..end], s[end..]);
  }

  /** A home is `/Users/` or `/home/` and one segment behind it. */
  lemma HomePrefixMeans(s: string, h: string)
    ensures HomePrefix(s) == Some(h) <==>
            exists root, user, rest :: root in ["/Users/", "/home/"] && HomeIs(s, h, root, user, rest)
  {
    if root, user, rest :| root in ["/Users/", "/home/"] && HomeIs(s, h, root, user, rest) {
      HomeUnder(s, root, user, rest);
      assert s[1] == root[1];
      assert "/Users/"[1] == 'U' && "/home/"[1] == 'h';
    }
    if HomePrefix(s) == Some(h) {
      var root := if "/Users/" <= s && SegmentEnd(s, 7) > 7 then "/Users/" else "/home/";
      HomeCut(s, root);
      assert root in ["/Users/", "/home/"];
    }
  }

  predicate SplitsAt(arg: string, a: string, b: string) {
    a != "" && b != "" && '=' !in a && arg == a + "=" + b
  }

  /** `OLD=NEW`, cut at the first `=`, neither part empty. */
  lemma MapArgMeans(arg: string)
    ensures WellFormedMap(arg) <==> exists a, b :: SplitsAt(arg, a, b)
    ensures forall a, b | SplitsAt(arg, a, b) :: WellFormedMap(arg) && UserMapping(arg) == Mapping(a, b)
  {
    forall a, b | SplitsAt(arg, a, b) ensures WellFormedMap(arg) && UserMapping(arg) == Mapping(a, b) {
      EqualsAt(a, b);
      assert arg[..|a|] == a && arg[|a| + 1..] == b;
    }
    if WellFormedMap(arg) {
      EqualsFound(arg);
      var m := UserMapping(arg);
      assert arg == m.from + "=" + m.to;
      assert SplitsAt(arg, m.from, m.to);
    }
  }

  /** The project root goes where it is told to, whatever the other mappings. */
  lemma RootWins(sourceRoot: string, destRoot: string, maps: seq<string>, homeFrom: string, homeTo: string)
    requires forall m | m in maps :: WellFormedMap(m)
    ensures var t := FirstWins(AllVariants(BaseMappings(sourceRoot, destRoot, maps, homeFrom, homeTo)));
            sourceRoot in t && t[sourceRoot] == destRoot
  {
    var base := BaseMappings(sourceRoot, destRoot, maps, homeFrom, homeTo);
    assert base[0] == Mapping(sourceRoot, destRoot);
    VariantsOrBoth(base);
    BothBegins(base);
    assert Leads(AllBoth(base), 0);
    FirstWinsAt(AllBoth(base), 0);
  }

  lemma {:induction false} BothBegins(base: seq<Mapping>)
    requires base != []
    ensures AllBoth(base) != [] && AllBoth(base)[0] == base[0]
  {
    if |base| > 1 {
      BothBegins(base[..|base| - 1]);
    } else {
      assert base[..0] == [];
    }
  }

  function HomeMapping(homeFrom: string, homeTo: string): seq<Mapping> {
    if homeFrom != "" && homeTo != "" && HomePrefix(homeFrom).Some? then [Mapping(HomePrefix(homeFrom).value, homeTo)] else []
  }

  function BaseMappings(sourceRoot: string, destRoot: string, maps: seq<string>, homeFrom: string, homeTo: string): seq<Mapping>
    requires forall m | m in maps :: WellFormedMap(m)
  {
    [Mapping(sourceRoot, destRoot)] + UserMappingList(maps) + HomeMapping(homeFrom, homeTo)
  }

  function InsertByLength(m: Mapping, sorted: seq<Mapping>): seq<Mapping> {
    if sorted == [] || |m.from| > |sorted[0].from| then [m] + sorted
    else [sorted[0]] + InsertByLength(m, sorted[1..])
  }

  /** `.sort((a, b) => b.from.length - a.from.length)`, a stable sort. */
  function SortByLength(ms: seq<Mapping>): seq<Mapping> {
    if ms == [] then [] else InsertByLength(ms[|ms| - 1], SortByLength(ms[..|ms| - 1]))
  }

  lemma {:induction false} InsertSorted(m: Mapping, sorted: seq<Mapping>)
    requires LongestFirst(sorted)
    ensures LongestFirst(InsertByLength(m, sorted))
    ensures forall x :: x in InsertByLength(m, sorted) <==> x == m || x in sorted
  {
    if sorted != [] && |m.from| <= |sorted[0].from| {
      InsertSorted(m, sorted[1..]);
      HeadTail(sorted);
      var rest := InsertByLength(m, sorted[1..]);
      assert forall x | x in rest :: |sorted[0].from| >= |x.from|;
    }
  }

  lemma {:induction false} SortSorts(ms: seq<Mapping>)
    ensures LongestFirst(SortByLength(ms))
    ensures forall x :: x in SortByLength(ms) <==> x in ms
  {
    if ms != [] {
      var before, last := ms[..|ms| - 1], ms[|ms| - 1];
      SortSorts(before);
      InsertSorted(last, SortByLength(before));
      assert ms == before + [last];
    }
  }

  datatype MappingError = BadMap(arg: string)

  method BuildMappings(sourceRoot: string, destRoot: string, maps: seq<string>, homeFrom: string, homeTo: string)
    returns (r: Result<seq<Mapping>, MappingError>)
    ensures r.Ok? <==> forall m | m in maps :: WellFormedMap(m)
    ensures r.Ok? ==> LongestFirst(r.value)
    ensures r.Ok? ==> Table(r.value) == FirstWins(AllVariants(BaseMappings(sourceRoot, destRoot, maps, homeFrom, homeTo)))
  {
    var user := UserMappings(maps);
    if user.Err? {
      return Err(user.error);
    }
    var base := [Mapping(sourceRoot, destRoot)] + user.value + HomeMapping(homeFrom, homeTo);
    var all := ExpandVariants(base);
    var kept := DropShadowed(all);
    SortKeepsTable(kept);
    return Ok(SortByLength(kept));
  }

  function UserMappingList(maps: seq<string>): seq<Mapping>
    requires forall m | m in maps :: WellFormedMap(m)
  {
    if maps == [] then []
    else
      assert forall m | m in maps[..|maps| - 1] :: m in maps;
      UserMappingList(maps[..|maps| - 1]) + [UserMapping(maps[|maps| - 1])]
  }

  method UserMappings(maps: seq<string>) returns (r: Result<seq<Mapping>, MappingError>)
    ensures r.Ok? <==> forall m | m in maps :: WellFormedMap(m)
    ensures r.Ok? ==> r.value == UserMappingList(maps)
    ensures r.Err? ==> r.error.arg in maps && !WellFormedMap(r.error.arg)
  {
    var base: seq<Mapping> := [];
    for i := 0 to |maps|
      invariant forall m | m in maps[..i] :: WellFormedMap(m)
      invariant base == UserMappingList(maps[..i])
    {
      if !WellFormedMap(maps[i]) {
        return Err(BadMap(maps[i]));
      }
      TakeNext(maps, i);
      assert maps[..i + 1][..i] == maps[..i];
      base := base + [UserMapping(maps[i])];
    }
    assert maps[..|maps|] == maps;
    return Ok(base);
  }

  method ExpandVariants(base: seq<Mapping>) returns (all: seq<Mapping>)
    ensures all == AllVariants(base)
  {
    all := [];
    for i := 0 to |base|
      invariant all == AllVariants(base[..i])
    {
      assert base[..i + 1][..i] == base[..i];
      all := all + Variants(base[i]);
    }
    assert base[..|base|] == base;
  }

  /** A later entry for a key is the one a lookup finds. */
  lemma TableSnoc(kept: seq<Mapping>, m: Mapping)
    ensures Table(kept + [m]) == Table(kept)[m.from := m.to]
  {
    assert (kept + [m])[..|kept|] == kept;
  }

  lemma DistinctSnoc(kept: seq<Mapping>, m: Mapping)
    requires DistinctFroms(kept) && m.from !in Table(kept)
    ensures DistinctFroms(kept + [m])
  {
    forall i | 0 <= i < |kept| ensures kept[i].from != m.from {
      assert kept[i] in kept;
    }
  }

  lemma FirstWinsNext(all: seq<Mapping>, i: nat)
    requires i < |all|
    ensures FirstWins(all[..i + 1]) ==
            if all[i].from in FirstWins(all[..i]) then FirstWins(all[..i]) else FirstWins(all[..i])[all[i].from := all[i].to]
  {
    assert all[..i + 1][..i] == all[..i];
  }

  method DropShadowed(all: seq<Mapping>) returns (kept: seq<Mapping>)
    ensures Table(kept) == FirstWins(all) && DistinctFroms(kept)
  {
    kept := [];
    var seen: set<string> := {};
    for i := 0 to |all|
      invariant seen == FirstWins(all[..i]).Keys
      invariant Table(kept) == FirstWins(all[..i]) && DistinctFroms(kept)
    {
      FirstWinsNext(all, i);
      if all[i].from !in seen {
        seen := seen + {all[i].from};
        TableSnoc(kept, all[i]);
        DistinctSnoc(kept, all[i]);
        kept := kept + [all[i]];
      }
    }
    assert all[..|all|] == all;
  }

  lemma SortKeepsTable(ms: seq<Mapping>)
    requires DistinctFroms(ms)
    ensures LongestFirst(SortByLength(ms)) && Table(SortByLength(ms)) == Table(ms)
  {
    SortSorts(ms);
    SameTable(ms, SortByLength(ms));
  }

  /** Without extra mappings, the list for the way back is the inverse of the list for the
      way there: the plain root and its encoded form never get in each other's way. */
  lemma DefaultRoundTrip(text: string, clientRoot: string, boxRoot: string, push: seq<Mapping>, pull: seq<Mapping>)
    requires "/" <= clientRoot && "/" <= boxRoot
    requires LongestFirst(push) && Table(push) == FirstWins(AllVariants(BaseMappings(clientRoot, boxRoot, [], "", "")))
    requires LongestFirst(pull) && Table(pull) == FirstWins(AllVariants(BaseMappings(boxRoot, clientRoot, [], "", "")))
    ensures NonEmpty(Table(push))
    ensures ApplyMappings(ApplyMappings(text, push), pull) == text <==> Unambiguous(text, Table(push), Table(pull))
  {
    DefaultTable(clientRoot, boxRoot);
    DefaultTable(boxRoot, clientRoot);
    TwoWay(clientRoot, EncodeCwd(clientRoot), boxRoot, EncodeCwd(boxRoot));
    PullAfterPush(text, push, pull);
  }

  lemma TwoWay(a: string, encA: string, b: string, encB: string)
    requires "/" <= a && "-" <= encA && "/" <= b && "-" <= encB
    ensures var t, back := map[a := b, encA := encB], map[b := a, encB := encA];
            NonEmpty(t) && Inverse(t, back) && PrefixFree(back.Keys)
  {
    assert a[0] == '/' && encA[0] == '-' && b[0] == '/' && encB[0] == '-';
  }

  lemma DefaultTable(from: string, to: string)
    requires "/" <= from && "/" <= to
    ensures "-" <= EncodeCwd(from) && "-" <= EncodeCwd(to)
    ensures FirstWins(AllVariants(BaseMappings(from, to, [], "", ""))) == map[from := to, EncodeCwd(from) := EncodeCwd(to)]
  {
    var m := Mapping(from, to);
    var base := BaseMappings(from, to, [], "", "");
    assert base == [m];
    var all := [m, Encoded(m)];
    assert from[0] == '/' && to[0] == '/' && Encoded(m).from[0] == '-' && Encoded(m).to[0] == '-';
    assert Variants(m) == all;
    assert base[..0] == [];
    Empty(all);
    assert AllVariants(base) == all;
    assert all[..1] == [m] && [m][..0] == [];
    assert FirstWins([m]) == map[from := to];
  }

  // ── The way back with the mappings turned round ───────────────────────────

  function Back(m: Mapping): Mapping {
    Mapping(m.to, m.from)
  }

  function Reversed(ms: seq<Mapping>): seq<Mapping> {
    seq(|ms|, i requires 0 <= i < |ms| => Back(ms[i]))
  }

  /** Each mapping and its encoded form, needed or not: one that is not needed comes second. */
  function AllBoth(base: seq<Mapping>): seq<Mapping> {
    if base == [] then []
    else AllBoth(base[..|base| - 1]) + [base[|base| - 1], Encoded(base[|base| - 1])]
  }

  lemma FirstWinsSnoc(all: seq<Mapping>, m: Mapping)
    ensures FirstWins(all + [m]) == if m.from in FirstWins(all) then FirstWins(all) else FirstWins(all)[m.from := m.to]
  {
    assert (all + [m])[..|all|] == all;
  }

  lemma {:induction false} VariantsOrBoth(base: seq<Mapping>)
    ensures FirstWins(AllVariants(base)) == FirstWins(AllBoth(base))
  {
    if base != [] {
      var before, m := base[..|base| - 1], base[|base| - 1];
      VariantsOrBoth(before);
      FirstWinsSnoc(AllVariants(before), m);
      FirstWinsSnoc(AllBoth(before), m);
      FirstWinsSnoc(AllVariants(before) + [m], Encoded(m));
      FirstWinsSnoc(AllBoth(before) + [m], Encoded(m));
      Assoc(AllBoth(before), [m], [Encoded(m)]);
      Assoc(AllVariants(before), [m], [Encoded(m)]);
      assert [m] + [Encoded(m)] == [m, Encoded(m)];
    }
  }

  lemma ReversedAppend(a: seq<Mapping>, b: seq<Mapping>)
    ensures Reversed(a + b) == Reversed(a) + Reversed(b)
  {
  }

  lemma {:induction false} BothReversed(base: seq<Mapping>)
    ensures AllBoth(Reversed(base)) == Reversed(AllBoth(base))
  {
    if base != [] {
      var before, m := base[..|base| - 1], base[|base| - 1];
      BothReversed(before);
      ReversedAppend(AllBoth(before), [m, Encoded(m)]);
      assert Reversed(base)[..|base| - 1] == Reversed(before) && Reversed(base)[|base| - 1] == Back(m);
      assert Reversed([m, Encoded(m)]) == [Back(m), Encoded(Back(m))];
    }
  }

  /** No earlier entry has the same key, or, on the way back, the same replacement. */
  predicate Leads(all: seq<Mapping>, i: nat)
    requires i < |all|
  {
    forall j | 0 <= j < i :: all[j].from != all[i].from
  }

  predicate LeadsBack(all: seq<Mapping>, i: nat)
    requires i < |all|
  {
    forall j | 0 <= j < i :: all[j].to != all[i].to
  }

  predicate ShadowedAlike(all: seq<Mapping>) {
    forall i | 0 <= i < |all| :: Leads(all, i) <==> LeadsBack(all, i)
  }

  lemma {:induction false} FirstWinsAt(all: seq<Mapping>, i: nat)
    requires i < |all|
    ensures all[i].from in FirstWins(all)
    ensures Leads(all, i) ==> FirstWins(all)[all[i].from] == all[i].to
  {
    var n := |all| - 1;
    if i < n {
      FirstWinsAt(all[..n], i);
    } else if all[i].from in FirstWins(all[..n]) {
      var j := Leader(all[..n], all[i].from);
      assert all[j].from == all[i].from;
    }
  }

  lemma {:induction false} Leader(all: seq<Mapping>, k: string) returns (i: nat)
    requires k in FirstWins(all)
    ensures i < |all| && Leads(all, i) && all[i] == Mapping(k, FirstWins(all)[k])
  {
    var n := |all| - 1;
    if k in FirstWins(all[..n]) {
      i := Leader(all[..n], k);
    } else {
      i := n;
      forall j | 0 <= j < n ensures all[j].from != k {
        FirstWinsAt(all[..n], j);
      }
    }
  }

  lemma BackLeads(all: seq<Mapping>, i: nat)
    requires i < |all|
    ensures Leads(Reversed(all), i) <==> LeadsBack(all, i)
  {
    assert forall j | 0 <= j < |all| :: Reversed(all)[j].from == all[j].to;
  }

  /** The tables of a list and of its reversal are inverse if and only if each entry is shadowed
      in both or in neither. */
  lemma ReversalInverse(all: seq<Mapping>)
    ensures Inverse(FirstWins(all), FirstWins(Reversed(all))) <==> ShadowedAlike(all)
  {
    if Inverse(FirstWins(all), FirstWins(Reversed(all))) {
      forall i | 0 <= i < |all| ensures Leads(all, i) <==> LeadsBack(all, i) {
        LeadsAlike(all, i);
      }
    } else {
      NotAlike(all);
    }
  }

  lemma LeadsAlike(all: seq<Mapping>, i: nat)
    requires i < |all| && Inverse(FirstWins(all), FirstWins(Reversed(all)))
    ensures Leads(all, i) <==> LeadsBack(all, i)
  {
    var back := Reversed(all);
    FirstWinsAt(all, i);
    FirstWinsAt(back, i);
    BackLeads(all, i);
    assert back[i] == Back(all[i]);
    if Leads(all, i) {
      var j := Leader(back, all[i].to);
      assert back[j] == Back(all[j]) && all[j] == all[i];
      NotBefore(all, i, j);
      NotBefore(back, j, i);
    }
    if LeadsBack(all, i) {
      var j := Leader(all, all[i].from);
      assert back[j] == Back(all[j]) && all[j] == all[i];
      NotBefore(all, j, i);
      NotBefore(back, i, j);
    }
  }

  lemma NotBefore(all: seq<Mapping>, i: nat, j: nat)
    requires i < |all| && j < |all| && Leads(all, i) && all[j].from == all[i].from
    ensures i <= j
  {
  }

  lemma NotAlike(all: seq<Mapping>)
    requires !Inverse(FirstWins(all), FirstWins(Reversed(all)))
    ensures !ShadowedAlike(all)
  {
    var t, back := FirstWins(all), FirstWins(Reversed(all));
    if k :| k in t && (t[k] !in back || back[t[k]] != k) {
      var i := Leader(all, k);
      BackLeads(all, i);
      FirstWinsAt(Reversed(all), i);
      assert Reversed(all)[i] == Back(all[i]);
    } else {
      var v :| v in back && (back[v] !in t || t[back[v]] != v);
      var i := Leader(Reversed(all), v);
      BackLeads(all, i);
      FirstWinsAt(all, i);
      assert Reversed(all)[i] == Back(all[i]);
    }
  }

  // ── From the arguments ────────────────────────────────────────────────────

  /** `OLD=NEW` turned round. */
  function BackArg(arg: string): string
    requires WellFormedMap(arg)
  {
    UserMapping(arg).to + "=" + UserMapping(arg).from
  }

  lemma {:induction false} EqualsAt(a: string, b: string)
    ensures IndexOfEquals(a + "=" + b) == |a| <==> '=' !in a
    ensures '=' in a ==> 0 <= IndexOfEquals(a + "=" + b) < |a|
  {
    var s := a + "=" + b;
    if a == "" {
      assert s[0] == '=';
    } else {
      EqualsAt(a[1..], b);
      assert s[0] == a[0] && s[1..] == a[1..] + "=" + b;
      HeadTail(a);
    }
  }

  lemma EqualsFound(s: string)
    requires IndexOfEquals(s) >= 0
    ensures s[IndexOfEquals(s)] == '=' && '=' !in s[..IndexOfEquals(s)]
  {
    if s[0] != '=' {
      EqualsFound(s[1..]);
      var i := IndexOfEquals(s);
      assert s[..i] == [s[0]] + s[1..][..i - 1];
    }
  }

  /** The argument turned round means the mapping turned round exactly when there is no other
      `=` in it. */
  lemma BackArgReads(arg: string)
    requires WellFormedMap(arg)
    ensures WellFormedMap(BackArg(arg)) && UserMapping(BackArg(arg)) == Back(UserMapping(arg)) <==> '=' !in UserMapping(arg).to
  {
    var m := UserMapping(arg);
    EqualsAt(m.to, m.from);
    var s := BackArg(arg);
    if '=' !in m.to {
      assert s[..|m.to|] == m.to && s[|m.to| + 1..] == m.from;
    } else {
      assert |s[..IndexOfEquals(s)]| < |m.to|;
    }
  }

  function BackArgs(maps: seq<string>): seq<string>
    requires forall m | m in maps :: WellFormedMap(m)
  {
    seq(|maps|, i requires 0 <= i < |maps| => BackArg(maps[i]))
  }

  predicate TurnsRound(maps: seq<string>) {
    forall m | m in maps :: WellFormedMap(m) && '=' !in UserMapping(m).to
  }

  lemma BackArgsRead(maps: seq<string>)
    requires TurnsRound(maps)
    ensures forall m | m in BackArgs(maps) :: WellFormedMap(m)
  {
    forall i | 0 <= i < |maps| ensures WellFormedMap(BackArgs(maps)[i]) {
      BackArgReads(maps[i]);
    }
  }

  lemma UserMappingLast(maps: seq<string>, n: nat)
    requires |maps| == n + 1 && forall m | m in maps :: WellFormedMap(m)
    ensures forall m | m in maps[..n] :: m in maps
    ensures UserMappingList(maps) == UserMappingList(maps[..n]) + [UserMapping(maps[n])]
  {
  }

  lemma {:induction false} UserMappingsReversed(maps: seq<string>)
    requires TurnsRound(maps)
    ensures forall m | m in BackArgs(maps) :: WellFormedMap(m)
    ensures UserMappingList(BackArgs(maps)) == Reversed(UserMappingList(maps))
  {
    BackArgsRead(maps);
    if maps != [] {
      var n := |maps| - 1;
      UserMappingLast(maps, n);
      UserMappingLast(BackArgs(maps), n);
      UserMappingsReversed(maps[..n]);
      BackArgReads(maps[n]);
      assert BackArgs(maps)[..n] == BackArgs(maps[..n]);
      ReversedAppend(UserMappingList(maps[..n]), [UserMapping(maps[n])]);
      assert Reversed([UserMapping(maps[n])]) == [Back(UserMapping(maps[n]))];
    }
  }

  /** What `--remap-home` passes for `homeTo` on the way back. */
  function ClientHome(clientRoot: string): string {
    if HomePrefix(clientRoot).Some? then HomePrefix(clientRoot).value else ""
  }

  /** `--remap-home` is turned round exactly when the client has no home to remap, or the box
      root lies in the home that push maps to. */
  lemma HomeReversed(clientRoot: string, boxRoot: string, boxHome: string)
    requires boxHome != ""
    ensures HomeMapping(boxRoot, ClientHome(clientRoot)) == Reversed(HomeMapping(clientRoot, boxHome)) <==>
            HomePrefix(clientRoot).None? || HomePrefix(boxRoot) == Some(boxHome)
  {
    var there, back := HomeMapping(clientRoot, boxHome), HomeMapping(boxRoot, ClientHome(clientRoot));
    if HomePrefix(clientRoot).Some? {
      assert clientRoot != "" && there == [Mapping(ClientHome(clientRoot), boxHome)];
      assert Reversed(there) == [Mapping(boxHome, ClientHome(clientRoot))];
      assert HomePrefix(boxRoot).Some? ==> boxRoot != "" && back == [Mapping(HomePrefix(boxRoot).value, ClientHome(clientRoot))];
    } else {
      assert there == [] && back == [];
    }
  }

  /** The options of a push and of the pull that turns it round. */
  datatype Options = Options(clientRoot: string, boxRoot: string, maps: seq<string>, remapHome: bool, boxHome: string)

  predicate Reversible(o: Options) {
    && o.clientRoot != "" && o.boxRoot != "" && o.boxHome != "" && TurnsRound(o.maps)
    && (o.remapHome ==> HomePrefix(o.clientRoot).None? || HomePrefix(o.boxRoot) == Some(o.boxHome))
  }

  function PushBase(o: Options): seq<Mapping>
    requires Reversible(o)
  {
    BaseMappings(o.clientRoot, o.boxRoot, o.maps, if o.remapHome then o.clientRoot else "", if o.remapHome then o.boxHome else "")
  }

  function PullBase(o: Options): seq<Mapping>
    requires Reversible(o)
  {
    UserMappingsReversed(o.maps);
    BaseMappings(o.boxRoot, o.clientRoot, BackArgs(o.maps), if o.remapHome then o.boxRoot else "", if o.remapHome then ClientHome(o.clientRoot) else "")
  }

  lemma BaseReversed(o: Options)
    requires Reversible(o)
    ensures PullBase(o) == Reversed(PushBase(o))
  {
    var root, user := [Mapping(o.clientRoot, o.boxRoot)], UserMappingList(o.maps);
    var home := if o.remapHome then HomeMapping(o.clientRoot, o.boxHome) else [];
    UserMappingsReversed(o.maps);
    HomeReversed(o.clientRoot, o.boxRoot, o.boxHome);
    ReversedAppend(root + user, home);
    ReversedAppend(root, user);
    assert Reversed(root) == [Mapping(o.boxRoot, o.clientRoot)];
  }

  predicate BothEndsGiven(ms: seq<Mapping>) {
    forall m | m in ms :: m.from != "" && m.to != ""
  }

  lemma {:induction false} UserEndsGiven(maps: seq<string>)
    requires forall m | m in maps :: WellFormedMap(m)
    ensures BothEndsGiven(UserMappingList(maps))
  {
    if maps != [] {
      assert forall m | m in maps[..|maps| - 1] :: m in maps;
      UserEndsGiven(maps[..|maps| - 1]);
      assert WellFormedMap(maps[|maps| - 1]);
    }
  }

  lemma {:induction false} EndsStayGiven(base: seq<Mapping>)
    requires BothEndsGiven(base)
    ensures BothEndsGiven(AllBoth(base))
  {
    if base != [] {
      EndsStayGiven(base[..|base| - 1]);
    }
  }

  lemma GivenIsNonEmpty(all: seq<Mapping>)
    requires BothEndsGiven(all)
    ensures NonEmpty(FirstWins(all))
  {
    forall k | k in FirstWins(all) ensures k != "" && FirstWins(all)[k] != "" {
      var i := Leader(all, k);
      assert all[i] in all;
    }
  }

  lemma PushNonEmpty(o: Options)
    requires Reversible(o)
    ensures NonEmpty(FirstWins(AllBoth(PushBase(o))))
  {
    UserEndsGiven(o.maps);
    EndsStayGiven(PushBase(o));
    GivenIsNonEmpty(AllBoth(PushBase(o)));
  }

  /** The lists of a push and of the pull that turns it round are inverse if and only if each
      mapping and encoded form is shadowed in both directions or in neither; a text then comes
      back exactly as `PullAfterPush` says. */
  lemma PullTurnsPushRound(text: string, o: Options, push: seq<Mapping>, pull: seq<Mapping>)
    requires Reversible(o) && LongestFirst(push) && LongestFirst(pull)
    requires Table(push) == FirstWins(AllVariants(PushBase(o))) && Table(pull) == FirstWins(AllVariants(PullBase(o)))
    ensures NonEmpty(Table(push)) && (Inverse(Table(push), Table(pull)) <==> ShadowedAlike(AllBoth(PushBase(o))))
    ensures ShadowedAlike(AllBoth(PushBase(o))) && Unambiguous(text, Table(push), Table(pull)) ==>
              ApplyMappings(ApplyMappings(text, push), pull) == text
    ensures ShadowedAlike(AllBoth(PushBase(o))) && PrefixFree(Table(pull).Keys) ==>
              (ApplyMappings(ApplyMappings(text, push), pull) == text <==> NoneAtCopies(text, Table(push), Table(pull)))
  {
    var all := AllBoth(PushBase(o));
    VariantsOrBoth(PushBase(o));
    VariantsOrBoth(PullBase(o));
    BaseReversed(o);
    BothReversed(PushBase(o));
    ReversalInverse(all);
    PushNonEmpty(o);
    if ShadowedAlike(all) {
      PullAfterPush(text, push, pull);
      if PrefixFree(Table(pull).Keys) {
        PullAfterPushIff(text, push, pull);
      }
    }
  }
}
