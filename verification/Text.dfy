/** The string operations that several components share: JavaScript's `replace` of one
    character, `join` and `split`, with the laws that make them inverses. */
module Wrappers {
  datatype Option<+T> = None | Some(value: T)

  datatype Result<+T, +E> = Ok(value: T) | Err(error: E)
}

/** Sequence algebra the verifier does not look for by itself. */
module Sequences {
  lemma Assoc<T>(a: seq<T>, b: seq<T>, c: seq<T>)
    ensures a + b + c == a + (b + c)
  {
  }

  lemma AppendTail<T>(a: seq<T>, b: seq<T>)
    requires a != []
    ensures (a + b)[0] == a[0] && (a + b)[1..] == a[1..] + b
  {
  }

  lemma ConsTail<T>(x: T, s: seq<T>)
    ensures ([x] + s)[0] == x && ([x] + s)[1..] == s
  {
  }

  lemma HeadTail<T>(s: seq<T>)
    requires s != []
    ensures s == [s[0]] + s[1..]
  {
  }

  lemma DropAppend<T>(a: seq<T>, b: seq<T>, n: nat)
    requires n <= |a|
    ensures (a + b)[n..] == a[n..] + b
  {
  }

  lemma TakeNext<T>(s: seq<T>, i: nat)
    requires i < |s|
    ensures s[..i + 1] == s[..i] + [s[i]]
  {
  }

  lemma TakeDrop<T>(s: seq<T>, i: nat)
    requires i <= |s|
    ensures s == s[..i] + s[i..]
  {
  }

  lemma Empty<T>(s: seq<T>)
    ensures s + [] == s && [] + s == s
  {
  }
}

module Sizes {
  lemma {:induction false} SubsetSize<T>(a: set<T>, b: set<T>)
    requires a <= b
    ensures |a| <= |b|
  {
    if a != {} {
      var x :| x in a;
      SubsetSize(a - {x}, b - {x});
    }
  }
}

module Text {
  import opened Sequences

  /** JavaScript's WhiteSpace and LineTerminator characters. */
  predicate IsSpace(c: char) {
    || c == ' ' || '\t' <= c <= '\r'
    || c == '\U{00A0}' || c == '\U{1680}' || '\U{2000}' <= c <= '\U{200A}' || '\U{2028}' <= c <= '\U{2029}'
    || c == '\U{202F}' || c == '\U{205F}' || c == '\U{3000}' || c == '\U{FEFF}'
  }

  /** `line.trim() === ""`. */
  predicate IsBlank(line: string) {
    forall i | 0 <= i < |line| :: IsSpace(line[i])
  }

  /** `s.replace(/c/g, sub)`. */
  function ReplaceChar(s: string, c: char, sub: string): string {
    if s == "" then "" else (if s[0] == c then sub else [s[0]]) + ReplaceChar(s[1..], c, sub)
  }

  /** `parts.join(sep)`. */
  function Join(parts: seq<string>, sep: string): string {
    if parts == [] then ""
    else if |parts| == 1 then parts[0]
    else parts[0] + sep + Join(parts[1..], sep)
  }

  /** What the first character does to the parts of the rest. */
  function Extend(x: char, parts: seq<string>, c: char): seq<string>
    requires parts != []
  {
    if x == c then [""] + parts else [[x] + parts[0]] + parts[1..]
  }

  /** `s.split(c)`: never empty, one part more than there are separators. */
  function Split(s: string, c: char): (parts: seq<string>)
    ensures parts != []
    ensures forall p | p in parts :: c !in p
  {
    if s == "" then [""] else Extend(s[0], Split(s[1..], c), c)
  }

  lemma {:induction false} SplitWhole(s: string, c: char)
    requires c !in s
    ensures Split(s, c) == [s]
  {
    if s != "" {
      assert forall x | x in s[1..] :: x in s;
      SplitWhole(s[1..], c);
      assert s == [s[0]] + s[1..];
    }
  }

  /** A stretch without separators only lengthens the first part. */
  lemma {:induction false} SplitPrefix(prefix: string, s: string, c: char)
    requires c !in prefix
    ensures Split(prefix + s, c) == [prefix + Split(s, c)[0]] + Split(s, c)[1..]
  {
    if prefix == "" {
      assert prefix + s == s;
      var parts := Split(s, c);
      assert prefix + parts[0] == parts[0];
      assert parts == [parts[0]] + parts[1..];
    } else {
      var p := prefix[1..];
      assert forall x | x in p :: x in prefix;
      SplitPrefix(p, s, c);
      assert (prefix + s)[1..] == p + s;
      assert prefix[0] in prefix;
      assert [prefix[0]] + (p + Split(s, c)[0]) == prefix + Split(s, c)[0];
    }
  }

  lemma SplitStep(a: string, more: seq<string>, c: char)
    requires a != ""
    ensures Extend(a[0], Split(a[1..], c) + more, c) == Split(a, c) + more
  {
    var tail := Split(a[1..], c);
    AppendTail(tail, more);
    Assoc([""], tail, more);
    Assoc([[a[0]] + tail[0]], tail[1..], more);
  }

  /** A separator ends the part it follows. */
  lemma {:induction false} SplitAppend(a: string, b: string, c: char)
    ensures Split(a + [c] + b, c) == Split(a, c) + Split(b, c)
  {
    if a == "" {
      Empty([c]);
      ConsTail(c, b);
    } else {
      SplitAppend(a[1..], b, c);
      AppendTail(a, [c]);
      AppendTail(a + [c], b);
      SplitStep(a, Split(b, c), c);
    }
  }

  /** Splitting a joined list splits each of its parts in turn. */
  function SplitEach(parts: seq<string>, c: char): seq<string> {
    if parts == [] then [] else Split(parts[0], c) + SplitEach(parts[1..], c)
  }

  lemma {:induction false} SplitJoined(parts: seq<string>, c: char)
    requires parts != []
    ensures Split(Join(parts, [c]), c) == SplitEach(parts, c)
  {
    if |parts| == 1 {
      assert SplitEach(parts[1..], c) == [];
      assert Split(parts[0], c) + [] == Split(parts[0], c);
    } else {
      SplitJoined(parts[1..], c);
      SplitAppend(parts[0], Join(parts[1..], [c]), c);
    }
  }

  /** `split` undoes `join` exactly when no part holds the separator. */
  lemma {:induction false} SplitJoin(parts: seq<string>, c: char)
    requires parts != []
    ensures Split(Join(parts, [c]), c) == parts <==> forall p | p in parts :: c !in p
  {
    SplitJoined(parts, c);
    if forall p | p in parts :: c !in p {
      SplitEachWhole(parts, c);
    }
  }

  lemma {:induction false} SplitEachWhole(parts: seq<string>, c: char)
    requires forall p | p in parts :: c !in p
    ensures SplitEach(parts, c) == parts
  {
    if parts != [] {
      SplitWhole(parts[0], c);
      SplitEachWhole(parts[1..], c);
    }
  }

  /** `join` undoes `split`, always. */
  lemma {:induction false} JoinSplit(s: string, c: char)
    ensures Join(Split(s, c), [c]) == s
  {
    if s != "" {
      JoinSplit(s[1..], c);
      var rest := Split(s[1..], c);
      if s[0] == c {
        assert ([""] + rest)[1..] == rest;
        assert "" + [c] + s[1..] == s;
      } else {
        var parts := [[s[0]] + rest[0]] + rest[1..];
        assert parts[1..] == rest[1..];
        if |rest| > 1 {
          assert [s[0]] + rest[0] + [c] + Join(rest[1..], [c]) == [s[0]] + (rest[0] + [c] + Join(rest[1..], [c]));
        }
      }
    }
  }
}
