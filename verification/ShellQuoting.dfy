/** clients/devbox/src/config.ts: the quoting that carries an argument list through a shell. */
module ShellQuoting {
  import opened Wrappers
  import opened Sequences
  import opened Text

  /** POSIX single-quoting: close the quotes, write an escaped quote, open them again. */
  function ShQuote(s: string): string {
    "'" + ReplaceChar(s, '\'', "'\\''") + "'"
  }

  function Quoted(args: seq<string>): seq<string> {
    seq(|args|, i requires 0 <= i < |args| => ShQuote(args[i]))
  }

  /** The remote command string: every argument quoted, joined by blanks. */
  function Command(args: seq<string>): string {
    Join(Quoted(args), " ")
  }

  // ── The shell's side ──────────────────────────────────────────────────────

  datatype Token = Word(text: string) | Pipe

  datatype ShellError = UnterminatedQuote | OutsideSubset

  /** Characters with no meaning to the shell outside quotes. Anything else would start an
      expansion or an operator this reader does not cover. */
  predicate IsBare(c: char) {
    'a' <= c <= 'z' || 'A' <= c <= 'Z' || '0' <= c <= '9' || c in "-_./:,@+"
  }

  function Emit(word: Option<string>): seq<Token> {
    if word.Some? then [Word(word.value)] else []
  }

  function Begun(word: Option<string>): string {
    if word.Some? then word.value else ""
  }

  function Prepend(ts: seq<Token>, r: Result<seq<Token>, ShellError>): Result<seq<Token>, ShellError> {
    if r.Ok? then Ok(ts + r.value) else r
  }

  /** Token recognition after sections 2.2.1 (escape), 2.2.2 (single-quotes) and 2.3 of the
      Shell Command Language of POSIX.1-2017. `word` is the word under construction. */
  function Scan(s: string, word: Option<string>, inQuotes: bool): Result<seq<Token>, ShellError> {
    if s == "" then
      if inQuotes then Err(UnterminatedQuote) else Ok(Emit(word))
    else if inQuotes then
      if s[0] == '\'' then Scan(s[1..], word, false) else Scan(s[1..], Some(Begun(word) + [s[0]]), true)
    else if s[0] == '\'' then Scan(s[1..], Some(Begun(word)), true)
    else if s[0] == ' ' || s[0] == '\t' then Prepend(Emit(word), Scan(s[1..], None, false))
    else if s[0] == '|' then Prepend(Emit(word) + [Pipe], Scan(s[1..], None, false))
    else if s[0] == '\\' then
      if |s| == 1 then Err(OutsideSubset)
      else if s[1] == '\n' then Scan(s[2..], word, false)
      else Scan(s[2..], Some(Begun(word) + [s[1]]), false)
    else if IsBare(s[0]) then Scan(s[1..], Some(Begun(word) + [s[0]]), false)
    else Err(OutsideSubset)
  }

  function Tokens(s: string): Result<seq<Token>, ShellError> {
    Scan(s, None, false)
  }

  function Words(args: seq<string>): seq<Token> {
    seq(|args|, i requires 0 <= i < |args| => Word(args[i]))
  }

  // ── Laws ──────────────────────────────────────────────────────────────────

  lemma QuotedChar(c: char, tail: string, w: string)
    requires c != '\''
    ensures Scan([c] + tail, Some(w), true) == Scan(tail, Some(w + [c]), true)
  {
    ConsTail(c, tail);
  }

  lemma ClosingQuote(tail: string, w: string)
    ensures Scan("'" + tail, Some(w), true) == Scan(tail, Some(w), false)
  {
    ConsTail('\'', tail);
  }

  lemma OpeningQuote(tail: string, word: Option<string>)
    ensures Scan("'" + tail, word, false) == Scan(tail, Some(Begun(word)), true)
  {
    ConsTail('\'', tail);
  }

  lemma EscapedChar(c: char, tail: string, w: string)
    requires c != '\n'
    ensures Scan("\\" + ([c] + tail), Some(w), false) == Scan(tail, Some(w + [c]), false)
  {
    var s := "\\" + ([c] + tail);
    ConsTail('\\', [c] + tail);
    ConsTail(c, tail);
    assert s[1] == c && s[2..] == s[1..][1..];
  }

  /** Out of the quotes, an escaped quote, and back in. */
  lemma EscapedQuote(tail: string, w: string)
    ensures Scan("'\\''" + tail, Some(w), true) == Scan(tail, Some(w + ['\'']), true)
  {
    assert "'\\''" + tail == "'" + ("\\" + ("'" + ("'" + tail)));
    ClosingQuote("\\" + ("'" + ("'" + tail)), w);
    EscapedChar('\'', "'" + tail, w);
    OpeningQuote(tail, Some(w + ['\'']));
  }

  lemma {:induction false} ScanBody(t: string, rest: string, w: string)
    ensures Scan(ReplaceChar(t, '\'', "'\\''") + "'" + rest, Some(w), true) == Scan(rest, Some(w + t), false)
  {
    if t == "" {
      Empty("'");
      Empty(w);
      ClosingQuote(rest, w);
    } else {
      var tail := ReplaceChar(t[1..], '\'', "'\\''") + "'" + rest;
      ScanBody(t[1..], rest, w + [t[0]]);
      Assoc(w, [t[0]], t[1..]);
      HeadTail(t);
      BodyStep(if t[0] == '\'' then "'\\''" else [t[0]], ReplaceChar(t[1..], '\'', "'\\''"), rest);
      if t[0] == '\'' {
        EscapedQuote(tail, w);
      } else {
        QuotedChar(t[0], tail, w);
      }
    }
  }

  lemma BodyStep(piece: string, more: string, rest: string)
    ensures piece + more + "'" + rest == piece + (more + "'" + rest)
  {
  }

  /** One quoted argument adds exactly its own text to the current word. */
  lemma ScanQuoted(t: string, rest: string, word: Option<string>)
    ensures Scan(ShQuote(t) + rest, word, false) == Scan(rest, Some(Begun(word) + t), false)
  {
    var body := ReplaceChar(t, '\'', "'\\''") + "'" + rest;
    assert ShQuote(t) + rest == "'" + body;
    assert ("'" + body)[1..] == body;
    ScanBody(t, rest, Begun(word));
  }

  lemma BareChar(c: char, tail: string, word: Option<string>)
    requires IsBare(c)
    ensures Scan([c] + tail, word, false) == Scan(tail, Some(Begun(word) + [c]), false)
  {
    ConsTail(c, tail);
  }

  lemma {:induction false} ScanBare(t: string, rest: string, word: Option<string>)
    requires t != "" && forall c | c in t :: IsBare(c)
    ensures Scan(t + rest, word, false) == Scan(rest, Some(Begun(word) + t), false)
  {
    HeadTail(t);
    Assoc([t[0]], t[1..], rest);
    BareChar(t[0], t[1..] + rest, word);
    if |t| == 1 {
      Empty(rest);
    } else {
      ScanBare(t[1..], rest, Some(Begun(word) + [t[0]]));
      Assoc(Begun(word), [t[0]], t[1..]);
    }
  }

  lemma PrependTwice(a: seq<Token>, b: seq<Token>, r: Result<seq<Token>, ShellError>)
    ensures Prepend(a, Prepend(b, r)) == Prepend(a + b, r)
  {
    if r.Ok? {
      assert a + (b + r.value) == a + b + r.value;
    }
  }

  /** A command line written the way the client writes one: literal words, quoted arguments
      and pipes, separated by single blanks. */
  datatype Piece = Literal(text: string) | Argument(text: string) | Bar

  predicate Writable(p: Piece) {
    p.Literal? ==> p.text != "" && forall c | c in p.text :: IsBare(c)
  }

  function Written(p: Piece): string {
    match p
    case Literal(t) => t
    case Argument(t) => ShQuote(t)
    case Bar => "|"
  }

  function Meant(p: Piece): Token {
    if p.Bar? then Pipe else Word(p.text)
  }

  function Line(ps: seq<Piece>): string {
    Join(seq(|ps|, i requires 0 <= i < |ps| => Written(ps[i])), " ")
  }

  function Meaning(ps: seq<Piece>): seq<Token> {
    seq(|ps|, i requires 0 <= i < |ps| => Meant(ps[i]))
  }

  lemma ScanPiece(p: Piece, rest: string)
    requires Writable(p)
    requires rest == "" || rest[0] == ' '
    ensures Scan(Written(p) + rest, None, false) ==
            Prepend([Meant(p)], if rest == "" then Ok([]) else Scan(rest[1..], None, false))
  {
    var one := [Meant(p)];
    assert [] + one == one == one + [];
    match p
    case Literal(t) =>
      ScanBare(t, rest, None);
      assert "" + t == t;
    case Argument(t) =>
      ScanQuoted(t, rest, None);
      assert "" + t == t;
    case Bar =>
      assert ("|" + rest)[1..] == rest;
      if rest != "" {
        PrependTwice([Pipe], [], Scan(rest[1..], None, false));
      }
  }

  /** The shell reads a written line as the words and pipes that were meant, whatever the
      arguments hold. */
  lemma {:induction false} LineRoundTrip(ps: seq<Piece>)
    requires forall p | p in ps :: Writable(p)
    ensures Tokens(Line(ps)) == Ok(Meaning(ps))
  {
    if ps != [] {
      var tail := ps[1..];
      LineRoundTrip(tail);
      var texts := seq(|ps|, i requires 0 <= i < |ps| => Written(ps[i]));
      assert texts[1..] == seq(|tail|, i requires 0 <= i < |tail| => Written(tail[i]));
      assert Meaning(ps) == [Meant(ps[0])] + Meaning(tail);
      var rest := if tail == [] then "" else " " + Line(tail);
      assert Line(ps) == Written(ps[0]) + rest;
      ScanPiece(ps[0], rest);
      if tail != [] {
        assert rest[1..] == Line(tail);
      }
    }
  }

  /** The command string `connect` sends is read back as the argument list it was built from. */
  lemma CommandRoundTrip(args: seq<string>)
    ensures Tokens(Command(args)) == Ok(Words(args))
  {
    var ps := seq(|args|, i requires 0 <= i < |args| => Argument(args[i]));
    LineRoundTrip(ps);
    assert seq(|ps|, i requires 0 <= i < |ps| => Written(ps[i])) == Quoted(args);
    assert Meaning(ps) == Words(args);
  }

  /** Quoting a whole command once more hides it from one shell and hands it intact to the
      next: the first reads a single word, and reading that word gives the arguments. */
  lemma NestedRoundTrip(args: seq<string>)
    ensures Tokens(ShQuote(Command(args))) == Ok([Word(Command(args))])
    ensures Tokens(Command(args)) == Ok(Words(args))
  {
    CommandRoundTrip([Command(args)]);
    assert Quoted([Command(args)]) == [ShQuote(Command(args))];
    assert Words([Command(args)]) == [Word(Command(args))];
    CommandRoundTrip(args);
  }

  /** The pipeline `push` hands to `sh -c`. */
  function PushPipeline(staging: string, host: string, script: string): string {
    Join(["tar", "-czf", "-", "-C", ShQuote(staging), ".", "|", "ssh", ShQuote(host), ShQuote(script)], " ")
  }

  /** Local shell and box shell agree on what was meant: tar runs on the staging directory,
      ssh gets the host, and the box gets the script byte for byte, newlines included. */
  lemma PushRoundTrip(staging: string, host: string, script: string)
    ensures Tokens(PushPipeline(staging, host, script)) ==
            Ok([Word("tar"), Word("-czf"), Word("-"), Word("-C"), Word(staging), Word("."), Pipe,
                Word("ssh"), Word(host), Word(script)])
  {
    var ps := [Literal("tar"), Literal("-czf"), Literal("-"), Literal("-C"), Argument(staging), Literal("."), Bar,
               Literal("ssh"), Argument(host), Argument(script)];
    LineRoundTrip(ps);
    assert seq(|ps|, i requires 0 <= i < |ps| => Written(ps[i])) ==
           ["tar", "-czf", "-", "-C", ShQuote(staging), ".", "|", "ssh", ShQuote(host), ShQuote(script)];
    assert Meaning(ps) == [Word("tar"), Word("-czf"), Word("-"), Word("-C"), Word(staging), Word("."), Pipe,
                           Word("ssh"), Word(host), Word(script)];
  }
}
