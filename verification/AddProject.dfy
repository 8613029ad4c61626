/** Finding a developer's list in a configuration, whatever tells the lines apart. */
module Sections {
  import opened Wrappers
  import opened Sequences
  import opened Text

  /** The first line from `from` on that satisfies `p`; `end` when there is none before it. */
  function First(lines: seq<string>, from: nat, end: nat, p: string -> bool): (r: nat)
    requires from <= end <= |lines|
    ensures from <= r <= end
    decreases end - from
  {
    if from == end || p(lines[from]) then from else First(lines, from + 1, end, p)
  }

  /** None of a stretch of lines satisfies `p`. */
  predicate NoneIs(lines: seq<string>, from: nat, end: nat, p: string -> bool)
    requires from <= end <= |lines|
  {
    forall j | from <= j < end :: !p(lines[j])
  }

  lemma {:induction false} FirstFound(lines: seq<string>, from: nat, end: nat, p: string -> bool)
    requires from <= end <= |lines|
    ensures var r := First(lines, from, end, p); NoneIs(lines, from, r, p) && (r < end ==> p(lines[r]))
    decreases end - from
  {
    if from < end && !p(lines[from]) {
      FirstFound(lines, from + 1, end, p);
    }
  }

  lemma FirstIs(lines: seq<string>, from: nat, end: nat, p: string -> bool, i: nat)
    requires from <= i <= end <= |lines| && NoneIs(lines, from, i, p) && (i < end ==> p(lines[i]))
    ensures First(lines, from, end, p) == i
  {
    FirstFound(lines, from, end, p);
    var r := First(lines, from, end, p);
    assert r < end ==> p(lines[r]);
  }

  /** `for (…) if (p(lines[j])) return j`. */
  method Search(lines: seq<string>, from: nat, end: nat, p: string -> bool) returns (r: nat)
    requires from <= end <= |lines|
    ensures r == First(lines, from, end, p)
  {
    for j := from to end
      invariant NoneIs(lines, from, j, p)
    {
      if p(lines[j]) {
        FirstIs(lines, from, end, p, j);
        return j;
      }
    }
    FirstIs(lines, from, end, p, end);
    return end;
  }

  /** How lines are told apart: the one that names the developer, those that begin a developer
      at an indent, hold the list's key at it, end a list whose key is at it, and name the
      project. */
  datatype Tests = Tests(user: string -> bool, indent: string -> nat, begins: nat -> string -> bool,
                         key: nat -> string -> bool, ends: nat -> string -> bool, names: string -> bool)

  datatype AddError = NoDeveloper | NoProjects | AlreadyThere

  /** Where a developer's block and its list lie: `at` is where the list ends. */
  datatype Place = Place(start: nat, end: nat, key: nat, at: nat)

  function Locate(lines: seq<string>, t: Tests): Result<Place, AddError> {
    var start := First(lines, 0, |lines|, t.user);
    if start == |lines| then Err(NoDeveloper)
    else
      var indent := t.indent(lines[start]);
      var end := First(lines, start + 1, |lines|, t.begins(indent));
      var key := First(lines, start + 1, end, t.key(indent + 2));
      if key == end then Err(NoProjects)
      else
        var at := First(lines, key + 1, end, t.ends(indent + 2));
        if First(lines, key + 1, at, t.names) < at then Err(AlreadyThere) else Ok(Place(start, end, key, at))
  }

  method Find(lines: seq<string>, t: Tests) returns (r: Result<Place, AddError>)
    ensures r == Locate(lines, t)
  {
    var start := Search(lines, 0, |lines|, t.user);
    if start == |lines| { return Err(NoDeveloper); }
    var indent := t.indent(lines[start]);
    var end := Search(lines, start + 1, |lines|, t.begins(indent));
    var key := Search(lines, start + 1, end, t.key(indent + 2));
    if key == end { return Err(NoProjects); }
    var at := Search(lines, key + 1, end, t.ends(indent + 2));
    var known := Search(lines, key + 1, at, t.names);
    return if known < at then Err(AlreadyThere) else Ok(Place(start, end, key, at));
  }

  /** The developer's block. */
  predicate BlockLaid(lines: seq<string>, t: Tests, indent: nat, start: nat, end: nat) {
    && start < end <= |lines|
    && t.user(lines[start]) && NoneIs(lines, 0, start, t.user) && t.indent(lines[start]) == indent
    && NoneIs(lines, start + 1, end, t.begins(indent))
    && (end < |lines| ==> t.begins(indent)(lines[end]))
  }

  /** Their list in it. */
  predicate ListLaid(lines: seq<string>, t: Tests, indent: nat, place: Place) {
    && place.start < place.key < place.at <= place.end <= |lines|
    && NoneIs(lines, place.start + 1, place.key, t.key(indent)) && t.key(indent)(lines[place.key])
    && NoneIs(lines, place.key + 1, place.at, t.ends(indent))
    && (place.at < place.end ==> t.ends(indent)(lines[place.at]))
  }

  predicate Laid(lines: seq<string>, t: Tests, indent: nat, place: Place) {
    BlockLaid(lines, t, indent, place.start, place.end) && ListLaid(lines, t, indent + 2, place)
  }

  lemma BlockIs(lines: seq<string>, t: Tests, indent: nat, start: nat, end: nat)
    requires BlockLaid(lines, t, indent, start, end)
    ensures First(lines, 0, |lines|, t.user) == start && First(lines, start + 1, |lines|, t.begins(indent)) == end
  {
    FirstIs(lines, 0, |lines|, t.user, start);
    FirstIs(lines, start + 1, |lines|, t.begins(indent), end);
  }

  lemma ListIs(lines: seq<string>, t: Tests, indent: nat, place: Place)
    requires ListLaid(lines, t, indent, place)
    ensures First(lines, place.start + 1, place.end, t.key(indent)) == place.key
    ensures First(lines, place.key + 1, place.end, t.ends(indent)) == place.at
  {
    FirstIs(lines, place.start + 1, place.end, t.key(indent), place.key);
    FirstIs(lines, place.key + 1, place.end, t.ends(indent), place.at);
  }

  /** The indent of the developer's line, once it is found. */
  function UserIndent(lines: seq<string>, t: Tests): nat {
    var start := First(lines, 0, |lines|, t.user);
    if start < |lines| then t.indent(lines[start]) else 0
  }

  lemma NoneIsFirst(lines: seq<string>, from: nat, end: nat, p: string -> bool)
    requires from <= end <= |lines|
    ensures First(lines, from, end, p) < end <==> !NoneIs(lines, from, end, p)
  {
    FirstFound(lines, from, end, p);
  }

  /** The search finds the one place that is laid out so and whose list lacks the project. */
  lemma LocateMeans(lines: seq<string>, t: Tests, indent: nat, place: Place)
    requires Laid(lines, t, indent, place)
    ensures Locate(lines, t) == if NoneIs(lines, place.key + 1, place.at, t.names) then Ok(place) else Err(AlreadyThere)
  {
    BlockIs(lines, t, indent, place.start, place.end);
    ListIs(lines, t, indent + 2, place);
    NoneIsFirst(lines, place.key + 1, place.at, t.names);
  }

  lemma BlockFound(lines: seq<string>, t: Tests, start: nat)
    requires start < |lines| && First(lines, 0, |lines|, t.user) == start
    ensures BlockLaid(lines, t, t.indent(lines[start]), start, First(lines, start + 1, |lines|, t.begins(t.indent(lines[start]))))
  {
    FirstFound(lines, 0, |lines|, t.user);
    FirstFound(lines, start + 1, |lines|, t.begins(t.indent(lines[start])));
  }

  lemma ListFound(lines: seq<string>, t: Tests, indent: nat, place: Place)
    requires place.start < place.key < place.end <= |lines|
    requires First(lines, place.start + 1, place.end, t.key(indent)) == place.key
    requires First(lines, place.key + 1, place.end, t.ends(indent)) == place.at
    ensures ListLaid(lines, t, indent, place)
  {
    FirstFound(lines, place.start + 1, place.end, t.key(indent));
    FirstFound(lines, place.key + 1, place.end, t.ends(indent));
  }

  lemma LocateFinds(lines: seq<string>, t: Tests) returns (indent: nat)
    requires Locate(lines, t).Ok?
    ensures Laid(lines, t, indent, Locate(lines, t).value)
    ensures NoneIs(lines, Locate(lines, t).value.key + 1, Locate(lines, t).value.at, t.names)
  {
    var place := Locate(lines, t).value;
    indent := t.indent(lines[place.start]);
    BlockFound(lines, t, place.start);
    ListFound(lines, t, indent + 2, place);
    NoneIsFirst(lines, place.key + 1, place.at, t.names);
  }

  // ── What the search means ─────────────────────────────────────────────────

  /** The same tests in the words of the text: a line names the developer behind `n` blanks,
      begins one, is the list's key, goes on with the list, or names the project. */
  datatype Reading = Reading(item: (string, nat) -> bool, start: (string, nat) -> bool, key: (string, nat) -> bool,
                             deeper: (string, nat) -> bool, named: (string, nat) -> bool)

  predicate Agree(t: Tests, g: Reading, line: string, n: nat) {
    && (t.user(line) <==> g.item(line, t.indent(line))) && (g.item(line, n) ==> n == t.indent(line))
    && (t.begins(n)(line) <==> g.start(line, n))
    && (t.key(n)(line) <==> g.key(line, n))
    && (t.ends(n)(line) <==> !g.deeper(line, n))
    && (t.names(line) <==> g.named(line, t.indent(line))) && (g.named(line, n) ==> n == t.indent(line))
  }

  ghost predicate Agrees(t: Tests, g: Reading) {
    forall line, n: nat :: Agree(t, g, line, n)
  }

  /** Where the entry goes in: the first line that names the developer, behind `n` blanks; the
      end of their block, at the next developer with the same indent; the list's key in it behind
      two blanks more; and the end of the list. */
  predicate GoesIn(lines: seq<string>, g: Reading, n: nat, place: Place) {
    BlockOf(lines, g, n, place.start, place.end) && ListOf(lines, g, n + 2, place)
  }

  predicate BlockOf(lines: seq<string>, g: Reading, n: nat, start: nat, end: nat) {
    && start < end <= |lines|
    && g.item(lines[start], n) && (forall j | 0 <= j < start :: !ItemAt(lines[j], g.item))
    && (forall j | start < j < end :: !g.start(lines[j], n)) && (end < |lines| ==> g.start(lines[end], n))
  }

  /** Behind any number of blanks. */
  predicate ItemAt(line: string, item: (string, nat) -> bool) {
    exists m | 0 <= m <= |line| :: item(line, m)
  }

  predicate ListOf(lines: seq<string>, g: Reading, n: nat, place: Place) {
    && place.start < place.key < place.at <= place.end <= |lines|
    && g.key(lines[place.key], n) && (forall j | place.start < j < place.key :: !g.key(lines[j], n))
    && (forall j | place.key < j < place.at :: g.deeper(lines[j], n)) && (place.at < place.end ==> !g.deeper(lines[place.at], n))
  }

  /** The list names the project. */
  predicate Listed(lines: seq<string>, g: Reading, place: Place)
    requires place.at <= |lines|
  {
    exists j | place.key < j < place.at :: ItemAt(lines[j], g.named)
  }

  predicate Named(lines: seq<string>, g: Reading) {
    exists j | 0 <= j < |lines| :: ItemAt(lines[j], g.item)
  }

  /** Indents are counted in characters of the line. */
  ghost predicate Counted(t: Tests) {
    forall line :: t.indent(line) <= |line|
  }

  lemma ItemAtMeans(t: Tests, g: Reading, line: string)
    requires Agrees(t, g) && Counted(t)
    ensures ItemAt(line, g.item) <==> t.user(line)
    ensures ItemAt(line, g.named) <==> t.names(line)
  {
    assert t.indent(line) <= |line| && Agree(t, g, line, t.indent(line));
    if m: nat :| m <= |line| && g.item(line, m) {
      assert Agree(t, g, line, m);
    }
    if m: nat :| m <= |line| && g.named(line, m) {
      assert Agree(t, g, line, m);
    }
  }

  lemma BlockMeans(lines: seq<string>, t: Tests, g: Reading, n: nat, start: nat, end: nat)
    requires Agrees(t, g) && Counted(t)
    ensures BlockOf(lines, g, n, start, end) <==> BlockLaid(lines, t, n, start, end)
  {
    forall j: nat | j < |lines| ensures ItemAt(lines[j], g.item) <==> t.user(lines[j]) {
      ItemAtMeans(t, g, lines[j]);
    }
    forall j: nat | j < |lines| ensures t.begins(n)(lines[j]) <==> g.start(lines[j], n) {
      assert Agree(t, g, lines[j], n);
    }
    if start < |lines| {
      assert Agree(t, g, lines[start], n);
    }
  }

  lemma ListMeans(lines: seq<string>, t: Tests, g: Reading, n: nat, place: Place)
    requires Agrees(t, g)
    ensures ListOf(lines, g, n, place) <==> ListLaid(lines, t, n, place)
  {
    forall j: nat | j < |lines|
      ensures t.key(n)(lines[j]) <==> g.key(lines[j], n)
      ensures t.ends(n)(lines[j]) <==> !g.deeper(lines[j], n)
    {
      assert Agree(t, g, lines[j], n);
    }
  }

  lemma ListedMeans(lines: seq<string>, t: Tests, g: Reading, place: Place)
    requires Agrees(t, g) && Counted(t) && place.key < place.at <= |lines|
    ensures Listed(lines, g, place) <==> !NoneIs(lines, place.key + 1, place.at, t.names)
  {
    forall j: nat | j < |lines| ensures ItemAt(lines[j], g.named) <==> t.names(lines[j]) {
      ItemAtMeans(t, g, lines[j]);
    }
  }

  lemma NamedMeans(lines: seq<string>, t: Tests, g: Reading)
    requires Agrees(t, g) && Counted(t)
    ensures Named(lines, g) <==> !NoneIs(lines, 0, |lines|, t.user)
  {
    forall j: nat | j < |lines| ensures ItemAt(lines[j], g.item) <==> t.user(lines[j]) {
      ItemAtMeans(t, g, lines[j]);
    }
  }

  lemma LocatedOrListed(lines: seq<string>, t: Tests, g: Reading, n: nat, place: Place)
    requires Agrees(t, g) && Counted(t) && GoesIn(lines, g, n, place)
    ensures Locate(lines, t) == if Listed(lines, g, place) then Err(AlreadyThere) else Ok(place)
  {
    BlockMeans(lines, t, g, n, place.start, place.end);
    ListMeans(lines, t, g, n + 2, place);
    ListedMeans(lines, t, g, place);
    LocateMeans(lines, t, n, place);
  }

  /** The developer's block has no list. */
  predicate NoList(lines: seq<string>, g: Reading, n: nat, start: nat, end: nat) {
    BlockOf(lines, g, n, start, end) && forall j | start < j < end :: !g.key(lines[j], n + 2)
  }

  lemma NoListIs(lines: seq<string>, t: Tests, g: Reading, n: nat, start: nat, end: nat)
    requires Agrees(t, g) && Counted(t) && NoList(lines, g, n, start, end)
    ensures Locate(lines, t) == Err(NoProjects)
  {
    BlockMeans(lines, t, g, n, start, end);
    BlockIs(lines, t, n, start, end);
    forall j | start < j < end ensures !t.key(n + 2)(lines[j]) {
      assert Agree(t, g, lines[j], n + 2);
    }
    FirstIs(lines, start + 1, end, t.key(n + 2), end);
  }

  /** What the search finds, or does not. */
  lemma LocatedIn(lines: seq<string>, t: Tests, g: Reading) returns (n: nat, place: Place)
    requires Agrees(t, g) && Counted(t)
    ensures match Locate(lines, t)
            case Ok(p) => p == place && GoesIn(lines, g, n, place) && !Listed(lines, g, place)
            case Err(AlreadyThere) => GoesIn(lines, g, n, place) && Listed(lines, g, place)
            case Err(NoProjects) => NoList(lines, g, n, place.start, place.end)
            case Err(NoDeveloper) => !Named(lines, g)
  {
    n, place := 0, Place(0, 0, 0, 0);
    var start := First(lines, 0, |lines|, t.user);
    FirstFound(lines, 0, |lines|, t.user);
    NamedMeans(lines, t, g);
    if start < |lines| {
      n := t.indent(lines[start]);
      BlockFound(lines, t, start);
      var end := First(lines, start + 1, |lines|, t.begins(n));
      BlockMeans(lines, t, g, n, start, end);
      place := ListIn(lines, t, g, n, start, end);
    }
  }

  /** The list in a block, if there is one. */
  lemma ListIn(lines: seq<string>, t: Tests, g: Reading, n: nat, start: nat, end: nat) returns (place: Place)
    requires Agrees(t, g) && Counted(t) && BlockOf(lines, g, n, start, end)
    ensures place.start == start && place.end == end && (GoesIn(lines, g, n, place) || NoList(lines, g, n, start, end))
    ensures GoesIn(lines, g, n, place) ==> Locate(lines, t) == if Listed(lines, g, place) then Err(AlreadyThere) else Ok(place)
    ensures NoList(lines, g, n, start, end) ==> Locate(lines, t) == Err(NoProjects)
  {
    var key := First(lines, start + 1, end, t.key(n + 2));
    FirstFound(lines, start + 1, end, t.key(n + 2));
    if key == end {
      place := Place(start, end, key, key);
      forall j | start < j < end ensures !g.key(lines[j], n + 2) {
        assert Agree(t, g, lines[j], n + 2);
      }
      NoListIs(lines, t, g, n, start, end);
    } else {
      place := Place(start, end, key, First(lines, key + 1, end, t.ends(n + 2)));
      ListFound(lines, t, n + 2, place);
      ListMeans(lines, t, g, n + 2, place);
      LocatedOrListed(lines, t, g, n, place);
    }
  }

  // ── Inserting ─────────────────────────────────────────────────────────────

  function Inserted(lines: seq<string>, at: nat, more: seq<string>): seq<string>
    requires at <= |lines|
  {
    lines[..at] + more + lines[at..]
  }

  lemma InsertedAt(lines: seq<string>, at: nat, more: seq<string>)
    requires at <= |lines|
    ensures var lines' := Inserted(lines, at, more);
            && |lines'| == |lines| + |more|
            && (forall j | 0 <= j < at :: lines'[j] == lines[j])
            && (forall j | at <= j < at + |more| :: lines'[j] == more[j - at])
            && (forall j | at + |more| <= j < |lines'| :: lines'[j] == lines[j - |more|])
  {
  }

  lemma NoneAfterInsert(lines: seq<string>, at: nat, more: seq<string>, from: nat, end: nat, p: string -> bool)
    requires from <= at <= end <= |lines| && NoneIs(lines, from, end, p) && forall m | m in more :: !p(m)
    ensures |Inserted(lines, at, more)| == |lines| + |more| && NoneIs(Inserted(lines, at, more), from, end + |more|, p)
  {
    InsertedAt(lines, at, more);
  }

  lemma NoneBeforeInsert(lines: seq<string>, at: nat, more: seq<string>, from: nat, end: nat, p: string -> bool)
    requires from <= end <= at <= |lines| && NoneIs(lines, from, end, p)
    ensures |Inserted(lines, at, more)| == |lines| + |more| && NoneIs(Inserted(lines, at, more), from, end, p)
  {
    InsertedAt(lines, at, more);
  }

  /** Lines that begin no developer and end no list go on with the list they are put behind. */
  lemma ListGrows(lines: seq<string>, t: Tests, indent: nat, place: Place, more: seq<string>)
    requires Laid(lines, t, indent, place)
    requires forall m | m in more :: !t.begins(indent)(m) && !t.ends(indent + 2)(m)
    ensures Laid(Inserted(lines, place.at, more), t, indent, Place(place.start, place.end + |more|, place.key, place.at + |more|))
  {
    InsertedAt(lines, place.at, more);
    NoneBeforeInsert(lines, place.at, more, 0, place.start, t.user);
    NoneAfterInsert(lines, place.at, more, place.start + 1, place.end, t.begins(indent));
    NoneBeforeInsert(lines, place.at, more, place.start + 1, place.key, t.key(indent + 2));
    NoneAfterInsert(lines, place.at, more, place.key + 1, place.at, t.ends(indent + 2));
  }

  /** A first line that ends the list leaves it as it was. */
  lemma ListStays(lines: seq<string>, t: Tests, indent: nat, place: Place, more: seq<string>)
    requires Laid(lines, t, indent, place)
    requires more != [] && t.ends(indent + 2)(more[0]) && forall m | m in more :: !t.begins(indent)(m)
    ensures Laid(Inserted(lines, place.at, more), t, indent, place.(end := place.end + |more|))
  {
    InsertedAt(lines, place.at, more);
    NoneBeforeInsert(lines, place.at, more, 0, place.start, t.user);
    NoneAfterInsert(lines, place.at, more, place.start + 1, place.end, t.begins(indent));
    NoneBeforeInsert(lines, place.at, more, place.start + 1, place.key, t.key(indent + 2));
    NoneBeforeInsert(lines, place.at, more, place.key + 1, place.at, t.ends(indent + 2));
  }

  lemma GrownNames(lines: seq<string>, at: nat, more: seq<string>, from: nat, p: string -> bool)
    requires from <= at <= |lines| && NoneIs(lines, from, at, p)
    ensures |Inserted(lines, at, more)| == |lines| + |more|
    ensures NoneIs(Inserted(lines, at, more), from, at + |more|, p) <==> forall m | m in more :: !p(m)
  {
    var lines' := Inserted(lines, at, more);
    InsertedAt(lines, at, more);
    if NoneIs(lines', from, at + |more|, p) {
      forall m | m in more ensures !p(m) {
        var i :| 0 <= i < |more| && more[i] == m;
        assert lines'[at + i] == m;
      }
    }
  }

  /** A second addition is refused exactly when the lines of the first went on with the list
      and one of them names the project. */
  lemma SecondAddition(lines: seq<string>, t: Tests, indent: nat, more: seq<string>)
    requires Locate(lines, t).Ok? && Laid(lines, t, indent, Locate(lines, t).value)
    requires NoneIs(lines, Locate(lines, t).value.key + 1, Locate(lines, t).value.at, t.names)
    requires more != [] && forall m | m in more :: !t.begins(indent)(m)
    requires t.ends(indent + 2)(more[0]) || forall m | m in more :: !t.ends(indent + 2)(m)
    ensures Locate(Inserted(lines, Locate(lines, t).value.at, more), t) == Err(AlreadyThere) <==>
            !t.ends(indent + 2)(more[0]) && exists m | m in more :: t.names(m)
  {
    var place := Locate(lines, t).value;
    var lines' := Inserted(lines, place.at, more);
    if t.ends(indent + 2)(more[0]) {
      ListStays(lines, t, indent, place, more);
      NoneBeforeInsert(lines, place.at, more, place.key + 1, place.at, t.names);
      LocateMeans(lines', t, indent, place.(end := place.end + |more|));
    } else {
      ListGrows(lines, t, indent, place, more);
      GrownNames(lines, place.at, more, place.key + 1, t.names);
      LocateMeans(lines', t, indent, Place(place.start, place.end + |more|, place.key, place.at + |more|));
    }
  }

  // ── As text ───────────────────────────────────────────────────────────────

  function SnippetLines(snippet: string): seq<string> {
    Split(if snippet != "" && snippet[|snippet| - 1] == '\n' then snippet[..|snippet| - 1] else snippet, '\n')
  }

  function Added(content: string, t: Tests, snippet: string): Result<string, AddError> {
    var lines := Split(content, '\n');
    match Locate(lines, t)
    case Err(e) => Err(e)
    case Ok(place) => if place.at <= |lines| then Ok(Join(Inserted(lines, place.at, SnippetLines(snippet)), "\n")) else Err(NoProjects)
  }

  method Add(content: string, t: Tests, snippet: string) returns (r: Result<string, AddError>)
    ensures r == Added(content, t, snippet)
  {
    var lines := Split(content, '\n');
    var found := Find(lines, t);
    if found.Err? { return Err(found.error); }
    var indent := LocateFinds(lines, t);
    return Ok(Join(Inserted(lines, found.value.at, SnippetLines(snippet)), "\n"));
  }

  lemma SplitInserted(lines: seq<string>, at: nat, more: seq<string>)
    requires at <= |lines| && lines != [] && (forall l | l in lines :: '\n' !in l) && forall m | m in more :: '\n' !in m
    ensures Split(Join(Inserted(lines, at, more), "\n"), '\n') == Inserted(lines, at, more)
  {
    var all := Inserted(lines, at, more);
    assert lines == lines[..at] + lines[at..];
    assert forall l | l in all :: l in lines || l in more;
    SplitJoin(all, '\n');
  }

  lemma InsertedParts(lines: seq<string>, at: nat, more: seq<string>)
    requires at <= |lines|
    ensures |Inserted(lines, at, more)| == |lines| + |more|
    ensures Inserted(lines, at, more)[..at] == lines[..at] && Inserted(lines, at, more)[at + |more|..] == lines[at..]
  {
  }

  /** One stretch of lines goes in, at the end of the developer's list and within their block;
      before it and behind it every line is kept. */
  lemma AddsOneStretch(content: string, t: Tests, snippet: string) returns (indent: nat, place: Place)
    requires Added(content, t, snippet).Ok?
    ensures Locate(Split(content, '\n'), t) == Ok(place) && Laid(Split(content, '\n'), t, indent, place)
    ensures indent == UserIndent(Split(content, '\n'), t)
    ensures var lines, lines' := Split(content, '\n'), Split(Added(content, t, snippet).value, '\n');
            var more := |SnippetLines(snippet)|;
            && lines' == Inserted(lines, place.at, SnippetLines(snippet))
            && |lines'| == |lines| + more
            && lines'[..place.at] == lines[..place.at] && lines'[place.at + more..] == lines[place.at..]
  {
    var lines := Split(content, '\n');
    indent := LocateFinds(lines, t);
    place := Locate(lines, t).value;
    SplitInserted(lines, place.at, SnippetLines(snippet));
    InsertedParts(lines, place.at, SnippetLines(snippet));
  }

  /** The text with the snippet's lines put in at `at`. */
  ghost predicate PutIn(text: string, lines: seq<string>, at: nat, snippet: string) {
    exists more :: at <= |lines| && text == Join(lines[..at] + more + lines[at..], "\n")
      && snippet == Join(more, "\n") + if snippet != "" && snippet[|snippet| - 1] == '\n' then "\n" else ""
  }

  lemma SnippetPutIn(lines: seq<string>, at: nat, snippet: string)
    requires at <= |lines|
    ensures PutIn(Join(Inserted(lines, at, SnippetLines(snippet)), "\n"), lines, at, snippet)
  {
    var ends := snippet != "" && snippet[|snippet| - 1] == '\n';
    var body := if ends then snippet[..|snippet| - 1] else snippet;
    JoinSplit(body, '\n');
    assert snippet == body + if ends then "\n" else "";
  }

  /** What becomes of an addition: the snippet goes in at the end of the developer's list if that
      does not name the project; otherwise the addition is refused, for exactly these reasons. */
  ghost predicate GoneIn(lines: seq<string>, g: Reading, snippet: string, r: Result<string, AddError>) {
    && (forall n, place :: GoneAt(lines, g, snippet, r, n, place))
    && (forall n, start, end :: MissingAt(lines, g, r, n, start, end))
    && (r == Err(NoDeveloper) <==> !Named(lines, g))
    && (r == Err(NoProjects) ==> exists n, start, end :: NoList(lines, g, n, start, end))
    && (r.Ok? || r == Err(AlreadyThere) ==> exists n, place :: GoesIn(lines, g, n, place))
  }

  ghost predicate GoneAt(lines: seq<string>, g: Reading, snippet: string, r: Result<string, AddError>, n: nat, place: Place) {
    GoesIn(lines, g, n, place) ==>
      if Listed(lines, g, place) then r == Err(AlreadyThere) else r.Ok? && PutIn(r.value, lines, place.at, snippet)
  }

  predicate MissingAt(lines: seq<string>, g: Reading, r: Result<string, AddError>, n: nat, start: nat, end: nat) {
    NoList(lines, g, n, start, end) ==> r == Err(NoProjects)
  }

  lemma AddedAt(content: string, t: Tests, g: Reading, snippet: string, n: nat, place: Place)
    requires Agrees(t, g) && Counted(t)
    ensures GoneAt(Split(content, '\n'), g, snippet, Added(content, t, snippet), n, place)
  {
    if GoesIn(Split(content, '\n'), g, n, place) {
      LocatedOrListed(Split(content, '\n'), t, g, n, place);
      SnippetPutIn(Split(content, '\n'), place.at, snippet);
    }
  }

  lemma MissedAt(content: string, t: Tests, g: Reading, snippet: string, n: nat, start: nat, end: nat)
    requires Agrees(t, g) && Counted(t)
    ensures MissingAt(Split(content, '\n'), g, Added(content, t, snippet), n, start, end)
  {
    if NoList(Split(content, '\n'), g, n, start, end) {
      NoListIs(Split(content, '\n'), t, g, n, start, end);
    }
  }

  lemma AddedReasons(content: string, t: Tests, g: Reading, snippet: string)
    requires Agrees(t, g) && Counted(t)
    ensures var lines, r := Split(content, '\n'), Added(content, t, snippet);
            && (r == Err(NoDeveloper) <==> !Named(lines, g))
            && (r == Err(NoProjects) ==> exists n, start, end :: NoList(lines, g, n, start, end))
            && (r.Ok? || r == Err(AlreadyThere) ==> exists n, place :: GoesIn(lines, g, n, place))
  {
    var lines := Split(content, '\n');
    var n, place := LocatedIn(lines, t, g);
    NamedFound(lines, t, g);
  }

  lemma NamedFound(lines: seq<string>, t: Tests, g: Reading)
    requires Agrees(t, g) && Counted(t)
    ensures Locate(lines, t) == Err(NoDeveloper) <==> !Named(lines, g)
  {
    NamedMeans(lines, t, g);
    NoneIsFirst(lines, 0, |lines|, t.user);
  }

  lemma AddedGoesIn(content: string, t: Tests, g: Reading, snippet: string)
    requires Agrees(t, g) && Counted(t)
    ensures GoneIn(Split(content, '\n'), g, snippet, Added(content, t, snippet))
  {
    forall n: nat, place: Place ensures GoneAt(Split(content, '\n'), g, snippet, Added(content, t, snippet), n, place) {
      AddedAt(content, t, g, snippet, n, place);
    }
    forall n: nat, start: nat, end: nat ensures MissingAt(Split(content, '\n'), g, Added(content, t, snippet), n, start, end) {
      MissedAt(content, t, g, snippet, n, start, end);
    }
    AddedReasons(content, t, g, snippet);
  }

  lemma RefusedByLines(content: string, t: Tests, snippet: string, lines: seq<string>)
    requires Split(content, '\n') == lines
    ensures Added(content, t, snippet) == Err(AlreadyThere) <==> Locate(lines, t) == Err(AlreadyThere)
  {
  }

  /** What a first addition of `more` leaves for a second. */
  predicate Extends(t: Tests, indent: nat, more: seq<string>) {
    && (forall m | m in more :: !t.begins(indent)(m))
    && more != [] && (t.ends(indent + 2)(more[0]) || forall m | m in more :: !t.ends(indent + 2)(m))
  }

  /** The same for a whole text: what `SecondAddition` says of its lines. */
  lemma SecondTextAddition(content: string, t: Tests, snippet: string, indent: nat, place: Place)
    requires Added(content, t, snippet).Ok? && Locate(Split(content, '\n'), t) == Ok(place) && Laid(Split(content, '\n'), t, indent, place)
    requires Extends(t, indent, SnippetLines(snippet))
    ensures Added(Added(content, t, snippet).value, t, snippet) == Err(AlreadyThere) <==>
            !t.ends(indent + 2)(SnippetLines(snippet)[0]) && exists m | m in SnippetLines(snippet) :: t.names(m)
  {
    var lines, more := Split(content, '\n'), SnippetLines(snippet);
    SplitInserted(lines, place.at, more);
    RefusedByLines(Added(content, t, snippet).value, t, snippet, Inserted(lines, place.at, more));
    var _ := LocateFinds(lines, t);
    SecondAddition(lines, t, indent, more);
  }
}

/** clients/devbox/src/add.ts: adding a project to a configuration as text. */
module AddProject {
  import opened Wrappers
  import opened Sequences
  import opened Text
  import opened Sections

  // ── Reading a line ────────────────────────────────────────────────────────

  /** How many blanks a line begins with. */
  function Indent(line: string): (n: nat)
    ensures n <= |line| && (n < |line| ==> !IsSpace(line[n]))
  {
    if line == "" || !IsSpace(line[0]) then 0 else 1 + Indent(line[1..])
  }

  function TrimEnd(s: string): string {
    if s != "" && IsSpace(s[|s| - 1]) then TrimEnd(s[..|s| - 1]) else s
  }

  function Trim(s: string): string {
    TrimEnd(s[Indent(s)..])
  }

  predicate StartsWith(s: string, p: string) {
    |p| <= |s| && s[..|p|] == p
  }

  predicate IsQuote(c: char) {
    c == '"' || c == '\''
  }

  function Unquoted(t: string): string {
    var u := if t != "" && IsQuote(t[0]) then t[1..] else t;
    if u != "" && IsQuote(u[|u| - 1]) then u[..|u| - 1] else u
  }

  /** `s.trim().replace(/^['"]|['"]$/g, "")`. */
  function Cleaned(s: string): string {
    Unquoted(Trim(s))
  }

  /** What follows `- key:` on its line. */
  function AfterDash(line: string, key: string): Option<string> {
    var t := line[Indent(line)..];
    if t == "" || t[0] != '-' then None
    else
      var u := t[1..];
      var v := u[Indent(u)..];
      if Indent(u) > 0 && StartsWith(v, key + ":") then Some(v[|key| + 1..]) else None
  }

  predicate OneLine(s: string) {
    forall c | c in s :: c !in ['\n', '\r', '\U{2028}', '\U{2029}']
  }

  /** `/^\s*-\s+key:\s*(.+?)\s*$/`, the captured text cleaned. */
  function DashValue(line: string, key: string): Option<string> {
    var rest := AfterDash(line, key);
    if rest.None? || rest.value == "" || !OneLine(Trim(rest.value)) then None else Some(Cleaned(rest.value))
  }

  /** `/^\s{n}key:\s*$/`. */
  predicate IsKey(line: string, n: nat, key: string) {
    n <= |line| && IsBlank(line[..n]) && StartsWith(line[n..], key + ":") && IsBlank(line[n + |key| + 1..])
  }

  // ── Adding ────────────────────────────────────────────────────────────────

  function TestsFor(user: string, name: string): Tests {
    Tests(
      line => DashValue(line, "user") == Some(user),
      line => Indent(line),
      (indent: nat) => (line => AfterDash(line, "user").Some? && Indent(line) == indent),
      (indent: nat) => (line => IsKey(line, indent, "projects")),
      (indent: nat) => (line => !IsBlank(line) && Indent(line) <= indent),
      line => DashValue(line, "name") == Some(name))
  }

  // ── What the tests mean, as text ──────────────────────────────────────────

  /** Nothing to trim. */
  predicate Tight(t: string) {
    t == "" || (!IsSpace(t[0]) && !IsSpace(t[|t| - 1]))
  }

  predicate IsMark(q: string) {
    q == "" || q == "\"" || q == "\'"
  }

  /** `v`, in quotes or not: a quote at either end of `t` is not part of it. */
  predicate QuotedBy(t: string, v: string, q: string, r: string) {
    && IsMark(q) && IsMark(r) && t == q + v + r
    && (q == "" ==> t == "" || !IsQuote(t[0])) && (r == "" ==> v == "" || !IsQuote(v[|v| - 1]))
  }

  ghost predicate Quoted(t: string, v: string) {
    exists q, r :: QuotedBy(t, v, q, r)
  }

  /** `- key:` behind `n` blanks. */
  predicate StartIs(line: string, n: nat, key: string, w: string, u: string, rest: string) {
    |w| == n && IsBlank(w) && IsBlank(u) && u != "" && line == w + ("-" + (u + (key + ":" + rest)))
  }

  ghost predicate ItemStart(line: string, n: nat, key: string) {
    exists w, u, rest :: StartIs(line, n, key, w, u, rest)
  }

  predicate ValueIs(rest: string, t: string, l: string, r: string) {
    rest != "" && rest == l + t + r && IsBlank(l) && IsBlank(r) && Tight(t) && OneLine(t)
  }

  /** Blanks around `v`, which may be quoted. */
  ghost predicate Holds(rest: string, v: string) {
    exists t, l, r :: ValueIs(rest, t, l, r) && Quoted(t, v)
  }

  /** `- key: v` behind `n` blanks. */
  ghost predicate ItemLine(line: string, n: nat, key: string, v: string) {
    exists w, u, rest :: StartIs(line, n, key, w, u, rest) && Holds(rest, v)
  }

  /** `key:` behind `n` blanks, and blanks. */
  predicate KeyIs(line: string, n: nat, key: string, w: string, r: string) {
    |w| == n && IsBlank(w) && IsBlank(r) && line == w + (key + ":" + r)
  }

  ghost predicate KeyLine(line: string, n: nat, key: string) {
    exists w, r :: KeyIs(line, n, key, w, r)
  }

  /** Blank, or indented by more than `n`. */
  predicate Deeper(line: string, n: nat) {
    forall i | 0 <= i <= n && i < |line| :: IsSpace(line[i])
  }

  lemma {:induction false} IndentOf(w: string, rest: string)
    requires IsBlank(w) && (rest == "" || !IsSpace(rest[0]))
    ensures Indent(w + rest) == |w| && (w + rest)[|w|..] == rest
  {
    if w == "" {
      Sequences.Empty(rest);
    } else {
      IndentOf(w[1..], rest);
      AppendTail(w, rest);
    }
  }

  lemma {:induction false} IndentBlank(line: string)
    ensures IsBlank(line[..Indent(line)])
    ensures IsBlank(line) <==> Indent(line) == |line|
    ensures forall i | 0 <= i < Indent(line) :: IsSpace(line[i])
  {
    if line != "" && IsSpace(line[0]) {
      IndentBlank(line[1..]);
      assert forall i | 1 <= i < |line| :: line[i] == line[1..][i - 1];
    }
  }

  lemma DeeperMeans(line: string, n: nat)
    ensures Deeper(line, n) <==> IsBlank(line) || Indent(line) > n
  {
    IndentBlank(line);
  }

  lemma {:induction false} TrimEndOf(t: string, r: string)
    requires IsBlank(r) && (t == "" || !IsSpace(t[|t| - 1]))
    ensures TrimEnd(t + r) == t
  {
    if r == "" {
      Sequences.Empty(t);
    } else {
      var n := |r| - 1;
      assert (t + r)[..|t + r| - 1] == t + r[..n] && (t + r)[|t + r| - 1] == r[n];
      TrimEndOf(t, r[..n]);
    }
  }

  lemma {:induction false} TrimEndTight(s: string)
    ensures var t := TrimEnd(s); |t| <= |s| && t == s[..|t|] && (t != "" ==> !IsSpace(t[|t| - 1]))
  {
    if s != "" && IsSpace(s[|s| - 1]) {
      TrimEndTight(s[..|s| - 1]);
    }
  }

  lemma BlankWith(s: string, c: char)
    requires IsBlank(s) && IsSpace(c)
    ensures IsBlank(s + [c])
  {
  }

  lemma {:induction false} TrimEndRest(s: string)
    ensures |TrimEnd(s)| <= |s| && IsBlank(s[|TrimEnd(s)|..])
  {
    TrimEndTight(s);
    if s != "" && IsSpace(s[|s| - 1]) {
      var n, k := |s| - 1, |TrimEnd(s)|;
      TrimEndRest(s[..n]);
      BlankWith(s[..n][k..], s[n]);
      assert s[k..] == s[..n][k..] + [s[n]];
    }
  }

  lemma TrimOf(l: string, t: string, r: string)
    requires IsBlank(l) && IsBlank(r) && Tight(t)
    ensures Trim(l + t + r) == t
  {
    Assoc(l, t, r);
    if t == "" {
      Sequences.Empty(r);
      assert IsBlank(l + r);
      IndentBlank(l + r);
    } else {
      AppendTail(t, r);
      IndentOf(l, t + r);
      TrimEndOf(t, r);
    }
  }

  lemma TrimLeaves(s: string) returns (l: string, r: string)
    ensures IsBlank(l) && IsBlank(r) && Tight(Trim(s)) && s == l + Trim(s) + r
  {
    var n := Indent(s);
    var t := s[n..];
    BlanksLeave(s);
    TrimEndTight(t);
    TrimEndRest(t);
    l, r := s[..n], t[|Trim(s)|..];
    assert t == Trim(s) + r;
    Assoc(l, Trim(s), r);
    FirstStays(t, Trim(s));
  }

  lemma FirstStays(t: string, p: string)
    requires p <= t && (t == "" || !IsSpace(t[0])) && (p == "" || !IsSpace(p[|p| - 1]))
    ensures Tight(p)
  {
    assert p != "" ==> p[0] == t[0];
  }

  lemma MarkOut(q: string, v: string)
    requires IsMark(q)
    ensures (q + v)[|q|..] == v && (v + q)[..|v|] == v
  {
  }

  lemma UnquotedIs(t: string, v: string, q: string, r: string)
    requires QuotedBy(t, v, q, r)
    ensures Unquoted(t) == v
  {
    Assoc(q, v, r);
    MarkOut(q, v + r);
    MarkOut(r, v);
    var u := if t != "" && IsQuote(t[0]) then t[1..] else t;
    assert q != "" ==> t[0] == q[0];
    assert u == v + r;
    assert r != "" ==> u[|u| - 1] == r[0];
  }

  lemma UnquotedLeaves(t: string)
    ensures Quoted(t, Unquoted(t))
  {
    var q := if t != "" && IsQuote(t[0]) then [t[0]] else "";
    var u := if t != "" && IsQuote(t[0]) then t[1..] else t;
    var r := if u != "" && IsQuote(u[|u| - 1]) then [u[|u| - 1]] else "";
    assert t == q + u && u == Unquoted(t) + r;
    Assoc(q, Unquoted(t), r);
    assert QuotedBy(t, Unquoted(t), q, r);
  }

  lemma HoldsMeans(rest: string, v: string)
    ensures Holds(rest, v) <==> rest != "" && OneLine(Trim(rest)) && Cleaned(rest) == v
  {
    if t, l, r :| ValueIs(rest, t, l, r) && Quoted(t, v) {
      TrimOf(l, t, r);
      var q, q' :| QuotedBy(t, v, q, q');
      UnquotedIs(t, v, q, q');
    }
    if rest != "" && OneLine(Trim(rest)) && Cleaned(rest) == v {
      var l, r := TrimLeaves(rest);
      UnquotedLeaves(Trim(rest));
      assert ValueIs(rest, Trim(rest), l, r);
    }
  }

  lemma StartMeans(line: string, n: nat, key: string, w: string, u: string, rest: string)
    requires key != "" && !IsSpace(key[0]) && StartIs(line, n, key, w, u, rest)
    ensures Indent(line) == n && AfterDash(line, key) == Some(rest)
  {
    var tail := key + ":" + rest;
    assert tail[0] == key[0];
    IndentOf(w, "-" + (u + tail));
    ConsTail('-', u + tail);
    IndentOf(u, tail);
    assert tail == (key + ":") + rest;
    Prefixed(key + ":", rest);
  }

  lemma AfterDashParts(line: string, key: string)
    requires AfterDash(line, key).Some?
    ensures var t := line[Indent(line)..];
            && t != "" && t[0] == '-' && Indent(t[1..]) > 0 && StartsWith(t[1..][Indent(t[1..])..], key + ":")
            && AfterDash(line, key).value == t[1..][Indent(t[1..])..][|key| + 1..]
  {
  }

  lemma KeyLeaves(v: string, key: string)
    requires StartsWith(v, key + ":")
    ensures v == key + ":" + v[|key| + 1..]
  {
    assert v[..|key| + 1] == key + ":";
  }

  lemma BlanksLeave(line: string)
    ensures line == line[..Indent(line)] + line[Indent(line)..] && IsBlank(line[..Indent(line)])
  {
    IndentBlank(line);
  }

  lemma StartLeaves(line: string, key: string)
    requires AfterDash(line, key).Some?
    ensures exists w, u :: StartIs(line, Indent(line), key, w, u, AfterDash(line, key).value)
  {
    var rest := AfterDash(line, key).value;
    var w, t := line[..Indent(line)], line[Indent(line)..];
    AfterDashParts(line, key);
    BlanksLeave(line);
    var tail := t[1..];
    var u, v := tail[..Indent(tail)], tail[Indent(tail)..];
    HeadTail(t);
    BlanksLeave(tail);
    KeyLeaves(v, key);
    StartPut(line, key, w, t, tail, u, v, rest);
    assert |w| == Indent(line);
  }

  lemma StartPut(line: string, key: string, w: string, t: string, tail: string, u: string, v: string, rest: string)
    requires line == w + t && t == "-" + tail && tail == u + v && v == key + ":" + rest && IsBlank(w) && IsBlank(u) && u != ""
    ensures StartIs(line, |w|, key, w, u, rest)
  {
  }

  lemma ItemStartMeans(line: string, n: nat, key: string)
    requires key != "" && !IsSpace(key[0])
    ensures ItemStart(line, n, key) <==> AfterDash(line, key).Some? && Indent(line) == n
  {
    if w, u, rest :| StartIs(line, n, key, w, u, rest) {
      StartMeans(line, n, key, w, u, rest);
    }
    if AfterDash(line, key).Some? {
      StartLeaves(line, key);
    }
  }

  lemma ItemLineMeans(line: string, n: nat, key: string, v: string)
    requires key != "" && !IsSpace(key[0])
    ensures ItemLine(line, n, key, v) <==> DashValue(line, key) == Some(v) && Indent(line) == n
  {
    if w, u, rest :| StartIs(line, n, key, w, u, rest) && Holds(rest, v) {
      StartMeans(line, n, key, w, u, rest);
      HoldsMeans(rest, v);
    }
    if DashValue(line, key) == Some(v) {
      StartLeaves(line, key);
      HoldsMeans(AfterDash(line, key).value, v);
    }
  }

  lemma KeyLineMeans(line: string, n: nat, key: string)
    ensures KeyLine(line, n, key) <==> IsKey(line, n, key)
  {
    if w, r :| KeyIs(line, n, key, w, r) {
      Prefixed(w, key + ":" + r);
      Prefixed(key + ":", r);
      assert line[..n] == w && line[n..] == key + ":" + r && line[n + |key| + 1..] == r;
    }
    if IsKey(line, n, key) {
      var w, r := line[..n], line[n + |key| + 1..];
      assert line[n..] == line[n..][..|key| + 1] + r && line == w + line[n..];
      assert KeyIs(line, n, key, w, r);
    }
  }

  /** How a configuration reads: developers are `- user:`, projects `- name:` under `projects:`. */
  ghost function ReadingOf(user: string, name: string): Reading {
    Reading((line: string, n: nat) => ItemLine(line, n, "user", user), (line: string, n: nat) => ItemStart(line, n, "user"),
            (line: string, n: nat) => KeyLine(line, n, "projects"), (line: string, n: nat) => Deeper(line, n), (line: string, n: nat) => ItemLine(line, n, "name", name))
  }

  lemma TestsMean(user: string, name: string, line: string, n: nat)
    ensures Agree(TestsFor(user, name), ReadingOf(user, name), line, n)
  {
    ItemLineMeans(line, Indent(line), "user", user);
    ItemLineMeans(line, n, "user", user);
    ItemStartMeans(line, n, "user");
    KeyLineMeans(line, n, "projects");
    DeeperMeans(line, n);
    ItemLineMeans(line, Indent(line), "name", name);
    ItemLineMeans(line, n, "name", name);
  }

  lemma TestsAgree(user: string, name: string)
    ensures Agrees(TestsFor(user, name), ReadingOf(user, name))
  {
    forall line, n: nat ensures Agree(TestsFor(user, name), ReadingOf(user, name), line, n) {
      TestsMean(user, name, line, n);
    }
  }

  /** `addProjectToYaml`: the snippet goes in at the end of the developer's list, unless they are
      not named, have no line `projects:`, or the list has the project. */
  method AddProjectToYaml(content: string, user: string, snippet: string, name: string) returns (r: Result<string, AddError>)
    ensures r == Added(content, TestsFor(user, name), snippet)
    ensures GoneIn(Split(content, '\n'), ReadingOf(user, name), snippet, r)
  {
    r := Add(content, TestsFor(user, name), snippet);
    TestsAgree(user, name);
    AddedGoesIn(content, TestsFor(user, name), ReadingOf(user, name), snippet);
  }

  // ── The entry ─────────────────────────────────────────────────────────────

  datatype Detected = Detected(name: string, repo: string, branch: string, install: bool)

  function Blanks(n: nat): string {
    if n == 0 then "" else " " + Blanks(n - 1)
  }

  /** The fields below the name. */
  function Field(d: Detected, i: nat): string {
    match i
    case 0 => "repo: \"" + d.repo + "\""
    case 1 => "branch: " + d.branch
    case 2 => "install: " + InstallNote(d.install)
    case 3 => "update: " + UpdateNote()
    case _ => "ports: []"
  }

  function InstallNote(install: bool): string {
    if install then "true # run `bun install` after clone"
    else "false # no package.json at repo root \U{2014} nothing to install"
  }

  function UpdateNote(): string {
    "false # don't git-pull over Claude's local edits"
  }

  function NameLine(name: string): string {
    Blanks(6) + ("- " + ("name: " + name))
  }

  function EntryLines(d: Detected): seq<string> {
    [NameLine(d.name)] + seq(5, i requires 0 <= i => Blanks(8) + Field(d, i))
  }

  /** `projectEntry`. */
  function ProjectEntry(d: Detected): string {
    Join(EntryLines(d), "\n") + "\n"
  }

  /** An entry gives each field of the schema, behind eight blanks under the name behind six. */
  lemma EntryGives(d: Detected, keys: seq<string>, i: nat)
    requires keys == ["repo: ", "branch: ", "install: ", "update: ", "ports: "] && i < 5
    ensures |EntryLines(d)| == 6 && EntryLines(d)[0] == Blanks(6) + ("- " + ("name: " + d.name))
    ensures exists value :: EntryLines(d)[i + 1] == Blanks(8) + (keys[i] + value) && FieldHolds(d, i, value)
  {
    EntryTail(d);
    assert EntryLines(d)[i + 1] == EntryLines(d)[1..][i] == Blanks(8) + Field(d, i);
    var value := FieldValue(d, i);
    assert Field(d, i) == keys[i] + value;
  }

  // a prefix first: the solver goes through a literal one character at a time

  lemma NotesBegin()
    ensures InstallNote(true)[0] == 't' && InstallNote(false)[0] == 'f' && UpdateNote()[0] == 'f'
  {
    assert "true # run `bun"[0] == 't';
    assert "false # no package"[0] == 'f';
    assert "false # no package.json at repo root"[0] == 'f';
    assert "false # don't git-pull"[0] == 'f';
    assert "false # don't git-pull over Clau"[0] == 'f';
  }

  /** The repository in quotes, the branch, whether to install, not to update, and no ports. */
  predicate FieldHolds(d: Detected, i: nat, value: string) {
    match i
    case 0 => value == "\"" + d.repo + "\""
    case 1 => value == d.branch
    case 2 => value != "" && value[0] == if d.install then 't' else 'f'
    case 3 => value != "" && value[0] == 'f'
    case _ => value == "[]"
  }

  lemma FieldValue(d: Detected, i: nat) returns (value: string)
    requires i < 5
    ensures FieldHolds(d, i, value)
    ensures Field(d, i) == ["repo: ", "branch: ", "install: ", "update: ", "ports: "][i] + value
  {
    match i
    case 0 => value := "\"" + d.repo + "\""; assert "repo: \"" == "repo: " + "\"";
    case 1 => value := d.branch;
    case 2 => value := InstallNote(d.install); NotesBegin();
    case 3 => value := UpdateNote(); NotesBegin();
    case _ => value := "[]"; assert "ports: []" == "ports: " + "[]";
  }

  predicate OnOneLine(d: Detected) {
    '\n' !in d.name && '\n' !in d.repo && '\n' !in d.branch
  }

  lemma {:induction false} IndentBlanks(n: nat, rest: string)
    ensures Indent(Blanks(n) + rest) == n + Indent(rest)
    ensures |Blanks(n)| == n && (Blanks(n) + rest)[n..] == rest && forall c | c in Blanks(n) :: c == ' '
  {
    if n == 0 {
      Sequences.Empty(rest);
    } else {
      IndentBlanks(n - 1, rest);
      Assoc(" ", Blanks(n - 1), rest);
      ConsTail(' ', Blanks(n - 1) + rest);
    }
  }

  /** A line that begins with a letter behind its blanks is no list item. */
  lemma PlainLine(n: nat, c: char, rest: string, key: string)
    requires !IsSpace(c) && c != '-'
    ensures Indent(Blanks(n) + ([c] + rest)) == n && !IsBlank(Blanks(n) + ([c] + rest))
    ensures AfterDash(Blanks(n) + ([c] + rest), key) == None && DashValue(Blanks(n) + ([c] + rest), key) == None
  {
    IndentBlanks(n, [c] + rest);
    assert ([c] + rest)[0] == c;
    assert (Blanks(n) + ([c] + rest))[n] == c;
  }

  /** What the search makes of one line of an entry. */
  predicate Plain(line: string, n: nat) {
    Indent(line) == n && !IsBlank(line) && AfterDash(line, "user") == None && AfterDash(line, "name") == None
  }

  predicate Begins(text: string) {
    text != "" && !IsSpace(text[0]) && text[0] != '-'
  }

  lemma LetterLine(n: nat, text: string)
    requires Begins(text)
    ensures Plain(Blanks(n) + text, n)
  {
    HeadTail(text);
    PlainLine(n, text[0], text[1..], "user");
    PlainLine(n, text[0], text[1..], "name");
  }

  lemma DashAt(line: string, n: nat, t: string, text: string, key: string)
    requires Indent(line) == n && line[n..] == t && t != "" && t[0] == '-'
    requires Indent(t[1..]) == 1 && t[1..][1..] == text
    ensures AfterDash(line, key) == if StartsWith(text, key + ":") then Some(text[|key| + 1..]) else None
  {
  }

  lemma DashText(text: string)
    requires text != "" && !IsSpace(text[0])
    ensures var t := "- " + text;
            t[0] == '-' && t[1..] == " " + text && Indent(t[1..]) == 1 && t[1..][1..] == text && Indent(t) == 0
  {
    var t := "- " + text;
    assert t[0] == '-' && t[1..] == " " + text;
    ConsTail(' ', text);
  }

  lemma AfterDashIs(n: nat, text: string, key: string)
    requires text != "" && !IsSpace(text[0])
    ensures var line := Blanks(n) + ("- " + text);
            && Indent(line) == n && !IsBlank(line)
            && AfterDash(line, key) == if StartsWith(text, key + ":") then Some(text[|key| + 1..]) else None
  {
    DashText(text);
    IndentBlanks(n, "- " + text);
    assert (Blanks(n) + ("- " + text))[n] == '-';
    DashAt(Blanks(n) + ("- " + text), n, "- " + text, text, key);
  }

  lemma Prefixed(a: string, b: string)
    ensures StartsWith(a + b, a) && (a + b)[|a|..] == b
  {
  }

  lemma NameKey(name: string)
    ensures var text := "name: " + name;
            && StartsWith(text, "name" + ":") && text[5..] == " " + name && text[0] == 'n' && !StartsWith(text, "user" + ":")
  {
    assert "name: " + name == "name:" + (" " + name);
    Prefixed("name:", " " + name);
    assert "name" + ":" == "name:";
    assert ("user" + ":")[0] == 'u';
    assert ("name: " + name)[..5][0] == 'n';
  }

  lemma DropPast(x: char, s: string, n: nat)
    requires n <= |s|
    ensures ([x] + s)[n + 1..] == s[n..]
  {
  }

  lemma BlankInFront(name: string)
    ensures Trim(" " + name) == Trim(name)
  {
    ConsTail(' ', name);
    assert Indent(" " + name) == Indent(name) + 1;
    DropPast(' ', name, Indent(name));
  }

  /** A name that reads back from its line as it is. */
  predicate ReadsBack(name: string) {
    OneLine(Trim(name)) && Cleaned(name) == name
  }

  lemma ValueBehindBlank(line: string, key: string, value: string)
    requires AfterDash(line, key) == Some(" " + value)
    ensures DashValue(line, key) == if OneLine(Trim(value)) then Some(Cleaned(value)) else None
  {
    BlankInFront(value);
  }

  lemma FirstLine(name: string)
    ensures var line := NameLine(name);
            && Indent(line) == 6 && !IsBlank(line) && AfterDash(line, "user") == None
            && (DashValue(line, "name") == Some(name) <==> ReadsBack(name))
  {
    NameKey(name);
    AfterDashIs(6, "name: " + name, "user");
    AfterDashIs(6, "name: " + name, "name");
    ValueBehindBlank(NameLine(name), "name", name);
  }

  lemma TextBegins(a: string, b: string)
    requires Begins(a)
    ensures Begins(a + b)
  {
    AppendTail(a, b);
  }

  lemma FieldBegins(d: Detected, i: nat)
    ensures Begins(Field(d, i))
  {
    match i
    case 0 => TextBegins("repo: \"", d.repo); TextBegins("repo: \"" + d.repo, "\"");
    case 1 => TextBegins("branch: ", d.branch);
    case 2 => TextBegins("install: ", InstallNote(d.install));
    case 3 => TextBegins("update: ", UpdateNote());
    case _ => assert "ports: []"[0] == 'p';
  }

  lemma EntryTail(d: Detected)
    ensures EntryLines(d)[1..] == seq(5, i requires 0 <= i => Blanks(8) + Field(d, i))
  {
  }

  lemma OtherLines(d: Detected, m: string)
    requires m in EntryLines(d)[1..]
    ensures Plain(m, 8)
  {
    EntryTail(d);
    var i :| 0 <= i < 5 && EntryLines(d)[1..][i] == m;
    FieldBegins(d, i);
    LetterLine(8, Field(d, i));
  }

  lemma EntryBegins(d: Detected)
    ensures EntryLines(d) != [] && EntryLines(d)[0] == NameLine(d.name)
    ensures forall m | m in EntryLines(d) :: m == NameLine(d.name) || Plain(m, 8)
  {
    HeadTail(EntryLines(d));
    forall m | m in EntryLines(d)[1..] ensures Plain(m, 8) {
      OtherLines(d, m);
    }
  }

  lemma PlainInTests(line: string, user: string, name: string, indent: nat)
    requires Plain(line, 8)
    ensures var t := TestsFor(user, name);
            !t.begins(indent)(line) && (t.ends(indent)(line) <==> 8 <= indent) && !t.names(line)
  {
  }

  lemma NameInTests(user: string, name: string, indent: nat)
    ensures var t := TestsFor(user, name);
            !t.begins(indent)(NameLine(name)) && (t.ends(indent)(NameLine(name)) <==> 6 <= indent) && (t.names(NameLine(name)) <==> ReadsBack(name))
  {
    FirstLine(name);
  }

  lemma EntryInTests(d: Detected, user: string, indent: nat)
    ensures EntryLines(d) != [] && (TestsFor(user, d.name).ends(indent)(EntryLines(d)[0]) <==> 6 <= indent)
    ensures forall m | m in EntryLines(d) :: !TestsFor(user, d.name).begins(indent)(m) && (TestsFor(user, d.name).ends(indent)(m) ==> 6 <= indent)
    ensures (exists m | m in EntryLines(d) :: TestsFor(user, d.name).names(m)) <==> ReadsBack(d.name)
  {
    var t := TestsFor(user, d.name);
    EntryBegins(d);
    NameInTests(user, d.name, indent);
    forall m | m in EntryLines(d) ensures !t.begins(indent)(m) && (t.ends(indent)(m) ==> 6 <= indent) && (t.names(m) ==> m == NameLine(d.name)) {
      if m != NameLine(d.name) {
        PlainInTests(m, user, d.name, indent);
      }
    }
    assert EntryLines(d)[0] in EntryLines(d);
  }

  lemma NoBreakIn(n: nat, text: string)
    requires '\n' !in text
    ensures '\n' !in Blanks(n) + text
  {
    IndentBlanks(n, "");
  }

  lemma NameLineClean(name: string)
    requires '\n' !in name
    ensures '\n' !in NameLine(name)
  {
    assert '\n' !in "- " + ("name: " + name);
    NoBreakIn(6, "- " + ("name: " + name));
  }

  // a prefix first: the solver goes through a literal one character at a time

  lemma InstallClean()
    ensures '\n' !in InstallNote(true)
  {
    assert '\n' !in "true # run `bun";
  }

  lemma NoInstallClean()
    ensures '\n' !in InstallNote(false)
  {
    assert '\n' !in "false # no package";
    assert '\n' !in "false # no package.json at repo root";
  }

  lemma UpdateClean()
    ensures '\n' !in UpdateNote()
  {
    assert '\n' !in "false # don't git-pull over Clau";
  }

  lemma FieldClean(d: Detected, i: nat)
    ensures OnOneLine(d) ==> '\n' !in Field(d, i)
  {
    if d.install { InstallClean(); } else { NoInstallClean(); }
    UpdateClean();
  }

  lemma EntryClean(d: Detected)
    ensures OnOneLine(d) ==> (forall m | m in EntryLines(d) :: '\n' !in m) && SnippetLines(ProjectEntry(d)) == EntryLines(d)
  {
    if OnOneLine(d) {
      EntryTail(d);
      HeadTail(EntryLines(d));
      NameLineClean(d.name);
      forall m | m in EntryLines(d)[1..] ensures '\n' !in m {
        var i :| 0 <= i < 5 && EntryLines(d)[1..][i] == m;
        FieldClean(d, i);
        NoBreakIn(8, Field(d, i));
      }
      SplitJoin(EntryLines(d), '\n');
      TrailingBreak(Join(EntryLines(d), "\n"));
    }
  }

  lemma TrailingBreak(s: string)
    ensures (s + "\n")[|s + "\n"| - 1] == '\n' && (s + "\n")[..|s + "\n"| - 1] == s
  {
  }

  lemma EntryExtends(d: Detected, user: string, indent: nat)
    ensures Extends(TestsFor(user, d.name), indent, EntryLines(d))
    ensures TestsFor(user, d.name).ends(indent + 2)(EntryLines(d)[0]) <==> 4 <= indent
    ensures (exists m | m in EntryLines(d) :: TestsFor(user, d.name).names(m)) <==> ReadsBack(d.name)
  {
    EntryInTests(d, user, indent);
    EntryInTests(d, user, indent + 2);
  }

  /** A second addition of the same project is refused exactly when the developer's line is
      indented by less than four (the entry's own indent is fixed at six) and the name reads
      back from its line as it is, without quotes or blanks around it. */
  lemma SecondAdditionRefused(content: string, user: string, d: Detected)
    ensures var t := TestsFor(user, d.name);
            OnOneLine(d) && Added(content, t, ProjectEntry(d)).Ok? ==>
              (Added(Added(content, t, ProjectEntry(d)).value, t, ProjectEntry(d)) == Err(AlreadyThere) <==>
                 UserIndent(Split(content, '\n'), t) < 4 && ReadsBack(d.name))
  {
    var t := TestsFor(user, d.name);
    if OnOneLine(d) && Added(content, t, ProjectEntry(d)).Ok? {
      var indent, place := AddsOneStretch(content, t, ProjectEntry(d));
      EntryClean(d);
      EntryExtends(d, user, indent);
      SecondTextAddition(content, t, ProjectEntry(d), indent, place);
    }
  }
}
