/** clients/devbox/src/app-configs/plan.ts: which side wins. */
module AppConfigPlan {
  datatype Side = Absent | Empty | Content | Linked | ForeignLink

  datatype Decision = AlreadyLinked | SeedEmpty | UseClient | UseBox | Ask | Refuse

  predicate Bare(s: Side) {
    s.Absent? || s.Empty? || s.Linked?
  }

  function PlanLink(client: Side, box: Side, storeHasContent: bool): Decision {
    if client.ForeignLink? || box.ForeignLink? then Refuse
    else if client.Linked? && box.Linked? then AlreadyLinked
    else if storeHasContent then (if Bare(client) && Bare(box) then UseClient else Ask)
    else if client.Content? && box.Content? then Ask
    else if client.Content? then UseClient
    else if box.Content? then UseBox
    else SeedEmpty
  }

  /** Two of client, box and store hold content. */
  predicate Contested(client: Side, box: Side, storeHasContent: bool) {
    (client.Content? && box.Content?) || (storeHasContent && (client.Content? || box.Content?))
  }

  /** The question is asked exactly when something is at stake, and no side with content gives
      way without it. */
  lemma AsksWhenContested(client: Side, box: Side, storeHasContent: bool)
    requires !client.ForeignLink? && !box.ForeignLink? && !(client.Linked? && box.Linked?)
    ensures PlanLink(client, box, storeHasContent).Ask? <==> Contested(client, box, storeHasContent)
    ensures PlanLink(client, box, storeHasContent).UseBox? ==> box.Content? && !client.Content? && !storeHasContent
    ensures PlanLink(client, box, storeHasContent).UseClient? ==>
              (client.Content? && !box.Content? && !storeHasContent) || (Bare(client) && Bare(box) && storeHasContent)
    ensures PlanLink(client, box, storeHasContent).SeedEmpty? <==> Bare(client) && Bare(box) && !storeHasContent
  {
  }
}

/** A block between two marks in front of a text, and taking it out again. */
module MarkedBlocks {
  import opened Sequences

  predicate OccursAt(s: string, sub: string, i: nat) {
    i + |sub| <= |s| && s[i..i + |sub|] == sub
  }

  function IndexOf(s: string, sub: string, from: nat): (i: int)
    requires from <= |s|
    ensures i == -1 || from <= i <= |s| - |sub|
    decreases |s| - from
  {
    if OccursAt(s, sub, from) then from else if from == |s| then -1 else IndexOf(s, sub, from + 1)
  }

  predicate Includes(s: string, sub: string) {
    IndexOf(s, sub, 0) >= 0
  }

  function DropNewline(s: string): string {
    if s != "" && s[0] == '\n' then s[1..] else s
  }

  /** `body` without the stretch from `start` to `stop` and a line break right after it. */
  function TakeOut(body: string, start: nat, stop: nat): string
    requires start <= |body| && stop <= |body|
  {
    body[..start] + DropNewline(body[stop..])
  }

  function CutAfter(body: string, start: nat, after: nat, last: string): string
    requires start <= after <= |body|
  {
    var end := IndexOf(body, last, after);
    if end < 0 then body else TakeOut(body, start, end + |last|)
  }

  /** `body.replace(/first[\s\S]*?last\n?/, "")`: from the first opening mark to the first
      closing mark after it. */
  function Cut(body: string, first: string, last: string): string {
    var start := IndexOf(body, first, 0);
    if start < 0 then body else CutAfter(body, start, start + |first|, last)
  }

  // ── Finding ───────────────────────────────────────────────────────────────

  lemma {:induction false} IndexFound(s: string, sub: string, from: nat)
    requires from <= |s| && IndexOf(s, sub, from) >= 0
    ensures OccursAt(s, sub, IndexOf(s, sub, from))
    decreases |s| - from
  {
    if !OccursAt(s, sub, from) && from < |s| {
      IndexFound(s, sub, from + 1);
    }
  }

  lemma {:induction false} IndexAtMost(s: string, sub: string, from: nat, j: nat)
    requires from <= j <= |s| && OccursAt(s, sub, j)
    ensures from <= IndexOf(s, sub, from) <= j
    decreases |s| - from
  {
    if from < j && !OccursAt(s, sub, from) {
      IndexAtMost(s, sub, from + 1, j);
    }
  }

  lemma OccursBehind(first: string, rest: string, sub: string, i: nat)
    ensures OccursAt(first + rest, sub, |first| + i) <==> OccursAt(rest, sub, i)
  {
    if i + |sub| <= |rest| {
      assert (first + rest)[|first| + i..|first| + i + |sub|] == rest[i..i + |sub|];
    }
  }

  /** The part in front has no say. */
  lemma {:induction false} IndexShifts(first: string, rest: string, sub: string, from: nat)
    requires from <= |rest|
    ensures IndexOf(first + rest, sub, |first| + from) ==
            if IndexOf(rest, sub, from) < 0 then -1 else |first| + IndexOf(rest, sub, from)
    decreases |rest| - from
  {
    OccursBehind(first, rest, sub, from);
    if from < |rest| {
      IndexShifts(first, rest, sub, from + 1);
    }
  }

  lemma DropBoth(a: string, b: string, n: nat)
    requires n <= |b|
    ensures (a + b)[|a| + n..] == b[n..]
  {
  }

  lemma PrefixOf(a: string, b: string)
    ensures OccursAt(a + b, a, 0) && (a + b)[|a|..] == b
  {
  }

  // ── Cutting ───────────────────────────────────────────────────────────────

  lemma TakeOutFront(body: string, stop: nat)
    requires stop <= |body|
    ensures TakeOut(body, 0, stop) == DropNewline(body[stop..])
  {
    Empty(DropNewline(body[stop..]));
  }

  /** With the opening mark up front, the cut starts there. */
  lemma CutFront(first: string, rest: string, last: string)
    ensures Cut(first + rest, first, last) == CutAfter(first + rest, 0, |first|, last)
  {
    PrefixOf(first, rest);
    IndexAtMost(first + rest, first, 0, 0);
  }

  lemma CutAfterIs(body: string, start: nat, after: nat, last: string, end: nat)
    requires start <= after <= |body| && IndexOf(body, last, after) == end
    ensures CutAfter(body, start, after, last) == TakeOut(body, start, end + |last|)
  {
  }

  lemma CutAfterFront(first: string, rest: string, last: string, at: nat)
    requires IndexOf(rest, last, 0) == at
    ensures CutAfter(first + rest, 0, |first|, last) == DropNewline(rest[at + |last|..])
  {
    IndexShifts(first, rest, last, 0);
    CutAfterIs(first + rest, 0, |first|, last, |first| + at);
    TakeOutFront(first + rest, |first| + at + |last|);
    DropBoth(first, rest, at + |last|);
  }

  lemma CharWithin(s: string, sub: string, j: nat, q: nat)
    requires OccursAt(s, sub, j) && q < |s|
    ensures j <= q < j + |sub| ==> s[q] in sub
  {
    if j <= q < j + |sub| {
      assert s[q] == s[j..j + |sub|][q - j];
    }
  }

  /** A closing mark without a line break, whose first character the lead has not, is found in
      a line only inside the path the line ends with. */
  lemma FoundInPath(lead: string, path: string, tail: string, last: string, j: nat)
    requires last != "" && last[0] !in lead && '\n' !in last
    requires j < |lead| + |path| + 1 && OccursAt(lead + (path + ("\n" + tail)), last, j)
    ensures |lead| <= j && OccursAt(path, last, j - |lead|)
  {
    var all := lead + (path + ("\n" + tail));
    CharWithin(all, last, j, |lead| + |path|);
    InLead(lead, path + ("\n" + tail), j);
    assert all[j] == all[j..j + |last|][0];
    assert all[j..j + |last|] == path[j - |lead|..j - |lead| + |last|];
  }

  lemma InLead(lead: string, rest: string, j: nat)
    ensures j < |lead| ==> (lead + rest)[j] in lead
  {
  }

  lemma FoundInLine(lead: string, path: string, tail: string, last: string, i: nat)
    requires OccursAt(path, last, i)
    ensures OccursAt(lead + (path + ("\n" + tail)), last, |lead| + i)
  {
    assert (lead + (path + ("\n" + tail)))[|lead| + i..|lead| + i + |last|] == path[i..i + |last|];
  }

  /** The mark behind the line is where it was written. */
  lemma FoundBehindLine(lead: string, path: string, tail: string, last: string)
    requires OccursAt(tail, last, 0)
    ensures OccursAt(lead + (path + ("\n" + tail)), last, |lead| + |path| + 1)
  {
    assert lead + (path + ("\n" + tail)) == (lead + (path + "\n")) + tail;
    OccursBehind(lead + (path + "\n"), tail, last, 0);
  }

  lemma FirstOccurrence(s: string, sub: string, n: nat)
    requires n <= |s| && OccursAt(s, sub, n)
    ensures 0 <= IndexOf(s, sub, 0) <= n
    ensures IndexOf(s, sub, 0) == n <==> !exists j | 0 <= j < n :: OccursAt(s, sub, j)
  {
    IndexAtMost(s, sub, 0, n);
    IndexFound(s, sub, 0);
    if j :| 0 <= j < n && OccursAt(s, sub, j) {
      IndexAtMost(s, sub, 0, j);
    }
  }

  lemma IncludesMeans(s: string, sub: string)
    ensures Includes(s, sub) <==> exists i | 0 <= i <= |s| :: OccursAt(s, sub, i)
  {
    if Includes(s, sub) {
      IndexFound(s, sub, 0);
    }
    if i :| 0 <= i <= |s| && OccursAt(s, sub, i) {
      IndexAtMost(s, sub, 0, i);
    }
  }

  /** In the line, the mark is found exactly when it is in the path. */
  lemma MarkInLine(lead: string, path: string, tail: string, last: string)
    requires last != "" && last[0] !in lead && '\n' !in last
    ensures Includes(path, last) <==> exists j | 0 <= j < |lead| + |path| + 1 :: OccursAt(lead + (path + ("\n" + tail)), last, j)
  {
    IncludesMeans(path, last);
    if j :| 0 <= j < |lead| + |path| + 1 && OccursAt(lead + (path + ("\n" + tail)), last, j) {
      FoundInPath(lead, path, tail, last, j);
    }
    if i :| 0 <= i <= |path| && OccursAt(path, last, i) {
      FoundInLine(lead, path, tail, last, i);
    }
  }

  function Block(first: string, lead: string, path: string, last: string): string {
    first + (lead + path + "\n") + last + "\n"
  }

  lemma BlockParts(first: string, lead: string, path: string, last: string, body: string)
    ensures Block(first, lead, path, last) + body == first + (lead + (path + ("\n" + (last + ("\n" + body)))))
  {
  }

  /** What the cut leaves, by where the first closing mark is. */
  lemma CutLeaves(first: string, rest: string, last: string, at: nat)
    requires IndexOf(rest, last, 0) == at
    ensures Cut(first + rest, first, last) == DropNewline(rest[at + |last|..])
  {
    CutFront(first, rest, last);
    CutAfterFront(first, rest, last, at);
  }

  /** Up to the mark at `n` exactly when no other comes before it. */
  lemma CutUpTo(first: string, rest: string, last: string, n: nat, body: string)
    requires OccursAt(rest, last, n) && |rest| == n + |last| + 1 + |body| && DropNewline(rest[n + |last|..]) == body
    ensures Cut(first + rest, first, last) == body <==> !exists j | 0 <= j < n :: OccursAt(rest, last, j)
  {
    FirstOccurrence(rest, last, n);
    var at := IndexOf(rest, last, 0);
    CutLeaves(first, rest, last, at);
    CutShort(rest, last, at);
  }

  /** Taking the block out gives back the text it was put in front of, exactly when the closing
      mark does not occur in the path inside the block. */
  lemma CutBlock(first: string, lead: string, path: string, last: string, body: string)
    requires last != "" && last[0] !in lead && '\n' !in last
    ensures Cut(Block(first, lead, path, last) + body, first, last) == body <==> !Includes(path, last)
  {
    var tail := last + ("\n" + body);
    BlockParts(first, lead, path, last, body);
    PrefixOf(last, "\n" + body);
    FoundBehindLine(lead, path, tail, last);
    CutClean(lead, path, last, body);
    CutUpTo(first, lead + (path + ("\n" + tail)), last, |lead| + |path| + 1, body);
    MarkInLine(lead, path, tail, last);
  }

  lemma CutShort(rest: string, last: string, at: nat)
    requires at + |last| <= |rest|
    ensures |DropNewline(rest[at + |last|..])| >= |rest| - at - |last| - 1
  {
  }

  lemma CutClean(lead: string, path: string, last: string, body: string)
    ensures DropNewline((lead + (path + ("\n" + (last + ("\n" + body)))))[|lead| + |path| + 1 + |last|..]) == body
  {
    var line, tail := lead + (path + "\n"), last + ("\n" + body);
    assert lead + (path + ("\n" + tail)) == line + tail;
    DropBoth(line, tail, |last|);
    PrefixOf(last, "\n" + body);
    ConsTail('\n', body);
  }

  /** A block starts with its opening mark. */
  lemma BlockIncludes(first: string, lead: string, path: string, last: string, body: string)
    ensures Includes(Block(first, lead, path, last) + body, first)
  {
    BlockParts(first, lead, path, last, body);
    PrefixOf(first, lead + (path + ("\n" + (last + ("\n" + body)))));
    IndexAtMost(Block(first, lead, path, last) + body, first, 0, 0);
  }
}

/** clients/devbox/src/app-configs/run.ts: linking a client's config into the sync disk and
    taking it back out, on the client's file system.

    A path is a key; the directories above it exist. What copying a directory onto an existing
    one yields, and which names an entry's patterns exclude, are parameters. */
module AppConfigFiles {
  import opened Wrappers
  import opened Text
  import opened MarkedBlocks
  import opened AppConfigPlan

  datatype Node = File(bytes: string) | Dir(children: seq<Child>) | Link(target: string)

  datatype Child = Child(name: string, node: Node)

  type Files = map<string, Node>

  datatype Mode = DirMode | FileMode | SshInclude

  /** `client`: the path the app reads; `payload`: the path in the sync disk it is linked to. */
  datatype Entry = Entry(mode: Mode, client: string, payload: string, excluded: string -> bool)

  // ── Text ──────────────────────────────────────────────────────────────────

  const MARK_START := "# >>> devbox app-configs"
  const MARK_END := "# <<< devbox app-configs"
  const INCLUDE := "\nInclude "

  function ManagedBlock(payload: string): string {
    Block(MARK_START, INCLUDE, payload, MARK_END)
  }

  function Strip(body: string): string {
    Cut(body, MARK_START, MARK_END)
  }

  lemma StripBlock(payload: string, body: string)
    ensures Strip(ManagedBlock(payload) + body) == body <==> !Includes(payload, MARK_END)
    ensures Includes(ManagedBlock(payload) + body, MARK_START)
  {
    Marks();
    CutBlock(MARK_START, INCLUDE, payload, MARK_END, body);
    BlockIncludes(MARK_START, INCLUDE, payload, MARK_END, body);
  }

  lemma Marks()
    ensures MARK_END != "" && MARK_END[0] !in INCLUDE && '\n' !in MARK_END
  {
  }

  /** A line that begins with `Host ` or `host `. */
  predicate HasHost(body: string) {
    exists i | 0 <= i < |body| ::
      (i == 0 || body[i - 1] in ['\n', '\r', '\U{2028}', '\U{2029}']) && ("Host " <= body[i..] || "host " <= body[i..])
  }

  // ── Inspecting ────────────────────────────────────────────────────────────

  function Basename(path: string): string
    decreases |path|
  {
    if '/' in path then Basename(path[1..]) else path
  }

  /** The nodes are of the kind the mode is about: a path holds a file or a link where a file
      is linked, a directory or a link where a directory is, and no link where text is. */
  predicate Suits(fs: Files, e: Entry) {
    && e.client != e.payload
    && (e.payload in fs ==> if e.mode.DirMode? then fs[e.payload].Dir? else fs[e.payload].File?)
    && (e.client in fs ==>
          match e.mode
          case DirMode => !fs[e.client].File?
          case FileMode => !fs[e.client].Dir?
          case SshInclude => fs[e.client].File?)
  }

  function Body(fs: Files, e: Entry): string
    requires e.client in fs ==> fs[e.client].File?
  {
    if e.client in fs then fs[e.client].bytes else ""
  }

  function InspectClient(fs: Files, e: Entry): Side
    requires Suits(fs, e)
  {
    if e.client !in fs then Absent
    else
      match fs[e.client]
      case Link(target) => if target == e.payload then Linked else ForeignLink
      case Dir(children) => if children == [] then Side.Empty else Content
      case File(bytes) =>
        if e.mode.FileMode? then (if bytes == "" then Side.Empty else Content)
        else if Includes(bytes, MARK_START) then Linked
        else if HasHost(bytes) then Content
        else Side.Empty
  }

  predicate OccursBetween(text: string, a: string, sub: string, b: string) {
    text == a + sub + b
  }

  ghost predicate OccursIn(text: string, sub: string) {
    exists a, b :: OccursBetween(text, a, sub, b)
  }

  lemma OccursInMeans(text: string, sub: string)
    ensures OccursIn(text, sub) <==> Includes(text, sub)
  {
    IncludesMeans(text, sub);
    if a, b :| OccursBetween(text, a, sub, b) {
      assert text[|a|..|a| + |sub|] == sub;
      assert OccursAt(text, sub, |a|);
    }
    if i :| 0 <= i <= |text| && OccursAt(text, sub, i) {
      assert text == text[..i] + sub + text[i + |sub|..];
      assert OccursBetween(text, text[..i], sub, text[i + |sub|..]);
    }
  }

  predicate LineAt(text: string, a: string, start: string, b: string) {
    text == a + start + b && (a == "" || a[|a| - 1] in ['\n', '\r', '\U{2028}', '\U{2029}'])
  }

  /** A line begins with `start`. */
  ghost predicate LineBegins(text: string, start: string) {
    exists a, b :: LineAt(text, a, start, b)
  }

  lemma HostLine(text: string, i: nat, start: string)
    requires i <= |text| && start <= text[i..] && (i == 0 || text[i - 1] in ['\n', '\r', '\U{2028}', '\U{2029}'])
    ensures LineBegins(text, start)
  {
    assert text == text[..i] + start + text[i..][|start|..];
    assert LineAt(text, text[..i], start, text[i..][|start|..]);
  }

  lemma LineHost(text: string, start: string)
    requires LineBegins(text, start) && start in ["Host ", "host "]
    ensures HasHost(text)
  {
    var a, b :| LineAt(text, a, start, b);
    assert text[|a|..] == start + b && start <= text[|a|..];
    assert a != "" ==> text[|a| - 1] == a[|a| - 1];
    assert |start| == 5;
  }

  lemma HasHostMeans(text: string)
    ensures HasHost(text) <==> LineBegins(text, "Host ") || LineBegins(text, "host ")
  {
    if HasHost(text) {
      var i :| 0 <= i < |text| && (i == 0 || text[i - 1] in ['\n', '\r', '\U{2028}', '\U{2029}']) && ("Host " <= text[i..] || "host " <= text[i..]);
      HostLine(text, i, if "Host " <= text[i..] then "Host " else "host ");
    }
    if LineBegins(text, "Host ") { LineHost(text, "Host "); }
    if LineBegins(text, "host ") { LineHost(text, "host "); }
  }

  /** What is seen at the client's path: content is a file or a directory that is not empty or,
      for included text, one with a host and not yet managed. */
  lemma InspectMeans(fs: Files, e: Entry)
    requires Suits(fs, e)
    ensures InspectClient(fs, e).Absent? <==> e.client !in fs
    ensures InspectClient(fs, e).ForeignLink? <==> e.client in fs && fs[e.client].Link? && fs[e.client] != Link(e.payload)
    ensures InspectClient(fs, e).Linked? <==>
            e.client in fs && (fs[e.client] == Link(e.payload)
                               || (e.mode.SshInclude? && OccursIn(fs[e.client].bytes, "# >>> devbox app-configs")))
    ensures InspectClient(fs, e).Content? <==>
            e.client in fs && match fs[e.client]
                              case Link(_) => false
                              case Dir(children) => |children| > 0
                              case File(bytes) =>
                                if e.mode.SshInclude? then
                                  !OccursIn(bytes, "# >>> devbox app-configs") && (LineBegins(bytes, "Host ") || LineBegins(bytes, "host "))
                                else |bytes| > 0
  {
    if e.client in fs && fs[e.client].File? {
      OccursInMeans(fs[e.client].bytes, MARK_START);
      HasHostMeans(fs[e.client].bytes);
    }
  }

  // ── Copying ───────────────────────────────────────────────────────────────

  function Dirname(path: string): string {
    if path == "" then ""
    else if path[|path| - 1] == '/' then path[..|path| - 1]
    else Dirname(path[..|path| - 1])
  }

  predicate IsAbsolute(path: string) {
    path != "" && path[0] == '/'
  }

  /** The segments of a path, with `.` and `..` carried out behind those already `done`. */
  function Walk(segments: seq<string>, done: seq<string>): seq<string>
    decreases |segments|
  {
    if segments == [] then done
    else if segments[0] == "" || segments[0] == "." then Walk(segments[1..], done)
    else if segments[0] == ".." then Walk(segments[1..], if done == [] then [] else done[..|done| - 1])
    else Walk(segments[1..], done + [segments[0]])
  }

  /** `resolve(dir, target)` for an absolute `dir` and a relative `target`. */
  function Resolved(dir: string, target: string): (r: string)
    ensures IsAbsolute(r)
  {
    "/" + Join(Walk(Split(dir + "/" + target, '/'), []), "/")
  }

  /** `cpSync` of what is at `path`, with a filter on names. A relative link is made absolute:
      the copy points into the source. */
  function Copied(n: Node, path: string, excluded: string -> bool): Node {
    match n
    case Dir(children) => Dir(CopiedAll(children, path, excluded))
    case Link(target) => Link(if IsAbsolute(target) then target else Resolved(Dirname(path), target))
    case File(_) => n
  }

  function CopiedAll(cs: seq<Child>, path: string, excluded: string -> bool): seq<Child> {
    if cs == [] then []
    else
      (if excluded(cs[0].name) then [] else [Child(cs[0].name, Copied(cs[0].node, path + "/" + cs[0].name, excluded))])
      + CopiedAll(cs[1..], path, excluded)
  }

  predicate NoneExcluded(n: Node, excluded: string -> bool) {
    match n
    case Dir(children) => NoneExcludedIn(children, excluded)
    case _ => true
  }

  predicate NoneExcludedIn(cs: seq<Child>, excluded: string -> bool) {
    cs == [] || (!excluded(cs[0].name) && NoneExcluded(cs[0].node, excluded) && NoneExcludedIn(cs[1..], excluded))
  }

  predicate LinksAbsolute(n: Node) {
    match n
    case Dir(children) => LinksAbsoluteIn(children)
    case Link(target) => IsAbsolute(target)
    case File(_) => true
  }

  predicate LinksAbsoluteIn(cs: seq<Child>) {
    cs == [] || (LinksAbsolute(cs[0].node) && LinksAbsoluteIn(cs[1..]))
  }

  lemma {:induction false} CopiedShorter(cs: seq<Child>, path: string, excluded: string -> bool)
    ensures |CopiedAll(cs, path, excluded)| <= |cs|
  {
    if cs != [] {
      CopiedShorter(cs[1..], path, excluded);
    }
  }

  /** A copy is whole exactly when no name in it is excluded and every link in it is absolute. */
  lemma {:induction false} CopiedWhole(n: Node, path: string, excluded: string -> bool)
    ensures Copied(n, path, excluded) == n <==> NoneExcluded(n, excluded) && LinksAbsolute(n)
  {
    if n.Dir? {
      CopiedWholeIn(n.children, path, excluded);
    }
  }

  lemma {:induction false} CopiedWholeIn(cs: seq<Child>, path: string, excluded: string -> bool)
    ensures CopiedAll(cs, path, excluded) == cs <==> NoneExcludedIn(cs, excluded) && LinksAbsoluteIn(cs)
  {
    if cs != [] {
      CopiedShorter(cs[1..], path, excluded);
      CopiedWholeIn(cs[1..], path, excluded);
      CopiedWhole(cs[0].node, path + "/" + cs[0].name, excluded);
      var first := Child(cs[0].name, Copied(cs[0].node, path + "/" + cs[0].name, excluded));
      Sequences.ConsTail(first, CopiedAll(cs[1..], path, excluded));
      Sequences.HeadTail(cs);
    }
  }

  /** Whatever was copied, the links in the copy are absolute. */
  lemma {:induction false} CopyLinksAbsolute(n: Node, path: string, excluded: string -> bool)
    ensures LinksAbsolute(Copied(n, path, excluded))
  {
    if n.Dir? {
      CopyLinksAbsoluteIn(n.children, path, excluded);
    }
  }

  lemma {:induction false} CopyLinksAbsoluteIn(cs: seq<Child>, path: string, excluded: string -> bool)
    ensures LinksAbsoluteIn(CopiedAll(cs, path, excluded))
  {
    if cs != [] {
      CopyLinksAbsoluteIn(cs[1..], path, excluded);
      CopyLinksAbsolute(cs[0].node, path + "/" + cs[0].name, excluded);
      var first := Child(cs[0].name, Copied(cs[0].node, path + "/" + cs[0].name, excluded));
      Sequences.ConsTail(first, CopiedAll(cs[1..], path, excluded));
      Sequences.Empty(CopiedAll(cs[1..], path, excluded));
    }
  }

  /** A copy without a filter. */
  function CopiedAsIs(n: Node, path: string): Node {
    Copied(n, path, name => false)
  }

  lemma {:induction false} ExcludesNothing(n: Node, excluded: string -> bool)
    requires forall name :: !excluded(name)
    ensures NoneExcluded(n, excluded)
  {
    if n.Dir? {
      ExcludesNothingIn(n.children, excluded);
    }
  }

  lemma {:induction false} ExcludesNothingIn(cs: seq<Child>, excluded: string -> bool)
    requires forall name :: !excluded(name)
    ensures NoneExcludedIn(cs, excluded)
  {
    if cs != [] {
      ExcludesNothing(cs[0].node, excluded);
      ExcludesNothingIn(cs[1..], excluded);
    }
  }

  lemma AsIsWhole(n: Node, path: string)
    ensures CopiedAsIs(n, path) == n <==> LinksAbsolute(n)
  {
    ExcludesNothing(n, name => false);
    CopiedWhole(n, path, name => false);
  }

  // ── The operations, as functions ──────────────────────────────────────────

  function Aside(e: Entry, stamp: string): string {
    e.client + ".pre-devbox-" + stamp
  }

  predicate FreshStamp(fs: Files, e: Entry, stamp: string) {
    Aside(e, stamp) !in fs && Aside(e, stamp) != e.payload
  }

  function Renamed(fs: Files, a: string, b: string): Files
    requires a in fs
  {
    (fs - {a})[b := fs[a]]
  }

  /** `merge`: what copying a directory onto an existing one yields. */
  function Stored(fs: Files, e: Entry, merge: (Node, Node) -> Node): Files
    requires Suits(fs, e) && e.client in fs && !fs[e.client].Link?
  {
    if e.excluded(Basename(e.client)) then fs
    else
      var copy := Copied(fs[e.client], e.client, e.excluded);
      fs[e.payload := if copy.Dir? && e.payload in fs then merge(fs[e.payload], copy) else copy]
  }

  function SeededFromClient(fs: Files, e: Entry, stamp: string, merge: (Node, Node) -> Node): Files
    requires Suits(fs, e) && e.client in fs && !fs[e.client].Link?
  {
    Renamed(Stored(fs, e, merge), e.client, Aside(e, stamp))
  }

  function SeededEmpty(fs: Files, e: Entry): Files {
    if e.mode.DirMode? then (if e.payload in fs then fs else fs[e.payload := Dir([])]) else fs[e.payload := File("")]
  }

  function LinkedClient(fs: Files, e: Entry, stamp: string): Files
    requires Suits(fs, e)
  {
    if e.mode.SshInclude? then
      if Includes(Body(fs, e), MARK_START) then fs else fs[e.client := File(ManagedBlock(e.payload) + Body(fs, e))]
    else if e.client in fs && fs[e.client] == Link(e.payload) then fs
    else
      var cleared := if e.client in fs then Renamed(fs, e.client, Aside(e, stamp)) else fs;
      var made := if e.mode.DirMode? && e.payload !in cleared then cleared[e.payload := Dir([])] else cleared;
      made[e.client := Link(e.payload)]
  }

  datatype Unlink = Unlink(fs: Files, restored: bool)

  function UnlinkedClient(fs: Files, e: Entry): Unlink
    requires Suits(fs, e)
  {
    if e.mode.SshInclude? then
      var stripped := Strip(Body(fs, e));
      if e.payload !in fs then Unlink(fs[e.client := File(stripped)], false)
      else Unlink(fs[e.client := File(fs[e.payload].bytes + stripped)], true)
    else if e.payload !in fs then Unlink(fs, false)
    else Unlink(fs[e.client := CopiedAsIs(fs[e.payload], e.payload)], true)
  }

  // ── Conservation ──────────────────────────────────────────────────────────

  /** What was at the client path is still there, or under the new name, or behind the block. */
  predicate Survives(fs: Files, fs': Files, e: Entry, stamp: string) {
    e.client in fs ==>
      || (e.client in fs' && fs'[e.client] == fs[e.client])
      || (Aside(e, stamp) in fs' && fs'[Aside(e, stamp)] == fs[e.client])
      || (e.mode.SshInclude? && fs[e.client].File? && e.client in fs' &&
            fs'[e.client] == File(ManagedBlock(e.payload) + fs[e.client].bytes))
  }

  /** Nothing else has changed. */
  predicate OthersSame(fs: Files, fs': Files, e: Entry, stamp: string) {
    && (forall q | q in fs && q != e.client && q != e.payload :: q in fs' && fs'[q] == fs[q])
    && (forall q | q in fs' && q != e.client && q != e.payload && q != Aside(e, stamp) :: q in fs)
  }

  lemma AsideDiffers(e: Entry, stamp: string)
    ensures Aside(e, stamp) != e.client
  {
    assert |Aside(e, stamp)| > |e.client|;
  }

  lemma LinkConserves(fs: Files, e: Entry, stamp: string)
    requires Suits(fs, e) && FreshStamp(fs, e, stamp)
    ensures Survives(fs, LinkedClient(fs, e, stamp), e, stamp) && OthersSame(fs, LinkedClient(fs, e, stamp), e, stamp)
    ensures e.payload in fs ==> e.payload in LinkedClient(fs, e, stamp) && LinkedClient(fs, e, stamp)[e.payload] == fs[e.payload]
  {
    AsideDiffers(e, stamp);
  }

  lemma SeedConserves(fs: Files, e: Entry, stamp: string, merge: (Node, Node) -> Node)
    requires Suits(fs, e) && e.client in fs && !fs[e.client].Link? && FreshStamp(fs, e, stamp)
    ensures var fs' := SeededFromClient(fs, e, stamp, merge);
            e.client !in fs' && Aside(e, stamp) in fs' && fs'[Aside(e, stamp)] == fs[e.client] && OthersSame(fs, fs', e, stamp)
  {
    AsideDiffers(e, stamp);
  }

  /** Linking twice is linking once, and leaves the client linked. */
  lemma LinkIdempotent(fs: Files, e: Entry, stamp: string, again: string)
    requires Suits(fs, e) && (e.client in fs ==> FreshStamp(fs, e, stamp))
    ensures var fs' := LinkedClient(fs, e, stamp);
            Suits(fs', e) && InspectClient(fs', e).Linked? && LinkedClient(fs', e, again) == fs'
  {
    AsideDiffers(e, stamp);
    if e.mode.SshInclude? {
      StripBlock(e.payload, Body(fs, e));
    }
  }

  // ── There and back ────────────────────────────────────────────────────────

  /** Client chosen: seed the store from the client, link, then unlink. */
  function ThereAndBack(fs: Files, e: Entry, stamp: string, merge: (Node, Node) -> Node): Unlink
    requires Suits(fs, e) && e.client in fs && !fs[e.client].Link? && FreshStamp(fs, e, stamp)
    requires fs[e.client].Dir? && e.payload in fs ==> merge(fs[e.payload], Copied(fs[e.client], e.client, e.excluded)).Dir?
  {
    SeededSuits(fs, e, stamp, merge);
    LinkIdempotent(SeededFromClient(fs, e, stamp, merge), e, stamp, stamp);
    UnlinkedClient(LinkedClient(SeededFromClient(fs, e, stamp, merge), e, stamp), e)
  }

  lemma SeededSuits(fs: Files, e: Entry, stamp: string, merge: (Node, Node) -> Node)
    requires Suits(fs, e) && e.client in fs && !fs[e.client].Link? && FreshStamp(fs, e, stamp)
    requires fs[e.client].Dir? && e.payload in fs ==> merge(fs[e.payload], Copied(fs[e.client], e.client, e.excluded)).Dir?
    ensures var fs' := SeededFromClient(fs, e, stamp, merge);
            Suits(fs', e) && e.client !in fs' && (e.payload in fs' <==> e.payload in fs || !e.excluded(Basename(e.client)))
    ensures var fs' := SeededFromClient(fs, e, stamp, merge);
            e.payload in fs' ==>
              fs'[e.payload] == if e.excluded(Basename(e.client)) then fs[e.payload]
                                else if fs[e.client].Dir? && e.payload in fs then merge(fs[e.payload], Copied(fs[e.client], e.client, e.excluded))
                                else Copied(fs[e.client], e.client, e.excluded)
  {
    AsideDiffers(e, stamp);
  }

  predicate Restored(fs: Files, e: Entry, u: Unlink)
    requires e.client in fs
  {
    u.restored && e.client in u.fs && u.fs[e.client] == fs[e.client]
  }

  /** Unlinking after linking a client path that holds nothing: the payload, or nothing. */
  lemma UnlinkGivesPayload(fs: Files, e: Entry, stamp: string)
    requires Suits(fs, e) && e.client !in fs && (e.mode.SshInclude? ==> !Includes(e.payload, MARK_END))
    requires e.mode.DirMode? ==> e.payload in fs
    ensures Suits(LinkedClient(fs, e, stamp), e)
    ensures var u := UnlinkedClient(LinkedClient(fs, e, stamp), e);
            && (u.restored <==> e.payload in fs)
            && (u.restored ==> e.client in u.fs && u.fs[e.client] == CopiedAsIs(fs[e.payload], e.payload))
  {
    LinkIdempotent(fs, e, stamp, stamp);
    if e.mode.SshInclude? {
      StripBlock(e.payload, "");
      Sequences.Empty(ManagedBlock(e.payload));
      if e.payload in fs {
        Sequences.Empty(fs[e.payload].bytes);
      }
    }
  }

  /** For a file, or text that is included, linking with the client chosen and unlinking
      restores the original bytes exactly when the client's own name is not excluded (or the
      store already held the same bytes). */
  lemma TextThereAndBack(fs: Files, e: Entry, stamp: string, merge: (Node, Node) -> Node)
    requires Suits(fs, e) && InspectClient(fs, e).Content? && FreshStamp(fs, e, stamp) && !e.mode.DirMode?
    requires e.mode.SshInclude? ==> !Includes(e.payload, MARK_END)
    ensures Restored(fs, e, ThereAndBack(fs, e, stamp, merge)) <==>
            !e.excluded(Basename(e.client)) || (e.payload in fs && fs[e.payload] == fs[e.client])
  {
    SeededSuits(fs, e, stamp, merge);
    UnlinkGivesPayload(SeededFromClient(fs, e, stamp, merge), e, stamp);
  }

  /** An included text whose store path holds the closing mark does not come back whole. */
  lemma MarkInPathLeavesRest(fs: Files, e: Entry, stamp: string, merge: (Node, Node) -> Node)
    requires Suits(fs, e) && InspectClient(fs, e).Content? && FreshStamp(fs, e, stamp) && e.mode.SshInclude?
    requires Includes(e.payload, MARK_END) && !e.excluded(Basename(e.client))
    ensures !Restored(fs, e, ThereAndBack(fs, e, stamp, merge))
  {
    SeededSuits(fs, e, stamp, merge);
    var fs1 := SeededFromClient(fs, e, stamp, merge);
    LinkIdempotent(fs1, e, stamp, stamp);
    StripBlock(e.payload, "");
    Sequences.Empty(ManagedBlock(e.payload));
    assert Strip(ManagedBlock(e.payload)) != "";
  }

  /** A directory going into an empty store comes back the same exactly when nothing in it is
      excluded, its own name included, and every link in it is absolute. */
  lemma DirThereAndBack(fs: Files, e: Entry, stamp: string, merge: (Node, Node) -> Node)
    requires Suits(fs, e) && InspectClient(fs, e).Content? && FreshStamp(fs, e, stamp) && e.mode.DirMode? && e.payload !in fs
    ensures Restored(fs, e, ThereAndBack(fs, e, stamp, merge)) <==>
            !e.excluded(Basename(e.client)) && NoneExcluded(fs[e.client], e.excluded) && LinksAbsolute(fs[e.client])
  {
    SeededSuits(fs, e, stamp, merge);
    CopiedWhole(fs[e.client], e.client, e.excluded);
    CopyLinksAbsolute(fs[e.client], e.client, e.excluded);
    AsIsWhole(Copied(fs[e.client], e.client, e.excluded), e.payload);
    var fs1 := SeededFromClient(fs, e, stamp, merge);
    LinkIdempotent(fs1, e, stamp, stamp);
    if e.payload in fs1 {
      UnlinkGivesPayload(fs1, e, stamp);
    } else {
      AsIsWhole(Dir([]), e.payload);
    }
  }

  // ── A directory with a relative link ──────────────────────────────────────

  predicate PlainName(s: string) {
    s != "" && '/' !in s && s != "." && s != ".."
  }

  lemma {:induction false} WalkPlain(segments: seq<string>, done: seq<string>)
    requires forall s | s in segments :: PlainName(s)
    ensures Walk(segments, done) == done + segments
    decreases |segments|
  {
    if segments == [] {
      Sequences.Empty(done);
    } else {
      assert PlainName(segments[0]);
      WalkPlain(segments[1..], done + [segments[0]]);
      Sequences.Assoc(done, [segments[0]], segments[1..]);
      Sequences.HeadTail(segments);
    }
  }

  lemma {:induction false} JoinLast(parts: seq<string>, last: string)
    requires parts != []
    ensures Join(parts + [last], "/") == Join(parts, "/") + "/" + last
  {
    var all := parts + [last];
    if |parts| == 1 {
      assert all[1..] == [last];
    } else {
      assert all[1..] == parts[1..] + [last];
      JoinLast(parts[1..], last);
      assert all[0] + "/" + (Join(parts[1..], "/") + "/" + last) == (all[0] + "/" + Join(parts[1..], "/")) + "/" + last;
    }
  }

  lemma SplitPath(segments: seq<string>, target: string)
    requires segments != [] && '/' !in target && forall s | s in segments :: '/' !in s
    ensures Split("/" + Join(segments, "/") + "/" + target, '/') == [""] + (segments + [target])
  {
    var joined := Join(segments, "/");
    SplitAppend("", joined, '/');
    SplitWhole("", '/');
    Sequences.Empty(['/']);
    SplitAppend("/" + joined, target, '/');
    SplitJoin(segments, '/');
    SplitWhole(target, '/');
    Sequences.Assoc([""], segments, [target]);
  }

  lemma WalkPath(segments: seq<string>)
    requires forall s | s in segments :: PlainName(s)
    ensures Walk([""] + segments, []) == segments
  {
    Sequences.ConsTail("", segments);
    WalkPlain(segments, []);
    Sequences.Empty(segments);
  }

  lemma ResolvedPlain(segments: seq<string>, target: string)
    requires segments != [] && PlainName(target) && forall s | s in segments :: PlainName(s)
    ensures var dir := "/" + Join(segments, "/"); Resolved(dir, target) == dir + "/" + target
  {
    var joined := Join(segments, "/");
    SplitPath(segments, target);
    WalkPath(segments + [target]);
    JoinLast(segments, target);
    Sequences.Assoc("/", joined, "/" + target);
    Sequences.Assoc("/" + joined, "/", target);
    Sequences.Assoc(joined, "/", target);
  }

  lemma {:induction false} DirnameOfChild(path: string, name: string)
    requires '/' !in name
    ensures Dirname(path + "/" + name) == path
  {
    var whole := path + "/" + name;
    if name == "" {
      assert whole[..|whole| - 1] == path;
    } else {
      var n := |name| - 1;
      assert whole[..|whole| - 1] == path + "/" + name[..n];
      assert whole[|whole| - 1] == name[n];
      DirnameOfChild(path, name[..n]);
    }
  }

  lemma OneCopied(c: Child, path: string, excluded: string -> bool)
    requires !excluded(c.name)
    ensures CopiedAll([c], path, excluded) == [Child(c.name, Copied(c.node, path + "/" + c.name, excluded))]
  {
    assert [c][1..] == [];
    Sequences.Empty([Child(c.name, Copied(c.node, path + "/" + c.name, excluded))]);
  }

  /** A directory that holds nothing but a link `name -> target` beside itself, such as
      `current -> v2`: after link and unlink the link names the absolute path. */
  lemma RelativeLinkMoves(fs: Files, e: Entry, segments: seq<string>, name: string, target: string, stamp: string, merge: (Node, Node) -> Node)
    requires segments != [] && (forall s | s in segments :: PlainName(s)) && PlainName(name) && PlainName(target)
    requires Suits(fs, e) && FreshStamp(fs, e, stamp) && e.mode.DirMode? && e.payload !in fs
    requires e.client == "/" + Join(segments, "/") && e.client in fs && fs[e.client] == Dir([Child(name, Link(target))])
    requires !e.excluded(Basename(e.client)) && !e.excluded(name)
    ensures var u := ThereAndBack(fs, e, stamp, merge);
            && u.restored && e.client in u.fs && u.fs[e.client] == Dir([Child(name, Link(e.client + "/" + target))])
            && !Restored(fs, e, u)
  {
    var copy := Copied(fs[e.client], e.client, e.excluded);
    OneCopied(Child(name, Link(target)), e.client, e.excluded);
    DirnameOfChild(e.client, name);
    ResolvedPlain(segments, target);
    assert target[0] in target && !IsAbsolute(target);
    assert copy == Dir([Child(name, Link(e.client + "/" + target))]);
    DirThereAndBack(fs, e, stamp, merge);
    SeededSuits(fs, e, stamp, merge);
    CopyLinksAbsolute(fs[e.client], e.client, e.excluded);
    AsIsWhole(copy, e.payload);
    UnlinkGivesPayload(SeededFromClient(fs, e, stamp, merge), e, stamp);
  }
}

/** The same, step by step on a disk, and `devbox config link` around it. */
module AppConfigRun {
  import opened Wrappers
  import opened AppConfigPlan
  import opened AppConfigFiles

  datatype PushAction = Write | RenameThenWrite | RefuseWrite

  function ResolvePushConflict(boxHasContent: bool, allowOverwrite: bool): PushAction {
    if !boxHasContent then Write else if allowOverwrite then RenameThenWrite else RefuseWrite
  }

  /** `Torn`: stopped inside the write of an included text, which is not atomic. */
  datatype Ended = Died | Torn | LeftAlone | LinkedAs(decision: Decision)

  predicate MergesDirs(merge: (Node, Node) -> Node, fs: Files, e: Entry)
    requires Suits(fs, e)
  {
    e.client in fs && fs[e.client].Dir? && e.payload in fs ==> merge(fs[e.payload], Copied(fs[e.client], e.client, e.excluded)).Dir?
  }

  /** What the answer at the prompt decides. */
  function Answered(answer: string, fromClient: bool): Decision {
    if fromClient || (answer != "" && answer[0] == 'c') then UseClient
    else if answer != "" && answer[0] == 'b' then UseBox
    else Refuse
  }

  function FinalDecision(plan: Decision, answer: string, fromClient: bool): Decision {
    if plan.Ask? then Answered(answer, fromClient) else plan
  }

  ghost predicate OnlyPayloadDiffers(fs: Files, fs': Files, e: Entry) {
    forall q | q != e.payload :: (q in fs' <==> q in fs) && (q in fs' ==> fs'[q] == fs[q])
  }

  lemma SeedThenLink(fs: Files, e: Entry, stamp: string, merge: (Node, Node) -> Node)
    requires Suits(fs, e) && InspectClient(fs, e).Content? && FreshStamp(fs, e, stamp) && MergesDirs(merge, fs, e)
    requires Suits(SeededFromClient(fs, e, stamp, merge), e)
    ensures var fs' := LinkedClient(SeededFromClient(fs, e, stamp, merge), e, stamp);
            Survives(fs, fs', e, stamp) && OthersSame(fs, fs', e, stamp)
  {
    AsideDiffers(e, stamp);
    SeedConserves(fs, e, stamp, merge);
  }

  lemma PayloadThenLink(fs: Files, fs1: Files, e: Entry, stamp: string)
    requires Suits(fs, e) && Suits(fs1, e) && FreshStamp(fs, e, stamp) && OnlyPayloadDiffers(fs, fs1, e)
    ensures var fs' := LinkedClient(fs1, e, stamp);
            && Survives(fs, fs', e, stamp) && OthersSame(fs, fs', e, stamp)
            && (e.payload in fs1 ==> e.payload in fs' && fs'[e.payload] == fs1[e.payload])
  {
    AsideDiffers(e, stamp);
    LinkConserves(fs1, e, stamp);
  }

  /** The client was chosen and its content put into the store, the original aside. */
  predicate Seeded(fs: Files, e: Entry, box: Side, answer: string, fromClient: bool)
    requires Suits(fs, e)
  {
    InspectClient(fs, e).Content? && FinalDecision(PlanLink(InspectClient(fs, e), box, e.payload in fs), answer, fromClient).UseClient?
  }

  /** Nothing is done for a foreign link, for two sides linked already, and for contested content
      that the answer gives to neither side. */
  predicate LeavesAlone(fs: Files, e: Entry, box: Side, answer: string, fromClient: bool)
    requires Suits(fs, e)
  {
    var client := InspectClient(fs, e);
    || client.ForeignLink? || box.ForeignLink? || (client.Linked? && box.Linked?)
    || (Contested(client, box, e.payload in fs) && !fromClient && !("c" <= answer) && !("b" <= answer))
  }

  /** The store holds what the client had: in place of what was there, or put into it. */
  predicate HoldsClients(fs: Files, fs': Files, e: Entry, merge: (Node, Node) -> Node)
    requires e.client in fs
  {
    && e.payload in fs'
    && fs'[e.payload] == if fs[e.client].Dir? && e.payload in fs then merge(fs[e.payload], Copied(fs[e.client], e.client, e.excluded))
                         else Copied(fs[e.client], e.client, e.excluded)
  }

  /** Who has won, and what store and box hold then. Contested content goes to the client when
      that was asked for or answered, and to the box when that was; otherwise the one side with
      content has won, or the store as it is, or an empty one. */
  predicate WonAsAnswered(fs: Files, fs': Files, boxPayload: Option<string>, e: Entry, box: Side, answer: string, fromClient: bool,
                          pulled: string, merge: (Node, Node) -> Node, decision: Decision)
    requires Suits(fs, e)
  {
    var client, stored := InspectClient(fs, e), e.payload in fs;
    var contested := (client.Content? && box.Content?) || (stored && (client.Content? || box.Content?));
    var toClient := if contested then fromClient || "c" <= answer else client.Content?;
    var toBox := if contested then !fromClient && "b" <= answer else box.Content?;
    && (toClient ==> decision.UseClient? && (client.Content? && !e.excluded(Basename(e.client)) ==> HoldsClients(fs, fs', e, merge)))
    && (toBox ==> decision.UseBox? && (!e.mode.DirMode? ==> e.payload in fs' && fs'[e.payload] == File(pulled)))
    && (!toClient && !toBox && stored ==> decision.UseClient? && e.payload in fs' && fs'[e.payload] == fs[e.payload])
    && (!toClient && !toBox && !stored ==>
          decision.SeedEmpty? && e.payload in fs' && fs'[e.payload] == if e.mode.DirMode? then Dir([]) else File(""))
    && (!e.mode.DirMode? && !(decision.UseClient? && !client.Content?) ==>
          e.payload in fs' && fs'[e.payload].File? && boxPayload == Some(fs'[e.payload].bytes))
  }

  /** What has been written before the link is made. */
  ghost predicate SeededAs(fs: Files, fs': Files, boxPayload: Option<string>, e: Entry, decision: Decision,
                           pulled: string, stamp: string, merge: (Node, Node) -> Node)
    requires Suits(fs, e)
  {
    var client := InspectClient(fs, e);
    && (decision.UseClient? && client.Content? ==> fs' == SeededFromClient(fs, e, stamp, merge))
    && (decision.UseClient? && !client.Content? ==> fs' == fs)
    && (decision.UseBox? ==> if e.mode.DirMode? then fs' == fs else e.payload in fs' && fs'[e.payload] == File(pulled))
    && (decision.SeedEmpty? ==> e.payload in fs' && fs'[e.payload] == if e.mode.DirMode? then Dir([]) else File(""))
    && (!e.mode.DirMode? && !(decision.UseClient? && !client.Content?) ==>
          e.payload in fs' && fs'[e.payload].File? && boxPayload == Some(fs'[e.payload].bytes))
  }

  ghost predicate LinkedVia(fs: Files, seeded: Files, fs': Files, boxPayload: Option<string>, e: Entry, decision: Decision,
                            pulled: string, stamp: string, merge: (Node, Node) -> Node)
    requires Suits(fs, e)
  {
    && Suits(seeded, e) && (e.client in seeded ==> FreshStamp(seeded, e, stamp))
    && SeededAs(fs, seeded, boxPayload, e, decision, pulled, stamp, merge) && fs' == LinkedClient(seeded, e, stamp)
  }

  ghost predicate LinkedFrom(fs: Files, fs': Files, boxPayload: Option<string>, e: Entry, decision: Decision,
                             pulled: string, stamp: string, merge: (Node, Node) -> Node)
    requires Suits(fs, e)
  {
    exists seeded :: LinkedVia(fs, seeded, fs', boxPayload, e, decision, pulled, stamp, merge)
  }

  lemma WonWhenLinked(fs: Files, fs': Files, boxPayload: Option<string>, e: Entry, box: Side, answer: string, fromClient: bool,
                      pulled: string, stamp: string, merge: (Node, Node) -> Node)
    requires Suits(fs, e) && FreshStamp(fs, e, stamp) && MergesDirs(merge, fs, e)
    requires !LeavesAlone(fs, e, box, answer, fromClient)
    requires var decision := FinalDecision(PlanLink(InspectClient(fs, e), box, e.payload in fs), answer, fromClient);
             LinkedFrom(fs, fs', boxPayload, e, decision, pulled, stamp, merge)
    ensures var decision := FinalDecision(PlanLink(InspectClient(fs, e), box, e.payload in fs), answer, fromClient);
            WonAsAnswered(fs, fs', boxPayload, e, box, answer, fromClient, pulled, merge, decision)
  {
    var decision := FinalDecision(PlanLink(InspectClient(fs, e), box, e.payload in fs), answer, fromClient);
    var seeded :| LinkedVia(fs, seeded, fs', boxPayload, e, decision, pulled, stamp, merge);
    if e.payload in seeded {
      LinkKeepsPayload(seeded, e, stamp);
    }
    if InspectClient(fs, e).Content? {
      SeededSuits(fs, e, stamp, merge);
    }
  }

  lemma LinkKeepsPayload(fs: Files, e: Entry, stamp: string)
    requires Suits(fs, e) && e.payload in fs && (e.client in fs ==> FreshStamp(fs, e, stamp))
    ensures e.payload in LinkedClient(fs, e, stamp) && LinkedClient(fs, e, stamp)[e.payload] == fs[e.payload]
  {
  }

  lemma LeftAloneWhen(fs: Files, e: Entry, box: Side, answer: string, fromClient: bool)
    requires Suits(fs, e)
    ensures var decision := FinalDecision(PlanLink(InspectClient(fs, e), box, e.payload in fs), answer, fromClient);
            decision.AlreadyLinked? || decision.Refuse? <==> LeavesAlone(fs, e, box, answer, fromClient)
  {
    var client := InspectClient(fs, e);
    if !client.ForeignLink? && !box.ForeignLink? && !(client.Linked? && box.Linked?) {
      AsksWhenContested(client, box, e.payload in fs);
    }
  }

  /** A text that was not seeded is lost when its rewriting stops right after the file has been
      emptied. */
  lemma TornLoses(fs: Files, e: Entry, stamp: string)
    requires e.client in fs && FreshStamp(fs, e, stamp) && fs[e.client].File? && fs[e.client].bytes != ""
    ensures !Survives(fs, fs[e.client := File("")], e, stamp)
  {
    AsideDiffers(e, stamp);
    assert |ManagedBlock(e.payload) + fs[e.client].bytes| > 0;
  }

  /** `fs`: the client's files. `boxPayload`, `boxAsides`: the box's own copy of the payload,
      and those it has renamed. */
  class Machine {
    var fs: Files
    var boxPayload: Option<string>
    var boxAsides: seq<string>

    /** How often so far the box could not be reached or the command was stopped. */
    ghost var trouble: nat

    /** A call to the box; false when it fails. */
    method Reach() returns (ok: bool)
      modifies `trouble
      ensures trouble >= old(trouble) && (ok <==> trouble == old(trouble))
    {
      ok := *;
      if !ok { trouble := trouble + 1; }
    }

    /** Between two steps: true when the command is stopped here. */
    method Stops() returns (yes: bool)
      modifies `trouble
      ensures trouble >= old(trouble) && (yes <==> trouble > old(trouble))
    {
      yes := *;
      if yes { trouble := trouble + 1; }
    }

    /** Stopped, it has not renamed the client's path yet; what a copy that is cut off has put
        into the store is anybody's guess. */
    method SeedFromClient(e: Entry, stamp: string, merge: (Node, Node) -> Node) returns (stopped: bool)
      requires Suits(fs, e) && e.client in fs && !fs[e.client].Link? && MergesDirs(merge, fs, e)
      modifies `fs, `trouble
      ensures !stopped ==> fs == SeededFromClient(old(fs), e, stamp, merge)
      ensures trouble >= old(trouble) && (stopped <==> trouble > old(trouble))
      ensures stopped ==> Suits(fs, e) && OnlyPayloadDiffers(old(fs), fs, e)
    {
      stopped := Stops();
      if !e.excluded(Basename(e.client)) {
        var copy := Copied(fs[e.client], e.client, e.excluded);
        if stopped {
          var bytes: string, children: seq<Child> := *, *;
          fs := fs[e.payload := if copy.Dir? then Dir(children) else File(bytes)];
          return;
        }
        if copy.Dir? && e.payload in fs {
          copy := merge(fs[e.payload], copy);
        }
        fs := fs[e.payload := copy];
        stopped := Stops();
      }
      if stopped { return; }
      fs := Renamed(fs, e.client, Aside(e, stamp));
    }

    /** Refuses with nothing written, or creates the empty payload. */
    method SeedEmptyGuarded(e: Entry, boxHasContent: bool) returns (refused: bool)
      modifies `fs, `trouble
      ensures refused <==> !e.mode.DirMode? && boxHasContent
      ensures trouble == old(trouble)
      ensures fs == if refused then old(fs) else SeededEmpty(old(fs), e)
    {
      if !e.mode.DirMode? && ResolvePushConflict(boxHasContent, false).RefuseWrite? { return true; }
      if e.mode.DirMode? {
        if e.payload !in fs { fs := fs[e.payload := Dir([])]; }
        return false;
      }
      fs := fs[e.payload := File("")];
      return false;
    }

    /** Stopped, what was at the client's path is still there or aside; only the text that is
        being rewritten may be cut short. */
    method LinkClient(e: Entry, stamp: string) returns (stopped: bool)
      requires Suits(fs, e) && (e.client in fs ==> FreshStamp(fs, e, stamp))
      modifies `fs, `trouble
      ensures !stopped ==> fs == LinkedClient(old(fs), e, stamp)
      ensures trouble >= old(trouble) && (stopped <==> trouble > old(trouble))
      ensures stopped ==> Suits(fs, e) && OthersSame(old(fs), fs, e, stamp)
      ensures stopped && e.payload in old(fs) ==> e.payload in fs && fs[e.payload] == old(fs)[e.payload]
      ensures stopped && (!e.mode.SshInclude? || e.client !in old(fs)) ==> Survives(old(fs), fs, e, stamp)
      ensures e.client !in old(fs) ==> forall q | q != e.client && q != e.payload :: (q in fs <==> q in old(fs)) && (q in fs ==> fs[q] == old(fs)[q])
    {
      AsideDiffers(e, stamp);
      if e.mode.SshInclude? {
        var body := Body(fs, e);
        if MarkedBlocks.Includes(body, MARK_START) { return false; }
        var text, written: nat := ManagedBlock(e.payload) + body, *;
        stopped := Stops();
        fs := fs[e.client := File(if stopped && written < |text| then text[..written] else text)];
        return;
      }
      if e.client in fs {
        if fs[e.client] == Link(e.payload) { return false; }
        fs := Renamed(fs, e.client, Aside(e, stamp));
        stopped := Stops();
        if stopped { return; }
      }
      if e.mode.DirMode? && e.payload !in fs { fs := fs[e.payload := Dir([])]; }
      stopped := Stops();
      if stopped { return; }
      fs := fs[e.client := Link(e.payload)];
    }

    /** Stopped, only the client's own path has been touched. */
    method UnlinkClient(e: Entry) returns (restored: bool, stopped: bool)
      requires Suits(fs, e)
      modifies `fs, `trouble
      ensures !stopped ==> Unlink(fs, restored) == UnlinkedClient(old(fs), e)
      ensures trouble >= old(trouble) && (stopped <==> trouble > old(trouble))
      ensures stopped ==> !restored && forall q | q != e.client :: (q in fs <==> q in old(fs)) && (q in fs ==> fs[q] == old(fs)[q])
    {
      if e.mode.SshInclude? {
        var stripped, written: nat := Strip(Body(fs, e)), *;
        restored := e.payload in fs;
        var text := if restored then fs[e.payload].bytes + stripped else stripped;
        stopped := Stops();
        fs := fs[e.client := File(if stopped && written < |text| then text[..written] else text)];
        return restored && !stopped, stopped;
      }
      if e.payload !in fs { return false, false; }
      var payload := CopiedAsIs(fs[e.payload], e.payload);
      fs := fs - {e.client};
      stopped := Stops();
      if stopped { return false, true; }
      fs := fs[e.client := payload];
      return true, false;
    }

    /** A payload of the box that has content is renamed, never overwritten. */
    method PushPayloadToBox(e: Entry, allowOverwrite: bool, boxHasContent: bool) returns (died: bool)
      requires Suits(fs, e)
      requires !e.mode.DirMode? ==> boxHasContent == (boxPayload.Some? && boxPayload.value != "")
      modifies `boxPayload, `boxAsides, `trouble
      ensures boxAsides == old(boxAsides) || (old(boxPayload).Some? && boxAsides == old(boxAsides) + [old(boxPayload).value])
      ensures old(boxPayload).Some? && old(boxPayload).value != "" ==>
                boxPayload == old(boxPayload) || (|boxAsides| > 0 && boxAsides[|boxAsides| - 1] == old(boxPayload).value)
      ensures !died && !e.mode.DirMode? ==> e.payload in fs && boxPayload == Some(fs[e.payload].bytes)
      ensures trouble >= old(trouble) && (!died ==> trouble == old(trouble))
      ensures died && trouble == old(trouble) ==> !e.mode.DirMode? && ((boxHasContent && !allowOverwrite) || e.payload !in fs)
    {
      if e.mode.DirMode? { return false; }
      var reachable: bool;
      match ResolvePushConflict(boxHasContent, allowOverwrite) {
        case RefuseWrite => return true;
        case RenameThenWrite =>
          reachable := Reach();
          if !reachable { return true; }
          boxAsides, boxPayload := boxAsides + [boxPayload.value], None;
        case Write =>
      }
      reachable := Reach();
      if e.payload !in fs || !reachable { return true; }
      boxPayload := Some(fs[e.payload].bytes);
      return false;
    }

    /** What has been written before the client is linked. */
    method Seed(e: Entry, client: Side, decision: Decision, pulled: string, stamp: string, merge: (Node, Node) -> Node) returns (died: bool)
      requires Suits(fs, e) && FreshStamp(fs, e, stamp) && client == InspectClient(fs, e) && MergesDirs(merge, fs, e)
      requires decision.UseBox? || decision.UseClient? || decision.SeedEmpty?
      requires decision.SeedEmpty? ==> e.payload !in fs
      requires decision.UseClient? && !client.Content? ==> e.payload in fs
      modifies this
      ensures Suits(fs, e) && (e.client in fs ==> FreshStamp(fs, e, stamp))
      ensures if decision.UseClient? && client.Content? && (!died || e.client !in fs) then fs == SeededFromClient(old(fs), e, stamp, merge)
              else OnlyPayloadDiffers(old(fs), fs, e)
      ensures decision.UseClient? && !client.Content? ==> fs == old(fs)
      ensures !died ==> SeededAs(old(fs), fs, boxPayload, e, decision, pulled, stamp, merge)
      ensures trouble >= old(trouble) && (!died ==> trouble == old(trouble))
      ensures died && trouble == old(trouble) ==> !e.mode.DirMode? && if decision.SeedEmpty? then old(boxPayload) !in {None, Some("")} else e.excluded(Basename(e.client)) && e.payload !in fs && decision.UseClient? && client.Content?
      ensures !died && e.payload !in fs ==> e.mode.DirMode? && (decision.UseBox? || e.client !in fs)
    {
      AsideDiffers(e, stamp);
      var boxHasContent := !e.mode.DirMode? && boxPayload.Some? && boxPayload.value != "";
      match decision {
        case UseBox =>
          var reachable := Reach();
          if !reachable { return true; }
          if e.mode.DirMode? { return false; }
          boxPayload := Some(pulled);
          reachable := Reach();
          var arrived: string := *;
          if !reachable {
            if arrived != pulled { fs := fs[e.payload := File(arrived)]; }
            return true;
          }
          fs := fs[e.payload := File(pulled)];
          return false;
        case UseClient =>
          if client.Content? {
            SeededSuits(fs, e, stamp, merge);
            died := SeedFromClient(e, stamp, merge);
            if died { return; }
            died := PushPayloadToBox(e, true, boxHasContent);
            return;
          }
          return false;
        case SeedEmpty =>
          var refused := SeedEmptyGuarded(e, boxHasContent);
          if refused { return true; }
          died := PushPayloadToBox(e, false, boxHasContent);
      }
    }

    /** One entry of `devbox config link`, which may stop between any two of its steps: the
        client's content survives, except that a text which is included, and was not seeded, may
        be cut short while it is rewritten; nothing unrelated changes, and a payload already in
        the store is only ever replaced on an answer. */
    method LinkEntry(e: Entry, box: Side, answer: string, fromClient: bool, pulled: string, stamp: string, merge: (Node, Node) -> Node)
      returns (r: Ended)
      requires Suits(fs, e) && FreshStamp(fs, e, stamp) && MergesDirs(merge, fs, e)
      modifies this
      ensures Suits(fs, e) && OthersSame(old(fs), fs, e, stamp)
      ensures r.Torn? ==> e.mode.SshInclude? && !Seeded(old(fs), e, box, answer, fromClient)
      ensures !r.Torn? ==> Survives(old(fs), fs, e, stamp)
      ensures r.LeftAlone? ==> fs == old(fs)
      ensures r.LinkedAs? ==> InspectClient(fs, e).Linked?
      ensures r.LinkedAs? && e.payload !in fs ==> e.mode.DirMode? && old(InspectClient(fs, e)).Linked? && r.decision.UseBox?
      ensures e.payload in old(fs) && !PlanLink(old(InspectClient(fs, e)), box, true).Ask? ==>
                e.payload in fs && fs[e.payload] == old(fs)[e.payload]
      ensures r.LeftAlone? <==> old(LeavesAlone(fs, e, box, answer, fromClient))
      ensures r.LinkedAs? ==> trouble == old(trouble)
      ensures (r.Died? || r.Torn?) && trouble == old(trouble) ==>
                && !e.mode.DirMode?
                && ((old(boxPayload) !in {None, Some("")} && Bare(old(InspectClient(fs, e))) && Bare(box) && e.payload !in old(fs))
                    || (e.payload !in fs && e.excluded(Basename(e.client))))
      ensures r.LinkedAs? ==> WonAsAnswered(old(fs), fs, boxPayload, e, box, answer, fromClient, pulled, merge, r.decision)
    {
      var client := InspectClient(fs, e);
      var plan := PlanLink(client, box, e.payload in fs);
      var decision := FinalDecision(plan, answer, fromClient);
      LeftAloneWhen(fs, e, box, answer, fromClient);
      if decision.AlreadyLinked? || decision.Refuse? { return LeftAlone; }
      r := CarryOut(e, client, decision, pulled, stamp, merge);
      if r.LinkedAs? {
        WonWhenLinked(old(fs), fs, boxPayload, e, box, answer, fromClient, pulled, stamp, merge);
      }
    }

    /** The decision taken. */
    method CarryOut(e: Entry, client: Side, decision: Decision, pulled: string, stamp: string, merge: (Node, Node) -> Node) returns (r: Ended)
      requires Suits(fs, e) && FreshStamp(fs, e, stamp) && client == InspectClient(fs, e) && MergesDirs(merge, fs, e)
      requires decision.UseBox? || decision.UseClient? || decision.SeedEmpty?
      requires decision.SeedEmpty? ==> e.payload !in fs
      requires decision.UseClient? && !client.Content? ==> e.payload in fs
      modifies this
      ensures Suits(fs, e) && OthersSame(old(fs), fs, e, stamp) && !r.LeftAlone?
      ensures r.Torn? ==> e.mode.SshInclude? && !(decision.UseClient? && client.Content?)
      ensures !r.Torn? ==> Survives(old(fs), fs, e, stamp)
      ensures r.LinkedAs? ==> r.decision == decision && InspectClient(fs, e).Linked?
      ensures r.LinkedAs? ==> LinkedFrom(old(fs), fs, boxPayload, e, decision, pulled, stamp, merge)
      ensures r.LinkedAs? ==> trouble == old(trouble)
      ensures !r.LinkedAs? && trouble == old(trouble) ==>
                !e.mode.DirMode? && if decision.SeedEmpty? then old(boxPayload) !in {None, Some("")} else e.excluded(Basename(e.client)) && e.payload !in fs && decision.UseClient? && client.Content?
      ensures r.LinkedAs? && e.payload !in fs ==> e.mode.DirMode? && client.Linked? && decision.UseBox?
      ensures e.payload in old(fs) && !decision.UseBox? && !(decision.UseClient? && client.Content?) ==>
                e.payload in fs && fs[e.payload] == old(fs)[e.payload]
    {
      var died := Seed(e, client, decision, pulled, stamp, merge);
      AsideDiffers(e, stamp);
      if died { return Died; }
      ghost var seeded := fs;
      r := FinishLink(e, decision, stamp, old(fs), client, merge);
      assert r.LinkedAs? ==> LinkedVia(old(fs), seeded, fs, boxPayload, e, decision, pulled, stamp, merge);
    }

    /** The client's link, then the box's. */
    method FinishLink(e: Entry, decision: Decision, stamp: string, ghost before: Files, client: Side, merge: (Node, Node) -> Node) returns (r: Ended)
      requires Suits(before, e) && FreshStamp(before, e, stamp) && client == InspectClient(before, e) && MergesDirs(merge, before, e)
      requires Suits(fs, e) && (e.client in fs ==> FreshStamp(fs, e, stamp))
      requires if decision.UseClient? && client.Content? then fs == SeededFromClient(before, e, stamp, merge) else OnlyPayloadDiffers(before, fs, e)
      modifies `fs, `trouble
      ensures Suits(fs, e) && OthersSame(before, fs, e, stamp) && !r.LeftAlone?
      ensures r.Torn? ==> e.mode.SshInclude? && !(decision.UseClient? && client.Content?)
      ensures !r.Torn? ==> Survives(before, fs, e, stamp)
      ensures r.LinkedAs? ==> fs == LinkedClient(old(fs), e, stamp) && InspectClient(fs, e).Linked? && r.decision == decision
      ensures trouble >= old(trouble) && (r.LinkedAs? <==> trouble == old(trouble))
      ensures r.LinkedAs? && e.payload !in fs ==> e.payload !in old(fs) && (e.mode.DirMode? ==> e.client in old(fs) && old(fs)[e.client] == Link(e.payload))
      ensures e.payload in old(fs) && !(decision.UseClient? && client.Content?) ==> e.payload in fs && fs[e.payload] == old(fs)[e.payload]
    {
      AsideDiffers(e, stamp);
      LinkIdempotent(fs, e, stamp, stamp);
      if decision.UseClient? && client.Content? {
        SeedConserves(before, e, stamp, merge);
        SeedThenLink(before, e, stamp, merge);
      } else {
        PayloadThenLink(before, fs, e, stamp);
      }
      var stopped := LinkClient(e, stamp);
      if stopped {
        return if e.mode.SshInclude? && !(decision.UseClient? && client.Content?) then Torn else Died;
      }
      var reachable := Reach();
      return if reachable then LinkedAs(decision) else Died;
    }

    /** One entry of `devbox config unlink`: only a linked client is touched, only at its own
        path wherever it stops, and a link is kept when there is nothing to put in its place. */
    method UnlinkEntry(e: Entry) returns (restored: bool, stopped: bool)
      requires Suits(fs, e)
      modifies `fs, `trouble
      ensures forall q | q != e.client :: (q in fs <==> q in old(fs)) && (q in fs ==> fs[q] == old(fs)[q])
      ensures !old(InspectClient(fs, e)).Linked? ==> fs == old(fs) && !restored && !stopped
      ensures stopped ==> !restored
      ensures stopped <==> trouble > old(trouble)
      ensures !stopped ==> (restored <==> old(InspectClient(fs, e)).Linked? && e.payload in old(fs))
      ensures restored && !stopped && !e.mode.SshInclude? ==> e.client in fs && fs[e.client] == CopiedAsIs(old(fs)[e.payload], e.payload)
      ensures restored && !stopped && !e.mode.SshInclude? ==> (fs[e.client] == old(fs)[e.payload] <==> LinksAbsolute(old(fs)[e.payload]))
      ensures !restored && !stopped && !e.mode.SshInclude? ==> fs == old(fs)
    {
      if !InspectClient(fs, e).Linked? { return false, false; }
      if e.payload in fs {
        AsIsWhole(fs[e.payload], e.payload);
      }
      restored, stopped := UnlinkClient(e);
    }
  }
}
