/** clients/devbox/src/omp-model-presets/core.ts, `exclusive`: the promise chain that runs one
    operation at a time.

    Each call chains its operation to the tail of the queue, for both ways the tail can
    settle, and puts in its place a promise that always resolves. Operations are cut at their
    `await`s: the event loop may run anything that is ready between two steps. */
module PresetQueue {
  datatype Flow = Goes | Returns | Rejects

  /** A step changes the shared state and goes on, returns or throws. */
  type Step<!S> = S -> (S, Flow)

  datatype Phase = Waiting | Running(pc: nat) | Settled(ok: bool)

  /** `linked`: the promise the next call waits for has resolved. */
  datatype Call<!S> = Call(steps: seq<Step<S>>, phase: Phase, linked: bool)

  datatype Machine<!S> = Machine(s: S, calls: seq<Call<S>>)

  datatype Event<!S> = Submit(steps: seq<Step<S>>) | Begin(i: nat) | Advance(i: nat) | Link(i: nat)

  ghost predicate Enabled<S>(m: Machine<S>, e: Event<S>) {
    match e
    case Submit(_) => true
    case Begin(i) => i < |m.calls| && m.calls[i].phase.Waiting? && (i == 0 || m.calls[i - 1].linked)
    case Advance(i) => i < |m.calls| && m.calls[i].phase.Running? && m.calls[i].phase.pc <= |m.calls[i].steps|
    case Link(i) => i < |m.calls| && m.calls[i].phase.Settled? && !m.calls[i].linked
  }

  ghost function After(pc: nat, flow: Flow): Phase {
    match flow
    case Goes => Running(pc + 1)
    case Returns => Settled(true)
    case Rejects => Settled(false)
  }

  ghost function At<S>(m: Machine<S>, i: nat, c: Call<S>): Machine<S>
    requires i < |m.calls|
  {
    m.(calls := m.calls[i := c])
  }

  ghost function Next<S>(m: Machine<S>, e: Event<S>): Machine<S>
    requires Enabled(m, e)
  {
    match e
    case Submit(steps) => m.(calls := m.calls + [Call(steps, Waiting, false)])
    case Begin(i) => At(m, i, m.calls[i].(phase := Running(0)))
    case Link(i) => At(m, i, m.calls[i].(linked := true))
    case Advance(i) =>
      var c := m.calls[i];
      if c.phase.pc == |c.steps| then At(m, i, c.(phase := Settled(true)))
      else
        var (s, flow) := c.steps[c.phase.pc](m.s);
        At(m, i, c.(phase := After(c.phase.pc, flow))).(s := s)
  }

  // ── One at a time ─────────────────────────────────────────────────────────

  /** An operation from step `pc` to its end, undisturbed: the state, and whether it resolved. */
  ghost function Exec<S>(s: S, steps: seq<Step<S>>, pc: nat): (S, bool)
    requires pc <= |steps|
    decreases |steps| - pc
  {
    if pc == |steps| then (s, true)
    else
      var (s', flow) := steps[pc](s);
      match flow
      case Goes => Exec(s', steps, pc + 1)
      case Returns => (s', true)
      case Rejects => (s', false)
  }

  datatype Outcome<!S> = Outcome(s: S, results: seq<bool>)

  /** The calls in order, each to its end before the next. */
  ghost function Serial<S>(s: S, calls: seq<Call<S>>): Outcome<S> {
    if calls == [] then Outcome(s, [])
    else
      var before := Serial(s, calls[..|calls| - 1]);
      var (s', ok) := Exec(before.s, calls[|calls| - 1].steps, 0);
      Outcome(s', before.results + [ok])
  }

  ghost predicate SameSteps<S>(a: seq<Call<S>>, b: seq<Call<S>>) {
    |a| == |b| && forall i | 0 <= i < |a| :: a[i].steps == b[i].steps
  }

  lemma {:induction false} SerialReadsSteps<S>(s: S, a: seq<Call<S>>, b: seq<Call<S>>)
    requires SameSteps(a, b)
    ensures Serial(s, a) == Serial(s, b)
  {
    if a != [] {
      SerialReadsSteps(s, a[..|a| - 1], b[..|b| - 1]);
    }
  }

  /** The first `k` calls have settled, the rest have not begun, except perhaps the one at `k`. */
  ghost predicate InOrder<S>(m: Machine<S>, k: nat) {
    && k <= |m.calls|
    && (forall i | 0 <= i < k :: m.calls[i].phase.Settled?)
    && (forall i | k < i < |m.calls| :: m.calls[i].phase.Waiting?)
    && (forall i | k <= i < |m.calls| :: !m.calls[i].linked && !m.calls[i].phase.Settled?)
    && (forall i | 0 <= i < k - 1 :: m.calls[i].linked)
    && (k < |m.calls| && m.calls[k].phase.Running? ==> m.calls[k].phase.pc <= |m.calls[k].steps| && (k == 0 || m.calls[k - 1].linked))
  }

  ghost predicate ResultsServed<S>(m: Machine<S>, k: nat, served: Outcome<S>) {
    |served.results| == k <= |m.calls| && forall i | 0 <= i < k :: m.calls[i].phase == Settled(served.results[i])
  }

  /** What remains of the call at `k` will end where the whole of it would have. */
  ghost predicate OnCourse<S>(m: Machine<S>, k: nat, served: Outcome<S>)
    requires InOrder(m, k)
  {
    if k < |m.calls| && m.calls[k].phase.Running? then
      Exec(m.s, m.calls[k].steps, m.calls[k].phase.pc) == Exec(served.s, m.calls[k].steps, 0)
    else m.s == served.s
  }

  ghost predicate Inv<S>(s0: S, m: Machine<S>, k: nat) {
    && InOrder(m, k)
    && ResultsServed(m, k, Serial(s0, m.calls[..k]))
    && OnCourse(m, k, Serial(s0, m.calls[..k]))
  }

  lemma SubmitStep<S>(s0: S, m: Machine<S>, k: nat, steps: seq<Step<S>>)
    requires Inv(s0, m, k)
    ensures Inv(s0, Next(m, Submit(steps)), k)
  {
    assert Next(m, Submit(steps)).calls[..k] == m.calls[..k];
  }

  /** Only the call at `k`, or the link before it, can be ready. */
  lemma OnlyNext<S>(m: Machine<S>, k: nat, e: Event<S>)
    requires InOrder(m, k) && Enabled(m, e) && !e.Submit?
    ensures e.Link? ==> e.i == k - 1
    ensures !e.Link? ==> e.i == k
  {
  }

  lemma BeginStep<S>(s0: S, m: Machine<S>, k: nat)
    requires Inv(s0, m, k) && Enabled(m, Begin(k))
    ensures Inv(s0, Next(m, Begin(k)), k)
  {
    assert Next(m, Begin(k)).calls[..k] == m.calls[..k];
  }

  lemma LinkStep<S>(s0: S, m: Machine<S>, k: nat)
    requires k > 0 && Inv(s0, m, k) && Enabled(m, Link(k - 1))
    ensures Inv(s0, Next(m, Link(k - 1)), k)
  {
    var m' := Next(m, Link(k - 1));
    assert SameSteps(m'.calls[..k], m.calls[..k]);
    SerialReadsSteps(s0, m'.calls[..k], m.calls[..k]);
  }

  lemma Served<S>(s0: S, m: Machine<S>, m': Machine<S>, k: nat)
    requires k < |m.calls| && |m'.calls| == |m.calls|
    requires m'.calls[..k] == m.calls[..k] && m'.calls[k].steps == m.calls[k].steps
    ensures var before, whole := Serial(s0, m.calls[..k]), Exec(Serial(s0, m.calls[..k]).s, m.calls[k].steps, 0);
            Serial(s0, m'.calls[..k + 1]) == Outcome(whole.0, before.results + [whole.1])
  {
    assert m'.calls[..k + 1][..k] == m'.calls[..k];
  }

  lemma AdvanceGoesOn<S>(s0: S, m: Machine<S>, k: nat)
    requires Inv(s0, m, k) && Enabled(m, Advance(k)) && Next(m, Advance(k)).calls[k].phase.Running?
    ensures Inv(s0, Next(m, Advance(k)), k)
  {
    assert Next(m, Advance(k)).calls[..k] == m.calls[..k];
  }

  lemma AdvanceEnds<S>(s0: S, m: Machine<S>, k: nat)
    requires Inv(s0, m, k) && Enabled(m, Advance(k)) && Next(m, Advance(k)).calls[k].phase.Settled?
    ensures Inv(s0, Next(m, Advance(k)), k + 1)
  {
    var m', c := Next(m, Advance(k)), m.calls[k];
    assert m'.calls[..k] == m.calls[..k];
    EndsWhole(m, k);
    Served(s0, m, m', k);
    SettledInOrder(m, m', k);
  }

  lemma EndsWhole<S>(m: Machine<S>, k: nat)
    requires Enabled(m, Advance(k)) && Next(m, Advance(k)).calls[k].phase.Settled?
    ensures var whole := Exec(m.s, m.calls[k].steps, m.calls[k].phase.pc);
            Next(m, Advance(k)).calls[k].phase == Settled(whole.1) && Next(m, Advance(k)).s == whole.0
  {
  }

  lemma SettledInOrder<S>(m: Machine<S>, m': Machine<S>, k: nat)
    requires InOrder(m, k) && k < |m.calls| && m.calls[k].phase.Running?
    requires |m'.calls| == |m.calls| && m'.calls == m.calls[k := m'.calls[k]]
    requires m'.calls[k].phase.Settled? && m'.calls[k].linked == m.calls[k].linked
    ensures InOrder(m', k + 1)
  {
  }

  lemma AdvanceStep<S>(s0: S, m: Machine<S>, k: nat) returns (k': nat)
    requires Inv(s0, m, k) && Enabled(m, Advance(k))
    ensures Inv(s0, Next(m, Advance(k)), k') && k <= k'
  {
    if Next(m, Advance(k)).calls[k].phase.Settled? {
      k' := k + 1;
      AdvanceEnds(s0, m, k);
    } else {
      k' := k;
      AdvanceGoesOn(s0, m, k);
    }
  }

  lemma StepKeepsOrder<S>(s0: S, m: Machine<S>, k: nat, e: Event<S>) returns (k': nat)
    requires Inv(s0, m, k) && Enabled(m, e)
    ensures Inv(s0, Next(m, e), k') && k <= k'
  {
    k' := k;
    if e.Submit? {
      SubmitStep(s0, m, k, e.steps);
    } else {
      OnlyNext(m, k, e);
      match e
      case Begin(_) => BeginStep(s0, m, k);
      case Link(_) => LinkStep(s0, m, k);
      case Advance(_) => k' := AdvanceStep(s0, m, k);
      case Submit(_) =>
    }
  }

  ghost predicate Runs<S>(m: Machine<S>, es: seq<Event<S>>)
    decreases |es|
  {
    es == [] || (Enabled(m, es[0]) && Runs(Next(m, es[0]), es[1..]))
  }

  ghost function End<S>(m: Machine<S>, es: seq<Event<S>>): Machine<S>
    requires Runs(m, es)
    decreases |es|
  {
    if es == [] then m else End(Next(m, es[0]), es[1..])
  }

  lemma {:induction false} RunKeepsOrder<S>(s0: S, m: Machine<S>, k: nat, es: seq<Event<S>>) returns (k': nat)
    requires Inv(s0, m, k) && Runs(m, es)
    ensures Inv(s0, End(m, es), k') && k <= k'
    decreases |es|
  {
    if es == [] {
      k' := k;
    } else {
      k' := StepKeepsOrder(s0, m, k, es[0]);
      k' := RunKeepsOrder(s0, Next(m, es[0]), k', es[1..]);
    }
  }

  ghost predicate AllSettled<S>(m: Machine<S>) {
    forall i | 0 <= i < |m.calls| :: m.calls[i].phase.Settled?
  }

  /** Whatever the interleaving, once every call has settled the state and every result are
      those of running the calls one at a time in the order they were made. */
  lemma RunIsSerial<S>(s0: S, es: seq<Event<S>>)
    requires Runs(Machine(s0, []), es) && AllSettled(End(Machine(s0, []), es))
    ensures var m, serial := End(Machine(s0, []), es), Serial(s0, End(Machine(s0, []), es).calls);
            && m.s == serial.s && |serial.results| == |m.calls|
            && forall i | 0 <= i < |m.calls| :: m.calls[i].phase == Settled(serial.results[i])
  {
    var k := RunKeepsOrder(s0, Machine(s0, []), 0, es);
    var m := End(Machine(s0, []), es);
    assert m.calls[..k] == m.calls;
  }

  /** At no moment are two operations under way. */
  lemma RunIsExclusive<S>(s0: S, es: seq<Event<S>>, i: nat, j: nat)
    requires Runs(Machine(s0, []), es)
    requires i < |End(Machine(s0, []), es).calls| && End(Machine(s0, []), es).calls[i].phase.Running?
    requires j < |End(Machine(s0, []), es).calls| && End(Machine(s0, []), es).calls[j].phase.Running?
    ensures i == j
  {
    var k := RunKeepsOrder(s0, Machine(s0, []), 0, es);
  }

  // ── Calls that carry out operations of a known effect ─────────────────────

  /** From `s`, the steps do what `f` says of the operation: what becomes of the part of the
      state that `view` picks, and whether the call resolves. */
  ghost predicate Does<S, T, O>(f: (T, O) -> (T, bool), view: S -> T, steps: seq<Step<S>>, op: O, s: S) {
    view(Exec(s, steps, 0).0) == f(view(s), op).0 && Exec(s, steps, 0).1 == f(view(s), op).1
  }

  ghost predicate AllDo<S(!new), T, O>(f: (T, O) -> (T, bool), view: S -> T, calls: seq<Call<S>>, ops: seq<O>) {
    |calls| == |ops| && forall i, s: S | 0 <= i < |ops| :: Does(f, view, calls[i].steps, ops[i], s)
  }

  /** The effects of operations, one after the other. */
  ghost function Folded<T, O>(f: (T, O) -> (T, bool), t: T, ops: seq<O>): T {
    if ops == [] then t else f(Folded(f, t, ops[..|ops| - 1]), ops[|ops| - 1]).0
  }

  ghost predicate Settles<T, O>(f: (T, O) -> (T, bool), t: T, ops: seq<O>, results: seq<bool>) {
    |results| == |ops| && forall i | 0 <= i < |ops| :: results[i] == f(Folded(f, t, ops[..i]), ops[i]).1
  }

  lemma SettlesNext<T, O>(f: (T, O) -> (T, bool), t: T, ops: seq<O>, results: seq<bool>, op: O, ok: bool)
    requires Settles(f, t, ops, results) && ok == f(Folded(f, t, ops), op).1
    ensures Settles(f, t, ops + [op], results + [ok])
  {
    var all := ops + [op];
    forall i | 0 <= i < |all| ensures (results + [ok])[i] == f(Folded(f, t, all[..i]), all[i]).1 {
      assert all[..i] == ops[..i];
      assert ops[..|ops|] == ops;
    }
  }

  lemma {:induction false} SerialFolds<S(!new), T, O>(f: (T, O) -> (T, bool), view: S -> T, s: S, calls: seq<Call<S>>, ops: seq<O>)
    requires AllDo(f, view, calls, ops)
    ensures view(Serial(s, calls).s) == Folded(f, view(s), ops)
    ensures Settles(f, view(s), ops, Serial(s, calls).results)
  {
    if ops != [] {
      var n := |ops| - 1;
      SerialFolds(f, view, s, calls[..n], ops[..n]);
      var before := Serial(s, calls[..n]);
      assert Does(f, view, calls[n].steps, ops[n], before.s);
      SettlesNext(f, view(s), ops[..n], before.results, ops[n], Exec(before.s, calls[n].steps, 0).1);
      assert ops[..n] + [ops[n]] == ops;
    }
  }

  // ── Nothing is blocked ────────────────────────────────────────────────────

  ghost function Left<S>(c: Call<S>): nat {
    (if c.linked then 0 else 1) +
    match c.phase
    case Waiting => |c.steps| + 3
    case Running(pc) => if pc <= |c.steps| then |c.steps| - pc + 2 else 1
    case Settled(_) => 0
  }

  ghost function Work<S>(calls: seq<Call<S>>): nat {
    if calls == [] then 0 else Left(calls[0]) + Work(calls[1..])
  }

  lemma {:induction false} WorkAt<S>(calls: seq<Call<S>>, i: nat, c: Call<S>)
    requires i < |calls|
    ensures Work(calls[i := c]) == Work(calls) - Left(calls[i]) + Left(c)
  {
    var calls' := calls[i := c];
    if i == 0 {
      assert calls'[1..] == calls[1..];
    } else {
      assert calls'[1..] == calls[1..][i - 1 := c];
      WorkAt(calls[1..], i - 1, c);
    }
  }

  /** Every event but a new call brings the end nearer … */
  lemma WorkFalls<S>(m: Machine<S>, e: Event<S>)
    requires Enabled(m, e) && !e.Submit?
    ensures Work(Next(m, e).calls) < Work(m.calls)
  {
    WorkAt(m.calls, e.i, Next(m, e).calls[e.i]);
  }

  /** … and until every call has settled there is one to come, rejected calls or not. */
  lemma NeverBlocked<S>(s0: S, es: seq<Event<S>>) returns (e: Event<S>)
    requires Runs(Machine(s0, []), es) && !AllSettled(End(Machine(s0, []), es))
    ensures !e.Submit? && Enabled(End(Machine(s0, []), es), e)
  {
    var k := RunKeepsOrder(s0, Machine(s0, []), 0, es);
    var m := End(Machine(s0, []), es);
    if m.calls[k].phase.Running? {
      e := Advance(k);
    } else if k == 0 || m.calls[k - 1].linked {
      e := Begin(k);
    } else {
      e := Link(k - 1);
    }
  }
}

/** The controller's operations behind its queue: each cut at its awaits, one step up to the
    answer of each runtime call. */
module PresetsInQueue {
  import opened Wrappers
  import opened PresetModel
  import opened PresetQueue
  import Sequences

  /** The session, and the local variables of the operation under way. */
  datatype Frame = Frame(s: Session, models: seq<string>, previous: Session, failed: Option<Stage>)

  function With(f: Frame, w: Runtime): Frame {
    f.(s := f.s.(w := w))
  }

  function Commit(f: Frame, c: Controller): Frame {
    f.(s := f.s.(c := c))
  }

  function Failing(f: Frame, w: Runtime, ok: bool, stage: Stage): (Frame, Flow) {
    (if ok then With(f, w) else With(f, w).(failed := Some(stage)), Goes)
  }

  // ── Steps ─────────────────────────────────────────────────────────────────

  function Enter(doc: Document, name: string): Step<Frame> {
    (f: Frame) => if name in doc.presets then (Frame(f.s, [], f.s, None), Goes) else (f, Rejects)
  }

  function ResolveRole(selection: Selection): Step<Frame> {
    (f: Frame) =>
      var found := ResolveModel(f.s.w, selection.modelSelector);
      if found.ok && Usable(selection, found.value) then
        (With(f, found.w).(models := f.models + [found.value.value.model]), Goes)
      else (With(f, found.w), Rejects)
  }

  function ReplaceRoles(preset: Preset): Step<Frame> {
    (f: Frame) =>
      var r := OverrideRoles(f.s.w, Some(Selectors(preset)));
      Failing(f.(previous := f.s), r.w, r.ok, Replacing)
  }

  function SelectModel(): Step<Frame> {
    (f: Frame) =>
      if f.failed.Some? || f.models == [] then (f, Goes)
      else
        var r := SetModel(f.s.w, f.models[0]);
        Failing(f, r.w, r.ok, Selecting)
  }

  function SelectThinking(preset: Preset): Step<Frame>
    requires preset.roles != []
  {
    (f: Frame) =>
      if f.failed.Some? then (f, Goes)
      else if preset.roles[0].thinking.None? then Failing(f, f.s.w, false, Thinking)
      else
        var r := SetThinking(f.s.w, preset.roles[0].thinking.value);
        Failing(f, r.w, r.ok, Thinking)
  }

  function AppendPreset(name: string, preset: Preset): Step<Frame> {
    (f: Frame) =>
      if f.failed.Some? then (f, Goes)
      else
        var r := AppendState(f.s.w, Some(name));
        if r.ok then (Commit(With(f, r.w), Controller(Some(name), Some(Selectors(preset)))), Returns)
        else Failing(f, r.w, false, Appending)
  }

  function UndoRoles(): Step<Frame> {
    (f: Frame) => (With(f, OverrideRoles(f.s.w, f.previous.c.activeRoles).w), Goes)
  }

  function UndoModel(): Step<Frame> {
    (f: Frame) => (With(f, SetModel(f.s.w, f.previous.w.model).w), Goes)
  }

  function UndoThinking(): Step<Frame> {
    (f: Frame) => (Commit(With(f, SetThinking(f.s.w, f.previous.w.thinking).w), f.previous.c), Rejects)
  }

  function UnlessNamed(): Step<Frame> {
    (f: Frame) => (f, if Latest(f.s.w.log).Some? then Returns else Goes)
  }

  function ClearForReset(): Step<Frame> {
    (f: Frame) =>
      var r := OverrideRoles(f.s.w, None);
      (With(f, r.w), if r.ok then Goes else Rejects)
  }

  /** On resuming: cleared when `always`, or when the controller knows of an override. */
  function ClearForRestore(always: bool): Step<Frame> {
    (f: Frame) =>
      if !always && f.s.c.activeRoles.None? then (Commit(f, Controller(None, None)), Returns)
      else
        var r := OverrideRoles(f.s.w, None);
        if r.ok then (Commit(With(f, r.w), Controller(None, None)), Returns) else (With(f, r.w), Rejects)
  }

  function AppendNothing(): Step<Frame> {
    (f: Frame) =>
      var r := AppendState(f.s.w, None);
      if r.ok then (Commit(With(f, r.w), Controller(None, None)), Returns) else (With(f, r.w), Rejects)
  }

  /** The session being resumed brings its log. */
  function Resume(entries: seq<Entry>): Step<Frame> {
    (f: Frame) => (With(f, f.s.w.(log := entries)), Goes)
  }

  function TakeRoles(preset: Preset): Step<Frame> {
    (f: Frame) =>
      var r := OverrideRoles(f.s.w, Some(Selectors(preset)));
      (With(f, r.w), if r.ok then Goes else Rejects)
  }

  function TakeName(name: string, stated: string, preset: Preset): Step<Frame> {
    (f: Frame) =>
      var r := if name != stated then AppendState(f.s.w, Some(name)) else Try(f.s.w, true, ());
      if r.ok then (Commit(With(f, r.w), Controller(Some(name), Some(Selectors(preset)))), Returns)
      else (With(f, r.w), Rejects)
  }

  // ── Operations ────────────────────────────────────────────────────────────

  function Resolving(roles: seq<Selection>, rest: seq<Step<Frame>>): seq<Step<Frame>> {
    if roles == [] then rest else [ResolveRole(roles[0])] + Resolving(roles[1..], rest)
  }

  function Undoing(): seq<Step<Frame>> {
    [UndoRoles()] + ([UndoModel()] + ([UndoThinking()] + []))
  }

  function Switching(name: string, preset: Preset, undo: seq<Step<Frame>>): seq<Step<Frame>>
    requires preset.roles != []
  {
    [ReplaceRoles(preset)] + ([SelectModel()] + ([SelectThinking(preset)] + ([AppendPreset(name, preset)] + undo)))
  }

  function ApplySteps(doc: Document, requested: string): seq<Step<Frame>>
    requires Parsed(doc)
  {
    var name := CanonicalName(doc, requested);
    [Enter(doc, name)]
    + if name in doc.presets then Resolving(doc.presets[name].roles, Switching(name, doc.presets[name], Undoing())) else []
  }

  function TakeOverSteps(doc: Document, stated: string): seq<Step<Frame>>
    requires Parsed(doc)
  {
    var name := CanonicalName(doc, stated);
    [Enter(doc, name)]
    + if name in doc.presets then
        Resolving(doc.presets[name].roles, [TakeRoles(doc.presets[name])] + ([TakeName(name, stated, doc.presets[name])] + []))
      else []
  }

  function StepsOf(doc: Document, op: Op): seq<Step<Frame>>
    requires Parsed(doc)
  {
    match op
    case DoApply(name) => ApplySteps(doc, name)
    case DoInitialize => [UnlessNamed()] + ApplySteps(doc, doc.defaultPreset)
    case DoReset => [ClearForReset()] + ([AppendNothing()] + [])
    case DoRestore(entries) => [Resume(entries)] + AfterResume(doc, entries)
  }

  function AfterResume(doc: Document, entries: seq<Entry>): seq<Step<Frame>>
    requires Parsed(doc)
  {
    if Named(entries).None? then [ClearForRestore(Latest(entries).Some?)] + []
    else TakeOverSteps(doc, Named(entries).value)
  }

  // ── What the steps come to ────────────────────────────────────────────────

  lemma {:induction false} ExecBehind<S>(s: S, head: Step<S>, rest: seq<Step<S>>, pc: nat)
    requires pc <= |rest|
    ensures Exec(s, [head] + rest, pc + 1) == Exec(s, rest, pc)
    decreases |rest| - pc
  {
    if pc < |rest| {
      assert ([head] + rest)[pc + 1] == rest[pc];
      ExecBehind(rest[pc](s).0, head, rest, pc + 1);
    }
  }

  lemma ExecCons<S>(s: S, head: Step<S>, rest: seq<Step<S>>)
    ensures Exec(s, [head] + rest, 0) ==
            match head(s).1
            case Goes => Exec(head(s).0, rest, 0)
            case Returns => (head(s).0, true)
            case Rejects => (head(s).0, false)
  {
    assert ([head] + rest)[0] == head;
    ExecBehind(head(s).0, head, rest, 0);
  }

  /** A way to run steps to their end, undisturbed. */
  type Runner = (Frame, seq<Step<Frame>>) -> (Frame, bool)

  ghost predicate TakesFirst(run: Runner, f: Frame, head: Step<Frame>, rest: seq<Step<Frame>>) {
    run(f, [head] + rest) ==
    match head(f).1
    case Goes => run(head(f).0, rest)
    case Returns => (head(f).0, true)
    case Rejects => (head(f).0, false)
  }

  ghost predicate InTurn(run: Runner) {
    forall f, head, rest :: TakesFirst(run, f, head, rest)
  }

  lemma First(run: Runner, f: Frame, head: Step<Frame>, rest: seq<Step<Frame>>)
    requires InTurn(run)
    ensures run(f, [head] + rest) ==
            match head(f).1
            case Goes => run(head(f).0, rest)
            case Returns => (head(f).0, true)
            case Rejects => (head(f).0, false)
  {
    assert TakesFirst(run, f, head, rest);
  }

  /** The steps leave this session and settle like this. */
  ghost predicate Yields(run: Runner, f: Frame, steps: seq<Step<Frame>>, s: Session, ok: bool) {
    run(f, steps).0.s == s && run(f, steps).1 == ok
  }

  lemma ResolveFirst(run: Runner, f: Frame, selection: Selection, rest: seq<Step<Frame>>)
    requires InTurn(run)
    ensures var found := ResolveModel(f.s.w, selection.modelSelector);
            run(f, [ResolveRole(selection)] + rest) ==
            if found.ok && Usable(selection, found.value) then run(With(f, found.w).(models := f.models + [found.value.value.model]), rest)
            else (With(f, found.w), false)
  {
    First(run, f, ResolveRole(selection), rest);
  }

  lemma ValidatedFirst(w: Runtime, roles: seq<Selection>)
    requires roles != []
    ensures var found, v := ResolveModel(w, roles[0].modelSelector), Validated(w, roles);
            if found.ok && Usable(roles[0], found.value) then
              var rest := Validated(found.w, roles[1..]);
              v.w == rest.w && v.ok == rest.ok && v.value == [found.value.value.model] + rest.value
            else !v.ok && v.w == found.w
  {
  }

  /** The steps look up the models of `roles` and go on with `rest`. */
  ghost predicate Resolves(run: Runner, f: Frame, roles: seq<Selection>, steps: seq<Step<Frame>>, rest: seq<Step<Frame>>) {
    var v := Validated(f.s.w, roles);
    if v.ok then run(f, steps) == run(With(f, v.w).(models := f.models + v.value), rest)
    else Yields(run, f, steps, With(f, v.w).s, false)
  }

  function WithModel(f: Frame, found: Try<Option<Resolved>>): Frame
    requires found.value.Some?
  {
    With(f, found.w).(models := f.models + [found.value.value.model])
  }

  lemma ResolvesFirst(run: Runner, f: Frame, roles: seq<Selection>, tail: seq<Step<Frame>>, rest: seq<Step<Frame>>)
    requires InTurn(run) && roles != []
    requires var found := ResolveModel(f.s.w, roles[0].modelSelector);
             found.ok && Usable(roles[0], found.value) ==> Resolves(run, WithModel(f, found), roles[1..], tail, rest)
    ensures Resolves(run, f, roles, [ResolveRole(roles[0])] + tail, rest)
  {
    var found := ResolveModel(f.s.w, roles[0].modelSelector);
    ResolveFirst(run, f, roles[0], tail);
    ValidatedFirst(f.s.w, roles);
    if found.ok && Usable(roles[0], found.value) {
      Sequences.Assoc(f.models, [found.value.value.model], Validated(found.w, roles[1..]).value);
    }
  }

  lemma {:induction false} ResolvingYields(run: Runner, f: Frame, roles: seq<Selection>, rest: seq<Step<Frame>>)
    requires InTurn(run)
    ensures Resolves(run, f, roles, Resolving(roles, rest), rest)
    decreases |roles|
  {
    if roles == [] {
      Sequences.Empty(f.models);
    } else {
      var found := ResolveModel(f.s.w, roles[0].modelSelector);
      if found.ok && Usable(roles[0], found.value) {
        ResolvingYields(run, WithModel(f, found), roles[1..], rest);
      }
      ResolvesFirst(run, f, roles, Resolving(roles[1..], rest), rest);
    }
  }

  lemma UndoingYields(run: Runner, f: Frame)
    requires InTurn(run)
    ensures var back := RollBack(f.s.w, f.previous.c.activeRoles, f.previous.w.model, f.previous.w.thinking);
            Yields(run, f, Undoing(), Session(back.w, f.previous.c), false)
  {
    First(run, f, UndoRoles(), [UndoModel()] + ([UndoThinking()] + []));
    var g := UndoRoles()(f).0;
    First(run, g, UndoModel(), [UndoThinking()] + []);
    First(run, UndoModel()(g).0, UndoThinking(), []);
  }

  /** From a frame without a failure, the steps do what is left of the switch: they end the
      operation with the preset active, or pass on to the rollback `undo`. From a frame with a
      failure they do nothing but pass on. */
  ghost predicate Leads(run: Runner, f: Frame, steps: seq<Step<Frame>>, undo: seq<Step<Frame>>, forward: Forward, name: string, preset: Preset) {
    if f.failed.Some? then run(f, steps) == run(f, undo)
    else if forward.failed.None? then Yields(run, f, steps, Session(forward.w, Controller(Some(name), Some(Selectors(preset)))), true)
    else run(f, steps) == run(With(f, forward.w).(failed := forward.failed), undo)
  }

  function AppendedPart(w: Runtime, name: string): Forward {
    var appended := AppendState(w, Some(name));
    Forward(appended.w, if appended.ok then None else Some(Appending))
  }

  function ThinkingPart(w: Runtime, name: string, preset: Preset): Forward
    requires preset.roles != []
  {
    if preset.roles[0].thinking.None? then Forward(w, Some(Thinking))
    else
      var thought := SetThinking(w, preset.roles[0].thinking.value);
      if !thought.ok then Forward(thought.w, Some(Thinking)) else AppendedPart(thought.w, name)
  }

  function ModelPart(w: Runtime, name: string, preset: Preset, model: string): Forward
    requires preset.roles != []
  {
    var selected := SetModel(w, model);
    if !selected.ok then Forward(selected.w, Some(Selecting)) else ThinkingPart(selected.w, name, preset)
  }

  lemma AppendLeads(run: Runner, f: Frame, undo: seq<Step<Frame>>, name: string, preset: Preset)
    requires InTurn(run)
    ensures Leads(run, f, [AppendPreset(name, preset)] + undo, undo, AppendedPart(f.s.w, name), name, preset)
  {
    First(run, f, AppendPreset(name, preset), undo);
  }

  lemma ThinkingLeads(run: Runner, f: Frame, rest: seq<Step<Frame>>, undo: seq<Step<Frame>>, name: string, preset: Preset)
    requires InTurn(run) && preset.roles != []
    requires var g := SelectThinking(preset)(f).0; Leads(run, g, rest, undo, AppendedPart(g.s.w, name), name, preset)
    ensures Leads(run, f, [SelectThinking(preset)] + rest, undo, ThinkingPart(f.s.w, name, preset), name, preset)
  {
    First(run, f, SelectThinking(preset), rest);
  }

  lemma ModelLeads(run: Runner, f: Frame, rest: seq<Step<Frame>>, undo: seq<Step<Frame>>, name: string, preset: Preset)
    requires InTurn(run) && preset.roles != [] && f.models != []
    requires var g := SelectModel()(f).0; Leads(run, g, rest, undo, ThinkingPart(g.s.w, name, preset), name, preset)
    ensures Leads(run, f, [SelectModel()] + rest, undo, ModelPart(f.s.w, name, preset, f.models[0]), name, preset)
  {
    First(run, f, SelectModel(), rest);
  }

  /** The old values are noted where the switch begins. */
  lemma ReplaceLeads(run: Runner, f: Frame, rest: seq<Step<Frame>>, undo: seq<Step<Frame>>, name: string, preset: Preset)
    requires InTurn(run) && preset.roles != [] && f.models != [] && f.failed.None? && f.previous == f.s
    requires var g := ReplaceRoles(preset)(f).0; Leads(run, g, rest, undo, ModelPart(g.s.w, name, preset, f.models[0]), name, preset)
    ensures Leads(run, f, [ReplaceRoles(preset)] + rest, undo, Applied(f.s.w, name, preset, f.models[0]), name, preset)
  {
    First(run, f, ReplaceRoles(preset), rest);
    AppliedInParts(f.s.w, name, preset, f.models[0]);
  }

  lemma AppliedInParts(w: Runtime, name: string, preset: Preset, model: string)
    requires preset.roles != []
    ensures var replaced := OverrideRoles(w, Some(Selectors(preset)));
            Applied(w, name, preset, model) == if replaced.ok then ModelPart(replaced.w, name, preset, model) else Forward(replaced.w, Some(Replacing))
  {
  }

  lemma SwitchingLeads(run: Runner, f: Frame, undo: seq<Step<Frame>>, name: string, preset: Preset)
    requires InTurn(run) && preset.roles != [] && f.models != [] && f.failed.None? && f.previous == f.s
    ensures Leads(run, f, Switching(name, preset, undo), undo, Applied(f.s.w, name, preset, f.models[0]), name, preset)
  {
    var g := ReplaceRoles(preset)(f).0;
    var h := SelectModel()(g).0;
    var fromAppend := [AppendPreset(name, preset)] + undo;
    var fromThinking := [SelectThinking(preset)] + fromAppend;
    AppendLeads(run, SelectThinking(preset)(h).0, undo, name, preset);
    ThinkingLeads(run, h, fromAppend, undo, name, preset);
    ModelLeads(run, g, fromThinking, undo, name, preset);
    ReplaceLeads(run, f, [SelectModel()] + fromThinking, undo, name, preset);
  }

  lemma SwitchingNotes(run: Runner, f: Frame, name: string, preset: Preset, undo: seq<Step<Frame>>)
    requires InTurn(run) && preset.roles != []
    ensures run(f, Switching(name, preset, undo)) == run(f.(previous := f.s), Switching(name, preset, undo))
  {
    var rest := [SelectModel()] + ([SelectThinking(preset)] + ([AppendPreset(name, preset)] + undo));
    First(run, f, ReplaceRoles(preset), rest);
    First(run, f.(previous := f.s), ReplaceRoles(preset), rest);
  }

  lemma SwitchingYields(run: Runner, f: Frame, name: string, preset: Preset)
    requires InTurn(run) && preset.roles != [] && f.models != [] && f.failed.None?
    ensures var forward := Applied(f.s.w, name, preset, f.models[0]);
            if forward.failed.None? then
              Yields(run, f, Switching(name, preset, Undoing()), Session(forward.w, Controller(Some(name), Some(Selectors(preset)))), true)
            else
              Yields(run, f, Switching(name, preset, Undoing()),
                     Session(RollBack(forward.w, f.s.c.activeRoles, f.s.w.model, f.s.w.thinking).w, f.s.c), false)
  {
    var g := f.(previous := f.s);
    SwitchingNotes(run, f, name, preset, Undoing());
    SwitchingLeads(run, g, Undoing(), name, preset);
    var forward := Applied(f.s.w, name, preset, f.models[0]);
    UndoingYields(run, With(g, forward.w).(failed := forward.failed));
  }

  lemma ApplyAfterValidation(doc: Document, s: Session, requested: string)
    requires Parsed(doc) && CanonicalName(doc, requested) in doc.presets
    ensures var name := CanonicalName(doc, requested);
            var preset, v, r := doc.presets[name], Validated(s.w, doc.presets[name].roles), Apply(doc, s, requested);
            if !v.ok then r.s == s.(w := v.w) && !r.outcome.Completed?
            else
              && v.value != [] && v.w.model == s.w.model && v.w.thinking == s.w.thinking
              && var forward := Applied(v.w, name, preset, v.value[0]);
                 && r.outcome.Completed? == forward.failed.None?
                 && r.s == if forward.failed.None? then Session(forward.w, Controller(Some(name), Some(Selectors(preset))))
                           else Session(RollBack(forward.w, s.c.activeRoles, v.w.model, v.w.thinking).w, s.c)
  {
    ValidatedKeeps(s.w, doc.presets[CanonicalName(doc, requested)].roles);
  }

  lemma ApplyYields(run: Runner, doc: Document, f: Frame, requested: string)
    requires InTurn(run) && Parsed(doc)
    ensures var r := Apply(doc, f.s, requested); Yields(run, f, ApplySteps(doc, requested), r.s, r.outcome.Completed?)
  {
    var name := CanonicalName(doc, requested);
    if name in doc.presets {
      var preset, g := doc.presets[name], Frame(f.s, [], f.s, None);
      First(run, f, Enter(doc, name), Resolving(preset.roles, Switching(name, preset, Undoing())));
      ResolvingYields(run, g, preset.roles, Switching(name, preset, Undoing()));
      ApplyAfterValidation(doc, f.s, requested);
      var v := Validated(f.s.w, preset.roles);
      if v.ok {
        SwitchingYields(run, With(g, v.w).(models := [] + v.value), name, preset);
      }
    } else {
      First(run, f, Enter(doc, name), []);
    }
  }

  lemma TakeOverYields(run: Runner, doc: Document, f: Frame, stated: string)
    requires InTurn(run) && Parsed(doc)
    ensures var r := RestorePreset(doc, f.s, stated); Yields(run, f, TakeOverSteps(doc, stated), r.s, r.outcome.Completed?)
  {
    var name := CanonicalName(doc, stated);
    if name in doc.presets {
      var preset, g := doc.presets[name], Frame(f.s, [], f.s, None);
      var last := [TakeName(name, stated, preset)] + [];
      First(run, f, Enter(doc, name), Resolving(preset.roles, [TakeRoles(preset)] + last));
      ResolvingYields(run, g, preset.roles, [TakeRoles(preset)] + last);
      var v := Validated(f.s.w, preset.roles);
      if v.ok {
        var h := With(g, v.w).(models := [] + v.value);
        First(run, h, TakeRoles(preset), last);
        First(run, TakeRoles(preset)(h).0, TakeName(name, stated, preset), []);
      }
    } else {
      First(run, f, Enter(doc, name), []);
    }
  }

  lemma ClearYields(run: Runner, f: Frame, always: bool)
    requires InTurn(run)
    ensures var cleared := OverrideRoles(f.s.w, None);
            if !always && f.s.c.activeRoles.None? then Yields(run, f, [ClearForRestore(always)] + [], Session(f.s.w, Controller(None, None)), true)
            else if cleared.ok then Yields(run, f, [ClearForRestore(always)] + [], Session(cleared.w, Controller(None, None)), true)
            else Yields(run, f, [ClearForRestore(always)] + [], Session(cleared.w, f.s.c), false)
  {
    First(run, f, ClearForRestore(always), []);
  }

  lemma ResumeFirst(run: Runner, f: Frame, entries: seq<Entry>, rest: seq<Step<Frame>>)
    requires InTurn(run)
    ensures run(f, [Resume(entries)] + rest) == run(With(f, f.s.w.(log := entries)), rest)
  {
    First(run, f, Resume(entries), rest);
  }

  lemma ResumedYields(run: Runner, doc: Document, f: Frame, entries: seq<Entry>)
    requires InTurn(run) && Parsed(doc)
    ensures var r := Restore(doc, f.s, entries); Yields(run, f, AfterResume(doc, entries), r.s, r.outcome.Completed?)
  {
    if Named(entries).None? {
      ClearYields(run, f, Latest(entries).Some?);
    } else {
      TakeOverYields(run, doc, f, Named(entries).value);
    }
  }

  lemma RestoreYields(run: Runner, doc: Document, f: Frame, entries: seq<Entry>)
    requires InTurn(run) && Parsed(doc)
    ensures var r := Perform(doc, f.s, DoRestore(entries)); Yields(run, f, StepsOf(doc, DoRestore(entries)), r.s, r.outcome.Completed?)
  {
    ResumeFirst(run, f, entries, AfterResume(doc, entries));
    ResumedYields(run, doc, With(f, f.s.w.(log := entries)), entries);
  }

  lemma ResetYields(run: Runner, doc: Document, f: Frame)
    requires InTurn(run) && Parsed(doc)
    ensures Yields(run, f, StepsOf(doc, DoReset), Reset(f.s).s, Reset(f.s).outcome.Completed?)
  {
    var cleared := OverrideRoles(f.s.w, None);
    First(run, f, ClearForReset(), [AppendNothing()] + []);
    if cleared.ok {
      First(run, With(f, cleared.w), AppendNothing(), []);
    }
  }

  lemma UnlessNamedFirst(run: Runner, f: Frame, rest: seq<Step<Frame>>)
    requires InTurn(run)
    ensures run(f, [UnlessNamed()] + rest) == if Latest(f.s.w.log).Some? then (f, true) else run(f, rest)
  {
    First(run, f, UnlessNamed(), rest);
  }

  lemma InitializeYields(run: Runner, doc: Document, f: Frame)
    requires InTurn(run) && Parsed(doc)
    ensures var r := Initialize(doc, f.s, f.s.w.log);
            Yields(run, f, [UnlessNamed()] + ApplySteps(doc, doc.defaultPreset), r.s, r.outcome.Completed?)
  {
    UnlessNamedFirst(run, f, ApplySteps(doc, doc.defaultPreset));
    ApplyYields(run, doc, f, doc.defaultPreset);
  }

  ghost predicate YieldsOp(run: Runner, doc: Document, f: Frame, op: Op)
    requires Parsed(doc)
  {
    Yields(run, f, StepsOf(doc, op), Perform(doc, f.s, op).s, Perform(doc, f.s, op).outcome.Completed?)
  }

  lemma OpYields(run: Runner, doc: Document, f: Frame, op: Op)
    requires InTurn(run) && Parsed(doc)
    ensures YieldsOp(run, doc, f, op)
  {
    if op.DoApply? {
      ApplyYields(run, doc, f, op.name);
    } else if op.DoInitialize? {
      InitializeYields(run, doc, f);
    } else if op.DoReset? {
      ResetYields(run, doc, f);
    } else {
      RestoreYields(run, doc, f, op.entries);
    }
  }

  /** Undisturbed, the awaited steps of an operation leave what the operation leaves, and its
      promise resolves exactly when the operation completes. */
  lemma StepsPerform(doc: Document, f: Frame, op: Op)
    requires Parsed(doc)
    ensures Exec(f, StepsOf(doc, op), 0).0.s == Perform(doc, f.s, op).s
    ensures Exec(f, StepsOf(doc, op), 0).1 == Perform(doc, f.s, op).outcome.Completed?
  {
    var run: Runner := (g, steps) => Exec(g, steps, 0);
    forall g, head, rest ensures TakesFirst(run, g, head, rest) {
      ExecCons(g, head, rest);
    }
    OpYields(run, doc, f, op);
  }

  // ── Concurrent calls ──────────────────────────────────────────────────────

  /** What an operation makes of a session, and whether it completes. */
  type Effect = (Session, Op) -> (Session, bool)

  lemma {:induction false} PerformedLast(doc: Document, s: Session, ops: seq<Op>, op: Op)
    requires Parsed(doc)
    ensures Performed(doc, s, ops + [op]) == Perform(doc, Performed(doc, s, ops), op).s
    decreases |ops|
  {
    if ops == [] {
      assert [] + [op] == [op] && [op][1..] == [];
    } else {
      assert (ops + [op])[1..] == ops[1..] + [op];
      PerformedLast(doc, Perform(doc, s, ops[0]).s, ops[1..], op);
    }
  }

  ghost predicate IsEffect(doc: Document, effect: Effect)
    requires Parsed(doc)
  {
    forall s, op :: effect(s, op) == (Perform(doc, s, op).s, Perform(doc, s, op).outcome.Completed?)
  }

  lemma {:induction false} FoldedIsPerformed(doc: Document, effect: Effect, s: Session, ops: seq<Op>)
    requires Parsed(doc) && IsEffect(doc, effect)
    ensures Folded(effect, s, ops) == Performed(doc, s, ops)
  {
    if ops != [] {
      var n := |ops| - 1;
      FoldedIsPerformed(doc, effect, s, ops[..n]);
      assert ops == ops[..n] + [ops[n]];
      PerformedLast(doc, s, ops[..n], ops[n]);
    }
  }

  /** The calls of `ops`, in the order they were made. */
  ghost predicate CallsOf(doc: Document, calls: seq<Call<Frame>>, ops: seq<Op>)
    requires Parsed(doc)
  {
    |calls| == |ops| && forall i | 0 <= i < |ops| :: calls[i].steps == StepsOf(doc, ops[i])
  }

  function View(): Frame -> Session {
    (f: Frame) => f.s
  }

  lemma CallsDo(doc: Document, effect: Effect, calls: seq<Call<Frame>>, ops: seq<Op>)
    requires Parsed(doc) && IsEffect(doc, effect) && CallsOf(doc, calls, ops)
    ensures AllDo(effect, View(), calls, ops)
  {
    forall i, f: Frame | 0 <= i < |ops| ensures Does(effect, View(), calls[i].steps, ops[i], f) {
      StepsPerform(doc, f, ops[i]);
    }
  }

  /** Whether the operation after `n` others completes. */
  function CompletesAt(doc: Document, s: Session, ops: seq<Op>, n: nat): bool
    requires Parsed(doc) && n < |ops|
  {
    Perform(doc, Performed(doc, s, ops[..n]), ops[n]).outcome.Completed?
  }

  lemma EffectCompletes(doc: Document, effect: Effect, s: Session, ops: seq<Op>, n: nat)
    requires Parsed(doc) && IsEffect(doc, effect) && n < |ops|
    ensures effect(Folded(effect, s, ops[..n]), ops[n]).1 == CompletesAt(doc, s, ops, n)
  {
    FoldedIsPerformed(doc, effect, s, ops[..n]);
  }

  lemma SerialPerforms(doc: Document, effect: Effect, f: Frame, calls: seq<Call<Frame>>, ops: seq<Op>)
    requires Parsed(doc) && IsEffect(doc, effect) && CallsOf(doc, calls, ops)
    ensures Serial(f, calls).s.s == Performed(doc, f.s, ops) && |Serial(f, calls).results| == |ops|
    ensures forall i | 0 <= i < |ops| :: Serial(f, calls).results[i] == CompletesAt(doc, f.s, ops, i)
  {
    CallsDo(doc, effect, calls, ops);
    SerialFolds(effect, View(), f, calls, ops);
    FoldedIsPerformed(doc, effect, f.s, ops);
    forall i | 0 <= i < |ops| ensures Serial(f, calls).results[i] == CompletesAt(doc, f.s, ops, i) {
      EffectCompletes(doc, effect, f.s, ops, i);
    }
  }

  /** Concurrent preset operations, however their steps interleave, leave the session that
      performing them in call order leaves, and so keep it in step on the same terms; each call
      resolves exactly when its operation completes there. */
  lemma ConcurrentOpsPerform(doc: Document, f: Frame, es: seq<Event<Frame>>, ops: seq<Op>)
    requires Parsed(doc)
    requires Runs(Machine(f, []), es) && AllSettled(End(Machine(f, []), es))
    requires CallsOf(doc, End(Machine(f, []), es).calls, ops)
    ensures var m := End(Machine(f, []), es);
            && m.s.s == Performed(doc, f.s, ops)
            && (forall i | 0 <= i < |ops| :: m.calls[i].phase == Settled(CompletesAt(doc, f.s, ops, i)))
            && (InStep(doc, f.s) && NoneDerails(doc, f.s, ops) ==> InStep(doc, m.s.s))
  {
    RunIsSerial(f, es);
    SerialPerforms(doc, (s, op) => (Perform(doc, s, op).s, Perform(doc, s, op).outcome.Completed?), f, End(Machine(f, []), es).calls, ops);
    if InStep(doc, f.s) && NoneDerails(doc, f.s, ops) {
      RunInStep(doc, f.s, ops);
    }
  }
}
