/** clients/devbox/src/omp-model-presets/core.ts: the preset controller.

    The runtime it drives can fail at every call. A script of answers, consumed one per call,
    stands for those failures: a statement for all scripts is one for every way to fail. A
    call that throws has changed nothing. */
module PresetModel {
  import opened Wrappers

  const STATE_TYPE := "omp-model-presets/state"
  const STATE_VERSION := 1

  // ── The document ──────────────────────────────────────────────────────────

  datatype Selection = Selection(selector: string, modelSelector: string, thinking: Option<string>)

  /** The roles in their fixed order; the first is `default`. */
  datatype Preset = Preset(roles: seq<Selection>)

  type Roles = seq<string>

  function Selectors(p: Preset): Roles {
    seq(|p.roles|, i requires 0 <= i < |p.roles| => p.roles[i].selector)
  }

  datatype Document = Document(defaultPreset: string, presets: map<string, Preset>, aliases: map<string, string>)

  /** What `parsePresetDocument` accepts. */
  predicate Parsed(doc: Document) {
    && doc.defaultPreset in doc.presets
    && (forall n | n in doc.presets :: doc.presets[n].roles != [])
    && (forall a | a in doc.aliases :: a !in doc.presets && doc.aliases[a] in doc.presets)
  }

  function CanonicalName(doc: Document, name: string): string {
    if name in doc.aliases then doc.aliases[name] else name
  }

  // ── The session log ───────────────────────────────────────────────────────

  datatype Data = State(version: int, preset: Option<string>) | Junk

  datatype Entry = Entry(customType: string, data: Data)

  predicate IsState(e: Entry) {
    e.customType == STATE_TYPE && e.data.State? && e.data.version == STATE_VERSION
  }

  /** The newest valid entry. */
  function Latest(log: seq<Entry>): Option<Data> {
    if log == [] then None
    else if IsState(log[|log| - 1]) then Some(log[|log| - 1].data)
    else Latest(log[..|log| - 1])
  }

  method LatestPresetState(entries: seq<Entry>) returns (r: Option<Data>)
    ensures r == Latest(entries)
    ensures r.None? ==> forall e | e in entries :: !IsState(e)
    ensures r.Some? ==> exists i | 0 <= i < |entries| :: IsState(entries[i]) && r.value == entries[i].data &&
                          forall j | i < j < |entries| :: !IsState(entries[j])
  {
    var index := |entries|;
    assert entries[..index] == entries;
    while index > 0
      invariant 0 <= index <= |entries|
      invariant Latest(entries) == Latest(entries[..index])
      invariant forall j | index <= j < |entries| :: !IsState(entries[j])
    {
      index := index - 1;
      assert entries[..index + 1][..index] == entries[..index];
      if IsState(entries[index]) { return Some(entries[index].data); }
    }
    return None;
  }

  /** The preset a log names; one without a valid entry names none. */
  function Named(log: seq<Entry>): Option<string> {
    if Latest(log).Some? && Latest(log).value.State? then Latest(log).value.preset else None
  }

  function StateEntry(preset: Option<string>): Entry {
    Entry(STATE_TYPE, State(STATE_VERSION, preset))
  }

  lemma AppendNames(log: seq<Entry>, preset: Option<string>)
    ensures Named(log + [StateEntry(preset)]) == preset
  {
  }

  /** A new entry is the newest state exactly when it has the type and the version of one; what
      else is written into the log changes nothing. */
  lemma LatestAfter(log: seq<Entry>, e: Entry)
    ensures Latest(log + [e]) ==
            if e.customType == "omp-model-presets/state" && e.data.State? && e.data.version == 1 then Some(e.data) else Latest(log)
  {
    assert (log + [e])[..|log|] == log;
  }

  // ── The runtime ───────────────────────────────────────────────────────────

  datatype Resolved = Resolved(model: string, supportedThinking: Option<seq<string>>)

  /** `Found`: the models there are at that moment, by selector. */
  datatype Answer = Fine | Found(models: map<string, Resolved>) | Refuses | Throws

  function Model(a: Answer, selector: string): Option<Resolved> {
    if a.Found? && selector in a.models then Some(a.models[selector]) else None
  }

  datatype Runtime = Runtime(override: Option<Roles>, model: string, thinking: string, log: seq<Entry>, script: seq<Answer>)

  function Answered(w: Runtime): Answer {
    if w.script == [] then Fine else w.script[0]
  }

  function Called(w: Runtime): Runtime {
    w.(script := if w.script == [] then [] else w.script[1..])
  }

  datatype Try<T> = Try(w: Runtime, ok: bool, value: T)

  function OverrideRoles(w: Runtime, roles: Option<Roles>): (r: Try<()>)
  {
    if Answered(w).Throws? then Try(Called(w), false, ()) else Try(Called(w).(override := roles), true, ())
  }

  /** Counts as failed when it throws and when it answers `false`. */
  function SetModel(w: Runtime, model: string): Try<()> {
    if Answered(w).Throws? || Answered(w).Refuses? then Try(Called(w), false, ()) else Try(Called(w).(model := model), true, ())
  }

  function SetThinking(w: Runtime, level: string): Try<()> {
    if Answered(w).Throws? then Try(Called(w), false, ()) else Try(Called(w).(thinking := level), true, ())
  }

  function AppendState(w: Runtime, preset: Option<string>): Try<()> {
    if Answered(w).Throws? then Try(Called(w), false, ())
    else Try(Called(w).(log := w.log + [StateEntry(preset)]), true, ())
  }

  function ResolveModel(w: Runtime, selector: string): Try<Option<Resolved>> {
    if Answered(w).Throws? then Try(Called(w), false, None)
    else Try(Called(w), true, Model(Answered(w), selector))
  }

  // ── The operations, as functions ──────────────────────────────────────────

  datatype Controller = Controller(activePreset: Option<string>, activeRoles: Option<Roles>)

  datatype Session = Session(w: Runtime, c: Controller)

  /** Where an operation gave up. */
  datatype Stage = Validating | Clearing | Replacing | Selecting | Thinking | Appending

  /** Which rollback calls succeeded. */
  datatype Undone = Undone(roles: bool, model: bool, thinking: bool)

  datatype Outcome = Completed(value: bool) | Failed(stage: Stage) | RolledBack(stage: Stage, undone: Undone)

  datatype Result = Result(s: Session, outcome: Outcome)

  predicate Usable(selection: Selection, r: Option<Resolved>) {
    && r.Some?
    && (selection.thinking.Some? && r.value.supportedThinking.Some? ==> selection.thinking.value in r.value.supportedThinking.value)
  }

  /** `validated`: the models for all roles, the first in place of `models.default`. */
  function Validated(w: Runtime, roles: seq<Selection>): Try<seq<string>>
    decreases |roles|
  {
    if roles == [] then Try(w, true, [])
    else
      var found := ResolveModel(w, roles[0].modelSelector);
      if !found.ok || !Usable(roles[0], found.value) then Try(found.w, false, [])
      else
        var rest := Validated(found.w, roles[1..]);
        Try(rest.w, rest.ok, [found.value.value.model] + rest.value)
  }

  lemma {:induction false} ValidatedKeeps(w: Runtime, roles: seq<Selection>)
    ensures Validated(w, roles).w == w.(script := Validated(w, roles).w.script)
    ensures Validated(w, roles).ok ==> |Validated(w, roles).value| == |roles|
    decreases |roles|
  {
    if roles != [] {
      ValidatedKeeps(Called(w), roles[1..]);
    }
  }

  datatype Forward = Forward(w: Runtime, failed: Option<Stage>)

  /** The calls of `apply` up to the first that fails. */
  function Applied(w: Runtime, name: string, preset: Preset, model: string): Forward
    requires preset.roles != []
  {
    var replaced := OverrideRoles(w, Some(Selectors(preset)));
    if !replaced.ok then Forward(replaced.w, Some(Replacing))
    else
      var selected := SetModel(replaced.w, model);
      if !selected.ok then Forward(selected.w, Some(Selecting))
      else if preset.roles[0].thinking.None? then Forward(selected.w, Some(Thinking))
      else
        var thought := SetThinking(selected.w, preset.roles[0].thinking.value);
        if !thought.ok then Forward(thought.w, Some(Thinking))
        else
          var appended := AppendState(thought.w, Some(name));
          Forward(appended.w, if appended.ok then None else Some(Appending))
  }

  /** The rollback: all three calls, whatever becomes of each. */
  function RollBack(w: Runtime, roles: Option<Roles>, model: string, thinking: string): Try<Undone> {
    var r := OverrideRoles(w, roles);
    var m := SetModel(r.w, model);
    var t := SetThinking(m.w, thinking);
    Try(t.w, r.ok && m.ok && t.ok, Undone(r.ok, m.ok, t.ok))
  }

  function Apply(doc: Document, s: Session, requested: string): Result
    requires Parsed(doc)
  {
    var name := CanonicalName(doc, requested);
    if name !in doc.presets then Result(s, Failed(Validating))
    else
      var preset := doc.presets[name];
      var v := Validated(s.w, preset.roles);
      ValidatedKeeps(s.w, preset.roles);
      if !v.ok then Result(s.(w := v.w), Failed(Validating))
      else
        var forward := Applied(v.w, name, preset, v.value[0]);
        if forward.failed.None? then
          Result(Session(forward.w, Controller(Some(name), Some(Selectors(preset)))), Completed(true))
        else
          var back := RollBack(forward.w, s.c.activeRoles, v.w.model, v.w.thinking);
          Result(s.(w := back.w), RolledBack(forward.failed.value, back.value))
  }

  function Reset(s: Session): Result {
    var cleared := OverrideRoles(s.w, None);
    if !cleared.ok then Result(s.(w := cleared.w), Failed(Clearing))
    else
      var appended := AppendState(cleared.w, None);
      if !appended.ok then Result(s.(w := appended.w), Failed(Appending))
      else Result(Session(appended.w, Controller(None, None)), Completed(true))
  }

  function Initialize(doc: Document, s: Session, entries: seq<Entry>): Result
    requires Parsed(doc)
  {
    if Latest(entries).Some? then Result(s, Completed(false)) else Apply(doc, s, doc.defaultPreset)
  }

  function Restore(doc: Document, s: Session, entries: seq<Entry>): Result
    requires Parsed(doc)
  {
    var state := Latest(entries);
    if state.None? then
      if s.c.activeRoles.None? then Result(s.(c := Controller(None, None)), Completed(false))
      else
        var cleared := OverrideRoles(s.w, None);
        if !cleared.ok then Result(s.(w := cleared.w), Failed(Clearing))
        else Result(Session(cleared.w, Controller(None, None)), Completed(false))
    else if Named(entries).None? then
      var cleared := OverrideRoles(s.w, None);
      if !cleared.ok then Result(s.(w := cleared.w), Failed(Clearing))
      else Result(Session(cleared.w, Controller(None, None)), Completed(true))
    else RestorePreset(doc, s, Named(entries).value)
  }

  function RestorePreset(doc: Document, s: Session, stated: string): Result
    requires Parsed(doc)
  {
    var name := CanonicalName(doc, stated);
    if name !in doc.presets then Result(s, Failed(Validating))
    else
      var preset := doc.presets[name];
      var v := Validated(s.w, preset.roles);
      if !v.ok then Result(s.(w := v.w), Failed(Validating))
      else
        var replaced := OverrideRoles(v.w, Some(Selectors(preset)));
        if !replaced.ok then Result(s.(w := replaced.w), Failed(Replacing))
        else
          var appended := if name != stated then AppendState(replaced.w, Some(name)) else Try(replaced.w, true, ());
          if !appended.ok then Result(s.(w := appended.w), Failed(Appending))
          else Result(Session(appended.w, Controller(Some(name), Some(Selectors(preset)))), Completed(true))
  }

  // ── In step ───────────────────────────────────────────────────────────────

  /** The controller's idea of the preset is the document's. */
  predicate Coherent(doc: Document, c: Controller) {
    match c.activePreset
    case None => c.activeRoles.None?
    case Some(n) => n in doc.presets && c.activeRoles == Some(Selectors(doc.presets[n]))
  }

  /** Controller, runtime and log agree. */
  predicate InStep(doc: Document, s: Session) {
    && Coherent(doc, s.c)
    && s.c.activeRoles == s.w.override
    && Named(s.w.log) == s.c.activePreset
  }

  /** Everything but the answers still to come. */
  predicate SameState(a: Session, b: Session) {
    a.c == b.c && a.w.(script := []) == b.w.(script := [])
  }

  /** Past the call that replaces the roles. */
  predicate RolesReplaced(stage: Stage) {
    stage.Selecting? || stage.Thinking? || stage.Appending?
  }

  predicate ModelSelected(stage: Stage) {
    stage.Thinking? || stage.Appending?
  }

  /** What `apply` leaves behind when it fails part of the way. */
  lemma AppliedPartly(w: Runtime, name: string, preset: Preset, model: string)
    requires preset.roles != [] && Applied(w, name, preset, model).failed.Some?
    ensures var stage, w' := Applied(w, name, preset, model).failed.value, Applied(w, name, preset, model).w;
            && w'.override == (if RolesReplaced(stage) then Some(Selectors(preset)) else w.override)
            && w'.model == (if ModelSelected(stage) then model else w.model)
            && w'.thinking == (if stage.Appending? then preset.roles[0].thinking.value else w.thinking)
            && w'.log == w.log
  {
  }

  lemma RollBackDoes(w: Runtime, roles: Option<Roles>, model: string, thinking: string)
    ensures var back := RollBack(w, roles, model, thinking);
            && back.w.override == (if back.value.roles then roles else w.override)
            && back.w.model == (if back.value.model then model else w.model)
            && back.w.thinking == (if back.value.thinking then thinking else w.thinking)
            && back.w.log == w.log
  {
  }

  /** The model `apply` found for the default role. */
  function DefaultModel(s: Session, preset: Preset): string {
    var v := Validated(s.w, preset.roles);
    if v.value == [] then "" else v.value[0]
  }

  /** The runtime after a failed `apply`. */
  predicate LeftBehind(before: Runtime, after: Runtime, roles: Option<Roles>, preset: Preset, model: string, stage: Stage, undone: Undone)
    requires preset.roles != [] && (stage.Appending? ==> preset.roles[0].thinking.Some?)
  {
    && after.override == (if undone.roles then roles else if RolesReplaced(stage) then Some(Selectors(preset)) else before.override)
    && after.model == (if undone.model || !ModelSelected(stage) then before.model else model)
    && after.thinking == (if undone.thinking || !stage.Appending? then before.thinking else preset.roles[0].thinking.value)
    && after.log == before.log
  }

  lemma RolledBackLeaves(doc: Document, s: Session, requested: string)
    requires Parsed(doc) && Apply(doc, s, requested).outcome.RolledBack?
    ensures var r, name := Apply(doc, s, requested), CanonicalName(doc, requested);
            && name in doc.presets && r.s.c == s.c
            && (r.outcome.stage.Appending? ==> doc.presets[name].roles[0].thinking.Some?)
            && LeftBehind(s.w, r.s.w, s.c.activeRoles, doc.presets[name], DefaultModel(s, doc.presets[name]), r.outcome.stage, r.outcome.undone)
  {
    var name := CanonicalName(doc, requested);
    var preset := doc.presets[name];
    ValidatedKeeps(s.w, preset.roles);
    var v := Validated(s.w, preset.roles);
    var forward := Applied(v.w, name, preset, v.value[0]);
    AppliedPartly(v.w, name, preset, v.value[0]);
    RollBackDoes(forward.w, s.c.activeRoles, v.w.model, v.w.thinking);
  }

  /** A failed rollback call had nothing to undo. */
  predicate NothingMissed(s: Session, preset: Preset, model: string, stage: Stage, undone: Undone)
    requires preset.roles != []
  {
    && (undone.roles || !RolesReplaced(stage) || s.w.override == Some(Selectors(preset)))
    && (undone.model || !ModelSelected(stage) || s.w.model == model)
    && (undone.thinking || !stage.Appending? || Some(s.w.thinking) == preset.roles[0].thinking)
  }

  lemma UnvalidatedLeaves(doc: Document, s: Session, requested: string)
    requires Parsed(doc) && Apply(doc, s, requested).outcome.Failed?
    ensures SameState(Apply(doc, s, requested).s, s)
  {
    var name := CanonicalName(doc, requested);
    if name in doc.presets {
      ValidatedKeeps(s.w, doc.presets[name].roles);
    }
  }

  lemma AppliedLeaves(doc: Document, s: Session, requested: string)
    requires Parsed(doc) && Apply(doc, s, requested).outcome.Completed?
    ensures var r, name := Apply(doc, s, requested), CanonicalName(doc, requested);
            && name in doc.presets
            && r.s.c == Controller(Some(name), Some(Selectors(doc.presets[name])))
            && r.s.w.override == r.s.c.activeRoles && r.s.w.log == s.w.log + [StateEntry(Some(name))]
  {
    var name := CanonicalName(doc, requested);
    var preset := doc.presets[name];
    ValidatedKeeps(s.w, preset.roles);
  }

  /** A failed `apply` has changed nothing at all (roles, model, thinking, log, controller)
      exactly when no failed rollback call had something to undo. */
  lemma FailedApplyRestores(doc: Document, s: Session, requested: string)
    requires Parsed(doc) && s.c.activeRoles == s.w.override
    ensures Apply(doc, s, requested).outcome.Failed? ==> SameState(Apply(doc, s, requested).s, s)
    ensures Apply(doc, s, requested).outcome.RolledBack? ==>
              var r, name := Apply(doc, s, requested), CanonicalName(doc, requested);
              && name in doc.presets
              && (SameState(r.s, s) <==>
                    NothingMissed(s, doc.presets[name], DefaultModel(s, doc.presets[name]), r.outcome.stage, r.outcome.undone))
  {
    match Apply(doc, s, requested).outcome
    case Failed(_) => UnvalidatedLeaves(doc, s, requested);
    case RolledBack(_, _) => RolledBackLeaves(doc, s, requested);
    case Completed(_) =>
  }

  /** In particular when all three rollback calls succeed. */
  lemma FullRollbackRestores(doc: Document, s: Session, requested: string)
    requires Parsed(doc) && s.c.activeRoles == s.w.override
    requires Apply(doc, s, requested).outcome.RolledBack? && Apply(doc, s, requested).outcome.undone == Undone(true, true, true)
    ensures SameState(Apply(doc, s, requested).s, s)
  {
    FailedApplyRestores(doc, s, requested);
  }

  // ── Staying in step ───────────────────────────────────────────────────────

  datatype Op = DoApply(name: string) | DoReset | DoInitialize | DoRestore(entries: seq<Entry>)

  /** A restore comes with the log of the session being resumed. */
  function Before(s: Session, op: Op): Session {
    if op.DoRestore? then s.(w := s.w.(log := op.entries)) else s
  }

  function Perform(doc: Document, s: Session, op: Op): Result
    requires Parsed(doc)
  {
    match op
    case DoApply(name) => Apply(doc, s, name)
    case DoReset => Reset(s)
    case DoInitialize => Initialize(doc, s, s.w.log)
    case DoRestore(entries) => Restore(doc, Before(s, op), entries)
  }

  /** The answer to the call after `k` others. */
  function Nth(script: seq<Answer>, k: nat): Answer {
    if k < |script| then script[k] else Fine
  }

  function Later(script: seq<Answer>, k: nat): seq<Answer> {
    if k <= |script| then script[k..] else []
  }

  lemma NthLater(script: seq<Answer>, n: nat, k: nat)
    ensures Nth(Later(script, n), k) == Nth(script, n + k)
    ensures Later(Later(script, n), k) == Later(script, n + k)
  {
  }

  /** The next answers find a usable model for every role. */
  predicate AllUsable(script: seq<Answer>, roles: seq<Selection>) {
    forall k | 0 <= k < |roles| :: Usable(roles[k], Model(Nth(script, k), roles[k].modelSelector))
  }

  lemma {:induction false} ValidatedReads(w: Runtime, roles: seq<Selection>)
    ensures Validated(w, roles).ok <==> AllUsable(w.script, roles)
    ensures Validated(w, roles).ok ==> Validated(w, roles).w == w.(script := Later(w.script, |roles|))
    decreases |roles|
  {
    if roles != [] {
      ValidatedReads(Called(w), roles[1..]);
      assert Called(w).script == Later(w.script, 1);
      forall k: nat ensures Nth(Called(w).script, k) == Nth(w.script, 1 + k) {
        NthLater(w.script, 1, k);
      }
      NthLater(w.script, 1, |roles| - 1);
      assert AllUsable(w.script, roles) ==> Usable(roles[0], Model(Nth(w.script, 0), roles[0].modelSelector));
      if AllUsable(w.script, roles) {
        forall k | 0 <= k < |roles[1..]|
          ensures Usable(roles[1..][k], Model(Nth(Called(w).script, k), roles[1..][k].modelSelector))
        {
          assert roles[1..][k] == roles[k + 1];
        }
      } else {
        var k :| 0 <= k < |roles| && !Usable(roles[k], Model(Nth(w.script, k), roles[k].modelSelector));
        assert k > 0 ==> roles[1..][k - 1] == roles[k] && Nth(Called(w).script, k - 1) == Nth(w.script, k);
      }
    }
  }

  /** With `n` answers used up on validation and the roles replaced: which answer the call that
      puts the old roles back receives; none when the switch goes through. */
  function UndoAnswer(script: seq<Answer>, n: nat, preset: Preset): Option<Answer>
    requires preset.roles != []
  {
    if Nth(script, n + 1).Throws? || Nth(script, n + 1).Refuses? || preset.roles[0].thinking.None? then Some(Nth(script, n + 2))
    else if Nth(script, n + 2).Throws? then Some(Nth(script, n + 3))
    else if Nth(script, n + 3).Throws? then Some(Nth(script, n + 4))
    else None
  }

  /** Roles that were replaced, then could not be put back. */
  predicate ApplyDerails(doc: Document, s: Session, requested: string)
    requires Parsed(doc)
  {
    var name := CanonicalName(doc, requested);
    && name in doc.presets && s.w.override != Some(Selectors(doc.presets[name]))
    && AllUsable(s.w.script, doc.presets[name].roles)
    && !Nth(s.w.script, |doc.presets[name].roles|).Throws?
    && UndoAnswer(s.w.script, |doc.presets[name].roles|, doc.presets[name]) == Some(Throws)
  }

  /** A resumed preset that is not taken over. */
  predicate TakeOverFails(doc: Document, script: seq<Answer>, stated: string)
    requires Parsed(doc)
  {
    var name := CanonicalName(doc, stated);
    || name !in doc.presets
    || !AllUsable(script, doc.presets[name].roles)
    || Nth(script, |doc.presets[name].roles|).Throws?
    || (name != stated && Nth(script, |doc.presets[name].roles| + 1).Throws?)
  }

  /** The failures of runtime calls that leave controller, runtime and log disagreeing: a
      rollback that could not put other roles back; a reset that cleared roles it could not
      record; a resumed session naming another preset that was not taken over. */
  predicate Derails(doc: Document, s: Session, op: Op)
    requires Parsed(doc)
  {
    match op
    case DoApply(name) => ApplyDerails(doc, s, name)
    case DoInitialize => Latest(s.w.log).None? && ApplyDerails(doc, s, doc.defaultPreset)
    case DoReset => s.c.activePreset.Some? && !Nth(s.w.script, 0).Throws? && Nth(s.w.script, 1).Throws?
    case DoRestore(entries) =>
      && Named(entries) != s.c.activePreset
      && if Named(entries).Some? then TakeOverFails(doc, s.w.script, Named(entries).value)
         else (Latest(entries).Some? || s.c.activeRoles.Some?) && Nth(s.w.script, 0).Throws?
  }

  // ── What passes, and what it leaves ───────────────────────────────────────

  /** The preset a name or an alias stands for. */
  predicate StandsFor(doc: Document, requested: string, preset: Preset) {
    if requested in doc.aliases then doc.aliases[requested] in doc.presets && preset == doc.presets[doc.aliases[requested]]
    else requested in doc.presets && preset == doc.presets[requested]
  }

  /** Each role's lookup, in order, finds its model, and no thinking level asked for is missing
      where the model reports the levels it has. */
  predicate EachFound(script: seq<Answer>, preset: Preset) {
    forall k | 0 <= k < |preset.roles| ::
      && k < |script| && script[k].Found? && preset.roles[k].modelSelector in script[k].models
      && var model, level := script[k].models[preset.roles[k].modelSelector], preset.roles[k].thinking;
         level == None || model.supportedThinking == None || level.value in model.supportedThinking.value
  }

  lemma EachFoundIsUsable(script: seq<Answer>, preset: Preset)
    ensures AllUsable(script, preset.roles) <==> EachFound(script, preset)
  {
    forall k | 0 <= k < |preset.roles|
      ensures Usable(preset.roles[k], Model(Nth(script, k), preset.roles[k].modelSelector)) <==>
              && k < |script| && script[k].Found? && preset.roles[k].modelSelector in script[k].models
              && var model, level := script[k].models[preset.roles[k].modelSelector], preset.roles[k].thinking;
                 level == None || model.supportedThinking == None || level.value in model.supportedThinking.value
    {
    }
  }

  /** Apply, and the restore of a session that names a preset, get past validation if and only if
      the name stands for a preset each of whose roles finds a model with its thinking level. */
  lemma PassesValidation(doc: Document, s: Session, requested: string)
    requires Parsed(doc)
    ensures Apply(doc, s, requested).outcome != Failed(Validating) <==>
            exists preset :: StandsFor(doc, requested, preset) && EachFound(s.w.script, preset)
    ensures RestorePreset(doc, s, requested).outcome != Failed(Validating) <==>
            exists preset :: StandsFor(doc, requested, preset) && EachFound(s.w.script, preset)
  {
    var name := CanonicalName(doc, requested);
    if name in doc.presets {
      assert StandsFor(doc, requested, doc.presets[name]);
      ValidatedReads(s.w, doc.presets[name].roles);
      EachFoundIsUsable(s.w.script, doc.presets[name]);
      ValidatedKeeps(s.w, doc.presets[name].roles);
    }
  }

  /** A completed apply has left the model found for the first role, its thinking level, the
      selectors of all roles, and a record of the preset. */
  lemma CompletedApplyLeaves(doc: Document, s: Session, requested: string)
    requires Parsed(doc) && Apply(doc, s, requested).outcome.Completed?
    ensures var r := Apply(doc, s, requested).s;
            exists name, preset :: name in doc.presets && doc.presets[name] == preset && StandsFor(doc, requested, preset)
              && EachFound(s.w.script, preset)
              && r.w.model == s.w.script[0].models[preset.roles[0].modelSelector].model
              && preset.roles[0].thinking == Some(r.w.thinking)
              && r.w.override.Some? && |r.w.override.value| == |preset.roles|
              && (forall k | 0 <= k < |preset.roles| :: r.w.override.value[k] == preset.roles[k].selector)
              && r.w.log == s.w.log + [Entry("omp-model-presets/state", State(1, Some(name)))]
              && r.c == Controller(Some(name), r.w.override)
  {
    var name := CanonicalName(doc, requested);
    var preset := doc.presets[name];
    PassesValidation(doc, s, requested);
    ValidatedKeeps(s.w, preset.roles);
    ValidatedFirstModel(s.w, preset.roles);
    EachFoundIsUsable(s.w.script, preset);
    ValidatedReads(s.w, preset.roles);
    AppliedLeaves(doc, s, requested);
  }

  /** The newest state of a log, read from its end. */
  ghost predicate NewestState(log: seq<Entry>, preset: Option<string>) {
    exists i | 0 <= i < |log| :: log[i] == Entry("omp-model-presets/state", State(1, preset)) &&
      forall j | i < j < |log| :: !(log[j].customType == "omp-model-presets/state" && log[j].data.State? && log[j].data.version == 1)
  }

  ghost predicate NoState(log: seq<Entry>) {
    forall e | e in log :: !(e.customType == "omp-model-presets/state" && e.data.State? && e.data.version == 1)
  }

  lemma {:induction false} NewestIsLatest(log: seq<Entry>)
    ensures Latest(log).None? <==> NoState(log)
    ensures Latest(log).Some? ==> Latest(log).value.State? && NewestState(log, Latest(log).value.preset)
  {
    if log != [] {
      var n := |log| - 1;
      assert log == log[..n] + [log[n]];
      NewestIsLatest(log[..n]);
      LatestAfter(log[..n], log[n]);
      if !IsState(log[n]) && Latest(log).Some? {
        var preset := Latest(log).value.preset;
        var i :| 0 <= i < n && log[..n][i] == Entry("omp-model-presets/state", State(1, preset)) &&
          forall j | i < j < n :: !(log[..n][j].customType == "omp-model-presets/state" && log[..n][j].data.State? && log[..n][j].data.version == 1);
        assert log[i] == log[..n][i];
        forall j | i < j < |log| ensures !(log[j].customType == "omp-model-presets/state" && log[j].data.State? && log[j].data.version == 1) {
          assert j < n ==> log[j] == log[..n][j];
        }
      }
    }
  }

  lemma {:induction false} NewestUnique(log: seq<Entry>, a: Option<string>, b: Option<string>)
    requires NewestState(log, a) && NewestState(log, b)
    ensures a == b
  {
  }

  /** A completed restore, from the log of the session: with no state in it the controller
      forgets its preset, an override it knew of cleared; with a state that names none the
      override is cleared; otherwise the preset the name stands for is active, its own name
      recorded if it was given by another. */
  lemma CompletedRestoreLeaves(doc: Document, s: Session, entries: seq<Entry>)
    requires Parsed(doc) && s.w.log == entries && Restore(doc, s, entries).outcome.Completed?
    ensures var r, w := Restore(doc, s, entries).s, s.w;
            && r.w.model == w.model && r.w.thinking == w.thinking
            && (NoState(entries) ==> r.c == Controller(None, None) && r.w.log == entries
                                     && r.w.override == if s.c.activeRoles.Some? then None else w.override)
            && (NewestState(entries, None) ==> r.c == Controller(None, None) && r.w.log == entries && r.w.override == None)
            && (forall stated :: NewestState(entries, Some(stated)) ==>
                  exists name, preset :: name in doc.presets && doc.presets[name] == preset && StandsFor(doc, stated, preset)
                    && r.c == Controller(Some(name), r.w.override)
                    && r.w.override.Some? && |r.w.override.value| == |preset.roles|
                    && (forall k | 0 <= k < |preset.roles| :: r.w.override.value[k] == preset.roles[k].selector)
                    && r.w.log == entries + if name == stated then [] else [Entry("omp-model-presets/state", State(1, Some(name)))])
  {
    NewestIsLatest(entries);
    if Latest(entries).Some? {
      forall p | NewestState(entries, p) ensures p == Named(entries) {
        NewestUnique(entries, p, Latest(entries).value.preset);
      }
      if Named(entries).Some? {
        var name := CanonicalName(doc, Named(entries).value);
        assert StandsFor(doc, Named(entries).value, doc.presets[name]);
        ValidatedKeeps(s.w, doc.presets[name].roles);
      }
    }
  }

  /** A completed reset has cleared the override and recorded that no preset is active. */
  lemma CompletedResetLeaves(s: Session)
    requires Reset(s).outcome.Completed?
    ensures var r := Reset(s).s;
            && r.c == Controller(None, None) && r.w.override == None && r.w.model == s.w.model && r.w.thinking == s.w.thinking
            && r.w.log == s.w.log + [Entry("omp-model-presets/state", State(1, None))]
  {
  }

  /** A new session whose log holds a state is left alone; otherwise the default preset is
      applied. */
  lemma InitializeLeaves(doc: Document, s: Session, entries: seq<Entry>)
    requires Parsed(doc)
    ensures NoState(entries) ==> Initialize(doc, s, entries) == Apply(doc, s, doc.defaultPreset)
    ensures !NoState(entries) ==> Initialize(doc, s, entries) == Result(s, Completed(false))
  {
    NewestIsLatest(entries);
  }

  lemma ValidatedFirstModel(w: Runtime, roles: seq<Selection>)
    requires roles != [] && Validated(w, roles).ok
    ensures Model(Nth(w.script, 0), roles[0].modelSelector).Some? && Validated(w, roles).value != []
    ensures Validated(w, roles).value[0] == Model(Nth(w.script, 0), roles[0].modelSelector).value.model
  {
  }

  // ── What a derailment comes to ────────────────────────────────────────────

  lemma AppliedReads(w: Runtime, name: string, preset: Preset, model: string)
    requires preset.roles != []
    ensures var f := Applied(w, name, preset, model);
            && (f.failed == Some(Replacing) <==> Nth(w.script, 0).Throws?)
            && (f.failed.Some? && RolesReplaced(f.failed.value) <==> !Nth(w.script, 0).Throws? && UndoAnswer(w.script, 0, preset).Some?)
            && (f.failed.Some? && RolesReplaced(f.failed.value) ==> Nth(f.w.script, 0) == UndoAnswer(w.script, 0, preset).value)
  {
    var a, b, c := Called(w), Called(Called(w)), Called(Called(Called(w)));
    assert Answered(a) == Nth(w.script, 1) && Answered(b) == Nth(w.script, 2) && Answered(c) == Nth(w.script, 3);
    assert Answered(Called(c)) == Nth(w.script, 4);
  }

  lemma UndoAnswerLater(script: seq<Answer>, n: nat, preset: Preset)
    requires preset.roles != []
    ensures UndoAnswer(Later(script, n), 0, preset) == UndoAnswer(script, n, preset)
  {
    NthLater(script, n, 1);
    NthLater(script, n, 2);
    NthLater(script, n, 3);
    NthLater(script, n, 4);
  }

  lemma ApplyDerailsMeans(doc: Document, s: Session, requested: string)
    requires Parsed(doc)
    ensures ApplyDerails(doc, s, requested) <==>
            var name, outcome := CanonicalName(doc, requested), Apply(doc, s, requested).outcome;
            && name in doc.presets && s.w.override != Some(Selectors(doc.presets[name]))
            && outcome.RolledBack? && RolesReplaced(outcome.stage) && !outcome.undone.roles
  {
    var name := CanonicalName(doc, requested);
    if name in doc.presets {
      var preset := doc.presets[name];
      ValidatedReads(s.w, preset.roles);
      var v := Validated(s.w, preset.roles);
      if v.ok {
        ValidatedKeeps(s.w, preset.roles);
        AppliedReads(v.w, name, preset, v.value[0]);
        UndoAnswerLater(s.w.script, |preset.roles|, preset);
        NthLater(s.w.script, |preset.roles|, 0);
      }
    }
  }

  lemma TakeOverFailsMeans(doc: Document, s: Session, stated: string)
    requires Parsed(doc)
    ensures TakeOverFails(doc, s.w.script, stated) <==> RestorePreset(doc, s, stated).outcome.Failed?
  {
    var name := CanonicalName(doc, stated);
    if name in doc.presets {
      var preset := doc.presets[name];
      ValidatedReads(s.w, preset.roles);
      var v := Validated(s.w, preset.roles);
      if v.ok {
        NthLater(s.w.script, |preset.roles|, 0);
        NthLater(s.w.script, |preset.roles|, 1);
        assert Nth(Called(v.w).script, 0) == Nth(v.w.script, 1);
      }
    }
  }

  lemma ApplyInStep(doc: Document, s: Session, requested: string)
    requires Parsed(doc)
    ensures Apply(doc, s, requested).outcome.Completed? ==> InStep(doc, Apply(doc, s, requested).s)
    ensures InStep(doc, s) ==> (InStep(doc, Apply(doc, s, requested).s) <==> !ApplyDerails(doc, s, requested))
  {
    ApplyDerailsMeans(doc, s, requested);
    match Apply(doc, s, requested).outcome
    case Failed(_) => UnvalidatedLeaves(doc, s, requested);
    case RolledBack(_, _) => RolledBackLeaves(doc, s, requested);
    case Completed(_) =>
      AppliedLeaves(doc, s, requested);
      AppendNames(s.w.log, Some(CanonicalName(doc, requested)));
  }

  lemma ResetInStep(doc: Document, s: Session)
    requires Parsed(doc)
    ensures Reset(s).outcome.Completed? ==> InStep(doc, Reset(s).s)
    ensures InStep(doc, s) ==> (InStep(doc, Reset(s).s) <==> !Derails(doc, s, DoReset))
  {
    AppendNames(s.w.log, None);
  }

  /** A restore that completes brings everything into step, whatever was there before; only an
      override the controller never knew of survives a session without a state. */
  lemma RestoreInStep(doc: Document, s: Session, entries: seq<Entry>)
    requires Parsed(doc) && s.w.log == entries
    ensures Restore(doc, s, entries).outcome.Completed? ==>
              (InStep(doc, Restore(doc, s, entries).s) <==>
                 !(Latest(entries).None? && s.c.activeRoles.None? && s.w.override.Some?))
    ensures Coherent(doc, s.c) && s.c.activeRoles == s.w.override && Restore(doc, s, entries).outcome.Failed? ==>
              (InStep(doc, Restore(doc, s, entries).s) <==> Named(entries) == s.c.activePreset)
  {
    if Latest(entries).Some? && Named(entries).Some? {
      var name := CanonicalName(doc, Named(entries).value);
      AppendNames(entries, Some(name));
      if name in doc.presets {
        ValidatedKeeps(s.w, doc.presets[name].roles);
      }
    }
  }

  /** Every operation, every way to fail: agreement survives exactly the failures that do not
      derail. */
  lemma OpInStep(doc: Document, s: Session, op: Op)
    requires Parsed(doc) && InStep(doc, s)
    ensures InStep(doc, Perform(doc, s, op).s) <==> !Derails(doc, s, op)
  {
    match op
    case DoApply(name) => ApplyInStep(doc, s, name);
    case DoReset => ResetInStep(doc, s);
    case DoInitialize => ApplyInStep(doc, s, doc.defaultPreset);
    case DoRestore(entries) =>
      RestoreInStep(doc, Before(s, op), entries);
      if Named(entries).Some? {
        TakeOverFailsMeans(doc, Before(s, op), Named(entries).value);
      }
  }

  function Performed(doc: Document, s: Session, ops: seq<Op>): Session
    requires Parsed(doc)
    decreases |ops|
  {
    if ops == [] then s else Performed(doc, Perform(doc, s, ops[0]).s, ops[1..])
  }

  predicate NoneDerails(doc: Document, s: Session, ops: seq<Op>)
    requires Parsed(doc)
    decreases |ops|
  {
    ops == [] || (!Derails(doc, s, ops[0]) && NoneDerails(doc, Perform(doc, s, ops[0]).s, ops[1..]))
  }

  /** From a completed restore, reset or apply onward. */
  lemma {:induction false} RunInStep(doc: Document, s: Session, ops: seq<Op>)
    requires Parsed(doc) && InStep(doc, s) && NoneDerails(doc, s, ops)
    ensures InStep(doc, Performed(doc, s, ops))
    decreases |ops|
  {
    if ops != [] {
      OpInStep(doc, s, ops[0]);
      RunInStep(doc, Perform(doc, s, ops[0]).s, ops[1..]);
    }
  }

  /** The failures are real: a reset whose record cannot be written; … */
  lemma ResetDerails(doc: Document, s: Session)
    requires Parsed(doc) && InStep(doc, s) && s.c.activePreset.Some? && s.w.script == [Fine, Throws]
    ensures !InStep(doc, Reset(s).s) && Reset(s).s.w.override.None? && Reset(s).s.c == s.c
  {
    var cleared := OverrideRoles(s.w, None);
    assert cleared.w.script == [Throws];
    ResetInStep(doc, s);
  }

  /** Every role finds a model, the roles are replaced, the model is refused, and the old roles
      cannot be put back. */
  function RollbackFails(roles: seq<Selection>): seq<Answer> {
    seq(|roles|, i requires 0 <= i < |roles| => Found(map[roles[i].modelSelector := Resolved("", None)])) + [Fine, Refuses, Throws]
  }

  /** … an apply of another preset whose rollback fails: the runtime stays with the new roles; … */
  lemma ApplyLosesStep(doc: Document, s: Session, name: string)
    requires Parsed(doc) && InStep(doc, s) && name in doc.presets && name !in doc.aliases
    requires s.c.activeRoles != Some(Selectors(doc.presets[name])) && s.w.script == RollbackFails(doc.presets[name].roles)
    ensures var r := Apply(doc, s, name); !InStep(doc, r.s) && r.s.w.override == Some(Selectors(doc.presets[name])) && r.s.c == s.c
  {
    var roles := doc.presets[name].roles;
    var n := |roles|;
    assert Nth(s.w.script, n) == Fine && Nth(s.w.script, n + 1) == Refuses && Nth(s.w.script, n + 2) == Throws;
    assert AllUsable(s.w.script, roles);
    ApplyInStep(doc, s, name);
    ApplyDerailsMeans(doc, s, name);
    RolledBackLeaves(doc, s, name);
  }

  /** … and a session resumed under another preset whose models cannot be looked up. */
  lemma RestoreLosesStep(doc: Document, s: Session, stated: string)
    requires Parsed(doc) && InStep(doc, s) && s.c.activePreset != Some(stated) && s.w.script == [Throws]
    ensures var op := DoRestore([StateEntry(Some(stated))]); !InStep(doc, Perform(doc, s, op).s) && Perform(doc, s, op).s.c == s.c
  {
    var op := DoRestore([StateEntry(Some(stated))]);
    AppendNames([], Some(stated));
    assert [] + [StateEntry(Some(stated))] == [StateEntry(Some(stated))];
    var name := CanonicalName(doc, stated);
    if name in doc.presets {
      assert Model(Nth(s.w.script, 0), doc.presets[name].roles[0].modelSelector) == None;
      assert !AllUsable(s.w.script, doc.presets[name].roles);
    }
    OpInStep(doc, s, op);
    TakeOverFailsMeans(doc, Before(s, op), stated);
  }
}
