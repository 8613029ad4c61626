/** The controller as the code writes it: fields that its operations assign, around a runtime
    object. Each operation is proved to do what the function of `PresetModel` says. */
module PresetController {
  import opened Wrappers
  import opened PresetModel

  class SessionRuntime {
    var w: Runtime

    method ReplaceRoles(roles: Roles) returns (ok: bool)
      modifies this
      ensures w == OverrideRoles(old(w), Some(roles)).w && ok == OverrideRoles(old(w), Some(roles)).ok
    {
      var fails := Answered(w).Throws?;
      w := Called(w);
      if !fails { w := w.(override := Some(roles)); }
      return !fails;
    }

    method ClearRoles() returns (ok: bool)
      modifies this
      ensures w == OverrideRoles(old(w), None).w && ok == OverrideRoles(old(w), None).ok
    {
      var fails := Answered(w).Throws?;
      w := Called(w);
      if !fails { w := w.(override := None); }
      return !fails;
    }

    method Select(model: string) returns (ok: bool)
      modifies this
      ensures w == SetModel(old(w), model).w && ok == SetModel(old(w), model).ok
    {
      var answer := Answered(w);
      w := Called(w);
      if answer.Throws? || answer.Refuses? { return false; }
      w := w.(model := model);
      return true;
    }

    method Think(level: string) returns (ok: bool)
      modifies this
      ensures w == SetThinking(old(w), level).w && ok == SetThinking(old(w), level).ok
    {
      var fails := Answered(w).Throws?;
      w := Called(w);
      if !fails { w := w.(thinking := level); }
      return !fails;
    }

    method Append(preset: Option<string>) returns (ok: bool)
      modifies this
      ensures w == AppendState(old(w), preset).w && ok == AppendState(old(w), preset).ok
    {
      var fails := Answered(w).Throws?;
      w := Called(w);
      if !fails { w := w.(log := w.log + [StateEntry(preset)]); }
      return !fails;
    }

    method Resolve(selector: string) returns (ok: bool, found: Option<Resolved>)
      modifies this
      ensures w == ResolveModel(old(w), selector).w && ok == ResolveModel(old(w), selector).ok
      ensures found == ResolveModel(old(w), selector).value
    {
      var answer := Answered(w);
      w := Called(w);
      return !answer.Throws?, if answer.Found? && selector in answer.models then Some(answer.models[selector]) else None;
    }
  }

  class Presets {
    var activePreset: Option<string>
    var activeRoles: Option<Roles>
    const document: Document
    const runtime: SessionRuntime

    constructor (document: Document, runtime: SessionRuntime)
      ensures this.document == document && this.runtime == runtime
      ensures Now() == Session(runtime.w, Controller(None, None))
    {
      this.document, this.runtime := document, runtime;
      activePreset, activeRoles := None, None;
    }

    function Now(): Session
      reads this, runtime
    {
      Session(runtime.w, Controller(activePreset, activeRoles))
    }

    /** `validated`, role after role. */
    method ResolveRoles(roles: seq<Selection>) returns (ok: bool, models: seq<string>)
      modifies runtime
      ensures runtime.w == Validated(old(runtime.w), roles).w && ok == Validated(old(runtime.w), roles).ok
      ensures ok ==> models == Validated(old(runtime.w), roles).value
    {
      models := [];
      ghost var whole := Validated(runtime.w, roles);
      assert roles[0..] == roles && [] + whole.value == whole.value;
      for i := 0 to |roles|
        invariant whole.w == Validated(runtime.w, roles[i..]).w && whole.ok == Validated(runtime.w, roles[i..]).ok
        invariant whole.ok ==> whole.value == models + Validated(runtime.w, roles[i..]).value
      {
        assert roles[i..][1..] == roles[i + 1..];
        var answered, found := runtime.Resolve(roles[i].modelSelector);
        if !answered || !Usable(roles[i], found) { return false, []; }
        models := models + [found.value.model];
      }
      return true, models;
    }

    /** The `try` of `applyUnlocked`: the stage that failed, if one did. */
    method TryApply(name: string, preset: Preset, model: string) returns (failed: Option<Stage>)
      requires preset.roles != []
      modifies this, runtime
      ensures Forward(runtime.w, failed) == Applied(old(runtime.w), name, preset, model)
      ensures failed.Some? ==> activePreset == old(activePreset) && activeRoles == old(activeRoles)
      ensures failed.None? ==> activePreset == Some(name) && activeRoles == Some(Selectors(preset))
    {
      var ok := runtime.ReplaceRoles(Selectors(preset));
      if !ok { return Some(Replacing); }
      ok := runtime.Select(model);
      if !ok { return Some(Selecting); }
      if preset.roles[0].thinking.None? { return Some(Thinking); }
      ok := runtime.Think(preset.roles[0].thinking.value);
      if !ok { return Some(Thinking); }
      ok := runtime.Append(Some(name));
      if !ok { return Some(Appending); }
      activePreset, activeRoles := Some(name), Some(Selectors(preset));
      return None;
    }

    method ApplyUnlocked(requested: string) returns (r: Outcome)
      requires Parsed(document)
      modifies this, runtime
      ensures Result(Now(), r) == Apply(document, old(Now()), requested)
    {
      var name := CanonicalName(document, requested);
      if name !in document.presets { return Failed(Validating); }
      var preset := document.presets[name];
      ValidatedKeeps(runtime.w, preset.roles);
      var ok, models := ResolveRoles(preset.roles);
      if !ok { return Failed(Validating); }
      var previousPreset, previousRoles := activePreset, activeRoles;
      var previousModel, previousThinking := runtime.w.model, runtime.w.thinking;
      var failed := TryApply(name, preset, models[0]);
      if failed.None? { return Completed(true); }
      var roles, model, thinking: bool;
      if previousRoles.Some? {
        roles := runtime.ReplaceRoles(previousRoles.value);
      } else {
        roles := runtime.ClearRoles();
      }
      model := runtime.Select(previousModel);
      thinking := runtime.Think(previousThinking);
      activePreset, activeRoles := previousPreset, previousRoles;
      return RolledBack(failed.value, Undone(roles, model, thinking));
    }

    method ResetOverride() returns (r: Outcome)
      modifies this, runtime
      ensures Result(Now(), r) == Reset(old(Now()))
    {
      var ok := runtime.ClearRoles();
      if !ok { return Failed(Clearing); }
      ok := runtime.Append(None);
      if !ok { return Failed(Appending); }
      activePreset, activeRoles := None, None;
      return Completed(true);
    }

    method InitializeNewSession(entries: seq<Entry>) returns (r: Outcome)
      requires Parsed(document)
      modifies this, runtime
      ensures Result(Now(), r) == Initialize(document, old(Now()), entries)
    {
      var state := LatestPresetState(entries);
      if state.Some? { return Completed(false); }
      r := ApplyUnlocked(document.defaultPreset);
    }

    method RestoreSession(entries: seq<Entry>) returns (r: Outcome)
      requires Parsed(document)
      modifies this, runtime
      ensures Result(Now(), r) == Restore(document, old(Now()), entries)
    {
      var state := LatestPresetState(entries);
      if state.None? || !state.value.State? || state.value.preset.None? {
        if state.Some? || activeRoles.Some? {
          var ok := runtime.ClearRoles();
          if !ok { return Failed(Clearing); }
        }
        activePreset, activeRoles := None, None;
        return Completed(state.Some?);
      }
      r := RestoreStated(state.value.preset.value);
    }

    method RestoreStated(stated: string) returns (r: Outcome)
      requires Parsed(document)
      modifies this, runtime
      ensures Result(Now(), r) == RestorePreset(document, old(Now()), stated)
    {
      var name := CanonicalName(document, stated);
      if name !in document.presets { return Failed(Validating); }
      var preset := document.presets[name];
      var ok, _ := ResolveRoles(preset.roles);
      if !ok { return Failed(Validating); }
      ok := runtime.ReplaceRoles(Selectors(preset));
      if !ok { return Failed(Replacing); }
      if name != stated {
        ok := runtime.Append(Some(name));
        if !ok { return Failed(Appending); }
      }
      activePreset, activeRoles := Some(name), Some(Selectors(preset));
      return Completed(true);
    }
  }
}
