/** The entry point `settingsStore(path)`: a path guard in front of a lazily
    created, process-wide store instance. */
module SettingsEntry {
  import opened Errors
  import opened Schema
  import opened SettingsDefaults
  import opened ConfStore

  /** A default parameter replaces an `undefined` argument, so an absent
      `path` falls back to the workflow data directory from the environment. */
  function EffectivePath(path: Option<string>, dataPath: Option<string>): (p: Option<string>)
    ensures path.Some? ==> p == path
    ensures path.None? ==> p == dataPath
    ensures p.None? <==> path.None? && dataPath.None?
  {
    if path.None? then dataPath else path
  }

  /** The guard `!path`: of the values of type `string | undefined`, exactly
      `undefined` and the empty string are falsy and rejected. */
  function UsablePath(p: Option<string>): (ok: bool)
    ensures !ok <==> p == None || p == Some("")
    ensures ok ==> |p.value| > 0
  {
    p.Some? && p.value != ""
  }

  /** The module-level state of the settings store file. */
  class ModuleState {
    /** `let instance: Conf<Settings> | null = null` */
    var instance: Option<Store>

    constructor ()
      ensures instance == None
    {
      instance := None;
    }

    /** `settingsStore(path)`.  `dataPath` is what the environment supplies;
        `id`, `stored` and `migrate` are what creating the store would see:
        the generated identifier, the contents of `settings.json` and the
        version gate.  The path is checked before the instance, so a bad
        path fails even once an instance exists. */
    method SettingsStore(path: Option<string>, dataPath: Option<string>,
                         id: string, stored: Document, migrate: bool)
      returns (r: Result<Store>)
      modifies this
      ensures !UsablePath(EffectivePath(path, dataPath)) ==>
        r == Err(InvalidFilePath) && instance == old(instance)
      ensures UsablePath(EffectivePath(path, dataPath)) && old(instance).Some? ==>
        r == Ok(old(instance).value) && instance == old(instance)
      ensures UsablePath(EffectivePath(path, dataPath)) && old(instance).None? ==>
        (r.Ok? <==> DocValid(Defaults(id) + stored))
      ensures UsablePath(EffectivePath(path, dataPath)) && old(instance).None? && r.Err? ==>
        r.error == SchemaValidation && instance == None
      ensures UsablePath(EffectivePath(path, dataPath)) && old(instance).None? && r.Ok? ==>
        && fresh(r.value) && instance == Some(r.value)
        && OpenedAs(r.value, EffectivePath(path, dataPath).value, id, stored, migrate)
    {
      var p := EffectivePath(path, dataPath);
      if !UsablePath(p) {
        return Err(InvalidFilePath);
      }
      if instance.Some? {
        return Ok(instance.value);
      }
      r := CreateInstance(p.value, id, stored, migrate);
    }

    /** `instance = createStore(path)`: a store that cannot be created is
        not kept. */
    method CreateInstance(path: string, id: string, stored: Document, migrate: bool)
      returns (r: Result<Store>)
      requires instance.None?
      modifies this
      ensures r.Ok? <==> DocValid(Defaults(id) + stored)
      ensures r.Err? ==> r.error == SchemaValidation && instance == None
      ensures r.Ok? ==>
        fresh(r.value) && instance == Some(r.value) && OpenedAs(r.value, path, id, stored, migrate)
    {
      r := CreateStore(path, id, stored, migrate);
      if r.Ok? {
        instance := Some(r.value);
      }
    }
  }

  /** Three calls in one process: a first call with a real path, a call with
      an empty path, and a third call with any path.  The empty path fails
      although an instance exists, and once the first call has created the
      instance the third returns that same object whatever it is given. */
  method RepeatedCalls(firstPath: string, laterPath: Option<string>, dataPath: Option<string>,
                       id: string, stored: Document, migrate: bool)
    returns (first: Result<Store>, empty: Result<Store>, later: Result<Store>)
    requires firstPath != ""
    ensures first.Ok? <==> DocValid(Defaults(id) + stored)
    ensures empty == Err(InvalidFilePath)
    ensures first.Ok? && UsablePath(EffectivePath(laterPath, dataPath)) ==> later == first
    ensures !UsablePath(EffectivePath(laterPath, dataPath)) ==> later == Err(InvalidFilePath)
  {
    var state := new ModuleState();
    first := state.SettingsStore(Some(firstPath), dataPath, id, stored, migrate);
    empty := state.SettingsStore(Some(""), dataPath, id, stored, migrate);
    later := state.SettingsStore(laterPath, dataPath, id, stored, migrate);
  }
}
