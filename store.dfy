/** The key/value store that the configuration library keeps for the
    settings file, with the `5.8.4` migration and the opening of a store. */
module ConfStore {
  import opened Errors
  import opened Schema
  import opened SettingsDefaults

  type Document = map<Key, Value>

  /** The document after the `5.8.4` migration: `error_tracking` takes over
      the old `anonymous_statistics` (or `true` when it is absent) and
      `anonymous_statistics` is removed. */
  function MigrateDoc(d: Document): (r: Document)
    ensures ErrorTracking in r
    ensures r[ErrorTracking] == if AnonymousStatistics in d then d[AnonymousStatistics] else BoolVal(true)
    ensures AnonymousStatistics !in r
    ensures forall k :: k != ErrorTracking && k != AnonymousStatistics ==>
      (k in r <==> k in d) && (k in d ==> r[k] == d[k])
  {
    var value := if AnonymousStatistics in d then d[AnonymousStatistics] else BoolVal(true);
    d[ErrorTracking := value] - {AnonymousStatistics}
  }

  /** The migration never makes a valid document invalid. */
  lemma MigrationKeepsValid(d: Document)
    requires DocValid(d)
    ensures DocValid(MigrateDoc(d))
  {
  }

  /** Applying the migration twice loses an opted-out `anonymous_statistics`,
      which is why it must run only once (the version gate). */
  lemma MigrationNotIdempotent()
    ensures exists d: Document :: DocValid(d) && MigrateDoc(MigrateDoc(d)) != MigrateDoc(d)
  {
    var d: Document := map[AnonymousStatistics := BoolVal(false)];
    assert MigrateDoc(d)[ErrorTracking] == BoolVal(false);
    assert MigrateDoc(MigrateDoc(d))[ErrorTracking] == BoolVal(true);
  }

  /** A document the library keeps in memory and on disk. */
  class Store {
    var data: Document
    const filePath: string

    /** The store never holds a value its rule rejects. */
    predicate Valid()
      reads this
    {
      DocValid(data)
    }

    constructor (filePath: string, doc: Document)
      requires DocValid(doc)
      ensures Valid()
      ensures data == doc && this.filePath == filePath
    {
      data := doc;
      this.filePath := filePath;
    }

    /** `store.get(key)`: the stored value, or `undefined`. */
    method Get(k: Key) returns (r: Option<Value>)
      ensures r.Some? <==> k in data
      ensures r.Some? ==> r.value == data[k]
    {
      r := if k in data then Some(data[k]) else None;
    }

    /** `store.set(key, value)`: validate, then write; a rejected value
        leaves the document as it was. */
    method Set(k: Key, v: Value) returns (r: Outcome)
      requires Valid()
      modifies this
      ensures Valid()
      ensures r == if ValidValue(k, v) then Pass else Fail(SchemaValidation)
      ensures data == if r.Pass? then old(data)[k := v] else old(data)
    {
      if ValidValue(k, v) {
        data := data[k := v];
        r := Pass;
      } else {
        r := Fail(SchemaValidation);
      }
    }

    /** `store.delete(key)`. */
    method Delete(k: Key)
      requires Valid()
      modifies this
      ensures Valid()
      ensures data == old(data) - {k}
    {
      data := data - {k};
    }

    /** The `5.8.4` migration, through the store's own get/set/delete. */
    method Migrate584()
      requires Valid()
      modifies this
      ensures Valid()
      ensures data == MigrateDoc(old(data))
    {
      var stored := Get(AnonymousStatistics);
      // `?? true`: only an absent value is replaced, an explicit `false` is kept
      var value := if stored.Some? then stored.value else BoolVal(true);
      // a valid store holds a boolean `anonymous_statistics`, so this set succeeds
      var outcome := Set(ErrorTracking, value);
      assert outcome == Pass;
      Delete(AnonymousStatistics);
    }
  }

  /** The document a store opens with: the defaults, overridden by what the
      file already holds, then migrated when the version gate says so. */
  function OpenedDoc(id: string, stored: Document, migrate: bool): (d: Document)
    ensures forall k :: k != ErrorTracking && k != AnonymousStatistics ==>
      (k in d <==> k in stored || k in Defaults(id)) &&
      (k in d ==> d[k] == if k in stored then stored[k] else Defaults(id)[k])
    ensures !migrate ==> d == Defaults(id) + stored
    ensures migrate ==> AnonymousStatistics !in d && ErrorTracking in d
    ensures migrate ==>
      d[ErrorTracking] == (if AnonymousStatistics in stored then stored[AnonymousStatistics] else BoolVal(true))
  {
    var merged := Defaults(id) + stored;
    if migrate then MigrateDoc(merged) else merged
  }

  /** Opening a settings file that does not exist yet: without the
      migration the document is exactly the defaults record; with it,
      `error_tracking` is `true` as well. */
  lemma FreshDocument(id: string)
    ensures OpenedDoc(id, map[], false) == Defaults(id)
    ensures OpenedDoc(id, map[], true)[ErrorTracking] == BoolVal(true)
  {
  }

  /** After the first migration of a fresh document every key but
      `anonymous_statistics` is present and every default is kept. */
  lemma FreshMigratedKey(id: string, k: Key)
    ensures k in OpenedDoc(id, map[], true) <==> k != AnonymousStatistics
    ensures k in Defaults(id) ==> OpenedDoc(id, map[], true)[k] == Defaults(id)[k]
  {
  }

  /** A stored opt-out survives the migration: `false` is carried over to
      `error_tracking` and the deprecated key is gone. */
  lemma LegacyOptOutKept(id: string, stored: Document)
    requires AnonymousStatistics in stored && stored[AnonymousStatistics] == BoolVal(false)
    ensures OpenedDoc(id, stored, true)[ErrorTracking] == BoolVal(false)
    ensures AnonymousStatistics !in OpenedDoc(id, stored, true)
  {
  }

  /** `s` is the valid store opened on `path/settings.json` from `stored`. */
  ghost predicate OpenedAs(s: Store, path: string, id: string, stored: Document, migrate: bool)
    reads s
  {
    && s.Valid()
    && s.data == OpenedDoc(id, stored, migrate)
    && s.filePath == path + "/settings.json"
  }

  /** `new Conf({configName: 'settings', cwd: path, schema, defaults, migrations})`.
      `stored` is what `settings.json` holds (empty when there is none) and
      `migrate` is the library's verdict on whether `5.8.4` is newer than
      the version recorded in the file. */
  method CreateStore(path: string, id: string, stored: Document, migrate: bool)
    returns (r: Result<Store>)
    ensures r.Ok? <==> DocValid(Defaults(id) + stored)
    ensures r.Err? ==> r.error == SchemaValidation
    ensures r.Ok? ==> fresh(r.value) && OpenedAs(r.value, path, id, stored, migrate)
  {
    var merged := Defaults(id) + stored;
    if !DocValid(merged) {
      return Err(SchemaValidation);
    }
    var s := new Store(path + "/settings.json", merged);
    if migrate {
      s.Migrate584();
    }
    r := Ok(s);
  }
}
