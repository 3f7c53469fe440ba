/** The default values merged into a settings document when it is opened. */
module SettingsDefaults {
  import opened Schema

  /** `new Date(2000).toISOString()`: 2000 milliseconds after the epoch. */
  const LastUpdateDefault: string := "1970-01-01T00:00:02.000Z"

  /** The defaults record.  The `uuid` default is whatever the identifier
      generator returned, passed in as `id`. */
  function Defaults(id: string): (d: map<Key, Value>)
    ensures ErrorTracking !in d && AnonymousStatistics !in d
    ensures Uuid in d && d[Uuid] == StrVal(id)
  {
    map[
      Token := StrVal(""),
      Language := StrVal("en"),
      MaxItems := NumVal(9),
      CacheTimeout := NumVal(2629743),       // a month in seconds
      CacheTimeoutTasks := NumVal(604800),   // a week in seconds
      FilterWrapper := StrVal("\""),
      UpdateChecks := NumVal(604800),        // a week in seconds
      PreReleases := BoolVal(false),
      LogLevel := StrVal("error"),
      LastUpdate := StrVal(LastUpdateDefault),
      Uuid := StrVal(id)
    ]
  }

  /** Every key has a default except `error_tracking` and the deprecated
      `anonymous_statistics`. */
  lemma DefaultsCoverage(id: string, k: Key)
    ensures k in Defaults(id) <==> k != ErrorTracking && k != AnonymousStatistics
  {
  }

  /** Every default satisfies its own rule, provided the generator produced
      a string the `uuid` rule accepts (the rest of the record does not
      depend on the generator). */
  lemma DefaultsValid(id: string)
    ensures DocValid(Defaults(id)) <==> ValidValue(Uuid, StrVal(id))
  {
    var d := Defaults(id);
    assert forall k :: k in d && k != Uuid ==> ValidValue(k, d[k]);
  }
}
