/** The settings schema: one declarative rule per setting key, and the
    validation of a value against the rule of its key. */
module Schema {
  import opened Errors
  import opened Patterns

  /** The closed set of setting names. */
  datatype Key =
    | Token | Language | MaxItems | CacheTimeout | CacheTimeoutTasks
    | FilterWrapper | UpdateChecks | PreReleases | AnonymousStatistics
    | ErrorTracking | LogLevel | LastUpdate | Uuid

  /** The property name under which a setting is stored. */
  function KeyName(k: Key): string {
    match k
    case Token => "token"
    case Language => "language"
    case MaxItems => "max_items"
    case CacheTimeout => "cache_timeout"
    case CacheTimeoutTasks => "cache_timeout_tasks"
    case FilterWrapper => "filter_wrapper"
    case UpdateChecks => "update_checks"
    case PreReleases => "pre_releases"
    case AnonymousStatistics => "anonymous_statistics"
    case ErrorTracking => "error_tracking"
    case LogLevel => "log_level"
    case LastUpdate => "last_update"
    case Uuid => "uuid"
  }

  /** The key stored under a property name, if the name is one of the schema's. */
  function ParseKey(name: string): (r: Option<Key>)
    ensures r.Some? ==> KeyName(r.value) == name
    ensures forall k :: KeyName(k) == name ==> r == Some(k)
  {
    if name == "token" then Some(Token)
    else if name == "language" then Some(Language)
    else if name == "max_items" then Some(MaxItems)
    else if name == "cache_timeout" then Some(CacheTimeout)
    else if name == "cache_timeout_tasks" then Some(CacheTimeoutTasks)
    else if name == "filter_wrapper" then Some(FilterWrapper)
    else if name == "update_checks" then Some(UpdateChecks)
    else if name == "pre_releases" then Some(PreReleases)
    else if name == "anonymous_statistics" then Some(AnonymousStatistics)
    else if name == "error_tracking" then Some(ErrorTracking)
    else if name == "log_level" then Some(LogLevel)
    else if name == "last_update" then Some(LastUpdate)
    else if name == "uuid" then Some(Uuid)
    else None
  }

  /** A JSON value as the settings document holds it.  Numbers are integers
      here; the schema's `number` type also admits fractions. */
  datatype Value = StrVal(str: string) | NumVal(num: int) | BoolVal(flag: bool)

  /** The regular expressions of the schema, matched by the hand-written
      predicates of module Patterns. */
  datatype Pattern = AnyText | TokenPattern | WrapperPattern | UuidPattern

  predicate Matches(p: Pattern, s: string) {
    match p
    case AnyText => true
    case TokenPattern => TokenMatch(s)
    case WrapperPattern => ContainsQuote(s)
    case UuidPattern => ContainsUuid(s)
  }

  /** The string formats of the schema, checked by the validator as well as
      the pattern. */
  datatype Format = UuidFormat

  predicate Conforms(f: Format, s: string) {
    match f
    case UuidFormat => UuidFormatMatch(s)
  }

  /** One schema entry: its JSON type and the keywords that constrain it. */
  datatype Rule =
    | StrRule(pattern: Pattern, maxLength: Option<nat>, format: Option<Format>)
    | NumRule(minimum: int, maximum: int)
    | BoolRule
    | EnumRule(options: seq<string>)

  /** "between 1 and 31556926 (year)", in seconds */
  const SecondsPerYear: int := 31556926

  const LanguageCodes: seq<string> := [
    "da", "de", "en", "es", "fi", "fr", "it", "ja", "ko",
    "nl", "pl", "pt_BR", "ru", "sv", "tr", "zh_CN", "zh_TW"
  ]

  const LogLevels: seq<string> := ["trace", "debug", "info", "warn", "error", "silent"]

  /** The JSON types of the settings document. */
  datatype JsonType = StringType | NumberType | BooleanType

  function TypeOf(v: Value): JsonType {
    match v
    case StrVal(_) => StringType
    case NumVal(_) => NumberType
    case BoolVal(_) => BooleanType
  }

  /** The type a rule demands; an enumeration of strings is of type `string`. */
  function RuleType(r: Rule): JsonType {
    match r
    case StrRule(_, _, _) => StringType
    case NumRule(_, _) => NumberType
    case BoolRule => BooleanType
    case EnumRule(_) => StringType
  }

  /** The type of each property in the `Settings` type declaration. */
  function DeclaredType(k: Key): JsonType {
    match k
    case MaxItems | CacheTimeout | CacheTimeoutTasks | UpdateChecks => NumberType
    case PreReleases | AnonymousStatistics | ErrorTracking => BooleanType
    case _ => StringType
  }

  /** The schema table.  Each rule demands the type the settings declaration
      gives its key, every numeric range is non-empty and starts at 1, and
      every enumeration offers at least one value. */
  function Schema(k: Key): (r: Rule)
    ensures RuleType(r) == DeclaredType(k)
    ensures r.NumRule? ==> 1 == r.minimum <= r.maximum
    ensures r.EnumRule? ==> |r.options| > 0
  {
    match k
    case Token => StrRule(TokenPattern, None, None)
    case Language => EnumRule(LanguageCodes)
    case MaxItems => NumRule(1, 20)
    case CacheTimeout => NumRule(1, SecondsPerYear)
    case CacheTimeoutTasks => NumRule(1, SecondsPerYear)
    case FilterWrapper => StrRule(WrapperPattern, Some(1), None)
    case UpdateChecks => NumRule(1, SecondsPerYear)
    case PreReleases => BoolRule
    case AnonymousStatistics => BoolRule
    case ErrorTracking => BoolRule
    case LogLevel => EnumRule(LogLevels)
    case LastUpdate => StrRule(AnyText, None, None)
    case Uuid => StrRule(UuidPattern, None, Some(UuidFormat))
  }

  /** Whether a value satisfies a rule: its type, then each keyword.  Only a
      value of the rule's type can satisfy it. */
  function Satisfies(r: Rule, v: Value): (ok: bool)
    ensures ok ==> TypeOf(v) == RuleType(r)
  {
    match r
    case StrRule(p, maxLength, format) =>
      && v.StrVal? && Matches(p, v.str)
      && (maxLength.None? || |v.str| <= maxLength.value)
      && (format.None? || Conforms(format.value, v.str))
    case NumRule(lo, hi) => v.NumVal? && lo <= v.num <= hi
    case BoolRule => v.BoolVal?
    case EnumRule(opts) => v.StrVal? && v.str in opts
  }

  /** Validation of one setting: each key against its own rule.  A valid
      value has the type the settings declaration gives its key. */
  function ValidValue(k: Key, v: Value): (ok: bool)
    ensures ok ==> TypeOf(v) == DeclaredType(k)
  {
    Satisfies(Schema(k), v)
  }

  /** A document is valid when every value it holds is; no key is required. */
  predicate DocValid(d: map<Key, Value>) {
    forall k :: k in d ==> ValidValue(k, d[k])
  }

  /** The accepted values of every setting, written out from the settings'
      types and descriptions rather than from the table. */
  ghost predicate Documented(k: Key, v: Value) {
    match k
    case Token =>
      v.StrVal? && (v.str == "" || (|v.str| == 40 && forall j :: 0 <= j < |v.str| ==> IsHexDigit(v.str[j])))
    case Language =>
      v.StrVal? && v.str in {"da", "de", "en", "es", "fi", "fr", "it", "ja", "ko",
                             "nl", "pl", "pt_BR", "ru", "sv", "tr", "zh_CN", "zh_TW"}
    case MaxItems => v.NumVal? && 1 <= v.num <= 20
    case CacheTimeout => v.NumVal? && 1 <= v.num <= 31556926
    case CacheTimeoutTasks => v.NumVal? && 1 <= v.num <= 31556926
    case FilterWrapper => v.StrVal? && |v.str| == 1 && v.str[0] in {'"', '\'', '`'}
    case UpdateChecks => v.NumVal? && 1 <= v.num <= 31556926
    case PreReleases => v.BoolVal?
    case AnonymousStatistics => v.BoolVal?
    case ErrorTracking => v.BoolVal?
    case LogLevel => v.StrVal? && v.str in {"trace", "debug", "info", "warn", "error", "silent"}
    case LastUpdate => v.StrVal?
    case Uuid =>
      v.StrVal? && (UuidShaped(v.str) || (|v.str| == 45 && HasUrnPrefix(v.str) && UuidShaped(v.str[9..])))
  }

  /** `language` is one of the seventeen codes of the `Language` type. */
  lemma LanguageAccepted(v: Value)
    ensures ValidValue(Language, v) <==>
      v.StrVal? && v.str in {"da", "de", "en", "es", "fi", "fr", "it", "ja", "ko",
                             "nl", "pl", "pt_BR", "ru", "sv", "tr", "zh_CN", "zh_TW"}
  {
  }

  /** `token` is the empty string or exactly 40 hex digits of either case. */
  lemma TokenAccepted(v: Value)
    ensures ValidValue(Token, v) <==>
      v.StrVal? && (v.str == "" || (|v.str| == 40 && forall j :: 0 <= j < 40 ==> IsHexDigit(v.str[j])))
  {
    if v.StrVal? {
      TokenMatchIff(v.str);
    }
  }

  /** The pattern of `filter_wrapper` is unanchored: `maxLength` is what
      rejects longer strings, and the empty string fails the pattern. */
  lemma FilterWrapperAccepted(v: Value)
    ensures ValidValue(FilterWrapper, v) <==>
      v.StrVal? && |v.str| == 1 && IsWrapperQuote(v.str[0])
  {
    if v.StrVal? && |v.str| == 1 {
      assert ContainsQuote(v.str) == (IsWrapperQuote(v.str[0]) || ContainsQuote(v.str[1..]));
      assert v.str[1..] == [];
    }
  }

  /** The wrapper pattern accepts every string containing a quote; a longer
      string with a quote passes it and is still rejected by `maxLength`. */
  lemma FilterWrapperPatternAlone(s: string)
    ensures Matches(WrapperPattern, s) <==> exists i :: 0 <= i < |s| && IsWrapperQuote(s[i])
    ensures |s| >= 2 && (exists i :: 0 <= i < |s| && IsWrapperQuote(s[i])) ==>
      Matches(WrapperPattern, s) && !ValidValue(FilterWrapper, StrVal(s))
  {
    ContainsQuoteIff(s);
  }

  /** The uuid pattern alone accepts any string with an 8-4-4-4-12 hex
      substring anywhere; a padded UUID passes it and is rejected by the format. */
  lemma UuidPatternAlone(s: string)
    ensures Matches(UuidPattern, s) <==> exists a, b :: 0 <= a <= b <= |s| && UuidShaped(s[a..b])
    ensures (exists a, b :: 0 <= a <= b <= |s| && UuidShaped(s[a..b])) && |s| != 36 && |s| != 45 ==>
      Matches(UuidPattern, s) && !ValidValue(Uuid, StrVal(s))
  {
    ContainsUuidIff(s);
  }

  /** `uuid` is accepted iff it is a whole 8-4-4-4-12 hex string, or one
      preceded by `urn:uuid:` in any letter case. */
  lemma UuidAccepted(v: Value)
    ensures ValidValue(Uuid, v) <==>
      v.StrVal? && (UuidShaped(v.str) || (|v.str| == 45 && HasUrnPrefix(v.str) && UuidShaped(v.str[9..])))
  {
    if v.StrVal? {
      UuidFormatIff(v.str);
      if UuidFormatMatch(v.str) {
        UuidFormatContainsUuid(v.str);
      }
    }
  }

  /** The table accepts exactly the documented values, key by key. */
  lemma ValidIffDocumented(k: Key, v: Value)
    ensures ValidValue(k, v) <==> Documented(k, v)
  {
    match k
    case Token => TokenAccepted(v);
    case Language => LanguageAccepted(v);
    case FilterWrapper => FilterWrapperAccepted(v);
    case Uuid => UuidAccepted(v);
    case _ =>
  }
}
