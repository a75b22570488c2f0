/**
 * The `config` package: a key/value store over a map, with a lookup that takes an
 * optional default, a string-typed lookup, and an in-place update.
 *
 * Values are Go `interface{}` values as YAML produces them; only the difference
 * between a string, nil and anything else matters to the store.
 */
module ConfigStore {
  import opened Wrappers

  /** A stored value: a string, nil, or any other (non-nil, non-string) value. */
  datatype Value = Str(s: string) | Null | Other

  /**
   * How reading a configuration file ended: a stage failed, or the YAML document
   * was parsed into a map. Expanding `~`, reading the file and decoding YAML are
   * done by libraries outside this model.
   */
  datatype LoadOutcome =
    | ExpandFailed
    | ReadFailed
    | NoInput
    | YamlFailed
    | Parsed(parsed: map<string, Value>)

  /** The error `Load` returns, one per failing stage. */
  datatype LoadError = CannotExpandHome | ReadError | NoInputFound | YamlCheckError

  /** The error `Load` reports for a failed stage. */
  function LoadErrorOf(outcome: LoadOutcome): (e: LoadError)
    requires !outcome.Parsed?
    ensures e == CannotExpandHome <==> outcome == ExpandFailed
    ensures e == ReadError <==> outcome == ReadFailed
    ensures e == NoInputFound <==> outcome == NoInput
    ensures e == YamlCheckError <==> outcome == YamlFailed
  {
    match outcome
    case ExpandFailed => CannotExpandHome
    case ReadFailed => ReadError
    case NoInput => NoInputFound
    case YamlFailed => YamlCheckError
  }

  class Config {
    var data: map<string, Value>

    /** `New`: a Config with no keys, so every lookup falls back to its default. */
    constructor ()
      ensures data == map[]
      ensures forall key, default :: Get(key, default) == default.GetOr(Null)
    {
      data := map[];
    }

    /** A Config whose data is an already parsed map. */
    constructor FromParsed(parsed: map<string, Value>)
      ensures data == parsed
    {
      data := parsed;
    }

    /** `Load`: the parsed map becomes the data; a failed stage gives no Config and its error. */
    static method Load(outcome: LoadOutcome) returns (c: Config?, err: Option<LoadError>)
      ensures outcome.Parsed? ==> err == None && c != null && fresh(c) && c.data == outcome.parsed
      ensures !outcome.Parsed? ==> c == null && err == Some(LoadErrorOf(outcome))
    {
      if outcome.Parsed? {
        c := new Config.FromParsed(outcome.parsed);
        err := None;
      } else {
        c := null;
        err := Some(LoadErrorOf(outcome));
      }
    }

    /**
     * `Get(key[, default])`: a present key gives its stored value, nil included,
     * whatever the default; an absent key gives the default, or nil without one.
     */
    function Get(key: string, default: Option<Value>): (v: Value)
      reads this
      ensures key in data ==> v == data[key]
      ensures key !in data ==> v == default.GetOr(Null)
    {
      if key in data then data[key] else default.GetOr(Null)
    }

    /**
     * The type assertions in `GetString` succeed: when `Get` yields nil, a supplied
     * default must be a string; otherwise the value `Get` yields must be one.
     */
    predicate GetStringDefined(key: string, default: Option<Value>)
      reads this
      ensures key in data && data[key].Str? ==> GetStringDefined(key, default)
      ensures key in data && data[key].Other? ==> !GetStringDefined(key, default)
      ensures key in data && data[key] == Null ==>
                (GetStringDefined(key, default) <==> default.None? || default.value.Str?)
      ensures key !in data ==>
                (GetStringDefined(key, default) <==> default.None? || default.value.Str?)
    {
      var v := Get(key, default);
      if v == Null then default.None? || default.value.Str? else v.Str?
    }

    /**
     * `GetString(key[, default])`: the string `Get` yields; when `Get` yields nil,
     * the default, or "" without one.
     */
    function GetString(key: string, default: Option<Value>): (s: string)
      reads this
      requires GetStringDefined(key, default)
      ensures Get(key, default).Str? ==> s == Get(key, default).s
      ensures Get(key, default) == Null && default.Some? ==> s == default.value.s
      ensures Get(key, default) == Null && default.None? ==> s == ""
    {
      var v := Get(key, default);
      if v == Null then
        match default
        case Some(d) => d.s
        case None => ""
      else
        v.s
    }

    /** `Set(key, value)`: the key now holds the value; every other key keeps its own. */
    method Set(key: string, value: Value)
      modifies this
      ensures data == old(data)[key := value]
      ensures forall default :: Get(key, default) == value
      ensures data.Keys == old(data.Keys) + {key}
      ensures forall k :: k in old(data) && k != key ==> data[k] == old(data)[k]
    {
      data := data[key := value];
    }
  }

  /** A present key wins over any default, even when it holds nil. */
  lemma GetIgnoresDefault(c: Config, key: string, d1: Option<Value>, d2: Option<Value>)
    requires key in c.data
    ensures c.Get(key, d1) == c.Get(key, d2) == c.data[key]
  {
  }

  /**
   * A key present with nil: `Get` returns nil even when a default is given, while
   * `GetString` returns the default.
   */
  lemma NullKeyGetVersusGetString(c: Config, key: string, fallback: string)
    requires key in c.data && c.data[key] == Null
    ensures c.Get(key, Some(Str(fallback))) == Null
    ensures c.GetStringDefined(key, Some(Str(fallback)))
    ensures c.GetString(key, Some(Str(fallback))) == fallback
    ensures c.GetString(key, None) == ""
  {
  }

  /** `GetString` cannot tell an absent key from one present with nil. */
  lemma GetStringAbsentOrNull(c: Config, key: string, default: Option<Value>)
    requires key !in c.data || c.data[key] == Null
    requires default.None? || default.value.Str?
    ensures c.GetStringDefined(key, default)
    ensures c.GetString(key, default) == if default.Some? then default.value.s else ""
  {
  }

  /** A key holding a string gives that string, whatever the default. */
  lemma GetStringOfString(c: Config, key: string, default: Option<Value>)
    requires key in c.data && c.data[key].Str?
    ensures c.GetStringDefined(key, default)
    ensures c.GetString(key, default) == c.data[key].s
  {
  }

  /**
   * Two Configs whose data differ by one update: the updated key yields the new
   * value under every default, every other key yields what it did before.
   */
  lemma UpdateOnlyTouchesKey(before: Config, after: Config, key: string, value: Value)
    requires after.data == before.data[key := value]
    ensures forall default :: after.Get(key, default) == value
    ensures forall k, default :: k != key ==> after.Get(k, default) == before.Get(k, default)
  {
  }

  /**
   * Two `Set` calls on one key: the later value is what `Get` returns, and a
   * different key reads as before.
   */
  method LaterSetWins(c: Config, key: string, other: string, v1: Value, v2: Value, default: Option<Value>)
    requires other != key
    modifies c
    ensures c.Get(key, default) == v2
    ensures c.Get(other, default) == old(c.Get(other, default))
  {
    c.Set(key, v1);
    c.Set(key, v2);
  }
}
