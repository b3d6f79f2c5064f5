/**
 * The translation store's values: the table of language bundles, the
 * validation the setters apply to it, and the resolution of one key
 * against one bundle (a literal, a producer that is invoked on every read,
 * or no value at all).
 */
module Translations {

  datatype Option<T> = None | Some(value: T)

  /** A bundle value: a literal text, or a zero-argument producer, named here by an id. */
  datatype Value = Literal(text: string) | Producer(id: nat)

  /**
   * What a table holds under a language code. `typeof null` is 'object', so
   * a null entry passes the setters' guard like a real bundle, but reading a
   * key from it throws; any other non-object entry fails the guard and
   * yields no value when indexed.
   */
  datatype Entry = Bundle(values: map<string, Value>) | NullEntry | Primitive

  type Table = map<string, Entry>

  /** The output of producer `id` on the `n`-th producer invocation overall. */
  type Oracle = (nat, nat) -> string

  /** The TypeErrors the source throws. */
  datatype Error =
    | InvalidTranslations              // not an object, or an object with no keys
    | InvalidLanguage(code: string)    // no object bundle under this code
    | InvalidChunkSize(size: int)      // not a positive number
    | UnreadableBundle(code: string)   // a key was read from `undefined` or `null`

  datatype Result<T> = Success(value: T) | Failure(error: Error)

  datatype Outcome = Pass | Fail(error: Error)

  /** Default of the constructor's `chunkSize` option. */
  const ITERATION_CHUNK_SIZE: int := 1000

  /** Default of the constructor's `defaultLanguage` option. */
  const DEFAULT_LANGUAGE: string := "en"

  /** JavaScript truthiness of a string or null: null and '' are falsy. */
  predicate Truthy(s: Option<string>)
  {
    s.Some? && s.value != ""
  }

  /** `typeof entry === 'object'`, which holds for null as well. */
  predicate IsObject(e: Entry)
  {
    e.Bundle? || e.NullEntry?
  }

  /** The guard of the `defaultLanguage` and `language` setters. */
  predicate HasObjectBundle(table: Table, code: string)
  {
    code in table && IsObject(table[code])
  }

  /** Reading a key from `table[code]` does not throw. */
  predicate Readable(table: Table, code: string)
  {
    code in table && !table[code].NullEntry?
  }

  /** The `language` getter: the stored language when truthy, else the default. */
  function EffectiveLanguage(selected: Option<string>, default: Option<string>): (r: Option<string>)
    ensures r == selected || r == default
    ensures !Truthy(selected) ==> r == default
    ensures Truthy(selected) ==> r == selected
  {
    if Truthy(selected) then selected else default
  }

  /** `table[lang][key]`: the bundle value, no value, or the TypeError of indexing undefined or null. */
  function Lookup(table: Table, lang: string, key: string): (r: Result<Option<Value>>)
    ensures r.Failure? <==> !Readable(table, lang)
    ensures r.Failure? ==> r.error == UnreadableBundle(lang)
    ensures r.Success? && r.value.Some? <==> lang in table && table[lang].Bundle? && key in table[lang].values
    ensures r.Success? && r.value.Some? ==> r.value.value == table[lang].values[key]
  {
    if lang !in table then Failure(UnreadableBundle(lang))
    else match table[lang]
      case NullEntry => Failure(UnreadableBundle(lang))
      case Primitive => Success(None)
      case Bundle(m) => Success(if key in m then Some(m[key]) else None)
  }

  /** The value a bundle entry reads as: a literal as-is, a producer's output for this invocation. */
  function Evaluate(v: Option<Value>, produce: Oracle, tick: nat): (r: Option<string>)
    ensures r.None? <==> v.None?
    ensures v.Some? && v.value.Literal? ==> r == Some(v.value.text)
    ensures v.Some? && v.value.Producer? ==> r == Some(produce(v.value.id, tick))
  {
    match v
    case None => None
    case Some(Literal(s)) => Some(s)
    case Some(Producer(id)) => Some(produce(id, tick))
  }

  /** How many producer invocations reading `key` costs: one for a producer, none otherwise. */
  function Calls(table: Table, lang: string, key: string): (n: nat)
  {
    match Lookup(table, lang, key)
    case Success(Some(Producer(_))) => 1
    case _ => 0
  }

  /** `getTranslation`'s result once the language is fixed; `tick` numbers the next producer invocation. */
  function Resolve(table: Table, lang: string, key: string, produce: Oracle, tick: nat): (r: Result<Option<string>>)
    ensures r.Failure? <==> !Readable(table, lang)
    ensures r.Failure? ==> r.error == UnreadableBundle(lang)
    ensures r.Success? && r.value.Some? <==> lang in table && table[lang].Bundle? && key in table[lang].values
    ensures r.Success? && r.value.Some? ==>
      match table[lang].values[key]
      case Literal(s) => r.value.value == s
      case Producer(id) => r.value.value == produce(id, tick)
  {
    match Lookup(table, lang, key)
    case Failure(e) => Failure(e)
    case Success(v) => Success(Evaluate(v, produce, tick))
  }

  /** The language `getTranslation` reads: a truthy override, else the effective language. */
  function RequestedLanguage(override: Option<string>, effective: string): (r: string)
    ensures Truthy(override) ==> r == override.value
    ensures !Truthy(override) ==> r == effective
  {
    if Truthy(override) then override.value else effective
  }

  /** The content a trigger writes: the resolution when truthy, else the captured default. */
  function Shown(resolved: Option<string>, fallback: string): (r: string)
    ensures r == fallback || (Truthy(resolved) && r == resolved.value)
    ensures Truthy(resolved) ==> r == resolved.value
  {
    if Truthy(resolved) then resolved.value else fallback
  }

  /**
   * A bundle that passed the setters' guard and is not null can be read for
   * every key: resolution fails only when no object or a null sits under the code.
   */
  lemma ValidatedBundleResolves(table: Table, lang: string, key: string, produce: Oracle, tick: nat)
    requires HasObjectBundle(table, lang)
    ensures Resolve(table, lang, key, produce, tick).Failure? <==> table[lang].NullEntry?
  {
  }

  /** Whether resolution fails depends on the language only, never on the key. */
  lemma FailureIgnoresKey(table: Table, lang: string, k1: string, k2: string, produce: Oracle, t1: nat, t2: nat)
    ensures Resolve(table, lang, k1, produce, t1).Failure? <==> Resolve(table, lang, k2, produce, t2).Failure?
  {
  }

  /**
   * A producer is invoked on every read and its current output returned, so
   * two reads at different invocation numbers may give different texts;
   * a literal reads the same every time.
   */
  lemma ProducerIsReinvoked(table: Table, lang: string, key: string, produce: Oracle, t1: nat, t2: nat)
    requires Readable(table, lang) && table[lang].Bundle? && key in table[lang].values
    ensures table[lang].values[key].Producer? ==>
      var id := table[lang].values[key].id;
      Resolve(table, lang, key, produce, t1) == Success(Some(produce(id, t1))) &&
      Resolve(table, lang, key, produce, t2) == Success(Some(produce(id, t2))) &&
      Calls(table, lang, key) == 1
    ensures table[lang].values[key].Literal? ==>
      Resolve(table, lang, key, produce, t1) == Resolve(table, lang, key, produce, t2) ==
        Success(Some(table[lang].values[key].text)) &&
      Calls(table, lang, key) == 0
  {
  }

  /** A key missing from a readable bundle resolves to no value, and the default is shown. */
  lemma MissingKeyShowsDefault(table: Table, lang: string, key: string, produce: Oracle, tick: nat, fallback: string)
    requires Readable(table, lang)
    requires !(table[lang].Bundle? && key in table[lang].values)
    ensures Resolve(table, lang, key, produce, tick) == Success(None)
    ensures Shown(Resolve(table, lang, key, produce, tick).value, fallback) == fallback
  {
  }
}
