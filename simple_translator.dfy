/**
 * The `SimpleTranslator` object: validated setters over its private
 * fields, the rescan that builds one trigger per marked element, and the
 * render pass that replays a snapshot of the triggers in frames of at most
 * `chunkSize` triggers each.
 */
module SimpleTranslator {
  import opened Translations
  import opened Scheduler

  /**
   * The page: for each element in document order, its `translateId`
   * attribute (None when it has none) and its current content.
   */
  class Document {
    const marks: seq<Option<string>>
    const html: array<string>

    ghost predicate Valid()
    {
      html.Length == |marks|
    }

    constructor (marks: seq<Option<string>>, contents: seq<string>)
      requires |marks| == |contents|
      ensures Valid() && this.marks == marks && html[..] == contents && fresh(html)
    {
      this.marks := marks;
      html := new string[|contents|](i => if 0 <= i < |contents| then contents[i] else "");
    }
  }

  /** A caller's object of language bundles, which the caller may go on editing. */
  class PlainObject {
    var props: Table

    constructor (props: Table)
      ensures this.props == props
    {
      this.props := props;
    }
  }

  /** The constructor's options; `translations` is null when the caller passed no object. */
  datatype Options = Options(translations: PlainObject?, language: Option<string>, defaultLanguage: string, chunkSize: int)

  /** The options with every default the constructor fills in. */
  function WithDefaults(translations: PlainObject?): (o: Options)
    ensures o.translations == translations && o.language == None
    ensures o.defaultLanguage == "en" && o.chunkSize == 1000
  {
    Options(translations, None, DEFAULT_LANGUAGE, ITERATION_CHUNK_SIZE)
  }

  /** The `translations` setter's guard: an object with at least one key. */
  predicate TableAccepted(obj: PlainObject?)
    reads obj
  {
    obj != null && |obj.props| > 0
  }

  /** The first setter the constructor runs that throws, in the order chunkSize, translations, defaultLanguage, language. */
  function ConstructionError(options: Options): (e: Option<Error>)
    reads options.translations
    ensures options.chunkSize <= 0 ==> e == Some(InvalidChunkSize(options.chunkSize))
    ensures options.chunkSize > 0 && !TableAccepted(options.translations) ==> e == Some(InvalidTranslations)
    ensures options.chunkSize > 0 && TableAccepted(options.translations) ==>
      var props := options.translations.props;
      && (!HasObjectBundle(props, options.defaultLanguage) ==> e == Some(InvalidLanguage(options.defaultLanguage)))
      && ((HasObjectBundle(props, options.defaultLanguage) && Truthy(options.language)
             && !HasObjectBundle(props, options.language.value)) ==> e == Some(InvalidLanguage(options.language.value)))
    ensures e.None? <==>
      && options.chunkSize > 0 && TableAccepted(options.translations)
      && HasObjectBundle(options.translations.props, options.defaultLanguage)
      && (Truthy(options.language) ==> HasObjectBundle(options.translations.props, options.language.value))
  {
    if options.chunkSize <= 0 then Some(InvalidChunkSize(options.chunkSize))
    else if !TableAccepted(options.translations) then Some(InvalidTranslations)
    else if !HasObjectBundle(options.translations.props, options.defaultLanguage) then
      Some(InvalidLanguage(options.defaultLanguage))
    else if Truthy(options.language) && !HasObjectBundle(options.translations.props, options.language.value) then
      Some(InvalidLanguage(options.language.value))
    else None
  }

  class Translator {
    /** The page the translator scans and writes. */
    const doc: Document
    var translations: Table
    /** None until the constructor sets it (JavaScript's `undefined`). */
    var defaultLanguage: Option<string>
    /** None stands for null. */
    var language: Option<string>
    var chunkSize: int
    /** None until the first rescan (not yet an array). */
    var elements: Option<seq<Trigger>>
    /** The frame callbacks requested and not yet run, each holding its own pending trigger array. */
    var frames: seq<seq<Trigger>>
    /** How many producers have been invoked so far; numbers the next invocation for the oracle. */
    var invocations: nat

    ghost predicate Valid()
      reads this
    {
      && doc.Valid()
      && (elements.Some? ==> Fits(elements.value, |doc.marks|))
      && (forall j :: 0 <= j < |frames| ==> Fits(frames[j], |doc.marks|))
    }

    /** What the constructor establishes and every setter keeps. */
    ghost predicate Constructed()
      reads this
    {
      |translations| > 0 && defaultLanguage.Some? && chunkSize > 0
    }

    /** The trigger list `translate` drains: the existing one, or a fresh scan when there is none yet. */
    ghost function Rescanned(prior: Option<seq<Trigger>>): Option<seq<Trigger>>
      requires doc.Valid()
      reads doc.html
    {
      if prior.None? then Some(Scan(doc.marks, doc.html[..])) else prior
    }

    /** The object before any setter of the constructor has run. */
    constructor Uninitialized(doc: Document)
      requires doc.Valid()
      ensures Valid() && this.doc == doc
      ensures translations == map[] && defaultLanguage == None && language == None && chunkSize == 0
      ensures elements == None && frames == [] && invocations == 0
    {
      this.doc := doc;
      translations := map[];
      defaultLanguage := None;
      language := None;
      chunkSize := 0;
      elements := None;
      frames := [];
      invocations := 0;
    }

    /**
     * `new SimpleTranslator(options)`: runs the setters for chunkSize,
     * translations, defaultLanguage and language in that order; the first
     * that throws is the constructor's error. On success the language
     * setter has rescanned the page and requested the first render pass.
     */
    static method Construct(doc: Document, options: Options) returns (r: Result<Translator>)
      requires doc.Valid()
      ensures r.Failure? <==> ConstructionError(options).Some?
      ensures r.Failure? ==> r.error == ConstructionError(options).value
      ensures r.Success? ==>
        var t := r.value;
        && fresh(t) && t.doc == doc && t.Valid() && t.Constructed()
        && t.translations == options.translations.props
        && t.defaultLanguage == Some(options.defaultLanguage)
        && t.language == options.language
        && t.chunkSize == options.chunkSize
        && t.elements == Some(Scan(doc.marks, doc.html[..]))
        && t.frames == [t.elements.value]
        && t.invocations == 0
    {
      var t := new Translator.Uninitialized(doc);
      var o := t.SetChunkSize(options.chunkSize);
      if o.Fail? {
        return Failure(o.error);
      }
      o := t.SetTranslations(options.translations);
      if o.Fail? {
        return Failure(o.error);
      }
      o := t.SetDefaultLanguage(options.defaultLanguage);
      if o.Fail? {
        return Failure(o.error);
      }
      o := t.SetLanguage(options.language);
      if o.Fail? {
        return Failure(o.error);
      }
      r := Success(t);
    }

    /**
     * The load handler's guard `null === this.language` never holds once
     * construction succeeded: the default is set before the language, and
     * every setter keeps it set.
     */
    static method LoadGuardNeverFires(doc: Document, options: Options) returns (r: Result<Translator>)
      requires doc.Valid()
      ensures r.Success? ==> r.value.Language().Some?
    {
      r := Construct(doc, options);
    }

    /** The `translations` setter: accepts a non-empty object and stores its own copy; touches nothing else. */
    method SetTranslations(obj: PlainObject?) returns (o: Outcome)
      requires Valid()
      modifies this`translations
      ensures Valid()
      ensures o.Pass? <==> TableAccepted(obj)
      ensures o.Pass? ==> translations == obj.props
      ensures o.Fail? ==> o.error == InvalidTranslations && translations == old(translations)
      ensures old(Constructed()) ==> Constructed()
    {
      if obj == null || |obj.props| == 0 {
        return Fail(InvalidTranslations);
      }
      translations := obj.props;
      o := Pass;
    }

    /** The `defaultLanguage` setter: accepts only a code with an object bundle in the current table. */
    method SetDefaultLanguage(code: string) returns (o: Outcome)
      requires Valid()
      modifies this`defaultLanguage
      ensures Valid()
      ensures o.Pass? <==> HasObjectBundle(translations, code)
      ensures o.Pass? ==> defaultLanguage == Some(code)
      ensures o.Fail? ==> o == Fail(InvalidLanguage(code)) && defaultLanguage == old(defaultLanguage)
      ensures old(Constructed()) ==> Constructed()
    {
      if !HasObjectBundle(translations, code) {
        return Fail(InvalidLanguage(code));
      }
      defaultLanguage := Some(code);
      o := Pass;
    }

    /**
     * The `language` setter: a falsy code is always accepted, a truthy one
     * only with an object bundle. On success the code is stored and exactly
     * one render pass is requested; on failure nothing changes.
     */
    method SetLanguage(code: Option<string>) returns (o: Outcome)
      requires Valid()
      modifies this`language, this`elements, this`frames
      ensures Valid()
      ensures o.Pass? <==> !Truthy(code) || HasObjectBundle(translations, code.value)
      ensures o.Fail? ==> o == Fail(InvalidLanguage(code.value)) && unchanged(this)
      ensures o.Pass? ==> language == code && elements == Rescanned(old(elements))
      ensures o.Pass? ==> frames == old(frames) + [elements.value]
      ensures old(Constructed()) ==> Constructed()
    {
      if Truthy(code) && !HasObjectBundle(translations, code.value) {
        return Fail(InvalidLanguage(code.value));
      }
      language := code;
      Translate();
      o := Pass;
    }

    /** The `language` getter: the stored language when truthy, else the default; never None once constructed. */
    function Language(): (r: Option<string>)
      reads this
      ensures r == language || r == defaultLanguage
      ensures Constructed() ==> r.Some?
      ensures Truthy(language) ==> r == language
      ensures !Truthy(language) ==> r == defaultLanguage
    {
      EffectiveLanguage(language, defaultLanguage)
    }

    /** The `chunkSize` setter: a positive size is stored as given, anything else leaves the old one. */
    method SetChunkSize(size: int) returns (o: Outcome)
      requires Valid()
      modifies this`chunkSize
      ensures Valid()
      ensures o.Pass? <==> size > 0
      ensures o.Pass? ==> chunkSize == size
      ensures o.Fail? ==> o == Fail(InvalidChunkSize(size)) && chunkSize == old(chunkSize)
      ensures old(Constructed()) ==> Constructed()
    {
      if size <= 0 {
        return Fail(InvalidChunkSize(size));
      }
      chunkSize := size;
      o := Pass;
    }

    /**
     * `getTranslation`: resolves `key` in the bundle of a truthy override,
     * else of the effective language; a producer is invoked anew on each
     * call, which advances the invocation counter.
     */
    method GetTranslation(key: string, override: Option<string>, produce: Oracle) returns (r: Result<Option<string>>)
      requires Constructed()
      modifies this`invocations
      ensures var lang := RequestedLanguage(override, Language().value);
        && r == Resolve(translations, lang, key, produce, old(invocations))
        && invocations == old(invocations) + Calls(translations, lang, key)
    {
      var lang := RequestedLanguage(override, Language().value);
      r := Resolve(translations, lang, key, produce, invocations);
      invocations := invocations + Calls(translations, lang, key);
    }

    /** The scan behind `reloadTranslationElements`: one trigger per marked element, in document order. */
    method ScanElements() returns (ts: seq<Trigger>)
      requires doc.Valid()
      ensures ts == Scan(doc.marks, doc.html[..])
    {
      ts := [];
      var i := 0;
      while i < doc.html.Length
        invariant 0 <= i <= doc.html.Length
        invariant ts == Scan(doc.marks[..i], doc.html[..i])
      {
        assert doc.marks[..i + 1][..i] == doc.marks[..i];
        assert doc.html[..i + 1][..i] == doc.html[..i];
        if doc.marks[i].Some? {
          ts := ts + [Trigger(i, doc.marks[i].value, doc.html[i])];
        }
        i := i + 1;
      }
      assert doc.marks[..i] == doc.marks;
      assert doc.html[..i] == doc.html[..];
    }

    /** `reloadTranslationElements`: replaces the trigger list; pending frames keep their own arrays. */
    method ReloadTranslationElements()
      requires Valid()
      modifies this`elements
      ensures Valid()
      ensures elements == Some(Scan(doc.marks, doc.html[..]))
      ensures frames == old(frames)
    {
      var ts := ScanElements();
      ScanIsDocumentOrder(doc.marks, doc.html[..]);
      elements := Some(ts);
    }

    /** `translate`: rescans only if there is no trigger list yet, then requests a frame over a copy of it. */
    method Translate()
      requires Valid()
      modifies this`elements, this`frames
      ensures Valid()
      ensures elements == Rescanned(old(elements))
      ensures frames == old(frames) + [elements.value]
    {
      if elements.None? {
        ReloadTranslationElements();
      }
      frames := frames + [elements.value];
    }

    /**
     * One frame of a render pass (`translateElementsChunk`): takes the
     * oldest requested frame, removes the first min(chunkSize, remaining)
     * triggers and runs them in order. If one throws, the rest of the batch
     * and the pass are abandoned; otherwise, if triggers remain, the next
     * frame is requested.
     */
    method Step(produce: Oracle) returns (o: Outcome)
      requires Valid() && Constructed() && frames != []
      modifies this`frames, this`invocations, doc.html
      ensures Valid()
      ensures var job := old(frames[0]);
        var k := Min(chunkSize, |job|);
        var r := RunTriggers(job[..k], translations, Language().value, produce, old(doc.html[..]), old(invocations));
        && doc.html[..] == r.html && invocations == r.tick
        && (o.Fail? <==> r.error.Some?) && (o.Fail? ==> r.error == Some(o.error))
        && frames == old(frames[1..]) + (if r.error.None? && k < |job| then [job[k..]] else [])
    {
      var job := frames[0];
      frames := frames[1..];
      var k := Min(chunkSize, |job|);
      o := RunBatch(job[..k], produce);
      if o.Pass? && k < |job| {
        frames := frames + [job[k..]];
      }
    }

    /** Runs the triggers of one batch in order, synchronously, stopping at the first that throws. */
    method RunBatch(batch: seq<Trigger>, produce: Oracle) returns (o: Outcome)
      requires Valid() && Constructed() && Fits(batch, doc.html.Length)
      modifies this`invocations, doc.html
      ensures Valid() && Constructed()
      ensures var r := RunTriggers(batch, translations, Language().value, produce, old(doc.html[..]), old(invocations));
        && doc.html[..] == r.html && invocations == r.tick
        && (o.Fail? <==> r.error.Some?) && (o.Fail? ==> r.error == Some(o.error))
    {
      ghost var lang := Language().value;
      ghost var whole := RunTriggers(batch, translations, lang, produce, doc.html[..], invocations);
      var i := 0;
      o := Pass;
      while i < |batch| && o.Pass?
        invariant 0 <= i <= |batch|
        invariant o.Pass? ==> whole == RunTriggers(batch[i..], translations, lang, produce, doc.html[..], invocations)
        invariant o.Fail? ==> whole == Run(doc.html[..], invocations, Some(o.error))
        decreases |batch| - i, o.Pass?
      {
        var t := batch[i];
        ghost var first := Apply(t, translations, lang, produce, doc.html[..], invocations);
        assert batch[i..][0] == t && batch[i..][1..] == batch[i + 1..];
        var r := GetTranslation(t.key, None, produce);
        if r.Failure? {
          o := Fail(r.error);
          assert first.error == Some(o.error);
        } else {
          doc.html[t.elem] := Shown(r.value, t.defaultHtml);
          assert doc.html[..] == first.html && invocations == first.tick;
          i := i + 1;
        }
      }
      assert o.Pass? ==> batch[i..] == [];
    }

    /**
     * A render pass run to its end in isolation: the frames a single
     * requested pass goes through, one `Step` each. The page ends as if every
     * trigger had run in one go, whatever the chunk size, and a pass that
     * does not throw takes ceil(n / chunkSize) frames (one when n is 0).
     */
    method CompletePass(produce: Oracle) returns (batches: nat, o: Outcome)
      requires Valid() && Constructed() && |frames| == 1
      modifies this`frames, this`invocations, doc.html
      ensures Valid() && frames == []
      ensures var r := RunTriggers(old(frames[0]), translations, Language().value, produce, old(doc.html[..]), old(invocations));
        && doc.html[..] == r.html && invocations == r.tick
        && (o.Fail? <==> r.error.Some?) && (o.Fail? ==> r.error == Some(o.error))
      ensures o.Pass? ==> batches == |BatchSizes(|old(frames[0])|, chunkSize)|
    {
      ghost var job := frames[0];
      ghost var lang := Language().value;
      ghost var final := ChunkedPass(job, chunkSize, translations, lang, produce, doc.html[..], invocations);
      ChunkSizeIrrelevant(job, chunkSize, translations, lang, produce, doc.html[..], invocations);
      batches := 0;
      o := Pass;
      while frames != []
        invariant Valid() && Constructed() && Language().value == lang
        invariant |frames| <= 1
        invariant frames != [] ==>
          && o.Pass?
          && final == ChunkedPass(frames[0], chunkSize, translations, lang, produce, doc.html[..], invocations)
          && batches + |BatchSizes(|frames[0]|, chunkSize)| == |BatchSizes(|job|, chunkSize)|
        invariant frames == [] ==>
          && final == Run(doc.html[..], invocations, if o.Pass? then None else Some(o.error))
          && (o.Pass? ==> batches == |BatchSizes(|job|, chunkSize)|)
        decreases if frames == [] then 0 else |frames[0]| + 1
      {
        ghost var rest := frames[0];
        o := Step(produce);
        batches := batches + 1;
      }
    }
  }

  /**
   * Edits the caller makes to its object after the setter returns are not
   * seen by the translator. Tables are values here, so this would hold just
   * as well if the setter kept the caller's object without copying it: it
   * shows the stored table's independence, not the copy at the source level.
   */
  method CallerEditsAreNotSeen(t: Translator, obj: PlainObject, edited: Table) returns (o: Outcome)
    requires t.Valid()
    modifies t`translations, obj
    ensures obj.props == edited
    ensures o.Pass? <==> |old(obj.props)| > 0
    ensures o.Pass? ==> t.translations == old(obj.props)
  {
    o := t.SetTranslations(obj);
    obj.props := edited;
  }

  /** English by default, German once selected, and an unknown code refused. */
  method LanguageSwitchScenario(produce: Oracle)
  {
    var table := map["en" := Bundle(map["A" := Literal("hi")]), "de" := Bundle(map["A" := Literal("hallo")])];
    var obj := new PlainObject(table);
    var doc := new Document([Some("A")], ["hi"]);
    var made := Translator.Construct(doc, WithDefaults(obj));
    assert ConstructionError(WithDefaults(obj)) == None;
    var t := made.value;
    assert t.Language() == Some("en");
    var o := t.SetLanguage(Some("de"));
    assert o.Pass?;
    var hallo := t.GetTranslation("A", None, produce);
    assert hallo == Success(Some("hallo"));
    o := t.SetLanguage(Some("fr"));
    assert o == Fail(InvalidLanguage("fr"));
    assert t.Language() == Some("de");
  }
}
