# SimpleTranslator in Dafny

A model of `SimpleTranslator` (`src/SimpleTranslator.js`). It is a client-side page-localisation helper with two parts:

- a **translation store**: the validated private fields behind the `translations`, `defaultLanguage`, `language` and `chunkSize` setters, the effective-language getter, and `getTranslation`;
- a **chunked render scheduler**: `reloadTranslationElements` builds one trigger per element marked with `translateId`. `translate` replays a snapshot of those triggers in frames, each of which runs at most `chunkSize` of them.

The project has three modules:

- `Translations` (`translations.dfy`) holds the store's values. These are the table of bundles and the setters' guards. It also resolves a key to a literal, a producer's current output or no value.
- `Scheduler` (`scheduler.dfy`) is a value-level specification of the triggers and of a pass. It covers the rescan (`Scan`), running a batch (`RunTriggers`), a pass split into batches (`ChunkedPass`) and the batch sizes. It also holds the lemmas about them.
- `SimpleTranslator` (`simple_translator.dfy`) holds the object itself, as the class `Translator`. Its fields are the source's private symbol-keyed fields, updated in place by setters that validate first. It also has two fields the source does not: `frames`, the frame callbacks requested and not yet run, and `invocations`, a producer-invocation counter. The page is a `Document` whose element contents sit in an array. The triggers write to that array.

Modelling choices:

- A bundle value is `Literal(text)` or `Producer(id)`. Producer `id` on the n-th producer invocation returns `produce(id, n)`. `produce` is an oracle passed in by the caller. Each read therefore invokes the producer again and may give a different text.
- A table entry is `Bundle(map)`, `NullEntry` or `Primitive`:
  - `typeof null` is `'object'`, so a null entry passes the `defaultLanguage` and `language` guards, but reading a key from it throws.
  - Any other non-object entry (a string, a number) fails those guards, and indexing it with a key is modelled as no value.
  - A bundle is a map of its own keys to strings or producers. Keys inherited from `Object.prototype` and table entries whose value is `undefined` are not represented (see "## Left out").
- `language` is `Option<string>`, with `None` for null. Both null and `''` are falsy.
- `defaultLanguage` is `None` only before the constructor's setter runs (JavaScript's `undefined`).
- A `TypeError` is `Fail(error)` or `Failure(error)`. A setter that fails leaves the state as it was.
- `requestAnimationFrame` becomes the FIFO sequence `frames`. Each entry is the trigger array of one requested callback. One `Step` runs the oldest callback:
  - It removes `min(chunkSize, remaining)` triggers from the front and runs them in order.
  - If a trigger throws (the bundle of the effective language is missing or null), the rest of that batch is skipped and no further frame is requested. The source behaves the same way, because the exception escapes before the re-scheduling line.
  - Otherwise it requests the next frame if triggers remain.

In three places the code is more permissive than a reader might expect:

- A chunk size such as `1.5` is accepted by the code, since `parseInt` gives 1 and `1.5 > 0`; `splice` then truncates it and removes one trigger per frame. Sizes are integers here, so this case cannot be expressed in the model (see "## Left out").
- The `translations` setter does not check that each bundle is non-empty.
- The default and selected languages are not re-validated when the table is replaced. A later render can then throw.

## Model

| member | source | states |
|---|---|---|
| `Translations.EffectiveLanguage` | src/SimpleTranslator.js:126-128 | the getter yields the selected language exactly when it is truthy (null or `''` are not), and the default otherwise |
| `Translations.Lookup` | src/SimpleTranslator.js:160 | reading `table[lang][key]` throws exactly when no entry or a null entry sits under `lang`, with that code as the error; a value is found exactly when `lang` holds a bundle that has `key`, and it is that bundle's value for `key` |
| `Translations.Evaluate` | src/SimpleTranslator.js:162 | a missing value stays missing; a literal reads as its own text; a producer is called and its output for the current invocation returned |
| `Translations.Resolve` | src/SimpleTranslator.js:160-162 | `getTranslation` for a fixed language throws exactly when the bundle is missing or null, with that code; it yields a text exactly when the bundle has the key, and that text is the literal or the producer's current output |
| `Translations.RequestedLanguage` | src/SimpleTranslator.js:160 | `getTranslation` reads the override's bundle when the override is truthy, else the effective language's |
| `Translations.Shown` | src/SimpleTranslator.js:176 | a trigger writes the resolution when it is truthy, otherwise the captured default (so an empty string falls back as well) |
| `Translations.ValidatedBundleResolves` | src/SimpleTranslator.js:160 | for a code that passed the setters' object guard, resolving any key fails exactly when the entry is null |
| `Translations.FailureIgnoresKey` | src/SimpleTranslator.js:160 | whether resolution throws depends on the language only, never on the key |
| `Translations.ProducerIsReinvoked` | src/SimpleTranslator.js:162 | a producer is invoked on every read and its output for that invocation returned, costing one invocation; a literal reads the same every time and invokes nothing |
| `Translations.MissingKeyShowsDefault` | src/SimpleTranslator.js:176 | a key absent from a readable bundle resolves to no value, and the element shows its captured default |
| `Scheduler.Scan` | src/SimpleTranslator.js:169-178 | the rescan's triggers point inside the page in strictly increasing element order, so no element gets more than one |
| `Scheduler.ScanIsDocumentOrder` | src/SimpleTranslator.js:168-179 | the rescan's triggers point into the page in strictly increasing document order; each belongs to a marked element and carries its key and its content at scan time |
| `Scheduler.ScanCoversMarked` | src/SimpleTranslator.js:169-171 | every element that carries `translateId` gets a trigger |
| `Scheduler.Apply` | src/SimpleTranslator.js:175-177 | running one trigger keeps the page's size |
| `Scheduler.ApplyWritesOwnElement` | src/SimpleTranslator.js:175-177 | a trigger writes only its own element; when resolution throws it writes nothing and invokes no producer; otherwise the element shows the key's resolution when truthy, else its captured default, and the counter advances by one exactly for a producer |
| `Scheduler.RunTriggers` | src/SimpleTranslator.js:195 | running a batch keeps the page's size and never moves the invocation counter backwards |
| `Scheduler.RunTriggersAppend` | src/SimpleTranslator.js:194-200 | running `a + b` is running `a` and then, unless it threw, `b` from the state `a` left |
| `Scheduler.RunTriggersFailsWhole` | src/SimpleTranslator.js:194-200 | a run throws exactly when it has a trigger and the effective language's bundle is missing or null; it then throws at the first trigger and writes nothing |
| `Scheduler.RunTriggersFrame` | src/SimpleTranslator.js:175-177 | with elements as disjoint slots, an element that no trigger points at is left as it was |
| `Scheduler.RunTriggersWrites` | src/SimpleTranslator.js:171-178 | after a run that does not throw, each trigger's element shows its key's resolution at that trigger's turn, or its captured default |
| `Scheduler.PassLeavesUnmarked` | src/SimpleTranslator.js:169 | a pass over a rescan's triggers never changes an unmarked element |
| `Scheduler.RunTriggersTicks` | src/SimpleTranslator.js:162 | a run that does not throw advances the invocation counter by one per producer read |
| `Scheduler.ChunkedPass` | src/SimpleTranslator.js:194-202 | a pass split into frames keeps the page's size and, when nothing throws, never moves the invocation counter backwards |
| `Scheduler.ChunkSizeIrrelevant` | src/SimpleTranslator.js:194-202 | for producers whose output depends on the invocation order only, a pass over frames of any positive chunk size ends with the same page, counter and error as running every trigger in order in one go |
| `Scheduler.ChunkSizesAgree` | src/SimpleTranslator.js:194-202 | under the same producer assumption, two chunk sizes give identical final states |
| `Scheduler.BatchSizes` | src/SimpleTranslator.js:195-199 | a pass takes at least one frame, and no frame runs more than the chunk size |
| `Scheduler.BatchCount` | src/SimpleTranslator.js:195-199 | n triggers take the least k frames with n <= k * chunkSize, i.e. ceil(n / chunkSize), and one frame when n is 0 |
| `Scheduler.BatchSizesCover` | src/SimpleTranslator.js:195 | the batch sizes add up to n; none exceeds the chunk size and all but the last are full |
| `Scheduler.TwoHundredFiftyInHundreds` | src/SimpleTranslator.js:195-199 | 250 triggers in chunks of 100 run as 100, 100 and 50 |
| `SimpleTranslator.WithDefaults` | src/SimpleTranslator.js:47-52 | the constructor's defaults: language null, default language `en`, chunk size 1000 |
| `SimpleTranslator.ConstructionError` | src/SimpleTranslator.js:53-57 | construction fails at the first failing setter in the order chunkSize, translations, defaultLanguage, language, with that setter's error; it succeeds exactly when the size is positive, the table is accepted, the default has an object bundle and a truthy language has one too |
| `SimpleTranslator.Translator.Construct` | src/SimpleTranslator.js:47-60 | construction fails exactly with the first setter's error; on success the options are stored, the page has been scanned once and exactly one pass over that scan is requested |
| `SimpleTranslator.Translator.LoadGuardNeverFires` | src/SimpleTranslator.js:21 | after a successful construction the `language` getter never yields null, so the load handler's inference never runs |
| `SimpleTranslator.Translator.SetTranslations` | src/SimpleTranslator.js:67-73 | accepted exactly for a non-null object with a key; stores its own copy; on failure the table is unchanged; no other field is touched |
| `SimpleTranslator.Translator.SetDefaultLanguage` | src/SimpleTranslator.js:89-95 | accepted exactly when the current table has an object or null under the code among its own keys; otherwise the previous default remains |
| `SimpleTranslator.Translator.SetLanguage` | src/SimpleTranslator.js:111-119 | a falsy code is always accepted, a truthy one only with an object or null bundle among the table's own keys; on success the code is stored and exactly one frame is requested over the (possibly just built) trigger list; on failure nothing changes |
| `SimpleTranslator.Translator.Language` | src/SimpleTranslator.js:126-128 | the getter returns the stored language when it is truthy and the default when it is null or `''`, and never None once constructed |
| `SimpleTranslator.Translator.SetChunkSize` | src/SimpleTranslator.js:135-141 | accepted exactly for a positive size, which is stored unchanged; otherwise the old size remains |
| `SimpleTranslator.Translator.GetTranslation` | src/SimpleTranslator.js:159-163 | the result is the resolution of the key in the override's or the effective language's bundle at the current invocation; the counter advances by one for a producer |
| `SimpleTranslator.Translator.ScanElements` | src/SimpleTranslator.js:169-178 | the loop over the page builds exactly the rescan's trigger list |
| `SimpleTranslator.Translator.ReloadTranslationElements` | src/SimpleTranslator.js:168-179 | the trigger list is replaced by a fresh scan; frames already requested keep their own arrays |
| `SimpleTranslator.Translator.Translate` | src/SimpleTranslator.js:184-203 | rescans only when there is no trigger list yet, then requests one frame over a copy of the list |
| `SimpleTranslator.Translator.Step` | src/SimpleTranslator.js:194-200 | one frame runs the first min(chunkSize, remaining) triggers of the oldest callback in order, re-reading chunkSize; the rest is requested as a new frame unless nothing remains or a trigger threw |
| `SimpleTranslator.Translator.RunBatch` | src/SimpleTranslator.js:195 | the batch's triggers run in order, the page and counter ending as `RunTriggers` says, stopping at the first that throws |
| `SimpleTranslator.Translator.CompletePass` | src/SimpleTranslator.js:194-202 | a single requested pass run to its end leaves the page as running all triggers in one go, whatever the chunk size, for producers whose output depends on the invocation order only, and one that does not throw takes exactly as many frames as `BatchSizes` has entries |
| `SimpleTranslator.CallerEditsAreNotSeen` | src/SimpleTranslator.js:72 | after a successful set, edits the caller makes to its own object leave the stored table as it was at the call |

## Left out

- `initialize` and the `load` listener (src/SimpleTranslator.js:19-31) are DOM event plumbing and are not modelled. The only thing modelled about them is that their guard cannot fire (`LoadGuardNeverFires`). The inference from the `html` element's `lang` attribute is therefore not modelled either.
- Real DOM access is abstracted as a `Document`: a sequence of optional `translateId` keys and an array of element contents. This covers `querySelectorAll`, `getAttribute` and `innerHTML`. HTML parsing, attribute changes after a scan, and the string conversions done by the template literals are not modelled.
- A `Document`'s elements and their `translateId` marks are fixed for its lifetime. Two things the source allows therefore cannot be expressed: a rescan over a page that has gained or lost elements since the previous scan (the demo replaces a container's contents and then calls `reloadTranslationElements`), and triggers from an older scan writing to elements that are no longer on the page.
- Real `requestAnimationFrame` timing is not modelled. A frame is one `Step` on the `frames` queue, and only the translator's own callbacks are in that queue.
- CompletePass: proves the single-pass properties only for a pass running alone (one requested frame). Overlapping passes started by repeated language changes are representable in `frames`, but no property is proved about their interleaving, and no cancellation exists.
- JavaScript coercions are not modelled:
  - `typeof` on arbitrary values and `parseInt` on strings; sizes are `int`, so non-integer sizes (kept by the source and truncated by `splice`) and string sizes from form inputs cannot be expressed;
  - null or undefined codes coerced to the keys `"null"` and `"undefined"`;
  - a string entry indexed by a numeric key, modelled as no value;
  - bundle values that are neither strings nor functions.
- SetDefaultLanguage, SetLanguage: the guard reads only the table's own keys. In the source, `this.translations[code]` also finds inherited names: the stored table is a plain object, so for the code `"__proto__"` (absent as an own key) it yields `Object.prototype`, whose `typeof` is `'object'`. Both setters then accept that code; `set language('__proto__')` stores it and starts a pass whose triggers read `Object.prototype[key]`, undefined for ordinary keys, so every element shows its captured default. The model rejects that code with `InvalidLanguage` and starts no pass.
- ChunkSizeIrrelevant, ChunkSizesAgree, CompletePass: proved for producers whose output depends only on which producer is called and on the invocation's position in the sequence of invocations (tables of literals always qualify). A producer that reads a clock, such as the demo's time producer, can give different outputs on either side of a frame boundary, so with such producers the final page can depend on the chunk size.
- LoadGuardNeverFires, Language: `defaultLanguage` is modelled as a string. The source also accepts `defaultLanguage: null` when the table has a `"null"` key, because `translations[null]` reads the key `"null"`. It then stores null, the getter returns null and the load guard at src/SimpleTranslator.js:21 does fire.
- SetChunkSize: sizes are integers. The source also accepts a size strictly between 0 and 1 (`parseInt(0.5)` is 0, not NaN, and `0.5 > 0`). `splice(0, 0.5)` then removes nothing, so `translateElementsChunk` re-requests itself forever and the pass never ends.
- RunTriggersFrame, PassLeavesUnmarked: elements are modelled as disjoint slots with no nesting. In the DOM, writing a marked element's `innerHTML` also changes the `innerHTML` of every ancestor, so an unmarked element around a marked one does change.
- Lookup, Resolve: a table holds only its own keys, and a bundle only string or function values. In the source, a table entry whose value is `undefined` (`{ en: undefined }`) is an own key, so the `translations` setter accepts the table, yet reading a key through that entry throws; the model has no such entry. Keys inherited from `Object.prototype` (`toString`, `constructor`, `hasOwnProperty`) are found by `table[lang][key]`, and the functions found are invoked as producers; the model reads them as no value.
- What producers do, and exceptions thrown inside them, are not modelled. Their outputs come from the `produce` oracle. The `invocations` counter exists only to number invocations.
- SetTranslations: bundles are values, so the model does not capture aliasing the source allows. The copy at src/SimpleTranslator.js:72 is shallow, so edits to a bundle object the caller still holds do show through. Likewise, the `translations` getter (src/SimpleTranslator.js:80-82) hands out the stored object itself.
- The `ITERATION_CHUNK_SIZE` static getter is the constant `ITERATION_CHUNK_SIZE`. The other getters are plain field reads of the class.
- example/main.js is demo wiring (DOM lookups, click handlers, a clock) and is not part of this model.
