/**
 * The chunked render scheduler, on values: the triggers a rescan builds,
 * what running a batch of them does to the page, a whole pass replayed in
 * batches of a chunk size, and the sizes of those batches.
 */
module Scheduler {
  import opened Translations

  /** One marked element's trigger: its position, its key, its content at scan time. */
  datatype Trigger = Trigger(elem: nat, key: string, defaultHtml: string)

  /** The page, the producer-invocation counter, and the error that stopped a run, if any. */
  datatype Run = Run(html: seq<string>, tick: nat, error: Option<Error>)

  function Min(a: int, b: int): (m: int)
  {
    if a <= b then a else b
  }

  /** Every trigger points into a page of `n` elements. */
  predicate Fits(ts: seq<Trigger>, n: nat)
  {
    forall j :: 0 <= j < |ts| ==> ts[j].elem < n
  }

  /** Triggers appear in strictly increasing element order (document order). */
  predicate Ascending(ts: seq<Trigger>)
  {
    forall i, j :: 0 <= i < j < |ts| ==> ts[i].elem < ts[j].elem
  }

  /**
   * `reloadTranslationElements`: one trigger per marked element, in document
   * order, capturing the element's key and its current content.
   */
  function Scan(marks: seq<Option<string>>, html: seq<string>): (ts: seq<Trigger>)
    requires |marks| == |html|
    ensures |ts| <= |marks|
    ensures Fits(ts, |marks|)
    ensures Ascending(ts)
    decreases |marks|
  {
    if |marks| == 0 then []
    else
      var n := |marks| - 1;
      Scan(marks[..n], html[..n]) +
        (if marks[n].Some? then [Trigger(n, marks[n].value, html[n])] else [])
  }

  /**
   * A scan yields triggers in document order, each for a marked element and
   * carrying that element's key and its content at scan time.
   */
  lemma {:induction false} ScanIsDocumentOrder(marks: seq<Option<string>>, html: seq<string>)
    requires |marks| == |html|
    ensures var ts := Scan(marks, html);
      && Fits(ts, |marks|)
      && Ascending(ts)
      && (forall j :: 0 <= j < |ts| ==>
            marks[ts[j].elem] == Some(ts[j].key) && ts[j].defaultHtml == html[ts[j].elem])
    decreases |marks|
  {
    if |marks| > 0 {
      var n := |marks| - 1;
      ScanIsDocumentOrder(marks[..n], html[..n]);
      var prev := Scan(marks[..n], html[..n]);
      var ts := Scan(marks, html);
      assert ts[..|prev|] == prev;
      forall j | 0 <= j < |prev|
        ensures ts[j].elem < n
        ensures marks[ts[j].elem] == Some(ts[j].key) && ts[j].defaultHtml == html[ts[j].elem]
      {
        assert ts[j] == prev[j];
        assert marks[..n][prev[j].elem] == marks[prev[j].elem];
        assert html[..n][prev[j].elem] == html[prev[j].elem];
      }
    }
  }

  /** Every marked element gets a trigger. */
  lemma {:induction false} ScanCoversMarked(marks: seq<Option<string>>, html: seq<string>, i: nat)
    requires |marks| == |html| && i < |marks| && marks[i].Some?
    ensures exists j :: 0 <= j < |Scan(marks, html)| && Scan(marks, html)[j].elem == i
    decreases |marks|
  {
    var n := |marks| - 1;
    var prev := Scan(marks[..n], html[..n]);
    var ts := Scan(marks, html);
    if i < n {
      assert marks[..n][i] == marks[i];
      ScanCoversMarked(marks[..n], html[..n], i);
      var j :| 0 <= j < |prev| && prev[j].elem == i;
      assert ts[j] == prev[j];
    } else {
      assert ts[|ts| - 1].elem == i;
    }
  }

  /** One trigger run: write the resolution, or the captured default when it is falsy. */
  function Apply(t: Trigger, table: Table, lang: string, produce: Oracle, html: seq<string>, tick: nat): (r: Run)
    requires t.elem < |html|
    ensures |r.html| == |html|
  {
    match Resolve(table, lang, t.key, produce, tick)
    case Failure(e) => Run(html, tick, Some(e))
    case Success(v) => Run(html[t.elem := Shown(v, t.defaultHtml)], tick + Calls(table, lang, t.key), None)
  }

  /**
   * A trigger writes only its own element, and there the resolution of its
   * key when truthy, else its captured default; when its resolution throws
   * it writes nothing.
   */
  lemma ApplyWritesOwnElement(t: Trigger, table: Table, lang: string, produce: Oracle, html: seq<string>, tick: nat)
    requires t.elem < |html|
    ensures var r := Apply(t, table, lang, produce, html, tick);
      && (forall i :: 0 <= i < |html| && i != t.elem ==> r.html[i] == html[i])
      && (r.error.Some? ==> r.html == html && r.tick == tick)
      && (r.error.None? ==>
            && Resolve(table, lang, t.key, produce, tick).Success?
            && r.html[t.elem] == Shown(Resolve(table, lang, t.key, produce, tick).value, t.defaultHtml)
            && r.tick == tick + Calls(table, lang, t.key))
  {
  }

  /**
   * Running triggers in order, synchronously; a trigger whose resolution
   * throws stops the rest, leaving what the earlier ones wrote.
   */
  function RunTriggers(ts: seq<Trigger>, table: Table, lang: string, produce: Oracle, html: seq<string>, tick: nat): (r: Run)
    requires Fits(ts, |html|)
    ensures |r.html| == |html|
    ensures r.error.None? ==> tick <= r.tick
    decreases |ts|
  {
    if ts == [] then Run(html, tick, None)
    else
      var first := Apply(ts[0], table, lang, produce, html, tick);
      if first.error.Some? then first
      else RunTriggers(ts[1..], table, lang, produce, first.html, first.tick)
  }

  /** Running `a + b` is running `a`, then, if nothing threw, `b` from where `a` left off. */
  lemma {:induction false} RunTriggersAppend(a: seq<Trigger>, b: seq<Trigger>, table: Table, lang: string,
                                              produce: Oracle, html: seq<string>, tick: nat)
    requires Fits(a, |html|) && Fits(b, |html|)
    ensures Fits(a + b, |html|)
    ensures var ra := RunTriggers(a, table, lang, produce, html, tick);
      RunTriggers(a + b, table, lang, produce, html, tick) ==
        if ra.error.Some? then ra else RunTriggers(b, table, lang, produce, ra.html, ra.tick)
    decreases |a|
  {
    assert Fits(a + b, |html|) by {
      forall j | 0 <= j < |a + b| ensures (a + b)[j].elem < |html| {
        if j < |a| { assert (a + b)[j] == a[j]; } else { assert (a + b)[j] == b[j - |a|]; }
      }
    }
    if a != [] {
      assert (a + b)[0] == a[0];
      assert (a + b)[1..] == a[1..] + b;
      var first := Apply(a[0], table, lang, produce, html, tick);
      if first.error.None? {
        RunTriggersAppend(a[1..], b, table, lang, produce, first.html, first.tick);
      }
    } else {
      assert a + b == b;
    }
  }

  /**
   * A batch run throws exactly when some trigger runs and the language's
   * bundle cannot be read; since that does not depend on the key, the first
   * trigger throws and nothing is written.
   */
  lemma {:induction false} RunTriggersFailsWhole(ts: seq<Trigger>, table: Table, lang: string, produce: Oracle,
                                                  html: seq<string>, tick: nat)
    requires Fits(ts, |html|)
    ensures var r := RunTriggers(ts, table, lang, produce, html, tick);
      && (r.error.Some? <==> ts != [] && !Readable(table, lang))
      && (r.error.Some? ==> r == Run(html, tick, Some(UnreadableBundle(lang))))
    decreases |ts|
  {
    if ts != [] && Readable(table, lang) {
      var first := Apply(ts[0], table, lang, produce, html, tick);
      RunTriggersFailsWhole(ts[1..], table, lang, produce, first.html, first.tick);
    }
  }

  /** Producer invocations a run of `ts` makes when nothing throws. */
  function Ticks(ts: seq<Trigger>, table: Table, lang: string): (n: nat)
    decreases |ts|
  {
    if ts == [] then 0 else Calls(table, lang, ts[0].key) + Ticks(ts[1..], table, lang)
  }

  /** A run leaves every element that no trigger points at as it was. */
  lemma {:induction false} RunTriggersFrame(ts: seq<Trigger>, table: Table, lang: string, produce: Oracle,
                                             html: seq<string>, tick: nat, i: nat)
    requires Fits(ts, |html|) && i < |html|
    requires forall j :: 0 <= j < |ts| ==> ts[j].elem != i
    ensures RunTriggers(ts, table, lang, produce, html, tick).html[i] == html[i]
    decreases |ts|
  {
    if ts != [] {
      var first := Apply(ts[0], table, lang, produce, html, tick);
      if first.error.None? {
        RunTriggersFrame(ts[1..], table, lang, produce, first.html, first.tick, i);
      }
    }
  }

  /**
   * After a run in which nothing threw, the element of the `j`-th trigger
   * shows what its key resolved to at that trigger's turn (the producer
   * invocations of the earlier triggers counted), or its captured default.
   */
  lemma {:induction false} RunTriggersWrites(ts: seq<Trigger>, table: Table, lang: string, produce: Oracle,
                                              html: seq<string>, tick: nat, j: nat)
    requires Fits(ts, |html|) && Ascending(ts) && j < |ts|
    requires RunTriggers(ts, table, lang, produce, html, tick).error.None?
    ensures var res := Resolve(table, lang, ts[j].key, produce, tick + Ticks(ts[..j], table, lang));
      && res.Success?
      && RunTriggers(ts, table, lang, produce, html, tick).html[ts[j].elem] == Shown(res.value, ts[j].defaultHtml)
    decreases |ts|
  {
    var first := Apply(ts[0], table, lang, produce, html, tick);
    var rest := ts[1..];
    assert Fits(rest, |html|) && Ascending(rest);
    if j == 0 {
      assert ts[..0] == [];
      RunTriggersFrame(rest, table, lang, produce, first.html, first.tick, ts[0].elem);
    } else {
      RunTriggersWrites(rest, table, lang, produce, first.html, first.tick, j - 1);
      assert ts[..j][1..] == rest[..j - 1];
      assert ts[..j][0] == ts[0];
    }
  }

  /** A pass over a scan leaves every unmarked element as it was. */
  lemma PassLeavesUnmarked(marks: seq<Option<string>>, scanned: seq<string>, table: Table, lang: string,
                           produce: Oracle, html: seq<string>, tick: nat, i: nat)
    requires |marks| == |scanned| == |html| && i < |html| && marks[i].None?
    ensures Fits(Scan(marks, scanned), |html|)
    ensures RunTriggers(Scan(marks, scanned), table, lang, produce, html, tick).html[i] == html[i]
  {
    var ts := Scan(marks, scanned);
    ScanIsDocumentOrder(marks, scanned);
    assert forall j :: 0 <= j < |ts| ==> ts[j].elem != i by {
      forall j | 0 <= j < |ts| ensures ts[j].elem != i {
        assert marks[ts[j].elem].Some?;
      }
    }
    RunTriggersFrame(ts, table, lang, produce, html, tick, i);
  }

  /** No trigger can throw when nothing throws in total, and the counter advances by `Ticks`. */
  lemma {:induction false} RunTriggersTicks(ts: seq<Trigger>, table: Table, lang: string, produce: Oracle,
                                             html: seq<string>, tick: nat)
    requires Fits(ts, |html|)
    ensures var r := RunTriggers(ts, table, lang, produce, html, tick);
      r.error.None? ==> r.tick == tick + Ticks(ts, table, lang)
    decreases |ts|
  {
    if ts != [] {
      var first := Apply(ts[0], table, lang, produce, html, tick);
      if first.error.None? {
        RunTriggersTicks(ts[1..], table, lang, produce, first.html, first.tick);
      }
    }
  }

  /**
   * `translate`'s chunked pass over a snapshot: each frame removes up to
   * `c` triggers from the front and runs them; the next frame is requested
   * only if triggers remain and nothing threw. An empty snapshot still costs
   * one (empty) batch.
   */
  function ChunkedPass(ts: seq<Trigger>, c: nat, table: Table, lang: string, produce: Oracle,
                       html: seq<string>, tick: nat): (r: Run)
    requires c > 0 && Fits(ts, |html|)
    ensures |r.html| == |html|
    ensures r.error.None? ==> tick <= r.tick
    decreases |ts|
  {
    var k := Min(c, |ts|);
    var r := RunTriggers(ts[..k], table, lang, produce, html, tick);
    if r.error.Some? || k == |ts| then r
    else ChunkedPass(ts[k..], c, table, lang, produce, r.html, r.tick)
  }

  /**
   * Batch boundaries do not change the outcome: a chunked pass with any
   * positive chunk size ends exactly as running every trigger in one go.
   */
  lemma {:induction false} ChunkSizeIrrelevant(ts: seq<Trigger>, c: nat, table: Table, lang: string,
                                                produce: Oracle, html: seq<string>, tick: nat)
    requires c > 0 && Fits(ts, |html|)
    ensures ChunkedPass(ts, c, table, lang, produce, html, tick) == RunTriggers(ts, table, lang, produce, html, tick)
    decreases |ts|
  {
    var k := Min(c, |ts|);
    if k < |ts| {
      assert ts == ts[..k] + ts[k..];
      RunTriggersAppend(ts[..k], ts[k..], table, lang, produce, html, tick);
      var r := RunTriggers(ts[..k], table, lang, produce, html, tick);
      if r.error.None? {
        ChunkSizeIrrelevant(ts[k..], c, table, lang, produce, r.html, r.tick);
      }
    } else {
      assert ts[..k] == ts;
    }
  }

  /** Two chunk sizes give the same final page, counter and error. */
  lemma ChunkSizesAgree(ts: seq<Trigger>, c1: nat, c2: nat, table: Table, lang: string,
                        produce: Oracle, html: seq<string>, tick: nat)
    requires c1 > 0 && c2 > 0 && Fits(ts, |html|)
    ensures ChunkedPass(ts, c1, table, lang, produce, html, tick) == ChunkedPass(ts, c2, table, lang, produce, html, tick)
  {
    ChunkSizeIrrelevant(ts, c1, table, lang, produce, html, tick);
    ChunkSizeIrrelevant(ts, c2, table, lang, produce, html, tick);
  }

  /** The sizes of the batches a pass over `n` triggers takes, frame by frame. */
  function BatchSizes(n: nat, c: nat): (b: seq<nat>)
    requires c > 0
    ensures |b| >= 1
    ensures forall i :: 0 <= i < |b| ==> b[i] <= c
    decreases n
  {
    if n <= c then [n] else [c] + BatchSizes(n - c, c)
  }

  function Sum(s: seq<nat>): (total: nat)
    decreases |s|
  {
    if s == [] then 0 else s[0] + Sum(s[1..])
  }

  /**
   * A pass over `n` triggers with chunk size `c` takes ceil(n / c) frames,
   * the least k with n <= k * c, and one frame for an empty list.
   */
  lemma {:induction false} BatchCount(n: nat, c: nat)
    requires c > 0
    ensures var k := |BatchSizes(n, c)|;
      && k >= 1
      && (n == 0 ==> k == 1)
      && (n > 0 ==> (k - 1) * c < n <= k * c)
    decreases n
  {
    if n > c {
      BatchCount(n - c, c);
      var k' := |BatchSizes(n - c, c)|;
      assert |BatchSizes(n, c)| == k' + 1;
      assert (k' + 1) * c == k' * c + c;
      assert k' * c == (k' - 1) * c + c;
    }
  }

  /** The batches cover all `n` triggers; none exceeds `c` and every one but the last is full. */
  lemma {:induction false} BatchSizesCover(n: nat, c: nat)
    requires c > 0
    ensures var b := BatchSizes(n, c);
      && Sum(b) == n
      && (forall i :: 0 <= i < |b| ==> b[i] <= c)
      && (forall i :: 0 <= i < |b| - 1 ==> b[i] == c)
    decreases n
  {
    if n > c {
      BatchSizesCover(n - c, c);
      var b := BatchSizes(n, c);
      assert b[1..] == BatchSizes(n - c, c);
    }
  }

  /** 250 triggers in chunks of 100 take three frames: 100, 100, 50. */
  lemma TwoHundredFiftyInHundreds()
    ensures BatchSizes(250, 100) == [100, 100, 50]
  {
  }
}
