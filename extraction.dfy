/** The batch script's `parseResult`: one layer's cursor loop. Each window is
    fetched, its features are converted and written to a file, and only after
    a successful write does the cursor move on; after the last window
    `createShape` runs once. A reply without features, a failed write or an
    exception ends the layer where it happens.

    The callback recursion is modelled as a loop over an abstract, unbounded
    sequence of per-window outcomes: `outcome(k)` is what the k-th request of
    the layer gets back and whether its file could be written. */
module Extraction {
  import opened Common
  import opened Text
  import opened Paging
  import opened Requests

  /** The layer being extracted. */
  datatype Target = Target(service: string, layerId: int, layerName: string, geometryType: Option<Json>)

  datatype Request = Get(path: string) | Post(path: string, form: Form)

  /** What the callback finds in a reply: `result6 && result6.features` is
      falsy, or it is something other than an array (so `forEach` throws), or
      it is the array of features. */
  datatype Features = NoFeatures | NotArray | Items(items: seq<Json>)

  /** What the environment does with the k-th window: the features of the
      reply handed to the callback, and whether `fs.writeFile` succeeds. */
  datatype WindowOutcome = WindowOutcome(features: Features, writeOk: bool)

  /** What one layer's loop does, in order. A window's event names the window;
      the request sent for it is `BatchRequest`, the file written `WindowFile`
      and the message logged `NotParsedMessage`.

      The response helpers run the callback inside their `try`: an exception
      the callback throws before its first asynchronous step is caught, logged,
      and the callback is called again without a value, which logs that the
      window could not be parsed (`Rejected`). An exception in the write
      callback is not caught and ends the process (`Crash`); one thrown before
      the first request leaves `parseResult` to its caller (`Threw`). */
  datatype Event =
    | Fetch(window: Window)
    | Saved(window: Window, features: seq<Json>)
    | NotParsed(window: Window)
    | WriteFailed(window: Window)
    | Rejected(window: Window, error: string)
    | Finalize(service: string, unit: string, format: string)
    | Crash(error: string)
    | Threw(error: string)

  /** The features of a parsed reply (`None` for `undefined`), as the callback
      tests them. */
  function ReplyFeatures(reply: Option<Json>): (f: Features)
    ensures f.NoFeatures? <==> !Present(reply) || !Present(Member(reply.value, "features"))
    ensures f.Items? <==> Present(reply) && Present(Member(reply.value, "features"))
                          && Member(reply.value, "features").value.JArr?
    ensures f.Items? ==> f.items == Member(reply.value, "features").value.items
  {
    if !Present(reply) then NoFeatures
    else
      var features := Member(reply.value, "features");
      if !Present(features) then NoFeatures
      else if features.value.JArr? then Items(features.value.items)
      else NotArray
  }

  /** The window's file is written: the reply has an array of features and
      the write succeeds. */
  predicate Succeeds(o: WindowOutcome)
  {
    o.features.Items? && o.writeOk
  }

  /** `features.forEach(f => collection.features.push(ArcGIS.parse(f)))`. */
  function ConvertAll(features: seq<Json>, convert: Json -> Json): (r: seq<Json>)
    ensures |r| == |features|
    ensures forall i :: 0 <= i < |r| ==> r[i] == convert(features[i])
  {
    if features == [] then []
    else ConvertAll(features[..|features| - 1], convert) + [convert(features[|features| - 1])]
  }

  method ConvertFeatures(features: seq<Json>, convert: Json -> Json) returns (collection: seq<Json>)
    ensures collection == ConvertAll(features, convert)
  {
    collection := [];
    for i := 0 to |features|
      invariant collection == ConvertAll(features[..i], convert)
    {
      assert features[..i + 1][..i] == features[..i];
      collection := collection + [convert(features[i])];
    }
    assert features[..|features|] == features;
  }

  /** The request the batch script sends for one window. `cfg.outSr` is the
      configured value; the script replaces an empty one by `4326` at startup,
      so every request names a spatial reference. */
  function BatchRequest(cfg: Config, t: Target, s: Strategy, w: Window): (r: Request)
    requires s.Range? || s.IdList?
    ensures r.Get? <==> s.Range?
    ensures r.Post? ==> r.path == QueryPath(t.service, t.layerId)
                        && r.form.Keys == BaseForm(OutSr(cfg.outSr)).Keys + {"objectIds"}
                        && r.form["outSR"] != ""
                        && (cfg.outSr != "" ==> r.form["outSR"] == cfg.outSr)
                        && r.form["objectIds"] == JoinIds(JsSlice(s.ids, w.fmin, w.top))
  {
    match s
    case Range(col) => Get(BatchRangePath(t.service, t.layerId, BatchWhere(col, w), OutSr(cfg.outSr)))
    case IdList(ids) =>
      Post(QueryPath(t.service, t.layerId), BaseForm(OutSr(cfg.outSr))["objectIds" := JoinIds(JsSlice(ids, w.fmin, w.top))])
  }

  /** With no `outSr` configured, the range query asks for `outSR=4326`. */
  lemma BatchRangeDefaultSr(cfg: Config, t: Target, col: string, w: Window)
    requires cfg.outSr == ""
    ensures BatchRequest(cfg, t, Range(col), w).path
            == LayerPath(t.service, t.layerId) + "/query?where=" + BatchWhere(col, w)
               + "&returnGeometry=true&outSR=4326&outFields=*&f=pjson"
  {
  }

  /** The path the error message names: the GET path, or the POST path. */
  function BatchPath(cfg: Config, t: Target, s: Strategy, w: Window): string
    requires s.Range? || s.IdList?
  {
    match BatchRequest(cfg, t, s, w)
    case Get(path) => path
    case Post(path, _) => path
  }

  function WindowFile(cfg: Config, t: Target, w: Window): string
  {
    FileName(cfg.outputdir, t.service, t.layerId, t.layerName, w)
  }

  /** Windows that do not share a bound are written to different files. */
  lemma WindowFilesDiffer(cfg: Config, t: Target, w: Window, w': Window)
    requires w.lower != w'.lower
    ensures WindowFile(cfg, t, w) != WindowFile(cfg, t, w')
  {
    FileNameInjective(cfg.outputdir, t.service, t.layerId, t.layerName, w, w');
  }

  /** What happens to a fetched window: its features are converted and saved,
      or the layer ends with the failure. */
  function StepEvent(w: Window, o: WindowOutcome, convert: Json -> Json): (e: Event)
    ensures e.Saved? || e.NotParsed? || e.WriteFailed? || e.Rejected?
    ensures e.Saved? <==> Succeeds(o)
    ensures e.NotParsed? <==> o.features.NoFeatures?
    ensures e.Rejected? <==> o.features.NotArray?
    ensures e.WriteFailed? <==> o.features.Items? && !o.writeOk
    ensures e.Saved? ==> e.window == w && e.features == ConvertAll(o.features.items, convert)
  {
    match o.features
    case NoFeatures => NotParsed(w)
    case NotArray => Rejected(w, FeaturesNotArray)
    case Items(items) => if o.writeOk then Saved(w, ConvertAll(items, convert)) else WriteFailed(w)
  }

  const FeaturesNotArray := "TypeError: result6.features.forEach is not a function"

  /** The error `logger` reports for a window whose reply has no features. */
  function NotParsedMessage(cfg: Config, t: Target, s: Strategy, w: Window): string
    requires s.Range? || s.IdList?
  {
    (if s.Range? then "parseResult(1)" else "parseResult(2)")
      + " - Could not parse " + cfg.hostname + BatchPath(cfg, t, s, w)
  }

  /** What follows the last successful write. The id-list branch passes the
      undeclared `geometrytype` to `createShape`, which throws. */
  function FinalEvent(t: Target, s: Strategy): (e: Event)
    requires s.Range? || s.IdList?
    ensures e.Finalize? || e.Crash?
    ensures e.Finalize? <==> s.Range?
  {
    if s.Range? then Finalize(t.service, MergeUnit(t.layerId, t.layerName), MergeFormat(t.geometryType))
    else Crash(UndeclaredGeometryType)
  }

  const UndeclaredGeometryType := "ReferenceError: geometrytype is not defined"

  /** The fetch of each window. */
  function Fetches(ws: seq<Window>): (r: seq<Event>)
    ensures |r| == |ws|
    ensures forall i :: 0 <= i < |ws| ==> r[i] == Fetch(ws[i])
  {
    if ws == [] then [] else [Fetch(ws[0])] + Fetches(ws[1..])
  }

  /** What became of each window, the first being the k-th request. */
  function Steps(ws: seq<Window>, k: nat, convert: Json -> Json, outcome: nat -> WindowOutcome): (r: seq<Event>)
    ensures |r| == |ws|
    ensures forall i :: 0 <= i < |ws| ==> r[i] == StepEvent(ws[i], outcome(k + i), convert)
  {
    if ws == [] then []
    else [StepEvent(ws[0], outcome(k), convert)] + Steps(ws[1..], k + 1, convert, outcome)
  }

  /** Whether the files of the requests `k .. k + n - 1` were written. */
  function Saves(outcome: nat -> WindowOutcome, k: nat, n: nat): (r: seq<bool>)
    ensures |r| == n
    ensures forall i :: 0 <= i < n ==> r[i] == Succeeds(outcome(k + i))
    decreases n
  {
    if n == 0 then [] else [Succeeds(outcome(k))] + Saves(outcome, k + 1, n - 1)
  }

  /** The events of the loop over the windows `ws`, the first being the k-th
      request. */
  function RunFrom(t: Target, s: Strategy, ws: seq<Window>, k: nat,
                   convert: Json -> Json, outcome: nat -> WindowOutcome): seq<Event>
    requires s.Range? || s.IdList?
    requires ws != []
  {
    Trace(Fetches(ws), Steps(ws, k, convert, outcome), Saves(outcome, k, |ws|), FinalEvent(t, s))
  }

  /** The events of the loop from cursor `fmin`. */
  function Run(t: Target, s: Strategy, fmin: int, fmax: int,
               convert: Json -> Json, outcome: nat -> WindowOutcome): seq<Event>
    requires s.Range? || s.IdList?
  {
    RunFrom(t, s, Windows(fmin, fmax), 0, convert, outcome)
  }

  /** `parseResult(fmin, fmax, service, layer, idcolumn, geometryType)`: an
      unusable `idcolumn` fetches nothing. */
  function ParseResult(t: Target, idcolumn: Json, fmin: int, fmax: int,
                       convert: Json -> Json, outcome: nat -> WindowOutcome): (r: seq<Event>)
    ensures ClassifyIdColumn(idcolumn).Unusable? <==> r == []
    ensures ClassifyIdColumn(idcolumn).Throws? ==> r == [Threw(ClassifyIdColumn(idcolumn).error)]
    ensures ClassifyIdColumn(idcolumn).Range? || ClassifyIdColumn(idcolumn).IdList? ==>
              |r| >= 2 && r[0] == Fetch(WindowAt(fmin, fmax))
  {
    match ClassifyIdColumn(idcolumn)
    case Unusable => []
    case Throws(e) => [Threw(e)]
    case _ => Run(t, ClassifyIdColumn(idcolumn), fmin, fmax, convert, outcome)
  }

  /** `parseResult` as the batch script runs it for one layer. */
  method ExtractLayer(t: Target, idcolumn: Json, fmin0: int, fmax: int,
                      convert: Json -> Json, outcome: nat -> WindowOutcome)
    returns (trace: seq<Event>)
    ensures trace == ParseResult(t, idcolumn, fmin0, fmax, convert, outcome)
  {
    var s := ClassifyIdColumn(idcolumn);
    if s.Unusable? {
      trace := [];
    } else if s.Throws? {
      trace := [Threw(s.error)];
    } else {
      trace := CursorLoop(t, s, fmin0, fmax, 0, convert, outcome);
    }
  }

  /** `parseResult` from cursor `fmin` on, as the request for the k-th
      window: it handles that window and, after a successful write, calls
      itself with the cursor moved on by 1000. */
  method CursorLoop(t: Target, s: Strategy, fmin: int, fmax: int, k: nat,
                    convert: Json -> Json, outcome: nat -> WindowOutcome)
    returns (trace: seq<Event>)
    requires s.Range? || s.IdList?
    ensures trace == RunFrom(t, s, Windows(fmin, fmax), k, convert, outcome)
    decreases fmax - fmin
  {
    var events, next := ExtractWindow(t, s, fmin, fmax, k, convert, outcome);
    if !next {
      trace := events;
    } else {
      var rest := CursorLoop(t, s, fmin + PageSize, fmax, k + 1, convert, outcome);
      trace := events + rest;
    }
  }

  /** One call of `parseResult`: fetch the window at `fmin`, convert its
      features and write its file; then either ask for the next window
      (`next`) or finish the layer. */
  method ExtractWindow(t: Target, s: Strategy, fmin: int, fmax: int, k: nat,
                       convert: Json -> Json, outcome: nat -> WindowOutcome)
    returns (events: seq<Event>, next: bool)
    requires s.Range? || s.IdList?
    ensures next ==> fmin + PageSize <= fmax
    ensures next ==> RunFrom(t, s, Windows(fmin, fmax), k, convert, outcome)
                     == events + RunFrom(t, s, Windows(fmin + PageSize, fmax), k + 1, convert, outcome)
    ensures !next ==> RunFrom(t, s, Windows(fmin, fmax), k, convert, outcome) == events
  {
    var w := WindowAt(fmin, fmax);
    var o := outcome(k);
    if !(o.features.Items? && o.writeOk) {
      RunFromUnfold(t, s, fmin, fmax, k, convert, outcome);
      events, next := [Fetch(w), StepEvent(w, o, convert)], false;
      return;
    }
    var collection := ConvertFeatures(o.features.items, convert);
    RunFromUnfold(t, s, fmin, fmax, k, convert, outcome);
    events := [Fetch(w), Saved(w, collection)];
    assert events == [Fetch(w), StepEvent(w, o, convert)];
    var newfmin := fmin + PageSize;
    next := newfmin < fmax + 1;
    if !next {
      events := events + [FinalEvent(t, s)];
    }
  }

  /** One pass of the loop: the window at `fmin`, then the rest of the cursor
      sequence only after a successful write. */
  lemma RunFromUnfold(t: Target, s: Strategy, fmin: int, fmax: int, k: nat,
                      convert: Json -> Json, outcome: nat -> WindowOutcome)
    requires s.Range? || s.IdList?
    ensures var head := [Fetch(WindowAt(fmin, fmax)),
                         StepEvent(WindowAt(fmin, fmax), outcome(k), convert)];
            var r := RunFrom(t, s, Windows(fmin, fmax), k, convert, outcome);
            (!Succeeds(outcome(k)) ==> r == head)
            && (Succeeds(outcome(k)) && !Continues(fmin, fmax) ==> r == head + [FinalEvent(t, s)])
            && (Succeeds(outcome(k)) && Continues(fmin, fmax) ==>
                  r == head + RunFrom(t, s, Windows(fmin + PageSize, fmax), k + 1, convert, outcome))
  {
    var ws := Windows(fmin, fmax);
    WindowsStep(fmin, fmax);
    var f, st, ok := Fetches(ws), Steps(ws, k, convert, outcome), Saves(outcome, k, |ws|);
    if Continues(fmin, fmax) {
      assert f[1..] == Fetches(ws[1..]);
      assert st[1..] == Steps(ws[1..], k + 1, convert, outcome);
      assert ok[1..] == Saves(outcome, k + 1, |ws| - 1);
    }
  }

  // ----- What the loop does -----

  /** Window by window: as long as the earlier windows were saved, event `2j`
      fetches window `j` of the cursor sequence and event `2j + 1` saves it or
      ends the layer with its failure. */
  lemma RunWindow(t: Target, s: Strategy, fmin: int, fmax: int,
                  convert: Json -> Json, outcome: nat -> WindowOutcome, j: nat)
    requires s.Range? || s.IdList?
    requires j < |Windows(fmin, fmax)| && forall i :: 0 <= i < j ==> Succeeds(outcome(i))
    ensures 2 * j + 1 < |Run(t, s, fmin, fmax, convert, outcome)|
    ensures Run(t, s, fmin, fmax, convert, outcome)[2 * j]
            == Fetch(Windows(fmin, fmax)[j])
    ensures Run(t, s, fmin, fmax, convert, outcome)[2 * j + 1]
            == StepEvent(Windows(fmin, fmax)[j], outcome(j), convert)
    ensures !Succeeds(outcome(j)) ==> |Run(t, s, fmin, fmax, convert, outcome)| == 2 * j + 2
  {
    var ws := Windows(fmin, fmax);
    TraceWindow(Fetches(ws), Steps(ws, 0, convert, outcome), Saves(outcome, 0, |ws|),
                FinalEvent(t, s), j);
  }

  /** When every window is saved the loop fetches and saves each window of the
      cursor sequence once and then ends with the finaliser, exactly once. */
  lemma RunComplete(t: Target, s: Strategy, fmin: int, fmax: int,
                    convert: Json -> Json, outcome: nat -> WindowOutcome)
    requires s.Range? || s.IdList?
    requires forall i :: 0 <= i < |Windows(fmin, fmax)| ==> Succeeds(outcome(i))
    ensures |Run(t, s, fmin, fmax, convert, outcome)| == 2 * |Windows(fmin, fmax)| + 1
    ensures Run(t, s, fmin, fmax, convert, outcome)[2 * |Windows(fmin, fmax)|] == FinalEvent(t, s)
  {
    var ws := Windows(fmin, fmax);
    TraceComplete(Fetches(ws), Steps(ws, 0, convert, outcome), Saves(outcome, 0, |ws|),
                  FinalEvent(t, s));
  }

  predicate Terminal(e: Event)
  {
    !e.Fetch? && !e.Saved?
  }

  /** How many windows are written before the first one that is not: the
      layer's loop stops after that many. */
  function SavedWindows(outcome: nat -> WindowOutcome, n: nat): (m: nat)
    ensures m <= n
    ensures forall i :: 0 <= i < m ==> Succeeds(outcome(i))
    ensures m < n ==> !Succeeds(outcome(m))
  {
    var ok := Saves(outcome, 0, n);
    assert forall i :: 0 <= i < n ==> ok[i] == Succeeds(outcome(i));
    LeadingOks(ok)
  }

  /** Fail-stop: when some window is not saved, the loop stops right after
      the first such window, whose failure (or crash on non-array features)
      is the last event; the finaliser is never reached. */
  lemma RunStops(t: Target, s: Strategy, fmin: int, fmax: int,
                 convert: Json -> Json, outcome: nat -> WindowOutcome, i: nat)
    requires s.Range? || s.IdList?
    requires i < |Windows(fmin, fmax)| && !Succeeds(outcome(i))
    ensures var r := Run(t, s, fmin, fmax, convert, outcome);
            var m := SavedWindows(outcome, |Windows(fmin, fmax)|);
            m <= i && |r| == 2 * m + 2
            && r[|r| - 1] == StepEvent(Windows(fmin, fmax)[m], outcome(m), convert)
            && Terminal(r[|r| - 1])
  {
    var ws := Windows(fmin, fmax);
    var m := SavedWindows(outcome, |ws|);
    RunWindow(t, s, fmin, fmax, convert, outcome, m);
    var e := StepEvent(ws[m], outcome(m), convert);
    assert Terminal(e);
  }

  /** Before its last event the loop alternates: the fetch of a window, then
      the save of that window. */
  lemma RunAlternates(t: Target, s: Strategy, fmin: int, fmax: int,
                      convert: Json -> Json, outcome: nat -> WindowOutcome)
    requires s.Range? || s.IdList?
    ensures var r := Run(t, s, fmin, fmax, convert, outcome);
            (forall j :: 0 <= j && 2 * j < |r| - 1 ==> r[2 * j].Fetch?)
            && (forall j :: 0 <= j && 2 * j + 1 < |r| - 1 ==> r[2 * j + 1].Saved?)
  {
    var ws := Windows(fmin, fmax);
    var f, st, ok := Fetches(ws), Steps(ws, 0, convert, outcome), Saves(outcome, 0, |ws|);
    var r := Trace(f, st, ok, FinalEvent(t, s));
    TraceLength(f, st, ok, FinalEvent(t, s));
    forall j | 0 <= j && 2 * j < |r| - 1
      ensures r[2 * j].Fetch? && (2 * j + 1 < |r| - 1 ==> r[2 * j + 1].Saved?)
    {
      TraceWindow(f, st, ok, FinalEvent(t, s), j);
    }
  }

  /** The windows saved by one layer's loop come in increasing order, and a
      save event at position `2b + 1` is the save of window `b`. */
  lemma SavedWindowsIncrease(t: Target, s: Strategy, fmin: int, fmax: int,
                             convert: Json -> Json, outcome: nat -> WindowOutcome, a: nat, b: nat)
    requires s.Range? || s.IdList?
    requires a < b && 2 * b + 1 < |Run(t, s, fmin, fmax, convert, outcome)|
    requires Run(t, s, fmin, fmax, convert, outcome)[2 * b + 1].Saved?
    ensures Run(t, s, fmin, fmax, convert, outcome)[2 * a + 1].Saved?
    ensures Run(t, s, fmin, fmax, convert, outcome)[2 * a + 1].window.lower
            < Run(t, s, fmin, fmax, convert, outcome)[2 * b + 1].window.lower
    ensures Run(t, s, fmin, fmax, convert, outcome)[2 * a + 1].window.upper
            < Run(t, s, fmin, fmax, convert, outcome)[2 * b + 1].window.lower
  {
    var ws := Windows(fmin, fmax);
    var f, st, ok := Fetches(ws), Steps(ws, 0, convert, outcome), Saves(outcome, 0, |ws|);
    TraceAt(f, st, ok, FinalEvent(t, s), b);
    TraceAt(f, st, ok, FinalEvent(t, s), a);
    assert ok[a];
    WindowsIncrease(fmin, fmax, a, b);
  }

  /** No file is written twice: the files of the windows saved by one
      layer's loop are pairwise distinct. */
  lemma SavedFilesDistinct(cfg: Config, t: Target, s: Strategy, fmin: int, fmax: int,
                           convert: Json -> Json, outcome: nat -> WindowOutcome, a: nat, b: nat)
    requires s.Range? || s.IdList?
    requires a < b && 2 * b + 1 < |Run(t, s, fmin, fmax, convert, outcome)|
    requires Run(t, s, fmin, fmax, convert, outcome)[2 * b + 1].Saved?
    ensures Run(t, s, fmin, fmax, convert, outcome)[2 * a + 1].Saved?
    ensures WindowFile(cfg, t, Run(t, s, fmin, fmax, convert, outcome)[2 * a + 1].window)
         != WindowFile(cfg, t, Run(t, s, fmin, fmax, convert, outcome)[2 * b + 1].window)
  {
    SavedWindowsIncrease(t, s, fmin, fmax, convert, outcome, a, b);
    var r := Run(t, s, fmin, fmax, convert, outcome);
    WindowFilesDiffer(cfg, t, r[2 * a + 1].window, r[2 * b + 1].window);
  }

  /** From offset 0 with 2500 features and every write succeeding, a layer
      with a string `idcolumn` saves [1, 1000], [1001, 2000] and [2001, 2500]
      and then hands its unit to the merge step. */
  lemma RunExample(t: Target, col: string, convert: Json -> Json, outcome: nat -> WindowOutcome)
    requires Succeeds(outcome(0)) && Succeeds(outcome(1)) && Succeeds(outcome(2))
    ensures var r := Run(t, Range(col), 0, 2500, convert, outcome);
            |r| == 7
            && r[1].Saved? && r[1].window.lower == 1 && r[1].window.upper == 1000
            && r[3].Saved? && r[3].window.lower == 1001 && r[3].window.upper == 2000
            && r[5].Saved? && r[5].window.lower == 2001 && r[5].window.upper == 2500
            && r[6] == Finalize(t.service, MergeUnit(t.layerId, t.layerName), MergeFormat(t.geometryType))
  {
    WindowsExample();
    RunComplete(t, Range(col), 0, 2500, convert, outcome);
    RunWindow(t, Range(col), 0, 2500, convert, outcome, 0);
    RunWindow(t, Range(col), 0, 2500, convert, outcome, 1);
    RunWindow(t, Range(col), 0, 2500, convert, outcome, 2);
  }
}
