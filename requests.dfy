/** What one window of `parseResult` sends and writes: the range `where`
    clause, the positional slice of an id list, the form fields of a POST, the
    output file name and the merge format handed to `createShape`. */
module Requests {
  import opened Common
  import opened Text
  import opened Paging

  // ----- Array.prototype.slice and join -----

  /** A relative index of `slice`: negative counts from the end; both ends are
      clamped to the list. */
  function SliceIndex(len: nat, k: int): (r: nat)
    ensures r <= len
    ensures 0 <= k ==> r == Min(k, len)
  {
    if k < 0 then (if len + k < 0 then 0 else len + k) else if k < len then k else len
  }

  /** `s.slice(start, end)`. */
  function JsSlice<T>(s: seq<T>, start: int, end: int): (r: seq<T>)
    ensures |r| <= |s|
    ensures 0 <= start <= end ==> r == s[Min(start, |s|)..Min(end, |s|)]
    ensures forall i :: 0 <= i < |r| ==> r[i] in s
  {
    var from := SliceIndex(|s|, start);
    var to := SliceIndex(|s|, end);
    if from < to then s[from..to] else []
  }

  /** `String(v)` as `Array.prototype.join` applies it to one element:
      `null` becomes the empty string, a nested array is joined with commas. */
  function JsText(v: Json): string
  {
    match v
    case JNull => ""
    case JBool(b) => if b then "true" else "false"
    case JNum(n) => IntToString(n)
    case JStr(s) => s
    case JArr(items) => Join(JsTexts(items, v), ',')
    case JObj(_) => "[object Object]"
  }

  function JsTexts(items: seq<Json>, ghost parent: Json): (r: seq<string>)
    requires parent.JArr? && items <= parent.items
    ensures |r| == |items|
    decreases parent, |items|
  {
    if items == [] then []
    else
      assert items[|items| - 1] in parent.items;
      JsTexts(items[..|items| - 1], parent) + [JsText(items[|items| - 1])]
  }

  /** `ids.join(',')`. */
  function JoinIds(ids: seq<Json>): string
  {
    JsText(JArr(ids))
  }

  predicate AllNumbers(ids: seq<Json>)
  {
    forall i :: 0 <= i < |ids| ==> ids[i].JNum?
  }

  /** Reading a joined list of integer ids back: split on commas, parse each. */
  function ParseIds(s: string): seq<int>
  {
    var parts := Split(s, ',');
    seq(|parts|, i requires 0 <= i < |parts| => ParseInt(parts[i]))
  }

  lemma {:induction false} JsTextsNumbers(items: seq<Json>, parent: Json)
    requires parent.JArr? && items <= parent.items && AllNumbers(items)
    ensures forall i :: 0 <= i < |items| ==>
              JsTexts(items, parent)[i] == IntToString(items[i].n)
  {
    if items != [] {
      var front := items[..|items| - 1];
      JsTextsNumbers(front, parent);
      assert forall i :: 0 <= i < |front| ==> front[i] == items[i];
    }
  }

  /** The comma-joined `objectIds` field holds exactly the ids of the slice,
      in order, when they are integers: splitting it on commas and reading each
      piece gives the list back. */
  lemma JoinIdsRoundTrip(ids: seq<Json>)
    requires |ids| >= 1 && AllNumbers(ids)
    ensures |ParseIds(JoinIds(ids))| == |ids|
    ensures forall i :: 0 <= i < |ids| ==> ParseIds(JoinIds(ids))[i] == ids[i].n
  {
    var texts := JsTexts(ids, JArr(ids));
    JsTextsNumbers(ids, JArr(ids));
    forall i | 0 <= i < |texts|
      ensures ',' !in texts[i]
    {
      var t := texts[i];
      assert forall k :: 0 <= k < |t| ==> IsDigit(t[k]) || t[k] == '-';
    }
    SplitJoin(texts, ',');
    forall i | 0 <= i < |ids|
      ensures ParseIds(JoinIds(ids))[i] == ids[i].n
    {
      IntToStringRoundTrip(ids[i].n);
    }
  }

  // ----- The id-list strategy -----

  /** `objectIds.slice(fmin, top)`: the ids one window of the id-list strategy
      posts. */
  function IdSlice<T>(ids: seq<T>, fmin: int, fmax: int): seq<T>
  {
    JsSlice(ids, fmin, WindowAt(fmin, fmax).top)
  }

  /** From a non-negative cursor the slice is the ids at positions
      `fmin .. top - 1`, clamped to the list: up to 1001 ids. */
  lemma IdSliceBounds<T>(ids: seq<T>, fmin: int, fmax: int)
    requires 0 <= fmin <= fmax
    ensures IdSlice(ids, fmin, fmax) == ids[Min(fmin, |ids|)..Min(WindowAt(fmin, fmax).top, |ids|)]
    ensures |IdSlice(ids, fmin, fmax)| <= PageSize + 1
  {
  }

  /** As written, consecutive id windows overlap: when the list is long enough
      the window at cursor `fmin` holds 1001 ids, and its last id is the first
      id of the window at cursor `fmin + 1000`. */
  lemma IdSlicesOverlap<T>(ids: seq<T>, fmin: int, fmax: int)
    requires 0 <= fmin && Continues(fmin, fmax) && fmin + PageSize < |ids|
    ensures |IdSlice(ids, fmin, fmax)| == PageSize + 1
    ensures IdSlice(ids, fmin + PageSize, fmax) != []
    ensures IdSlice(ids, fmin, fmax)[PageSize] == IdSlice(ids, fmin + PageSize, fmax)[0]
            == ids[fmin + PageSize]
  {
    var a := IdSlice(ids, fmin, fmax);
    var b := IdSlice(ids, fmin + PageSize, fmax);
    assert WindowAt(fmin, fmax).top == fmin + PageSize + 1;
    assert a == ids[fmin..fmin + PageSize + 1];
    assert WindowAt(fmin + PageSize, fmax).top > fmin + PageSize;
    assert b == ids[fmin + PageSize..Min(WindowAt(fmin + PageSize, fmax).top, |ids|)];
    assert a[PageSize] == ids[fmin + PageSize];
    assert b[0] == ids[fmin + PageSize];
  }

  /** A list of 1001 ids with `fmax = 1000` from cursor 0: the id at position
      1000 is requested by both windows. */
  lemma IdSlicesOverlapExample<T>(ids: seq<T>)
    requires |ids| == 1001
    ensures Windows(0, 1000)[1].fmin == 1000
    ensures |IdSlice(ids, 0, 1000)| == 1001
    ensures IdSlice(ids, 1000, 1000) == [ids[1000]]
  {
    WindowsShape(0, 1000);
  }

  /** The evidently intended slice: the 1000 positions from the cursor. */
  function IdSliceIntended<T>(ids: seq<T>, fmin: int): (r: seq<T>)
    ensures |r| <= PageSize
    ensures 0 <= fmin ==> r == ids[Min(fmin, |ids|)..Min(fmin + PageSize, |ids|)]
  {
    JsSlice(ids, fmin, fmin + PageSize)
  }

  /** Every intended slice the cursor loop posts, concatenated. */
  function IdPagesIntended<T>(ids: seq<T>, fmin: int, fmax: int): seq<T>
    decreases fmax - fmin
  {
    IdSliceIntended(ids, fmin) + if Continues(fmin, fmax) then IdPagesIntended(ids, fmin + PageSize, fmax) else []
  }

  lemma {:induction false} IdPagesBeyondEnd<T>(ids: seq<T>, fmin: int, fmax: int)
    requires |ids| <= fmin
    ensures IdPagesIntended(ids, fmin, fmax) == []
    decreases fmax - fmin
  {
    if Continues(fmin, fmax) {
      IdPagesBeyondEnd(ids, fmin + PageSize, fmax);
    }
  }

  /** With the intended slice the windows post every id from the cursor on
      exactly once, in order, as long as the count `fmax` reaches the end of
      the list. */
  lemma {:induction false} IdPagesIntendedPartition<T>(ids: seq<T>, fmin: int, fmax: int)
    requires 0 <= fmin <= |ids| <= fmax + 1
    ensures IdPagesIntended(ids, fmin, fmax) == ids[fmin..]
    decreases fmax - fmin
  {
    var first := IdSliceIntended(ids, fmin);
    if Continues(fmin, fmax) {
      if fmin + PageSize <= |ids| {
        IdPagesIntendedPartition(ids, fmin + PageSize, fmax);
        assert first == ids[fmin..fmin + PageSize];
        assert ids[fmin..] == ids[fmin..fmin + PageSize] + ids[fmin + PageSize..];
      } else {
        IdPagesBeyondEnd(ids, fmin + PageSize, fmax);
        assert first == ids[fmin..];
      }
    } else {
      assert first == ids[fmin..];
    }
  }

  // ----- The range strategy -----

  lemma PrefixCancel(p: string, x: string, y: string)
    requires p + x == p + y
    ensures x == y
  {
    assert x == (p + x)[|p|..];
  }

  lemma SuffixCancel(x: string, y: string, q: string)
    requires x + q == y + q
    ensures x == y
  {
    assert x == (x + q)[..|x|];
  }

  lemma IntToStringNoChar(i: int, c: char)
    requires c != '-' && !IsDigit(c)
    ensures c !in IntToString(i)
  {
    var s := IntToString(i);
    assert forall k :: 0 <= k < |s| ==> IsDigit(s[k]) || s[k] == '-';
  }

  /** `col+%3E+fmin+AND+col+%3C+top`: the URL-encoded clause of the batch
      script's GET. */
  function BatchWhere(col: string, w: Window): string
  {
    col + "+%3E+" + IntToString(w.fmin) + "+AND+" + col + "+%3C+" + IntToString(w.top)
  }

  /** `col+>+fmin+AND+col+<+top`: the clause of the library's POST form. */
  function LibWhere(col: string, w: Window): string
  {
    col + "+>+" + IntToString(w.fmin) + "+AND+" + col + "+<+" + IntToString(w.top)
  }

  /** Reading the bounds back from a clause with `+` on both sides of each
      bound: the clause determines the window it was built from. */
  lemma WhereBoundsDetermined(pre: string, mid: string, f: int, t: int, f': int, t': int)
    requires pre + (IntToString(f) + "+" + (mid + IntToString(t)))
             == pre + (IntToString(f') + "+" + (mid + IntToString(t')))
    ensures f == f' && t == t'
  {
    var F, F', T, T' := IntToString(f), IntToString(f'), IntToString(t), IntToString(t');
    PrefixCancel(pre, F + "+" + (mid + T), F' + "+" + (mid + T'));
    IntToStringNoChar(f, '+');
    IntToStringNoChar(f', '+');
    assert F + ['+'] + (mid + T) == F' + ['+'] + (mid + T');
    SplitAtFirst(F, mid + T, F', mid + T', '+');
    PrefixCancel(mid, T, T');
    IntToStringInjective(f, f');
    IntToStringInjective(t, t');
  }

  /** The batch clause regrouped around its lower bound. */
  lemma BatchWhereSplit(col: string, w: Window)
    ensures BatchWhere(col, w)
         == (col + "+%3E+") + (IntToString(w.fmin) + "+" + ("AND+" + col + "+%3C+" + IntToString(w.top)))
  {
  }

  /** The library clause regrouped around its lower bound. */
  lemma LibWhereSplit(col: string, w: Window)
    ensures LibWhere(col, w)
         == (col + "+>+") + (IntToString(w.fmin) + "+" + ("AND+" + col + "+<+" + IntToString(w.top)))
  {
  }

  /** Distinct windows of one column give distinct batch clauses. */
  lemma BatchWhereInjective(col: string, w: Window, w': Window)
    requires BatchWhere(col, w) == BatchWhere(col, w')
    ensures w.fmin == w'.fmin && w.top == w'.top
  {
    var mid := "AND+" + col + "+%3C+";
    BatchWhereSplit(col, w);
    BatchWhereSplit(col, w');
    WhereBoundsDetermined(col + "+%3E+", mid, w.fmin, w.top, w'.fmin, w'.top);
  }

  /** Distinct windows of one column give distinct library clauses. */
  lemma LibWhereInjective(col: string, w: Window, w': Window)
    requires LibWhere(col, w) == LibWhere(col, w')
    ensures w.fmin == w'.fmin && w.top == w'.top
  {
    var mid := "AND+" + col + "+<+";
    LibWhereSplit(col, w);
    LibWhereSplit(col, w');
    WhereBoundsDetermined(col + "+>+", mid, w.fmin, w.top, w'.fmin, w'.top);
  }

  // ----- Choosing the strategy -----

  /** How `parseResult` selects the objects of a window, decided by the shape of
      its `idcolumn` argument. */
  datatype Strategy =
    | Range(col: string)          // a string: the range predicate on that column
    | IdList(ids: seq<Json>)      // an object with a truthy `objectIdFieldName`: id slices
    | Unusable                    // anything else
    | Throws(error: string)       // reading `idcolumn` or slicing its ids throws

  const NullIdColumn := "TypeError: Cannot read properties of null (reading 'objectIdFieldName')"
  const IdsNotArray := "TypeError: objectIds.slice(...).join is not a function"

  /** `typeof idcolumn === 'string'`, else `idcolumn.objectIdFieldName`, else
      nothing. `objectIds.slice(...).join(',')` throws unless `objectIds` is an
      array, and reading a property of `null` throws. */
  function ClassifyIdColumn(idcolumn: Json): (s: Strategy)
    ensures s.Range? <==> idcolumn.JStr?
    ensures s.Range? ==> s.col == idcolumn.s
    ensures s.IdList? <==> (Present(Member(idcolumn, "objectIdFieldName"))
                            && Member(idcolumn, "objectIds").Some? && Member(idcolumn, "objectIds").value.JArr?)
    ensures s.IdList? ==> JArr(s.ids) == Member(idcolumn, "objectIds").value
    ensures s.Unusable? <==> !idcolumn.JStr? && !idcolumn.JNull? && !Present(Member(idcolumn, "objectIdFieldName"))
  {
    match idcolumn
    case JStr(col) => Range(col)
    case JNull => Throws(NullIdColumn)
    case _ =>
      if !Present(Member(idcolumn, "objectIdFieldName")) then Unusable
      else match Member(idcolumn, "objectIds")
        case Some(JArr(ids)) => IdList(ids)
        case _ => Throws(IdsNotArray)
  }

  // ----- Paths and form fields -----

  function LayerPath(service: string, layerId: int): string
  {
    "/ArcGIS/rest/services/" + service + "/MapServer/" + IntToString(layerId)
  }

  const DefaultOutSr := "4326"

  /** The spatial reference a query asks for: `config.outSr || "4326"` in the
      library, and in the batch script the configured value after its startup
      default (`if (!config.outSr) config.outSr = "4326"`). */
  function OutSr(configured: string): (sr: string)
    ensures sr != ""
    ensures configured != "" ==> sr == configured
    ensures configured == "" ==> sr == DefaultOutSr
  {
    if configured == "" then DefaultOutSr else configured
  }

  /** The batch script's GET path for one window of the range strategy. */
  function BatchRangePath(service: string, layerId: int, where: string, outSr: string): string
  {
    LayerPath(service, layerId) + "/query?where=" + where
      + "&returnGeometry=true&outSR=" + outSr + "&outFields=*&f=pjson"
  }

  /** The POST path of the id-list strategy and of every library query. */
  function QueryPath(service: string, layerId: int): string
  {
    LayerPath(service, layerId) + "/query"
  }

  /** Form fields of a POST. */
  type Form = map<string, string>

  /** The fields every window's POST carries. */
  function BaseForm(outSr: string): (f: Form)
    ensures f.Keys == {"outFields", "returnGeometry", "outSR", "f"}
    ensures f["outSR"] == outSr && f["f"] == "json"
  {
    map["outFields" := "*", "returnGeometry" := "true", "outSR" := outSr, "f" := "json"]
  }

  /** The form of the query for all ids of a layer (`getObjectIds`). */
  function ObjectIdsQueryForm(): (f: Form)
    ensures f.Keys == {"where", "returnIdsOnly", "f"}
  {
    map["where" := "1=1", "returnIdsOnly" := "true", "f" := "json"]
  }

  // ----- Output file and merge step -----

  /** The unit `merge.sh` is given: `id_SanitisedName`. */
  function MergeUnit(layerId: int, layerName: string): string
  {
    IntToString(layerId) + "_" + Sanitize(layerName)
  }

  /** `outputdir/service/id_SanitisedName_lower_upper.geojson`. */
  function FileName(outputdir: string, service: string, layerId: int, layerName: string, w: Window): string
  {
    outputdir + "/" + service + "/" + MergeUnit(layerId, layerName) + "_"
      + IntToString(w.lower) + "_" + IntToString(w.upper) + ".geojson"
  }

  /** Within one layer the file name determines the window's bounds, so two
      windows with different bounds never overwrite each other's file. */
  lemma FileNameInjective(outputdir: string, service: string, layerId: int, layerName: string, w: Window, w': Window)
    ensures FileName(outputdir, service, layerId, layerName, w) == FileName(outputdir, service, layerId, layerName, w')
            ==> w.lower == w'.lower && w.upper == w'.upper
  {
    if FileName(outputdir, service, layerId, layerName, w) == FileName(outputdir, service, layerId, layerName, w') {
      FileNameFields(outputdir, service, layerId, layerName, w, w');
    }
  }

  lemma FileNameFields(outputdir: string, service: string, layerId: int, layerName: string, w: Window, w': Window)
    requires FileName(outputdir, service, layerId, layerName, w) == FileName(outputdir, service, layerId, layerName, w')
    ensures w.lower == w'.lower && w.upper == w'.upper
  {
    var p := outputdir + "/" + service + "/" + MergeUnit(layerId, layerName) + "_";
    var L, L', U, U' := IntToString(w.lower), IntToString(w'.lower), IntToString(w.upper), IntToString(w'.upper);
    FileNameSplit(outputdir, service, layerId, layerName, w);
    FileNameSplit(outputdir, service, layerId, layerName, w');
    PrefixCancel(p, L + ['_'] + (U + ".geojson"), L' + ['_'] + (U' + ".geojson"));
    IntToStringNoChar(w.lower, '_');
    IntToStringNoChar(w'.lower, '_');
    SplitAtFirst(L, U + ".geojson", L', U' + ".geojson", '_');
    SuffixCancel(U, U', ".geojson");
    IntToStringInjective(w.lower, w'.lower);
    IntToStringInjective(w.upper, w'.upper);
  }

  /** The file name regrouped as the layer's prefix followed by the window's part. */
  lemma FileNameSplit(outputdir: string, service: string, layerId: int, layerName: string, w: Window)
    ensures FileName(outputdir, service, layerId, layerName, w)
         == (outputdir + "/" + service + "/" + MergeUnit(layerId, layerName) + "_")
            + (IntToString(w.lower) + ['_'] + (IntToString(w.upper) + ".geojson"))
  {
  }

  /** The windows of one layer's cursor loop are written to pairwise distinct
      files. */
  lemma WindowFilesDistinct(outputdir: string, service: string, layerId: int, layerName: string,
                            fmin: int, fmax: int, i: int, j: int)
    requires 0 <= i < j < |Windows(fmin, fmax)|
    ensures FileName(outputdir, service, layerId, layerName, Windows(fmin, fmax)[i])
         != FileName(outputdir, service, layerId, layerName, Windows(fmin, fmax)[j])
  {
    WindowsShape(fmin, fmax);
    var ws := Windows(fmin, fmax);
    assert ws[i].lower == fmin + PageSize * i + 1;
    assert ws[j].lower == fmin + PageSize * j + 1;
    FileNameInjective(outputdir, service, layerId, layerName, ws[i], ws[j]);
  }

  /** `createShape`'s switch: the merge format of an ArcGIS geometry type. */
  function MergeFormat(geometryType: Option<Json>): (format: string)
    ensures format == "POLYGON" <==> geometryType == Some(JStr("esriGeometryPolygon"))
    ensures format == "LINESTRING" <==> geometryType == Some(JStr("esriGeometryPolyline"))
    ensures format == "POINT" <==>
              geometryType != Some(JStr("esriGeometryPolygon"))
              && geometryType != Some(JStr("esriGeometryPolyline"))
  {
    match geometryType
    case Some(JStr(t)) =>
      if t == "esriGeometryPolygon" then "POLYGON"
      else if t == "esriGeometryPolyline" then "LINESTRING"
      else if t == "esriGeometryPoint" then "POINT"
      else "POINT"
    case _ => "POINT"
  }
}
