/** The library's `parseResult`. Its `testOnly` is `config.testOnly || true`,
    which is always truthy, so it posts the query of the first window only and
    hands the reply to its callback: nothing is written, the cursor never
    moves and `createShape` is never reached. */
module LibraryParse {
  import opened Common
  import opened Text
  import opened Paging
  import opened Requests
  import opened Transport
  import Extraction

  /** `config.testOnly || true`. */
  predicate LibTestOnly(configured: bool): (testOnly: bool)
    ensures testOnly
  {
    configured || true
  }

  /** The form posted for window `w`: the base fields, and the range clause or
      the joined id slice. An unusable `idcolumn` adds nothing. */
  function LibForm(outSr: string, s: Strategy, w: Window): (f: Form)
    requires !s.Throws?
    ensures forall k :: k in BaseForm(outSr) ==> k in f && f[k] == BaseForm(outSr)[k]
    ensures "where" in f <==> s.Range?
    ensures "objectIds" in f <==> s.IdList?
    ensures f.Keys <= BaseForm(outSr).Keys + {"where", "objectIds"}
  {
    match s
    case Range(col) => BaseForm(outSr)["where" := LibWhere(col, w)]
    case IdList(ids) => BaseForm(outSr)["objectIds" := JoinIds(JsSlice(ids, w.fmin, w.top))]
    case Unusable => BaseForm(outSr)
  }

  /** The range form determines the window it queries. */
  lemma LibFormRangeDetermined(outSr: string, col: string, w: Window, w': Window)
    requires LibForm(outSr, Range(col), w) == LibForm(outSr, Range(col), w')
    ensures w.fmin == w'.fmin && w.top == w'.top
  {
    assert LibForm(outSr, Range(col), w)["where"] == LibWhere(col, w);
    assert LibForm(outSr, Range(col), w')["where"] == LibWhere(col, w');
    LibWhereInjective(col, w, w');
  }

  /** The id form names exactly the ids at positions `fmin .. top - 1` of a
      list of integer ids, in order. */
  lemma LibFormIds(outSr: string, ids: seq<Json>, fmin: int, fmax: int)
    requires 0 <= fmin < |ids| && fmin <= fmax && AllNumbers(ids)
    ensures var slice := ids[fmin..Min(WindowAt(fmin, fmax).top, |ids|)];
            var posted := ParseIds(LibForm(outSr, IdList(ids), WindowAt(fmin, fmax))["objectIds"]);
            |posted| == |slice| && forall i :: 0 <= i < |slice| ==> posted[i] == slice[i].n
  {
    var w := WindowAt(fmin, fmax);
    IdSliceBounds(ids, fmin, fmax);
    var slice := ids[fmin..Min(w.top, |ids|)];
    assert JsSlice(ids, w.fmin, w.top) == slice;
    assert AllNumbers(slice) by {
      forall i | 0 <= i < |slice| ensures slice[i].JNum? { assert slice[i] == ids[fmin + i]; }
    }
    JoinIdsRoundTrip(slice);
  }

  /** What `callback` is handed: the reply as it came, or the reply annotated
      with the request (`urlpath`, `hostname`, `postdata`). */
  datatype Handed =
    | Raw(reply: Json)
    | Annotated(reply: Json, urlpath: string, hostname: string, postdata: Form)

  /** What one call does, in order: `callback` calls, the POST, an uncaught
      exception. */
  datatype LibEvent =
    | CalledBack(value: Option<Handed>)
    | Posted(path: string, form: Form)
    | Threw(error: string)

  /** Setting `urlpath` on anything but an object or an array throws in
      strict mode; the message depends on the value. */
  function AnnotateFailed(result6: Option<Json>): string
  {
    match result6
    case None => "TypeError: Cannot set properties of undefined (setting 'urlpath')"
    case Some(JNull) => "TypeError: Cannot set properties of null (setting 'urlpath')"
    case Some(_) => "TypeError: Cannot create property 'urlpath' on a primitive value"
  }

  /** The POST's callback, given `result6`: a reply with an array of features
      goes to `callback` as it is; a reply without features goes annotated. */
  function Handle(result6: Option<Json>, urlpath: string, hostname: string, form: Form): (r: Result<Handed>)
    ensures r.Ok? && r.value.Raw? <==>
              Present(result6) && Present(Member(result6.value, "features"))
              && Member(result6.value, "features").value.JArr?
    ensures r.Ok? && r.value.Raw? ==> r.value.reply == result6.value
    ensures r.Ok? && r.value.Annotated? <==>
              result6.Some? && (result6.value.JObj? || result6.value.JArr?)
              && !Present(Member(result6.value, "features"))
    ensures r.Ok? && r.value.Annotated? ==> r.value == Annotated(result6.value, urlpath, hostname, form)
    ensures r == Thrown(Extraction.FeaturesNotArray) <==>
              Present(result6) && Present(Member(result6.value, "features"))
              && !Member(result6.value, "features").value.JArr?
  {
    if Present(result6) && Present(Member(result6.value, "features")) then
      if Member(result6.value, "features").value.JArr? then Ok(Raw(result6.value))
      else Thrown(Extraction.FeaturesNotArray)
    else if result6.Some? && (result6.value.JObj? || result6.value.JArr?) then
      Ok(Annotated(result6.value, urlpath, hostname, form))
    else Thrown(AnnotateFailed(result6))
  }

  /** The POST's callback with the delivery of `post`: an exception inside
      `post`'s `try` makes `post` call it again with the error object, which
      then goes to `callback` annotated. */
  function OnReply(d: Delivery, urlpath: string, hostname: string, form: Form): (r: seq<LibEvent>)
    ensures |r| == 1 && (r[0].CalledBack? || r[0].Threw?)
    ensures r[0].Threw? ==> !d.guarded
    ensures d.guarded && Handle(d.value, urlpath, hostname, form).Thrown? ==>
              r[0] == CalledBack(Some(Annotated(ErrorValue(Handle(d.value, urlpath, hostname, form).error),
                                                urlpath, hostname, form)))
    ensures Handle(d.value, urlpath, hostname, form).Ok? ==>
              r[0] == CalledBack(Some(Handle(d.value, urlpath, hostname, form).value))
  {
    match Handle(d.value, urlpath, hostname, form)
    case Ok(h) => [CalledBack(Some(h))]
    case Thrown(e) =>
      if !d.guarded then [Threw(e)]
      else
        var again := Redeliver(LibPost, e).value;
        assert Member(ErrorValue(e), "features") == None;
        match Handle(again.value, urlpath, hostname, form)
        case Ok(h) => [CalledBack(Some(h))]
        case Thrown(e2) => [Threw(e2)]
  }

  /** `parseResult(fmin, fmax, service, layer, idcolumn, geometryType,
      callback)` when the POST ends in `o` and `JSON.parse` is `parse`. */
  function LibParseResult(cfg: Config, service: string, layerId: int, idcolumn: Json,
                          fmin: int, fmax: int, o: Outcome, parse: string -> Result<Json>): (r: seq<LibEvent>)
    ensures ClassifyIdColumn(idcolumn).Throws? ==> r == [Threw(ClassifyIdColumn(idcolumn).error)]
    ensures !ClassifyIdColumn(idcolumn).Throws? ==>
              var k := if ClassifyIdColumn(idcolumn).Unusable? then 1 else 0;
              |r| == k + 2
              && (k == 1 ==> r[0] == CalledBack(None))
              && r[k] == Posted(QueryPath(service, layerId),
                                LibForm(OutSr(cfg.outSr), ClassifyIdColumn(idcolumn), WindowAt(fmin, fmax)))
              && (r[k + 1].CalledBack? || r[k + 1].Threw?)
  {
    var s := ClassifyIdColumn(idcolumn);
    if s.Throws? then [Threw(s.error)]
    else
      var path := QueryPath(service, layerId);
      var form := LibForm(OutSr(cfg.outSr), s, WindowAt(fmin, fmax));
      var d := Deliver(LibPost, o, parse, "").value;
      (if s.Unusable? then [CalledBack(None)] else []) + [Posted(path, form)] + OnReply(d, path, cfg.hostname, form)
  }

  /** The last event of a call that got as far as the POST. */
  function Last(r: seq<LibEvent>): LibEvent
    requires r != []
  {
    r[|r| - 1]
  }

  /** Whatever `config.testOnly` says, a reply with an array of features is
      handed to `callback` as it came: no file is written. */
  lemma FeaturesHandedRaw(cfg: Config, service: string, layerId: int, idcolumn: Json,
                          fmin: int, fmax: int, body: string, parse: string -> Result<Json>)
    requires !ClassifyIdColumn(idcolumn).Throws?
    requires Reply(body, parse, "").Ok?
    requires ReplyFeaturesArray(Reply(body, parse, "").value)
    ensures Last(LibParseResult(cfg, service, layerId, idcolumn, fmin, fmax, Responded(200, body), parse))
            == CalledBack(Some(Raw(Reply(body, parse, "").value)))
  {
    var r := LibParseResult(cfg, service, layerId, idcolumn, fmin, fmax, Responded(200, body), parse);
    assert Deliver(LibPost, Responded(200, body), parse, "")
           == Ok(Delivery(Some(Reply(body, parse, "").value), true));
  }

  predicate ReplyFeaturesArray(v: Json)
  {
    Truthy(v) && Present(Member(v, "features")) && Member(v, "features").value.JArr?
  }

  /** A request error or a reply `JSON.parse` rejects reaches `callback` as an
      error object annotated with the request. */
  lemma FailuresAnnotated(cfg: Config, service: string, layerId: int, idcolumn: Json,
                          fmin: int, fmax: int, o: Outcome, parse: string -> Result<Json>)
    requires !ClassifyIdColumn(idcolumn).Throws?
    requires Failed(o, parse, "")
    ensures Last(LibParseResult(cfg, service, layerId, idcolumn, fmin, fmax, o, parse))
            == CalledBack(Some(Annotated(ErrorValue(FailMessage(o, parse, "")), QueryPath(service, layerId), cfg.hostname,
                                         LibForm(OutSr(cfg.outSr), ClassifyIdColumn(idcolumn), WindowAt(fmin, fmax)))))
  {
    assert Member(ErrorValue(FailMessage(o, parse, "")), "features") == None;
  }

  /** A status other than 200 gives `result6 === undefined`, and setting its
      `urlpath` throws outside any `try`: `callback` is never called with a
      result. */
  lemma NonOkStatusThrows(cfg: Config, service: string, layerId: int, idcolumn: Json,
                          fmin: int, fmax: int, status: int, body: string, parse: string -> Result<Json>)
    requires !ClassifyIdColumn(idcolumn).Throws? && status != 200
    ensures Last(LibParseResult(cfg, service, layerId, idcolumn, fmin, fmax, Responded(status, body), parse))
            == Threw(AnnotateFailed(None))
  {
  }

  /** Features that are not an array make `forEach` throw inside `post`'s
      `try`; the error object then reaches `callback` annotated. */
  lemma FeaturesNotArrayAnnotated(cfg: Config, service: string, layerId: int, idcolumn: Json,
                                  fmin: int, fmax: int, body: string, parse: string -> Result<Json>)
    requires !ClassifyIdColumn(idcolumn).Throws?
    requires Reply(body, parse, "").Ok?
    requires Truthy(Reply(body, parse, "").value)
    requires Present(Member(Reply(body, parse, "").value, "features"))
    requires !ReplyFeaturesArray(Reply(body, parse, "").value)
    ensures Last(LibParseResult(cfg, service, layerId, idcolumn, fmin, fmax, Responded(200, body), parse))
            == CalledBack(Some(Annotated(ErrorValue(Extraction.FeaturesNotArray), QueryPath(service, layerId), cfg.hostname,
                                         LibForm(OutSr(cfg.outSr), ClassifyIdColumn(idcolumn), WindowAt(fmin, fmax)))))
  {
    assert Deliver(LibPost, Responded(200, body), parse, "")
           == Ok(Delivery(Some(Reply(body, parse, "").value), true));
  }

  /** The form of the first window of `parseResult(0, 1, ...)` on
      `OBJECTID`: the objects with ids strictly between 0 and 2. */
  lemma RangeFormExample(outSr: string)
    ensures LibForm(outSr, Range("OBJECTID"), WindowAt(0, 1))
            == BaseForm(outSr)["where" := "OBJECTID+>+0+AND+OBJECTID+<+2"]
  {
    var w := WindowAt(0, 1);
    assert w.fmin == 0 && w.top == 2;
    assert IntToString(0) == "0" && IntToString(2) == "2";
    assert LibWhere("OBJECTID", w) == "OBJECTID+>+0+AND+OBJECTID+<+2";
  }

  /** The form of the first window of `parseResult(0, 1, ...)` on the id list
      `[1]`: the single id `1`. */
  lemma IdFormExample(outSr: string)
    ensures ClassifyIdColumn(JObj(map["objectIdFieldName" := JStr("OBJECTID"), "objectIds" := JArr([JNum(1)])]))
            == IdList([JNum(1)])
    ensures LibForm(outSr, IdList([JNum(1)]), WindowAt(0, 1)) == BaseForm(outSr)["objectIds" := "1"]
  {
    var ids := [JNum(1)];
    assert JsSlice(ids, 0, 2) == ids;
    assert JoinIds(ids) == "1";
  }

  /** `parseResult(0, 1, {name}, {id: 4}, 'OBJECTID', ...)` against a server
      that answers with an error object: one POST for the window `[1, 1]`
      with the clause `OBJECTID+>+0+AND+OBJECTID+<+2`, and `callback` gets the
      error object back annotated, its `error.code` still 400. */
  lemma ErrorReplyExample(cfg: Config, service: string, body: string, parse: string -> Result<Json>, error: Json)
    requires cfg.outSr == ""
    requires error.JObj? && "code" in error.fields && error.fields["code"] == JNum(400)
    requires parse(ReplaceNaN(body)) == Ok(JObj(map["error" := error]))
    ensures var form := BaseForm(DefaultOutSr)["where" := "OBJECTID+>+0+AND+OBJECTID+<+2"];
            var reply := JObj(map["error" := error]);
            LibParseResult(cfg, service, 4, JStr("OBJECTID"), 0, 1, Responded(200, body), parse)
            == [Posted(QueryPath(service, 4), form),
                CalledBack(Some(Annotated(reply, QueryPath(service, 4), cfg.hostname, form)))]
            && Member(reply, "error").value.fields["code"] == JNum(400)
  {
    RangeFormExample(DefaultOutSr);
    var reply := JObj(map["error" := error]);
    var form := BaseForm(DefaultOutSr)["where" := "OBJECTID+>+0+AND+OBJECTID+<+2"];
    var path := QueryPath(service, 4);
    assert Reply(body, parse, "") == Ok(reply);
    assert Deliver(LibPost, Responded(200, body), parse, "") == Ok(Delivery(Some(reply), true));
    assert Member(reply, "features") == None;
    assert Handle(Some(reply), path, cfg.hostname, form) == Ok(Annotated(reply, path, cfg.hostname, form));
  }

  /** `parseResult(0, 1, ..., {objectIdFieldName: 'OBJECTID', objectIds: [1]},
      ...)`: the POST names the single id `1`, and a reply with one feature is
      handed to `callback` as it came. */
  lemma IdListExample(cfg: Config, service: string, body: string, parse: string -> Result<Json>, feature: Json)
    requires parse(ReplaceNaN(body)) == Ok(JObj(map["features" := JArr([feature])]))
    ensures var idcolumn := JObj(map["objectIdFieldName" := JStr("OBJECTID"), "objectIds" := JArr([JNum(1)])]);
            var form := BaseForm(OutSr(cfg.outSr))["objectIds" := "1"];
            var reply := JObj(map["features" := JArr([feature])]);
            LibParseResult(cfg, service, 4, idcolumn, 0, 1, Responded(200, body), parse)
            == [Posted(QueryPath(service, 4), form), CalledBack(Some(Raw(reply)))]
            && |Member(reply, "features").value.items| == 1
  {
    IdFormExample(OutSr(cfg.outSr));
    var reply := JObj(map["features" := JArr([feature])]);
    var form := BaseForm(OutSr(cfg.outSr))["objectIds" := "1"];
    var path := QueryPath(service, 4);
    assert Reply(body, parse, "") == Ok(reply);
    assert Deliver(LibPost, Responded(200, body), parse, "") == Ok(Delivery(Some(reply), true));
    assert ReplyFeaturesArray(reply);
    assert Handle(Some(reply), path, cfg.hostname, form) == Ok(Raw(reply));
  }
}
