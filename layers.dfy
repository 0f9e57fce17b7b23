/** Which layers of a map service are extracted (`processLayers`), and the
    two helpers that find how a layer's objects are identified: `getIdfield`
    (the identifier column) and `getObjectIds` (the list of all ids). The
    library and the batch script share this code; they differ only in the
    helper that fetches the replies, and so in which exceptions are caught.

    A reply is the value the fetching helper hands to the callback (`None`
    for `undefined`); `Transport.Deliver` says how it arises. */
module Layers {
  import opened Common
  import opened Text
  import opened Requests
  import opened Transport

  // ---------------------------------------------------------------------------
  // getIdfield

  const DefaultIdColumn := "OBJECTID"
  const OidType := "esriFieldTypeOID"
  const FieldsNotArray := "TypeError: result.fields.forEach is not a function"
  const NullField := "TypeError: Cannot read properties of null (reading 'type')"

  /** `field.type && field.type === 'esriFieldTypeOID'`. */
  predicate IsOidField(field: Json)
  {
    Member(field, "type") == Some(JStr(OidType))
  }

  /** The identifier column after the fields are scanned in order: each OID
      field replaces it by its `name` (`None` when the field has no name). */
  function IdfieldAfter(fields: seq<Json>): Option<Json>
  {
    if fields == [] then Some(JStr(DefaultIdColumn))
    else
      var last := fields[|fields| - 1];
      if IsOidField(last) then Member(last, "name") else IdfieldAfter(fields[..|fields| - 1])
  }

  /** The position of the first `null` field, where reading `field.type`
      throws; the number of fields when there is none. */
  function FirstNull(fields: seq<Json>): (k: nat)
    ensures k <= |fields|
    ensures forall j :: 0 <= j < k ==> !fields[j].JNull?
    ensures k < |fields| ==> fields[k].JNull?
  {
    if fields == [] then 0
    else if fields[0].JNull? then 0
    else 1 + FirstNull(fields[1..])
  }

  /** The last OID field wins; without one the column is `OBJECTID`. */
  lemma {:induction false} LastOidWins(fields: seq<Json>, i: int)
    requires 0 <= i < |fields| && IsOidField(fields[i])
    requires forall j :: i < j < |fields| ==> !IsOidField(fields[j])
    ensures IdfieldAfter(fields) == Member(fields[i], "name")
  {
    if i < |fields| - 1 {
      var front := fields[..|fields| - 1];
      assert front[i] == fields[i];
      forall j | i < j < |front| ensures !IsOidField(front[j]) {
        assert front[j] == fields[j];
      }
      LastOidWins(front, i);
    }
  }

  lemma {:induction false} NoOidDefault(fields: seq<Json>)
    requires forall j :: 0 <= j < |fields| ==> !IsOidField(fields[j])
    ensures IdfieldAfter(fields) == Some(JStr(DefaultIdColumn))
  {
    if fields != [] {
      var front := fields[..|fields| - 1];
      forall j | 0 <= j < |front| ensures !IsOidField(front[j]) {
        assert front[j] == fields[j];
      }
      NoOidDefault(front);
    }
  }

  /** The `forEach` over `result.fields`, updating `idcolumn` in place until
      a `null` field throws. */
  method ScanFields(fields: seq<Json>) returns (idcolumn: Option<Json>, threw: bool)
    ensures threw <==> FirstNull(fields) < |fields|
    ensures idcolumn == IdfieldAfter(fields[..FirstNull(fields)])
  {
    idcolumn := Some(JStr(DefaultIdColumn));
    threw := false;
    var i := 0;
    while i < |fields|
      invariant 0 <= i <= FirstNull(fields)
      invariant idcolumn == IdfieldAfter(fields[..i])
    {
      if fields[i].JNull? {
        threw := true;
        break;
      }
      assert fields[..i + 1][..i] == fields[..i];
      if IsOidField(fields[i]) {
        idcolumn := Member(fields[i], "name");
      }
      i := i + 1;
    }
  }

  /** What `getIdfield` hands its callback, given the reply to the layer
      description. A reply without an array of fields, or with a `null`
      field, throws inside the callback: the batch script's `retrieve`
      catches it and calls back again without a value, so the column found
      so far is handed on; the library's `get` lets it escape. */
  function GetIdfield(h: Helper, reply: Option<Json>): (r: Result<Option<Json>>)
    requires h == Retrieve || h == LibGet
    ensures !Present(reply) ==> r == Ok(Some(JStr(DefaultIdColumn)))
    ensures r.Thrown? ==> h == LibGet
  {
    if !Present(reply) then Ok(Some(JStr(DefaultIdColumn)))
    else
      match Member(reply.value, "fields")
      case Some(JArr(fields)) =>
        var k := FirstNull(fields);
        if k < |fields| && h == LibGet then Thrown(NullField) else Ok(IdfieldAfter(fields[..k]))
      case _ =>
        if h == LibGet then Thrown(FieldsNotArray) else Ok(Some(JStr(DefaultIdColumn)))
  }

  /** With well-formed fields both versions hand on the name of the last OID
      field, or `OBJECTID` when there is none. */
  lemma GetIdfieldWellFormed(h: Helper, reply: Json, fields: seq<Json>)
    requires h == Retrieve || h == LibGet
    requires Truthy(reply) && Member(reply, "fields") == Some(JArr(fields))
    requires forall j :: 0 <= j < |fields| ==> !fields[j].JNull?
    ensures GetIdfield(h, Some(reply)) == Ok(IdfieldAfter(fields))
  {
    assert FirstNull(fields) == |fields|;
    assert fields[..|fields|] == fields;
  }

  /** A `null` after an OID field: the batch script still hands on that
      field's name, the library throws. */
  lemma NullFieldExample(name: Json)
    ensures var oid := JObj(map["type" := JStr(OidType), "name" := name]);
            var reply := JObj(map["fields" := JArr([oid, JNull])]);
            GetIdfield(Retrieve, Some(reply)) == Ok(Some(name))
            && GetIdfield(LibGet, Some(reply)) == Thrown(NullField)
  {
    var oid := JObj(map["type" := JStr(OidType), "name" := name]);
    var fields := [oid, JNull];
    assert FirstNull(fields[1..]) == 0;
    assert FirstNull(fields) == 1;
    assert fields[..1] == [oid];
    assert IsOidField(oid);
  }

  // ---------------------------------------------------------------------------
  // getObjectIds

  /** `getObjectIds` hands on the reply when it is truthy, `[]` otherwise. */
  function ObjectIdsOrEmpty(reply: Option<Json>): (idcolumn: Json)
    ensures Present(reply) ==> idcolumn == reply.value
    ensures !Present(reply) ==> idcolumn == JArr([])
  {
    if Present(reply) then reply.value else JArr([])
  }

  /** When the id query fails, the batch script's `parseResult` gets `[]`,
      which has no `objectIdFieldName`: nothing of the layer is fetched. */
  lemma ObjectIdsFailureFetchesNothing(reply: Option<Json>)
    requires !Present(reply)
    ensures ClassifyIdColumn(ObjectIdsOrEmpty(reply)) == Unusable
  {
  }

  /** A well-formed id reply selects the id-list strategy over its ids. */
  lemma ObjectIdsReply(name: string, ids: seq<Json>)
    requires name != ""
    ensures ClassifyIdColumn(ObjectIdsOrEmpty(Some(JObj(map["objectIdFieldName" := JStr(name), "objectIds" := JArr(ids)]))))
            == IdList(ids)
  {
    var v := JObj(map["objectIdFieldName" := JStr(name), "objectIds" := JArr(ids)]);
    assert Present(Member(v, "objectIdFieldName"));
  }

  // ---------------------------------------------------------------------------
  // processLayers

  /** `capabilities.split(',').indexOf('Query') > -1`: an exact token. */
  predicate IsQueryable(capabilities: string)
  {
    "Query" in Split(capabilities, ',')
  }

  lemma QueryableExample()
    ensures IsQueryable("Map,Query,Data")
  {
    SplitJoin(["Map", "Query", "Data"], ',');
    assert Join(["Map", "Query", "Data"], ',') == "Map,Query,Data";
  }

  /** A space before the token hides it. */
  lemma SpacedNotQueryableExample()
    ensures !IsQueryable("Map, Query")
  {
    SplitJoin(["Map", " Query"], ',');
    assert Join(["Map", " Query"], ',') == "Map, Query";
  }

  /** A longer word that starts with the token is not the token. */
  lemma PrefixNotQueryableExample()
    ensures !IsQueryable("Map,Querying")
  {
    SplitJoin(["Map", "Querying"], ',');
    assert Join(["Map", "Querying"], ',') == "Map,Querying";
  }

  /** One entry of the service's `layers`. */
  datatype LayerEntry = LayerEntry(id: int, name: string, hasSubLayers: bool)

  /** The replies one layer's requests get: its description, its count, and
      (with `useObjectIDs`) its ids. */
  datatype LayerReplies = LayerReplies(info: Option<Json>, count: Option<Json>, objectIds: Option<Json>)

  /** What becomes of one layer. `Extract` is the call
      `parseResult(offsetStart, count, service, layer, idcolumn,
      geometryType)`. */
  datatype LayerPlan =
    | GroupLayer                   // it has `subLayerIds`
    | NotListed                    // not in `layersList`
    | NoInfo                       // no description: "Could not get count" is logged
    | NotQueryable                 // `capabilities` lacks the token `Query`
    | NoCount                      // no count, or a zero count
    | CountOnly(count: Json)       // `testOnly`: the count is logged
    | Extract(fmin: int, fmax: int, idcolumn: Json, geometryType: Option<Json>)
    | OddCount(count: Json)        // a truthy count that is not a number
    | LayerThrew(error: string)    // an exception no `try` catches

  const CapabilitiesNotString := "TypeError: result4.capabilities.split is not a function"
  const LayersListUnset := "TypeError: Cannot read properties of undefined (reading 'indexOf')"

  /** `yesContinue`: the layer allow-list admits the layer. Reading an unset
      list throws. */
  function Admitted(cfg: Config, layer: LayerEntry): Result<bool>
  {
    if !cfg.useLayerList then Ok(true)
    else if cfg.layersList.None? then Thrown(LayersListUnset)
    else Ok(layer.id in cfg.layersList.value)
  }

  /** Whether the description says the layer can be queried. Reading a
      `capabilities` that is not a string throws inside the description's
      callback. */
  function Queryable(info: Json): Result<bool>
  {
    match Member(info, "capabilities")
    case Some(JStr(c)) => Ok(c != "" && IsQueryable(c))
    case Some(v) => if Truthy(v) then Thrown(CapabilitiesNotString) else Ok(false)
    case None => Ok(false)
  }

  /** Without the allow-list every layer is admitted; with it, a layer is
      admitted exactly when its id is listed, and an unset list throws. */
  lemma AdmittedCases(cfg: Config, layer: LayerEntry)
    ensures Admitted(cfg, layer).Thrown? <==> cfg.useLayerList && cfg.layersList.None?
    ensures Admitted(cfg, layer) == Ok(true) <==>
              !cfg.useLayerList || (cfg.layersList.Some? && layer.id in cfg.layersList.value)
  {
  }

  /** A layer can be queried exactly when its `capabilities` is a non-empty
      string with the token `Query`; a truthy `capabilities` that is not a
      string throws. */
  lemma QueryableCases(info: Json)
    ensures var c := Member(info, "capabilities");
            Queryable(info).Thrown? <==> c.Some? && Truthy(c.value) && !c.value.JStr?
    ensures var c := Member(info, "capabilities");
            Queryable(info) == Ok(true) <==> c.Some? && c.value.JStr? && Truthy(c.value) && IsQueryable(c.value.s)
  {
  }

  /** The layer's fate from its description on. */
  function PlanQueried(cfg: Config, h: Helper, r: LayerReplies): (p: LayerPlan)
    requires h == Retrieve || h == LibGet
  {
    if !Present(r.info) then NoInfo
    else match Queryable(r.info.value)
      case Thrown(e) => if h == LibGet then LayerThrew(e) else NoInfo
      case Ok(q) =>
        if !q then NotQueryable
        else if !Present(r.count) || !Present(Member(r.count.value, "count")) then NoCount
        else
          var count := Member(r.count.value, "count").value;
          if cfg.testOnly then CountOnly(count)
          else if !count.JNum? then OddCount(count)
          else
            var idcolumn := if !cfg.useObjectIDs then JStr(DefaultIdColumn) else ObjectIdsOrEmpty(r.objectIds);
            Extract(cfg.offsetStart, count.n, idcolumn, Member(r.info.value, "geometryType"))
  }

  /** The body of `result3.forEach` for one layer; `Thrown` when reading the
      allow-list throws, which ends the loop. */
  function PlanLayer(cfg: Config, h: Helper, layer: LayerEntry, r: LayerReplies): (p: Result<LayerPlan>)
    requires h == Retrieve || h == LibGet
    ensures p.Thrown? <==> !layer.hasSubLayers && cfg.useLayerList && cfg.layersList.None?
    ensures p.Ok? && p.value.Extract? <==>
              !layer.hasSubLayers && Admitted(cfg, layer) == Ok(true)
              && Present(r.info) && Queryable(r.info.value) == Ok(true)
              && Present(r.count) && Present(Member(r.count.value, "count"))
              && Member(r.count.value, "count").value.JNum? && !cfg.testOnly
    ensures p.Ok? && p.value.Extract? ==>
              p.value.fmin == cfg.offsetStart
              && JNum(p.value.fmax) == Member(r.count.value, "count").value && p.value.fmax != 0
              && p.value.geometryType == Member(r.info.value, "geometryType")
              && p.value.idcolumn == (if cfg.useObjectIDs then ObjectIdsOrEmpty(r.objectIds) else JStr(DefaultIdColumn))
  {
    if layer.hasSubLayers then Ok(GroupLayer)
    else match Admitted(cfg, layer)
      case Thrown(e) => Thrown(e)
      case Ok(admitted) => if !admitted then Ok(NotListed) else Ok(PlanQueried(cfg, h, r))
  }

  /** How the loop over the layers ended: over every layer, or on an
      exception the fetching helper's `try` caught (the callback then runs
      again without a value and logs that the layers could not be read), or
      on one nothing catches. */
  datatype LoopEnd = Done | Caught(error: string) | Uncaught(error: string)

  /** The layers of the service's reply: an array, or something else (the
      whole reply when it has no `layers`). */
  datatype LayersReply = LayerArray(layers: seq<LayerEntry>) | NotAnArray

  /** What `processLayers` does for one service. */
  datatype ServicePlan =
    | Skipped                                  // not a `MapServer`
    | NoLayers                                 // "Could not get layers", `callback()`
    | Planned(plans: seq<LayerPlan>, end: LoopEnd)

  const LayersNotArray := "TypeError: result3.forEach is not a function"

  function EndOn(h: Helper, error: string): LoopEnd
  {
    if h == LibGet then Uncaught(error) else Caught(error)
  }

  /** The plans of the layers from position `k` on, and how the loop ends. */
  function PlanFrom(cfg: Config, h: Helper, layers: seq<LayerEntry>, k: nat,
                    replies: nat -> LayerReplies): (r: (seq<LayerPlan>, LoopEnd))
    requires h == Retrieve || h == LibGet
    requires k <= |layers|
    ensures |r.0| <= |layers| - k
    ensures r.1.Done? <==> |r.0| == |layers| - k
    ensures forall i :: 0 <= i < |r.0| ==> PlanLayer(cfg, h, layers[k + i], replies(k + i)) == Ok(r.0[i])
    ensures !r.1.Done? ==> r.1 == EndOn(h, LayersListUnset)
                           && PlanLayer(cfg, h, layers[k + |r.0|], replies(k + |r.0|)).Thrown?
    decreases |layers| - k
  {
    if k == |layers| then ([], Done)
    else match PlanLayer(cfg, h, layers[k], replies(k))
      case Thrown(e) => ([], EndOn(h, e))
      case Ok(p) =>
        var rest := PlanFrom(cfg, h, layers, k + 1, replies);
        ([p] + rest.0, rest.1)
  }

  const MapServerType := "MapServer"

  /** A service as `processLayers` reads it: its `name` and its `type`
      (`None` when missing). */
  datatype Service = Service(name: string, kind: Option<Json>)

  /** `processLayers(service)` given the reply to the service's layer list
      and the replies of each layer's requests, by position. */
  function PlanService(cfg: Config, h: Helper, service: Service, reply: Option<LayersReply>,
                       replies: nat -> LayerReplies): ServicePlan
    requires h == Retrieve || h == LibGet
  {
    if service.kind != Some(JStr(MapServerType)) then Skipped
    else if reply.None? then NoLayers
    else match reply.value
      case NotAnArray => Planned([], EndOn(h, LayersNotArray))
      case LayerArray(layers) =>
        var r := PlanFrom(cfg, h, layers, 0, replies);
        Planned(r.0, r.1)
  }

  /** One pass of the `forEach`, in terms of the plans gathered so far: a
      throw ends the loop with them, a plan is appended to them. */
  lemma PlanFromStep(cfg: Config, h: Helper, layers: seq<LayerEntry>, i: nat,
                     replies: nat -> LayerReplies, plans: seq<LayerPlan>)
    requires h == Retrieve || h == LibGet
    requires i < |layers|
    requires PlanFrom(cfg, h, layers, 0, replies) == (plans + PlanFrom(cfg, h, layers, i, replies).0,
                                                      PlanFrom(cfg, h, layers, i, replies).1)
    ensures var step := PlanLayer(cfg, h, layers[i], replies(i));
            step.Thrown? ==> PlanFrom(cfg, h, layers, 0, replies) == (plans, EndOn(h, step.error))
    ensures var step := PlanLayer(cfg, h, layers[i], replies(i));
            step.Ok? ==> PlanFrom(cfg, h, layers, 0, replies)
                           == ((plans + [step.value]) + PlanFrom(cfg, h, layers, i + 1, replies).0,
                               PlanFrom(cfg, h, layers, i + 1, replies).1)
  {
    var step := PlanLayer(cfg, h, layers[i], replies(i));
    if step.Thrown? {
      assert plans + [] == plans;
    } else {
      var rest := PlanFrom(cfg, h, layers, i + 1, replies);
      assert plans + ([step.value] + rest.0) == (plans + [step.value]) + rest.0;
    }
  }

  /** `processLayers`: the `forEach` over the layers as a loop that stops at
      the first exception. */
  method ProcessLayers(cfg: Config, h: Helper, service: Service, reply: Option<LayersReply>,
                       replies: nat -> LayerReplies) returns (plan: ServicePlan)
    requires h == Retrieve || h == LibGet
    ensures plan == PlanService(cfg, h, service, reply, replies)
  {
    if service.kind != Some(JStr(MapServerType)) {
      return Skipped;
    }
    if reply.None? {
      return NoLayers;
    }
    if reply.value.NotAnArray? {
      return Planned([], EndOn(h, LayersNotArray));
    }
    var layers := reply.value.layers;
    var plans: seq<LayerPlan> := [];
    var end := Done;
    var i := 0;
    assert plans + PlanFrom(cfg, h, layers, 0, replies).0 == PlanFrom(cfg, h, layers, 0, replies).0;
    while i < |layers|
      invariant 0 <= i <= |layers|
      invariant PlanFrom(cfg, h, layers, 0, replies) == (plans + PlanFrom(cfg, h, layers, i, replies).0,
                                                         PlanFrom(cfg, h, layers, i, replies).1)
    {
      var step := PlanLayer(cfg, h, layers[i], replies(i));
      PlanFromStep(cfg, h, layers, i, replies, plans);
      if step.Thrown? {
        end := EndOn(h, step.error);
        break;
      }
      plans := plans + [step.value];
      i := i + 1;
    }
    if end.Done? {
      assert plans + [] == plans;
    }
    plan := Planned(plans, end);
  }

  /** The plans of a service whose layer list is an array. */
  function Plans(cfg: Config, h: Helper, service: Service, layers: seq<LayerEntry>,
                 replies: nat -> LayerReplies): seq<LayerPlan>
    requires h == Retrieve || h == LibGet
  {
    var p := PlanService(cfg, h, service, Some(LayerArray(layers)), replies);
    if p.Planned? then p.plans else []
  }

  /** A layer is handed to `parseResult` exactly when it is no group layer,
      the allow-list admits it, its description names the capability
      `Query`, its count is a number other than 0, and `testOnly` is off; the
      call starts at `offsetStart`, runs up to the count and passes the
      layer's geometry type, with `OBJECTID` as the column unless
      `useObjectIDs` asks for the id list. */
  lemma ExtractedLayer(cfg: Config, h: Helper, service: Service, layers: seq<LayerEntry>,
                       replies: nat -> LayerReplies, i: nat)
    requires h == Retrieve || h == LibGet
    requires i < |Plans(cfg, h, service, layers, replies)|
    ensures var p := Plans(cfg, h, service, layers, replies)[i];
            var r := replies(i);
            p.Extract? <==>
              !layers[i].hasSubLayers && Admitted(cfg, layers[i]) == Ok(true)
              && Present(r.info) && Queryable(r.info.value) == Ok(true)
              && Present(r.count) && Present(Member(r.count.value, "count"))
              && Member(r.count.value, "count").value.JNum? && !cfg.testOnly
    ensures var p := Plans(cfg, h, service, layers, replies)[i];
            var r := replies(i);
            p.Extract? ==>
              p.fmin == cfg.offsetStart && JNum(p.fmax) == Member(r.count.value, "count").value
              && p.geometryType == Member(r.info.value, "geometryType")
              && p.idcolumn == (if cfg.useObjectIDs then ObjectIdsOrEmpty(r.objectIds) else JStr(DefaultIdColumn))
  {
    var plans := Plans(cfg, h, service, layers, replies);
    assert PlanLayer(cfg, h, layers[i], replies(i)) == Ok(plans[i]);
  }

  /** With `testOnly` nothing is extracted: counts are only logged. */
  lemma TestOnlyExtractsNothing(cfg: Config, h: Helper, service: Service, layers: seq<LayerEntry>,
                                replies: nat -> LayerReplies)
    requires h == Retrieve || h == LibGet
    requires cfg.testOnly
    ensures forall i :: 0 <= i < |Plans(cfg, h, service, layers, replies)| ==>
              !Plans(cfg, h, service, layers, replies)[i].Extract?
  {
    forall i | 0 <= i < |Plans(cfg, h, service, layers, replies)|
      ensures !Plans(cfg, h, service, layers, replies)[i].Extract?
    {
      ExtractedLayer(cfg, h, service, layers, replies, i);
    }
  }

  /** With the allow-list set whenever it is used, the loop reaches every
      layer of a map service; otherwise it stops at the first layer that is
      no group layer. */
  lemma LoopCoversLayers(cfg: Config, h: Helper, service: Service, layers: seq<LayerEntry>,
                         replies: nat -> LayerReplies)
    requires h == Retrieve || h == LibGet
    requires service.kind == Some(JStr(MapServerType))
    requires cfg.useLayerList ==> cfg.layersList.Some?
    ensures PlanService(cfg, h, service, Some(LayerArray(layers)), replies).end == Done
    ensures |Plans(cfg, h, service, layers, replies)| == |layers|
  {
  }

  /** One layer's plan does not depend on the helper when its description
      has no `capabilities` that is not a string. */
  lemma PlanLayerAgree(cfg: Config, layer: LayerEntry, r: LayerReplies)
    requires Present(r.info) ==> Queryable(r.info.value).Ok?
    ensures PlanLayer(cfg, Retrieve, layer, r) == PlanLayer(cfg, LibGet, layer, r)
  {
  }

  /** The plans from position `k` agree between the two versions when no
      description has a `capabilities` that is not a string. */
  lemma {:induction false} PlanFromAgree(cfg: Config, layers: seq<LayerEntry>, k: nat, replies: nat -> LayerReplies)
    requires k <= |layers|
    requires forall i :: k <= i < |layers| && Present(replies(i).info) ==> Queryable(replies(i).info.value).Ok?
    ensures PlanFrom(cfg, Retrieve, layers, k, replies).0 == PlanFrom(cfg, LibGet, layers, k, replies).0
    decreases |layers| - k
  {
    if k < |layers| {
      PlanFromAgree(cfg, layers, k + 1, replies);
      PlanLayerAgree(cfg, layers[k], replies(k));
      var first := PlanLayer(cfg, Retrieve, layers[k], replies(k));
      if first.Ok? {
        assert PlanFrom(cfg, Retrieve, layers, k, replies).0 == [first.value] + PlanFrom(cfg, Retrieve, layers, k + 1, replies).0;
        assert PlanFrom(cfg, LibGet, layers, k, replies).0 == [first.value] + PlanFrom(cfg, LibGet, layers, k + 1, replies).0;
      }
    }
  }

  /** Where the library and the batch script part in `processLayers`: only in
      whether an exception is caught. */
  lemma HelpersAgree(cfg: Config, service: Service, layers: seq<LayerEntry>, replies: nat -> LayerReplies)
    requires forall i :: 0 <= i < |layers| && Present(replies(i).info) ==> Queryable(replies(i).info.value).Ok?
    ensures Plans(cfg, Retrieve, service, layers, replies) == Plans(cfg, LibGet, service, layers, replies)
  {
    PlanFromAgree(cfg, layers, 0, replies);
  }

  /** A description whose `capabilities` is a list: the batch script reports
      that it could not get the count, the library throws. */
  lemma CapabilitiesListExample(cfg: Config, layer: LayerEntry, items: seq<Json>)
    requires !layer.hasSubLayers && !cfg.useLayerList
    ensures var r := LayerReplies(Some(JObj(map["capabilities" := JArr(items)])), None, None);
            PlanLayer(cfg, Retrieve, layer, r) == Ok(NoInfo)
            && PlanLayer(cfg, LibGet, layer, r) == Ok(LayerThrew(CapabilitiesNotString))
  {
  }
}
