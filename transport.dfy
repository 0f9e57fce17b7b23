/** What the HTTP helpers do once a request has ended: `retrieve` and
    `postRetrieve` in the batch script, `get` and `post` in the library. The
    transport itself is not modelled: a request ends either in a request error
    or in a status code with the whole body text, and `JSON.parse` is the
    parameter `parse`. All four helpers write to the one `options` object of
    the configuration, modelled by the class `RequestOptions`. */
module Transport {
  import opened Common
  import opened Text
  import opened Requests

  datatype Outcome = RequestFailed(message: string) | Responded(status: int, body: string)

  datatype Helper = Retrieve | PostRetrieve | LibGet | LibPost

  /** What a helper hands to its callback (`None` for `undefined`), and whether
      that call runs inside the helper's `try`. */
  datatype Delivery = Delivery(value: Option<Json>, guarded: bool)

  function NullRead(key: string): string
  {
    "TypeError: Cannot read properties of null (reading '" + key + "')"
  }

  /** The library's `get` logs a request error through `var logger =
      this.logger`; called unbound in strict mode, `logger` reads `this.config`
      of `undefined` and throws. */
  const UnboundLogger := "TypeError: Cannot read properties of undefined (reading 'config')"

  /** `type === ''` gives the whole result; otherwise `result[type]` when that
      is truthy and the whole result when it is not. */
  function Select(result: Json, key: string): (r: Result<Json>)
    ensures r.Thrown? <==> key != "" && result.JNull?
    ensures r.Ok? ==> r.value == result || (Member(result, key) == Some(r.value) && Truthy(r.value))
    ensures r.Ok? && key != "" && Present(Member(result, key)) ==> r.value == Member(result, key).value
  {
    if key == "" then Ok(result)
    else if result.JNull? then Thrown(NullRead(key))
    else
      var m := Member(result, key);
      if Present(m) then Ok(m.value) else Ok(result)
  }

  /** The value of a 200 response: every `NaN` of the body replaced by
      `null`, parsed, then selected. */
  function Reply(body: string, parse: string -> Result<Json>, key: string): Result<Json>
  {
    match parse(ReplaceNaN(body))
    case Thrown(e) => Thrown(e)
    case Ok(result) => Select(result, key)
  }

  /** The request failed, or a 200 response could not be parsed or selected. */
  predicate Failed(o: Outcome, parse: string -> Result<Json>, key: string)
  {
    o.RequestFailed? || (o.status == 200 && Reply(o.body, parse, key).Thrown?)
  }

  /** The error object the library's `post` hands on (`callback(e)`). */
  function ErrorValue(message: string): (v: Json)
    ensures v.JObj? && v.fields.Keys == {"message"}
  {
    JObj(map["message" := JStr(message)])
  }

  function FailMessage(o: Outcome, parse: string -> Result<Json>, key: string): string
    requires Failed(o, parse, key)
  {
    if o.RequestFailed? then o.message else Reply(o.body, parse, key).error
  }

  /** What the callback is first called with. A non-200 status gives
      `undefined` in every helper. A reply is handed on inside the `try` of all
      helpers but the library's `get`, which has none. On a failure the batch
      helpers log and give `undefined`, the library's `post` gives the error
      object, and the library's `get` throws. */
  function Deliver(h: Helper, o: Outcome, parse: string -> Result<Json>, key: string): (r: Result<Delivery>)
    ensures o.Responded? && o.status != 200 ==> r == Ok(Delivery(None, false))
    ensures o.Responded? && o.status == 200 && Reply(o.body, parse, key).Ok?
            ==> r == Ok(Delivery(Some(Reply(o.body, parse, key).value), h != LibGet))
    ensures Failed(o, parse, key) && (h == Retrieve || h == PostRetrieve) ==> r == Ok(Delivery(None, false))
    ensures Failed(o, parse, key) && h == LibPost
            ==> r == Ok(Delivery(Some(ErrorValue(FailMessage(o, parse, key))), false))
    ensures Failed(o, parse, key) && h == LibGet
            ==> r == Thrown(if o.RequestFailed? then UnboundLogger else FailMessage(o, parse, key))
    ensures r.Ok? && r.value.guarded ==> !Failed(o, parse, key) && r.value.value.Some?
  {
    match o
    case RequestFailed(m) =>
      (match h
       case LibGet => Thrown(UnboundLogger)
       case LibPost => Ok(Delivery(Some(ErrorValue(m)), false))
       case _ => Ok(Delivery(None, false)))
    case Responded(status, body) =>
      if status != 200 then Ok(Delivery(None, false))
      else match Reply(body, parse, key)
        case Ok(v) => Ok(Delivery(Some(v), h != LibGet))
        case Thrown(e) =>
          (match h
           case LibGet => Thrown(e)
           case LibPost => Ok(Delivery(Some(ErrorValue(e)), false))
           case _ => Ok(Delivery(None, false)))
  }

  /** What the callback is called with a second time when, called inside the
      helper's `try`, it throws `error`: the batch helpers log the error and
      give `undefined`, the library's `post` gives the error object. The
      second call is outside the `try`, so it is never redelivered again. */
  function Redeliver(h: Helper, error: string): (d: Option<Delivery>)
    ensures d.Some? <==> h != LibGet
    ensures d.Some? ==> !d.value.guarded
    ensures h == LibPost ==> d == Some(Delivery(Some(ErrorValue(error)), false))
    ensures h == Retrieve || h == PostRetrieve ==> d == Some(Delivery(None, false))
  {
    match h
    case LibGet => None
    case LibPost => Some(Delivery(Some(ErrorValue(error)), false))
    case _ => Some(Delivery(None, false))
  }

  /** The parser only ever sees text without `NaN`: two parsers that agree on
      such texts give every helper the same deliveries. */
  lemma DeliverSeesNoNaN(h: Helper, o: Outcome, parse: string -> Result<Json>,
                         parse': string -> Result<Json>, key: string)
    requires forall t :: !HasNaN(t) ==> parse(t) == parse'(t)
    ensures Deliver(h, o, parse, key) == Deliver(h, o, parse', key)
  {
    if o.Responded? {
      assert !HasNaN(ReplaceNaN(o.body));
      assert Reply(o.body, parse, key) == Reply(o.body, parse', key);
    }
  }

  /** An error object handed on by the library's `post` in place of the id
      list of `getObjectIds` lacks `objectIdFieldName`, so `parseResult` finds
      no way to select the window. */
  lemma PostErrorAsIdColumn(o: Outcome, parse: string -> Result<Json>)
    requires Failed(o, parse, "")
    ensures Deliver(LibPost, o, parse, "").Ok?
    ensures Deliver(LibPost, o, parse, "").value.value.Some?
    ensures ClassifyIdColumn(Deliver(LibPost, o, parse, "").value.value.value) == Unusable
  {
    var e := ErrorValue(FailMessage(o, parse, ""));
    assert Member(e, "objectIdFieldName") == None;
  }

  /** `processLayers` asks for `layers`: an empty list is still an array and
      is handed on; a reply whose `layers` is missing or falsy is handed on
      whole, an object where an array is expected. */
  lemma SelectLayersExample(other: Json)
    ensures Select(JObj(map["layers" := JArr([])]), "layers") == Ok(JArr([]))
    ensures Select(JObj(map["layers" := JNull, "error" := other]), "layers")
            == Ok(JObj(map["layers" := JNull, "error" := other]))
    ensures Select(JNull, "layers").Thrown? && Select(JNull, "") == Ok(JNull)
  {
  }

  // ---------------------------------------------------------------------------
  // The shared request options

  /** `config.options`, shared by every request: each helper overwrites
      `path`, and a POST also `method` (here `httpMethod`) and `headers`,
      before the object is handed to `http`. Nothing ever resets the method or `headers`. */
  class RequestOptions {
    var hostname: string
    var port: int
    var path: string
    var httpMethod: Option<string>
    var headers: map<string, string>

    /** The options as the configuration file defines them. */
    constructor(hostname: string, port: int)
      ensures this.hostname == hostname && this.port == port
      ensures path == "" && httpMethod == None && headers == map[]
    {
      this.hostname := hostname;
      this.port := port;
      path := "";
      httpMethod := None;
      headers := map[];
    }

    /** `retrieve` and `get`: `options.path = urlpath`. */
    method PrepareGet(urlpath: string)
      modifies this
      ensures path == urlpath
      ensures hostname == old(hostname) && port == old(port)
      ensures httpMethod == old(httpMethod) && headers == old(headers)
    {
      path := urlpath;
    }

    /** `postRetrieve` and `post`: the path, the method and the form headers
      for a body of `length` bytes. */
    method PreparePost(url: string, length: nat)
      modifies this
      ensures path == url && httpMethod == Some("POST") && headers == PostHeaders(length)
      ensures hostname == old(hostname) && port == old(port)
    {
      path := url;
      httpMethod := Some("POST");
      headers := PostHeaders(length);
    }

    /** A GET that also forgets what an earlier POST left behind. */
    method PrepareGetIntended(urlpath: string)
      modifies this
      ensures path == urlpath && httpMethod == Some("GET") && headers == map[]
      ensures hostname == old(hostname) && port == old(port)
    {
      path := urlpath;
      httpMethod := Some("GET");
      headers := map[];
    }
  }

  function PostHeaders(length: nat): (h: map<string, string>)
    ensures h.Keys == {"Content-Type", "Content-Length"}
    ensures h["Content-Type"] == "application/x-www-form-urlencoded"
    ensures ParseInt(h["Content-Length"]) == length
  {
    IntToStringRoundTrip(length);
    map["Content-Type" := "application/x-www-form-urlencoded", "Content-Length" := IntToString(length)]
  }

  /** A GET issued after a POST (the ids of a layer, then the next layer's
      description) goes out with the POST's method and its `Content-Length`,
      though no body follows. */
  method GetAfterPost(options: RequestOptions, url: string, length: nat, urlpath: string)
    modifies options
    ensures options.path == urlpath
    ensures options.httpMethod == Some("POST") && options.headers == PostHeaders(length)
  {
    options.PreparePost(url, length);
    options.PrepareGet(urlpath);
  }

  /** With the options reset, the same sequence sends a plain GET. */
  method GetAfterPostIntended(options: RequestOptions, url: string, length: nat, urlpath: string)
    modifies options
    ensures options.path == urlpath
    ensures options.httpMethod == Some("GET") && "Content-Length" !in options.headers
  {
    options.PreparePost(url, length);
    options.PrepareGetIntended(urlpath);
  }

  // ---------------------------------------------------------------------------
  // The loggers

  /** The line the library's `logger` prints and returns. */
  function LogLine(kind: string, message: string): (line: string)
    ensures |line| == |kind| + |message| + 4
    ensures line[0] == '[' && line[|line| - 1] == '\n'
  {
    "[" + kind + "] " + message + "\n"
  }

  /** The line the batch script's `logger` prints: two spaces after the tag. */
  function BatchLogLine(kind: string, message: string): (line: string)
    ensures |line| == |kind| + |message| + 5
    ensures line[0] == '[' && line[|line| - 1] == '\n'
  {
    "[" + kind + "]  " + message + "\n"
  }

  lemma LogLineExample()
    ensures LogLine("info", "this is a message") == "[info] this is a message\n"
  {
  }

  /** A tag without `]` can be read back from a line, and so can the message. */
  lemma LogLineInjective(kind: string, message: string, kind': string, message': string)
    requires ']' !in kind && ']' !in kind'
    requires LogLine(kind, message) == LogLine(kind', message')
    ensures kind == kind' && message == message'
  {
    var y, y' := " " + message + "\n", " " + message' + "\n";
    assert LogLine(kind, message)[1..] == kind + [']'] + y;
    assert LogLine(kind', message')[1..] == kind' + [']'] + y';
    SplitAtFirst(kind, y, kind', y', ']');
    assert message == y[1..|y| - 1] && message' == y'[1..|y'| - 1];
  }

  /** Whether the library's `logger` prints: always without a configuration,
      otherwise only in debug mode. */
  predicate LibPrints(hasConfig: bool, debug: bool, kind: string)
  {
    !hasConfig || (debug && kind != "debug") || (hasConfig && debug)
  }

  /** Whether the batch script's `logger` prints: everything in debug mode,
      everything but `debug` messages otherwise. */
  predicate BatchPrints(debug: bool, kind: string)
  {
    (!debug && kind != "debug") || debug
  }

  /** The two loggers differ outside debug mode: the library prints nothing
      once configured, the batch script everything but `debug` messages. */
  lemma LoggersDiffer(debug: bool, kind: string)
    ensures LibPrints(true, debug, kind) <==> debug
    ensures BatchPrints(debug, kind) <==> debug || kind != "debug"
    ensures LibPrints(false, debug, kind)
  {
  }
}
