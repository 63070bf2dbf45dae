/**
 * The local proxies for network activity: `Request` (headers, post data, the redirect chain),
 * `Route` (the three interception actions) and `Response` (status, headers, body fetches).
 * Every conversation with the remote side is an entry appended to the proxy's `calls` log; what
 * the remote side answers is a parameter of the method that receives it.
 */
module Network {
  import opened Wrappers
  import opened Externals

  /** The content type whose body `postDataJSON` reads as a query string. */
  const FormContentType: string := "application/x-www-form-urlencoded"

  /** The immutable payload the remote side gives a request proxy when it is created. */
  datatype RequestInitializer = RequestInitializer(
    url: string,
    resourceType: string,
    httpMethod: string,
    headers: seq<HeaderEntry>,
    postData: Option<string>,       // base64 text, as on the wire
    isNavigationRequest: bool)

  /** The immutable payload of a response proxy. */
  datatype ResponseInitializer = ResponseInitializer(
    url: string,
    status: int,
    statusText: string,
    headers: seq<HeaderEntry>)

  /** `postDataJSON`'s non-null results: the form-entries object, or what the JSON parser built. */
  datatype PostDataValue = FormEntries(entries: map<string, string>) | Parsed(value: JsonValue)

  /** The `{ errorText }` object that `failure()` returns. */
  datatype FailureInfo = FailureInfo(errorText: string)

  /** One outbound call on a proxy's channel. */
  datatype Message =
    | AbortCall(errorCode: Option<string>)
    | FulfillCall(fulfill: NormalizedFulfill)
    | ContinueCall(httpMethod: Option<string>, headers: Option<seq<HeaderEntry>>, postData: Option<string>)
    | FinishedCall
    | BodyCall

  // ---------------------------------------------------------------------------------------------
  // The form-urlencoded fold of postDataJSON

  /**
   * The one key a plain JavaScript object does not store on assignment: `entries["__proto__"] = v`
   * runs the prototype setter, which ignores a string value.
   */
  const ProtoKey: string := "__proto__"

  /**
   * The entries object built by assigning each parsed pair in turn to a plain object: a later
   * pair overwrites an earlier one, and a `__proto__` pair leaves the object as it was.
   */
  function LastWins(pairs: seq<(string, string)>): map<string, string>
  {
    if pairs == [] then map[]
    else if pairs[|pairs| - 1].0 == ProtoKey then LastWins(pairs[..|pairs| - 1])
    else LastWins(pairs[..|pairs| - 1])[pairs[|pairs| - 1].0 := pairs[|pairs| - 1].1]
  }

  /** The keys that occur in the parsed pairs. */
  ghost function ParsedKeys(pairs: seq<(string, string)>): set<string>
  {
    set p | p in pairs :: p.0
  }

  /** Pair `i` is the last one carrying its key. */
  ghost predicate IsLastOccurrence(pairs: seq<(string, string)>, i: int)
    requires 0 <= i < |pairs|
  {
    forall j :: i < j < |pairs| ==> pairs[j].0 != pairs[i].0
  }

  /** The fold has exactly one entry per distinct parsed key other than `__proto__`. */
  lemma {:induction false} LastWinsKeys(pairs: seq<(string, string)>)
    ensures LastWins(pairs).Keys == ParsedKeys(pairs) - {ProtoKey}
  {
    if pairs != [] {
      var init := pairs[..|pairs| - 1];
      LastWinsKeys(init);
      assert pairs == init + [pairs[|pairs| - 1]];
      assert ParsedKeys(pairs) == ParsedKeys(init) + {pairs[|pairs| - 1].0};
    }
  }

  /** Each key other than `__proto__` is mapped to the value of its last occurrence. */
  lemma {:induction false} LastWinsValue(pairs: seq<(string, string)>, i: int)
    requires 0 <= i < |pairs| && IsLastOccurrence(pairs, i) && pairs[i].0 != ProtoKey
    ensures pairs[i].0 in LastWins(pairs) && LastWins(pairs)[pairs[i].0] == pairs[i].1
  {
    if i < |pairs| - 1 {
      var init := pairs[..|pairs| - 1];
      assert IsLastOccurrence(init, i) by {
        forall j | i < j < |init| ensures init[j].0 != init[i].0 {
          assert init[j] == pairs[j];
        }
      }
      LastWinsValue(init, i);
      assert pairs[|pairs| - 1].0 != pairs[i].0;
    }
  }

  /** The body `a=1&a=2&b=x` parses to three pairs and folds to `{a: "2", b: "x"}`. */
  lemma LastWinsExample()
    ensures LastWins([("a", "1"), ("a", "2"), ("b", "x")]) == map["a" := "2", "b" := "x"]
  {
    var pairs := [("a", "1"), ("a", "2"), ("b", "x")];
    assert pairs[..2] == [("a", "1"), ("a", "2")] && pairs[..2][..1] == [("a", "1")];
    assert [("a", "1")][..0] == [];
    assert LastWins([("a", "1")]) == map["a" := "1"];
    assert LastWins(pairs[..2]) == map["a" := "2"];
  }

  /** The body `a=1&__proto__=x` parses to two pairs and folds to `{a: "1"}`. */
  lemma LastWinsProtoExample()
    ensures LastWins([("a", "1"), (ProtoKey, "x")]) == map["a" := "1"]
  {
    var pairs := [("a", "1"), (ProtoKey, "x")];
    assert pairs[..1] == [("a", "1")] && pairs[..1][..0] == [];
    assert "a" != ProtoKey;
    assert LastWins(pairs[..1]) == map["a" := "1"];
  }

  // ---------------------------------------------------------------------------------------------
  // Request proxies and their redirect chain

  /**
   * Ghost bookkeeping of every request proxy created so far: it stands in for the connection's
   * object registry and supplies the measure that makes the redirect walk terminate. A request's
   * successor is always created after it, so serial numbers grow along `redirectedTo`.
   */
  class Scope {
    ghost var requests: set<Request>
    ghost var count: nat

    ghost predicate Valid()
      reads this, requests
    {
      forall r :: r in requests ==>
        r.scope == this && r.serial < count &&
        (r.redirectedFrom != null ==> r.redirectedFrom in requests && r.redirectedFrom.serial < r.serial) &&
        (r.redirectedTo != null ==>
          r.redirectedTo in requests && r.serial < r.redirectedTo.serial && r.redirectedTo.redirectedFrom == r)
    }

    constructor ()
      ensures Valid() && requests == {} && count == 0
    {
      requests := {};
      count := 0;
    }
  }

  class Request {
    const init: RequestInitializer
    const lib: Codecs
    const redirectedFrom: Request?
    var redirectedTo: Request?
    /** Written by the network manager when the remote side reports a failure. */
    var failureText: Option<string>
    const headerMap: HeaderObject := lib.headersArrayToObject(init.headers)
    /** An absent or empty encoded payload is stored as no payload at all. */
    const postDataBuf: Option<Bytes> :=
      if init.postData.Some? && init.postData.value != "" then Some(lib.base64Decode(init.postData.value)) else None
    ghost const scope: Scope
    ghost const serial: nat

    /**
     * Creating a request whose predecessor is `from` makes it `from`'s successor. No other
     * request's redirect links change, and the chain invariant of `scope` is kept.
     */
    constructor (init: RequestInitializer, from: Request?, lib: Codecs, ghost scope: Scope)
      requires scope.Valid()
      requires from != null ==> from in scope.requests
      modifies scope, from
      ensures this.init == init && this.lib == lib && this.scope == scope
      ensures scope.Valid() && scope.requests == old(scope.requests) + {this}
      ensures redirectedFrom == from && redirectedTo == null && failureText == None
      ensures from != null ==> from.redirectedTo == this && from.FinalRequest() == this
      ensures from != null ==> from.failureText == old(from.failureText)
      ensures forall r :: r in old(scope.requests) && r != from ==> r.redirectedTo == old(r.redirectedTo)
    {
      this.init := init;
      this.lib := lib;
      this.redirectedFrom := from;
      this.redirectedTo := null;
      this.failureText := None;
      this.scope := scope;
      this.serial := scope.count;
      new;
      if from != null {
        from.redirectedTo := this;
      }
      scope.requests := scope.requests + {this};
      scope.count := scope.count + 1;
    }

    function Url(): (u: string)
      ensures u == init.url
    {
      init.url
    }

    /** The request's post data as UTF-8 text, or no data when there is no payload. */
    function PostData(): (r: Option<string>)
      reads this
      ensures r.None? <==> init.postData.None? || init.postData.value == ""
      ensures r.Some? ==> r.value == lib.utf8Decode(lib.base64Decode(init.postData.value))
    {
      if postDataBuf.Some? then Some(lib.utf8Decode(postDataBuf.value)) else None
    }

    /** The raw post data bytes, or no data when there is no payload. */
    function PostDataBuffer(): (r: Option<Bytes>)
      reads this
      ensures r.None? <==> init.postData.None? || init.postData.value == ""
      ensures r.Some? ==> r.value == lib.base64Decode(init.postData.value)
    {
      postDataBuf
    }

    /** A copy of the header object decoded once, at construction, from the initializer. */
    function Headers(): (h: HeaderObject)
      reads this
      ensures h == lib.headersArrayToObject(init.headers)
    {
      headerMap
    }

    /** The `content-type` header, or no value when it is missing or empty (JavaScript-falsy). */
    function ContentType(): (c: Option<string>)
      reads this
      ensures c.Some? <==> "content-type" in Headers() && Headers()["content-type"] != ""
      ensures c.Some? ==> c.value == Headers()["content-type"]
    {
      var h := Headers();
      if "content-type" in h && h["content-type"] != "" then Some(h["content-type"]) else None
    }

    /**
     * The post data decoded by content type: no data without a non-empty body or a content
     * type; the last-value-wins entries of the query string for a form body; otherwise the
     * JSON parser's verdict, whose failure propagates.
     */
    method PostDataJSON() returns (r: Result<Option<PostDataValue>>)
      ensures PostData().None? || PostData().value == "" ==> r == Ok(None)
      ensures ContentType().None? ==> r == Ok(None)
      ensures PostData().Some? && PostData().value != "" && ContentType() == Some(FormContentType) ==>
        var parsed := lib.formParse(PostData().value);
        r.Ok? && r.value.Some? && r.value.value.FormEntries? &&
        r.value.value.entries.Keys == ParsedKeys(parsed) - {ProtoKey} &&
        (forall i :: 0 <= i < |parsed| && IsLastOccurrence(parsed, i) && parsed[i].0 != ProtoKey ==>
          r.value.value.entries[parsed[i].0] == parsed[i].1)
      ensures PostData().Some? && PostData().value != "" && ContentType().Some? && ContentType() != Some(FormContentType) ==>
        match lib.jsonParse(PostData().value)
        case Ok(v) => r == Ok(Some(Parsed(v)))
        case Err(e) => r == Err(e)
    {
      var postData := PostData();
      if postData.None? || postData.value == "" {
        return Ok(None);
      }
      var contentType := ContentType();
      if contentType.None? {
        return Ok(None);
      }
      if contentType.value == FormContentType {
        var parsed := lib.formParse(postData.value);
        var entries: map<string, string> := map[];
        var i := 0;
        while i < |parsed|
          invariant 0 <= i <= |parsed|
          invariant entries == LastWins(parsed[..i])
        {
          assert parsed[..i + 1][..i] == parsed[..i];
          if parsed[i].0 != ProtoKey {
            entries := entries[parsed[i].0 := parsed[i].1];
          }
          i := i + 1;
        }
        assert parsed[..i] == parsed;
        LastWinsKeys(parsed);
        forall j | 0 <= j < |parsed| && IsLastOccurrence(parsed, j) && parsed[j].0 != ProtoKey
          ensures entries[parsed[j].0] == parsed[j].1
        {
          LastWinsValue(parsed, j);
        }
        return Ok(Some(FormEntries(entries)));
      }
      match lib.jsonParse(postData.value)
      case Ok(v) => return Ok(Some(Parsed(v)));
      case Err(e) => return Err(e);
    }

    /** The predecessor named at construction, which knows this request as its successor. */
    function RedirectedFrom(): (r: Request?)
      requires scope.Valid() && this in scope.requests
      reads scope, scope.requests
      ensures r != null ==> r in scope.requests && r.serial < serial
      ensures r == redirectedFrom
    {
      redirectedFrom
    }

    /** The successor, if one was created; its predecessor is this request. */
    function RedirectedTo(): (r: Request?)
      requires scope.Valid() && this in scope.requests
      reads this, scope, scope.requests
      ensures r != null ==> r in scope.requests && r.RedirectedFrom() == this
      ensures r == redirectedTo
    {
      redirectedTo
    }

    /** The failure reported by the remote side, or none. */
    function Failure(): (f: Option<FailureInfo>)
      reads this
      ensures f.None? <==> failureText.None?
      ensures f.Some? ==> f.value.errorText == failureText.value
    {
      if failureText.None? then None else Some(FailureInfo(failureText.value))
    }

    /** The last request of the redirect chain that starts here. */
    function FinalRequest(): (r: Request)
      requires scope.Valid() && this in scope.requests
      reads scope, scope.requests
      decreases scope.count - serial
      ensures r in scope.requests && r.redirectedTo == null
      ensures serial <= r.serial
    {
      if redirectedTo != null then redirectedTo.FinalRequest() else this
    }

    /** The redirect chain from this request to its final request, following `redirectedTo`. */
    ghost function Chain(): (c: seq<Request>)
      requires scope.Valid() && this in scope.requests
      reads scope, scope.requests
      decreases scope.count - serial
      ensures |c| >= 1 && c[0] == this && c[|c| - 1].redirectedTo == null
      ensures forall k :: 0 <= k < |c| ==> c[k] in scope.requests
      ensures forall k :: 0 <= k < |c| - 1 ==> c[k].redirectedTo == c[k + 1] && c[k + 1].redirectedFrom == c[k]
      ensures forall i, j :: 0 <= i < j < |c| ==> c[i].serial < c[j].serial
    {
      if redirectedTo == null then [this] else [this] + redirectedTo.Chain()
    }
  }

  /** A successor and its predecessor agree on the final request. */
  lemma RedirectFinalAgree(a: Request)
    requires a.scope.Valid() && a in a.scope.requests && a.redirectedTo != null
    ensures a.redirectedTo.scope == a.scope && a.redirectedTo in a.scope.requests
    ensures a.FinalRequest() == a.redirectedTo.FinalRequest()
  {
  }

  /** The redirect chain visits no request twice. */
  lemma ChainAcyclic(a: Request)
    requires a.scope.Valid() && a in a.scope.requests
    ensures forall i, j :: 0 <= i < j < |a.Chain()| ==> a.Chain()[i] != a.Chain()[j]
  {
  }

  /** The chain ends at the final request, and every request on it has that same final request. */
  lemma {:induction false} ChainFinal(a: Request)
    requires a.scope.Valid() && a in a.scope.requests
    decreases a.scope.count - a.serial
    ensures a.Chain()[|a.Chain()| - 1] == a.FinalRequest()
    ensures forall k :: 0 <= k < |a.Chain()| ==> a.Chain()[k].FinalRequest() == a.FinalRequest()
  {
    if a.redirectedTo != null {
      var b := a.redirectedTo;
      ChainFinal(b);
      assert a.Chain() == [a] + b.Chain();
      forall k | 0 < k < |a.Chain()|
        ensures a.Chain()[k].FinalRequest() == a.FinalRequest()
      {
        assert a.Chain()[k] == b.Chain()[k - 1];
      }
    }
  }

  // ---------------------------------------------------------------------------------------------
  // Route proxies

  /** The continue message: the normalized method and headers, and post data re-encoded as base64. */
  function ContinueMessage(lib: Codecs, overrides: ContinueOverrides): (m: Message)
    ensures m.ContinueCall?
    ensures var n := lib.normalizeContinue(overrides);
      m.httpMethod == n.httpMethod && m.headers == n.headers &&
      (m.postData.Some? <==> n.postData.Some?) &&
      (m.postData.Some? ==> m.postData.value == lib.base64Encode(n.postData.value))
  {
    var n := lib.normalizeContinue(overrides);
    ContinueCall(n.httpMethod, n.headers, if n.postData.Some? then Some(lib.base64Encode(n.postData.value)) else None)
  }

  /** When base64 round-trips, the remote side decodes exactly the normalized post data bytes. */
  lemma ContinuePostDataRoundTrip(lib: Codecs, overrides: ContinueOverrides)
    requires forall b :: lib.base64Decode(lib.base64Encode(b)) == b
    requires lib.normalizeContinue(overrides).postData.Some?
    ensures ContinueMessage(lib, overrides).postData.Some?
    ensures lib.base64Decode(ContinueMessage(lib, overrides).postData.value) == lib.normalizeContinue(overrides).postData.value
  {
  }

  /**
   * An interception point for one request. Each action dispatches one call and keeps no state of
   * its own: whether the route may still be acted on is decided by the remote side.
   */
  class Route {
    const request: Request
    const lib: Codecs
    var calls: seq<Message>

    constructor (request: Request, lib: Codecs)
      ensures this.request == request && this.lib == lib && calls == []
    {
      this.request := request;
      this.lib := lib;
      calls := [];
    }

    method Abort(errorCode: Option<string>)
      modifies this`calls
      ensures calls == old(calls) + [AbortCall(errorCode)]
    {
      calls := calls + [AbortCall(errorCode)];
    }

    /** Sends the normalized response; when normalizing fails, nothing is sent and the error is returned. */
    method Fulfill(response: FulfillResponse) returns (o: Outcome)
      modifies this`calls
      ensures lib.normalizeFulfill(response).Ok? ==>
        o == Pass && calls == old(calls) + [FulfillCall(lib.normalizeFulfill(response).value)]
      ensures lib.normalizeFulfill(response).Err? ==>
        o == Fail(lib.normalizeFulfill(response).error) && calls == old(calls)
    {
      match lib.normalizeFulfill(response)
      case Ok(normalized) =>
        calls := calls + [FulfillCall(normalized)];
        o := Pass;
      case Err(e) =>
        o := Fail(e);
    }

    /** `overrides` defaults to the empty overrides object when the caller passes none. */
    method Continue(overrides: ContinueOverrides)
      modifies this`calls
      ensures calls == old(calls) + [ContinueMessage(lib, overrides)]
    {
      calls := calls + [ContinueMessage(lib, overrides)];
    }
  }

  /** Nothing local stops a second terminal action: fulfil then continue dispatches both. */
  method FulfillThenContinue(route: Route, response: FulfillResponse, overrides: ContinueOverrides)
    requires route.lib.normalizeFulfill(response).Ok?
    modifies route
    ensures route.calls ==
      old(route.calls) + [FulfillCall(route.lib.normalizeFulfill(response).value), ContinueMessage(route.lib, overrides)]
  {
    var o := route.Fulfill(response);
    route.Continue(overrides);
  }

  // ---------------------------------------------------------------------------------------------
  // Response proxies

  class Response {
    const init: ResponseInitializer
    const request: Request
    const lib: Codecs
    const headerMap: HeaderObject := lib.headersArrayToObject(init.headers)
    var calls: seq<Message>

    constructor (init: ResponseInitializer, request: Request, lib: Codecs)
      ensures this.init == init && this.request == request && this.lib == lib && calls == []
    {
      this.init := init;
      this.request := request;
      this.lib := lib;
      calls := [];
    }

    /** Status 0 (no real HTTP status) or any status of the 2xx class. */
    predicate Ok()
      ensures Ok() <==> init.status == 0 || init.status / 100 == 2
    {
      init.status == 0 || (init.status >= 200 && init.status <= 299)
    }

    /** A copy of the header object decoded once, at construction, from the initializer. */
    function Headers(): (h: HeaderObject)
      reads this
      ensures h == lib.headersArrayToObject(init.headers)
    {
      headerMap
    }

    /** Waits for completion; a non-empty error text from the remote side becomes an error. */
    method Finished(error: Option<string>) returns (e: Option<string>)
      modifies this`calls
      ensures calls == old(calls) + [FinishedCall]
      ensures e.Some? <==> error.Some? && error.value != ""
      ensures e.Some? ==> e == error
    {
      calls := calls + [FinishedCall];
      if error.Some? && error.value != "" {
        e := error;
      } else {
        e := None;
      }
    }

    /** Fetches the body afresh; `binary` is the remote side's base64 answer. */
    method Body(binary: string) returns (b: Bytes)
      modifies this`calls
      ensures calls == old(calls) + [BodyCall]
      ensures b == lib.base64Decode(binary)
    {
      calls := calls + [BodyCall];
      b := lib.base64Decode(binary);
    }

    method Text(binary: string) returns (t: string)
      modifies this`calls
      ensures calls == old(calls) + [BodyCall]
      ensures t == lib.utf8Decode(lib.base64Decode(binary))
    {
      var content := Body(binary);
      t := lib.utf8Decode(content);
    }

    method Json(binary: string) returns (r: Result<JsonValue>)
      modifies this`calls
      ensures calls == old(calls) + [BodyCall]
      ensures r == lib.jsonParse(lib.utf8Decode(lib.base64Decode(binary)))
    {
      var content := Text(binary);
      r := lib.jsonParse(content);
    }
  }

  lemma OkExamples(r: Response)
    ensures r.init.status == 0 || r.init.status == 204 || r.init.status == 299 ==> r.Ok()
    ensures r.init.status == 301 || r.init.status == 404 ==> !r.Ok()
  {
  }

  /** Fetching the body twice performs two fetches; nothing is cached. */
  method BodyFetchedTwice(response: Response, first: string, second: string) returns (a: Bytes, b: Bytes)
    modifies response
    ensures response.calls == old(response.calls) + [BodyCall, BodyCall]
    ensures a == response.lib.base64Decode(first) && b == response.lib.base64Decode(second)
  {
    a := response.Body(first);
    b := response.Body(second);
  }
}
