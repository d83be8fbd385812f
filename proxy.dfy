/** The CORS relay worker: it answers preflight requests, forwards POST bodies to the fixed
    DuckDuckGo HTML endpoint, and returns the upstream answer with hop-by-hop headers removed
    and the CORS headers set over it. */
module CorsProxy {
  import opened Wrappers
  import opened Seqs

  /** A header entry as a name/value pair. */
  type Header = (string, string)

  /** A `Headers` object: values keyed by lower-cased name (`Headers.set` lower-cases). */
  type Headers = map<string, string>

  /** A response body: none (`null`), bytes passed through, or the JSON text
      `{"error": message}`. */
  datatype Body = NullBody | Bytes(bytes: seq<bv8>) | ErrorJson(message: string)

  datatype Request = Request(httpMethod: string, body: seq<bv8>)

  datatype Response = Response(status: nat, headers: Headers, body: Body)

  /** The request the relay sends upstream. */
  datatype ProxyRequest = ProxyRequest(url: string, httpMethod: string, headers: Headers, body: seq<bv8>)

  /** What upstream answers: status, header entries in iteration order, and body. */
  datatype Upstream = Upstream(status: nat, headers: seq<Header>, body: seq<bv8>)

  const ProxyTarget := "https://html.duckduckgo.com/html"

  const UserAgent := "Mozilla/5.0 (Windows NT 10.0; Win64; x64) AppleWebKit/537.36 (KHTML, like Gecko) Chrome/91.0.4472.124 Safari/537.36"

  /** `getCorsHeaders()`, in its entry order. */
  const CorsHeaders: seq<Header> := [
    ("Access-Control-Allow-Origin", "https://web-example.ailoy.co"),
    ("Access-Control-Allow-Methods", "POST, OPTIONS"),
    ("Access-Control-Allow-Headers", "Content-Type")
  ]

  /** The response headers that are not relayed. */
  const HopByHop: seq<string> := ["transfer-encoding", "connection", "content-encoding"]

  /** ASCII lower-casing (`toLowerCase` on header names, which are ASCII tokens). */
  function LowerChar(c: char): char {
    if 'A' <= c <= 'Z' then (c as int + 32) as char else c
  }

  function Lower(s: string): string {
    seq(|s|, i requires 0 <= i < |s| => LowerChar(s[i]))
  }

  /** `Headers` built by calling `set` on each entry in order: later entries win. */
  function SetAll(h: Headers, entries: seq<Header>): Headers
    decreases |entries|
  {
    if entries == [] then h
    else SetAll(h, entries[..|entries| - 1])[Lower(entries[|entries| - 1].0) := entries[|entries| - 1].1]
  }

  /** The upstream entries the first loop keeps. */
  predicate Relayed(e: Header) {
    Lower(e.0) !in HopByHop
  }

  /** The response headers the relay builds from the upstream entries. */
  function ResponseHeaders(upstream: seq<Header>): Headers {
    SetAll(SetAll(map[], Filter(upstream, Relayed)), CorsHeaders)
  }

  /** The two loops of `handleRequest`: relay the non-hop-by-hop entries, then set the CORS
      headers over them. */
  method BuildResponseHeaders(upstream: seq<Header>) returns (h: Headers)
    ensures h == ResponseHeaders(upstream)
  {
    h := map[];
    var i := 0;
    while i < |upstream|
      invariant 0 <= i <= |upstream|
      invariant h == SetAll(map[], Filter(upstream[..i], Relayed))
    {
      var (key, value) := upstream[i];
      assert upstream[..i + 1] == upstream[..i] + [upstream[i]];
      FilterSnoc(upstream[..i], upstream[i], Relayed);
      ghost var kept := Filter(upstream[..i], Relayed);
      if Relayed((key, value)) {
        ghost var next := kept + [upstream[i]];
        assert next[..|next| - 1] == kept && next[|next| - 1] == (key, value);
        assert SetAll(map[], next) == SetAll(map[], kept)[Lower(key) := value];
        h := h[Lower(key) := value];
        assert h == SetAll(map[], Filter(upstream[..i + 1], Relayed));
      } else {
        assert Filter(upstream[..i + 1], Relayed) == kept;
      }
      i := i + 1;
    }
    assert upstream[..i] == upstream;
    h := SetEntries(h, CorsHeaders);
  }

  /** `responseHeaders.set(key, value)` for each entry in turn. */
  method SetEntries(h0: Headers, entries: seq<Header>) returns (h: Headers)
    ensures h == SetAll(h0, entries)
  {
    h := h0;
    var j := 0;
    while j < |entries|
      invariant 0 <= j <= |entries|
      invariant h == SetAll(h0, entries[..j])
    {
      var (key, value) := entries[j];
      assert entries[..j + 1][..j] == entries[..j];
      h := h[Lower(key) := value];
      j := j + 1;
    }
    assert entries[..j] == entries;
  }

  /** `SetAll` keeps the keys it starts from and adds exactly the lower-cased entry names. */
  lemma {:induction false} SetAllKeys(h: Headers, entries: seq<Header>, k: string)
    ensures k in SetAll(h, entries) <==> k in h || exists i :: 0 <= i < |entries| && Lower(entries[i].0) == k
    decreases |entries|
  {
    if entries != [] {
      var init := entries[..|entries| - 1];
      SetAllKeys(h, init, k);
      if exists i :: 0 <= i < |init| && Lower(init[i].0) == k {
        var i :| 0 <= i < |init| && Lower(init[i].0) == k;
        assert entries[i] == init[i];
      }
      if exists i :: 0 <= i < |entries| && Lower(entries[i].0) == k {
        var i :| 0 <= i < |entries| && Lower(entries[i].0) == k;
        if i < |init| {
          assert init[i] == entries[i];
        }
      }
    }
  }

  /** A key no entry names keeps its value. */
  lemma {:induction false} SetAllKeeps(h: Headers, entries: seq<Header>, k: string)
    requires k in h
    requires forall i :: 0 <= i < |entries| ==> Lower(entries[i].0) != k
    ensures k in SetAll(h, entries) && SetAll(h, entries)[k] == h[k]
    decreases |entries|
  {
    if entries != [] {
      var init := entries[..|entries| - 1];
      assert forall i :: 0 <= i < |init| ==> init[i] == entries[i];
      SetAllKeeps(h, init, k);
    }
  }

  /** An entry whose name no later entry repeats decides that header's value. */
  lemma {:induction false} SetAllLast(h: Headers, entries: seq<Header>, i: nat)
    requires i < |entries|
    requires forall j :: i < j < |entries| ==> Lower(entries[j].0) != Lower(entries[i].0)
    ensures Lower(entries[i].0) in SetAll(h, entries)
    ensures SetAll(h, entries)[Lower(entries[i].0)] == entries[i].1
    decreases |entries|
  {
    if i < |entries| - 1 {
      var init := entries[..|entries| - 1];
      assert init[i] == entries[i];
      assert forall j :: i < j < |init| ==> init[j] == entries[j];
      SetAllLast(h, init, i);
    }
  }

  /** The lower-cased CORS header names. */
  const CorsNames: seq<string> := ["access-control-allow-origin", "access-control-allow-methods", "access-control-allow-headers"]

  lemma CorsOriginLowered()
    ensures Lower(CorsHeaders[0].0) == CorsNames[0]
  {
  }

  lemma CorsMethodsLowered()
    ensures Lower(CorsHeaders[1].0) == CorsNames[1]
  {
  }

  lemma CorsHeadersNameLowered()
    ensures Lower(CorsHeaders[2].0) == CorsNames[2]
  {
  }

  /** `Headers.set` files the three CORS headers under their lower-cased names, which are
      distinct and none of them hop-by-hop. */
  lemma CorsHeadersLowered()
    ensures forall i :: 0 <= i < |CorsHeaders| ==> Lower(CorsHeaders[i].0) == CorsNames[i]
    ensures Distinct(CorsNames)
    ensures forall i :: 0 <= i < |CorsNames| ==> CorsNames[i] !in HopByHop && CorsNames[i] != "content-type"
  {
    CorsOriginLowered();
    CorsMethodsLowered();
    CorsHeadersNameLowered();
  }

  /** The relayed headers: no hop-by-hop name, the three CORS headers with their fixed values
      whatever upstream sent, and every other upstream header with its last value. */
  lemma ResponseHeadersSpec(upstream: seq<Header>)
    ensures forall k :: k in ResponseHeaders(upstream) ==> k !in HopByHop
    ensures forall i :: 0 <= i < |CorsHeaders| ==>
      CorsNames[i] in ResponseHeaders(upstream) && ResponseHeaders(upstream)[CorsNames[i]] == CorsHeaders[i].1
    ensures forall i :: (0 <= i < |upstream| && Relayed(upstream[i]) && Lower(upstream[i].0) !in CorsNames
                      && (forall j :: i < j < |upstream| ==> Lower(upstream[j].0) != Lower(upstream[i].0))) ==>
      Lower(upstream[i].0) in ResponseHeaders(upstream) && ResponseHeaders(upstream)[Lower(upstream[i].0)] == upstream[i].1
    ensures forall k :: k in ResponseHeaders(upstream) ==>
      k in CorsNames || exists i :: 0 <= i < |upstream| && Relayed(upstream[i]) && Lower(upstream[i].0) == k
  {
    var kept := Filter(upstream, Relayed);
    var relayed := SetAll(map[], kept);
    CorsHeadersLowered();
    forall k | k in ResponseHeaders(upstream)
      ensures k !in HopByHop
      ensures k in CorsNames || exists i :: 0 <= i < |upstream| && Relayed(upstream[i]) && Lower(upstream[i].0) == k
    {
      SetAllKeys(relayed, CorsHeaders, k);
      if k !in CorsNames {
        SetAllKeys(map[], kept, k);
        var i :| 0 <= i < |kept| && Lower(kept[i].0) == k;
        assert Relayed(kept[i]);
        assert kept[i] in upstream;
      }
    }
    forall i | 0 <= i < |CorsHeaders|
      ensures CorsNames[i] in ResponseHeaders(upstream) && ResponseHeaders(upstream)[CorsNames[i]] == CorsHeaders[i].1
    {
      SetAllLast(relayed, CorsHeaders, i);
    }
    forall i | 0 <= i < |upstream| && Relayed(upstream[i]) && Lower(upstream[i].0) !in CorsNames
               && (forall j :: i < j < |upstream| ==> Lower(upstream[j].0) != Lower(upstream[i].0))
      ensures Lower(upstream[i].0) in ResponseHeaders(upstream) && ResponseHeaders(upstream)[Lower(upstream[i].0)] == upstream[i].1
    {
      RelayedLastValue(upstream, i);
      SetAllKeeps(relayed, CorsHeaders, Lower(upstream[i].0));
    }
  }

  /** An upstream entry that is relayed and not repeated later keeps its value in the relayed
      headers. */
  lemma {:induction false} RelayedLastValue(upstream: seq<Header>, i: nat)
    requires i < |upstream| && Relayed(upstream[i])
    requires forall j :: i < j < |upstream| ==> Lower(upstream[j].0) != Lower(upstream[i].0)
    ensures Lower(upstream[i].0) in SetAll(map[], Filter(upstream, Relayed))
    ensures SetAll(map[], Filter(upstream, Relayed))[Lower(upstream[i].0)] == upstream[i].1
  {
    var before, after := upstream[..i], upstream[i + 1..];
    assert upstream == before + [upstream[i]] + after;
    FilterConcat(before + [upstream[i]], after, Relayed);
    FilterSnoc(before, upstream[i], Relayed);
    var kept := Filter(upstream, Relayed);
    var pos := |Filter(before, Relayed)|;
    assert kept[pos] == upstream[i];
    forall j | pos < j < |kept|
      ensures Lower(kept[j].0) != Lower(kept[pos].0)
    {
      var rest := Filter(after, Relayed);
      assert kept[j] == rest[j - pos - 1];
      assert rest[j - pos - 1] in after;
    }
    SetAllLast(map[], kept, pos);
  }

  // ---------------------------------------------------------------------------------------
  // Request handling

  /** `getCorsHeaders()` as a `Headers` object. */
  function CorsHeaderMap(): Headers {
    SetAll(map[], CorsHeaders)
  }

  const JsonContentType: Headers := map["content-type" := "application/json"]

  /** The request forwarded upstream: the client's body, unchanged, posted to the fixed
      target with the fixed user agent and form content type. */
  function ForwardedRequest(body: seq<bv8>): ProxyRequest {
    ProxyRequest(ProxyTarget, "POST",
                 map["user-agent" := UserAgent, "content-type" := "application/x-www-form-urlencoded"], body)
  }

  /** The failure answer: status 500, the error message as JSON, the JSON content type and
      the CORS headers. */
  function ErrorResponse(message: string): Response {
    Response(500, SetAll(JsonContentType, CorsHeaders), ErrorJson(message))
  }

  /** The statuses whose responses must have a null body (section 2.2.3 of the Fetch
      standard, leaving out the 1xx ones, which the range check already refuses). */
  const NullBodyStatuses: set<nat> := {204, 205, 304}

  /** Why the `Response` constructor refuses a status when given a body, if it does: a
      status outside 200 to 599 is a `RangeError`, a null-body status a `TypeError`
      (section 6.4 of the Fetch standard). The messages are the runtime's own; these
      constants stand for them. */
  const StatusRangeError := "The status provided is outside the range [200, 599]"
  const NullBodyStatusError := "Response with null body status cannot have body"

  function ConstructorError(status: nat): Option<string> {
    if !(200 <= status <= 599) then Some(StatusRangeError)
    else if status in NullBodyStatuses then Some(NullBodyStatusError)
    else None
  }

  /** What `handleRequest` answers for the upstream outcome. A fetch failure and a status
      the `Response` constructor refuses both end in the catch clause; any other answer is
      relayed with its status and body, and the filtered headers with the CORS headers
      over them. */
  function RelayOutcome(answer: Result<Upstream, string>): Response {
    if answer.Failure? then ErrorResponse(answer.error)
    else if ConstructorError(answer.value.status).Some? then ErrorResponse(ConstructorError(answer.value.status).value)
    else Response(answer.value.status, ResponseHeaders(answer.value.headers), Bytes(answer.value.body))
  }

  /** The relay answers with a JSON error exactly when the upstream call fails or upstream
      answers 204, 205, 304 or a status outside 200 to 599, and that error answer is a 500;
      otherwise the upstream status and body pass through unchanged. Every answer carries
      the three CORS headers. */
  lemma RelayOutcomeSpec(answer: Result<Upstream, string>)
    ensures RelayOutcome(answer).body.ErrorJson? <==>
      answer.Failure? || !(200 <= answer.value.status <= 599) || answer.value.status in NullBodyStatuses
    ensures RelayOutcome(answer).body.ErrorJson? ==> RelayOutcome(answer).status == 500
    ensures answer.Failure? ==> RelayOutcome(answer).body == ErrorJson(answer.error)
    ensures answer.Success? && !RelayOutcome(answer).body.ErrorJson? ==>
      RelayOutcome(answer).status == answer.value.status && RelayOutcome(answer).body == Bytes(answer.value.body)
    ensures forall i :: 0 <= i < |CorsHeaders| ==>
      CorsNames[i] in RelayOutcome(answer).headers && RelayOutcome(answer).headers[CorsNames[i]] == CorsHeaders[i].1
  {
    if answer.Failure? {
      FixedResponsesHeaders(answer.error);
    } else if ConstructorError(answer.value.status).Some? {
      FixedResponsesHeaders(ConstructorError(answer.value.status).value);
    } else {
      ResponseHeadersSpec(answer.value.headers);
    }
  }

  /** `handleRequest`: the client's body is forwarded; the upstream call is the parameter
      `fetchUpstream`, which answers a request or fails with a message. */
  method HandleRequest(request: Request, fetchUpstream: ProxyRequest -> Result<Upstream, string>) returns (r: Response)
    ensures r == RelayOutcome(fetchUpstream(ForwardedRequest(request.body)))
  {
    var proxyReq := ForwardedRequest(request.body);
    var answer := fetchUpstream(proxyReq);
    if answer.Failure? {
      return ErrorResponse(answer.error);
    }
    var responseHeaders := BuildResponseHeaders(answer.value.headers);
    var refused := ConstructorError(answer.value.status);
    if refused.Some? {
      return ErrorResponse(refused.value);
    }
    return Response(answer.value.status, responseHeaders, Bytes(answer.value.body));
  }

  /** The worker's `fetch`: OPTIONS gets the preflight answer, POST is relayed, anything else
      is refused with 405 and no CORS headers. */
  method Fetch(request: Request, fetchUpstream: ProxyRequest -> Result<Upstream, string>) returns (r: Response)
    ensures request.httpMethod == "OPTIONS" ==> r == Response(200, CorsHeaderMap(), NullBody)
    ensures request.httpMethod == "POST" ==> r == RelayOutcome(fetchUpstream(ForwardedRequest(request.body)))
    ensures request.httpMethod != "OPTIONS" && request.httpMethod != "POST" ==>
      r == Response(405, JsonContentType, ErrorJson("Method not allowed"))
  {
    if request.httpMethod == "OPTIONS" {
      return Response(200, CorsHeaderMap(), NullBody);
    }
    if request.httpMethod == "POST" {
      r := HandleRequest(request, fetchUpstream);
      return;
    }
    return Response(405, JsonContentType, ErrorJson("Method not allowed"));
  }

  /** The preflight and failure answers carry exactly the three CORS headers (the failure
      answer also the JSON content type); the refusal carries only the content type. */
  lemma FixedResponsesHeaders(message: string)
    ensures forall k :: k in CorsHeaderMap() <==> k in CorsNames
    ensures forall i :: 0 <= i < |CorsHeaders| ==> CorsHeaderMap()[CorsNames[i]] == CorsHeaders[i].1
    ensures forall k :: k in ErrorResponse(message).headers <==> k in CorsNames || k == "content-type"
    ensures ErrorResponse(message).headers["content-type"] == "application/json"
    ensures forall i :: 0 <= i < |CorsHeaders| ==> ErrorResponse(message).headers[CorsNames[i]] == CorsHeaders[i].1
    ensures JsonContentType.Keys == {"content-type"}
  {
    CorsHeadersLowered();
    forall k
      ensures k in CorsHeaderMap() <==> k in CorsNames
      ensures k in ErrorResponse(message).headers <==> k in CorsNames || k == "content-type"
    {
      SetAllKeys(map[], CorsHeaders, k);
      SetAllKeys(JsonContentType, CorsHeaders, k);
    }
    forall i | 0 <= i < |CorsHeaders|
      ensures CorsHeaderMap()[CorsNames[i]] == CorsHeaders[i].1
      ensures ErrorResponse(message).headers[CorsNames[i]] == CorsHeaders[i].1
    {
      SetAllLast(map[], CorsHeaders, i);
      SetAllLast(JsonContentType, CorsHeaders, i);
    }
    SetAllKeeps(JsonContentType, CorsHeaders, "content-type");
  }
}
