/**
  One completion call (`completion_with_retry`, `acompletion_with_retry`): the request the adapter
  sends, and how it reads the reply, either as one JSON body or as a stream of server-sent events
  read up to the `[DONE]` sentinel (`iter_sse`, `_aiter_sse`).
 */
module Dispatch {
  import opened Wrappers
  import opened Errors
  import opened Values
  import opened Http
  import opened Garden

  /** One server-sent event; only its `data` field matters to the adapter. */
  datatype Event = Event(data: string)

  /** The data of the event that ends a stream. */
  const Sentinel := "[DONE]"

  /** How the reading of a stream ended. */
  datatype Termination =
    | SawSentinel
    | Exhausted
    | Raised(error: Error)

  /** What a consumer of the stream sees: the records yielded, then how the stream ended. */
  datatype Stream = Stream(records: seq<Value>, end: Termination)

  /**
    What the server answers a request with: the response (status, URL and body) and, for a
    streaming request, the events its body carries.
   */
  datatype Exchange = Exchange(response: Response, events: seq<Event>)

  /**
    Reading events one at a time: the sentinel ends the stream, every other event is decoded
    by `decode` (`event.json()`, which fails with `None`) and yielded, and the first event that
    does not decode raises.
   */
  function Consume(events: seq<Event>, decode: string -> Option<Value>): (s: Stream)
    ensures |s.records| <= |events|
    ensures forall i | 0 <= i < |s.records| ::
              events[i].data != Sentinel && decode(events[i].data) == Some(s.records[i])
    ensures s.end == Exhausted <==> |s.records| == |events|
    ensures s.end == SawSentinel ==> events[|s.records|].data == Sentinel
    ensures s.end.Raised? ==> && events[|s.records|].data != Sentinel
                              && decode(events[|s.records|].data) == None
                              && s.end.error == DecodeError(events[|s.records|].data)
  {
    if events == [] then Stream([], Exhausted)
    else if events[0].data == Sentinel then Stream([], SawSentinel)
    else
      match decode(events[0].data)
      case None => Stream([], Raised(DecodeError(events[0].data)))
      case Some(record) =>
        var rest := Consume(events[1..], decode);
        Stream([record] + rest.records, rest.end)
  }

  /**
    Reading is incremental: once a prefix of the events has been read to its end without the
    stream ending, the rest is read as a stream of its own; a stream that ended within the
    prefix ignores everything after it.
   */
  lemma {:induction false} ConsumeAppend(a: seq<Event>, b: seq<Event>, decode: string -> Option<Value>)
    ensures var sa, sb := Consume(a, decode), Consume(b, decode);
            Consume(a + b, decode)
              == if sa.end == Exhausted then Stream(sa.records + sb.records, sb.end) else sa
  {
    if a == [] {
      assert a + b == b;
    } else {
      var ab := a + b;
      assert ab[0] == a[0] && ab[1..] == a[1..] + b;
      if a[0].data != Sentinel && decode(a[0].data).Some? {
        ConsumeAppend(a[1..], b, decode);
        var record, sa, sb := decode(a[0].data).value, Consume(a[1..], decode), Consume(b, decode);
        assert [record] + (sa.records + sb.records) == ([record] + sa.records) + sb.records;
      }
    }
  }

  /** Nothing after the sentinel is read: what follows it can be anything. */
  lemma SentinelCutsStream(before: seq<Event>, after: seq<Event>, decode: string -> Option<Value>)
    ensures Consume(before + [Event(Sentinel)] + after, decode) == Consume(before + [Event(Sentinel)], decode)
  {
    var done := [Event(Sentinel)];
    ConsumeAppend(before, done, decode);
    ConsumeAppend(before, done + after, decode);
    ConsumeAppend(done, after, decode);
    assert before + done + after == before + (done + after);
  }

  /**
    The decoder matters only on the events read: two decoders that agree on the events yielded
    and on the event where reading stops give the same stream.
   */
  lemma {:induction false} DecodeMattersOnlyWhereRead(events: seq<Event>, d1: string -> Option<Value>, d2: string -> Option<Value>)
    requires forall i | 0 <= i < |events| && i <= |Consume(events, d1).records| :: d1(events[i].data) == d2(events[i].data)
    ensures Consume(events, d1) == Consume(events, d2)
  {
    if events != [] && events[0].data != Sentinel && d1(events[0].data).Some? {
      DecodeMattersOnlyWhereRead(events[1..], d1, d2);
    }
  }

  /** The events "a", "b", "[DONE]", "c" yield two records and end at the sentinel. */
  lemma StreamExample(decode: string -> Option<Value>)
    requires forall data :: decode(data) == Some(Str(data))
    ensures Consume([Event("a"), Event("b"), Event(Sentinel), Event("c")], decode)
            == Stream([Str("a"), Str("b")], SawSentinel)
  {
    var tail := [Event(Sentinel), Event("c")];
    assert Consume(tail, decode) == Stream([], SawSentinel);
    assert [Event("a"), Event("b"), Event(Sentinel), Event("c")][1..] == [Event("b")] + tail;
    assert ([Event("b")] + tail)[1..] == tail;
  }

  /**
    What a streaming call yields: an error status raises before any record is read (the body
    is not parsed as events), otherwise the events are consumed.
   */
  function OpenStream(exchange: Exchange, decode: string -> Option<Value>): (s: Stream)
    ensures IsError(exchange.response.status) ==> s == Stream([], Raised(RaiseOnError(exchange.response).value))
    ensures !IsError(exchange.response.status) ==> s == Consume(exchange.events, decode)
  {
    match RaiseOnError(exchange.response)
    case Some(e) => Stream([], Raised(e))
    case None => Consume(exchange.events, decode)
  }

  /**
    The generator `iter_sse` (and `_aiter_sse`), run to the end: checks the status, then reads
    events until the sentinel, the end of the events, or an event that does not decode.
   */
  method IterSse(exchange: Exchange, decode: string -> Option<Value>) returns (s: Stream)
    ensures s == OpenStream(exchange, decode)
  {
    var raised := RaiseOnError(exchange.response);
    if raised.Some? {
      return Stream([], Raised(raised.value));
    }
    var events := exchange.events;
    var records: seq<Value> := [];
    var i := 0;
    while i < |events|
      invariant 0 <= i <= |events|
      invariant Consume(events, decode)
                == Stream(records + Consume(events[i..], decode).records, Consume(events[i..], decode).end)
    {
      var event := events[i];
      assert events[i..][0] == event && events[i..][1..] == events[i + 1..];
      if event.data == Sentinel {
        assert records + [] == records;
        return Stream(records, SawSentinel);
      }
      var decoded := decode(event.data);
      if decoded.None? {
        assert records + [] == records;
        return Stream(records, Raised(DecodeError(event.data)));
      }
      assert records + ([decoded.value] + Consume(events[i + 1..], decode).records)
          == (records + [decoded.value]) + Consume(events[i + 1..], decode).records;
      records := records + [decoded.value];
      i := i + 1;
    }
    assert events[i..] == [];
    assert records + [] == records;
    s := Stream(records, Exhausted);
  }

  /**
    The non-streaming read: an error status raises, otherwise the body is decoded (`response.json()`)
    and a body that does not decode raises.
   */
  function ReadJson(resp: Response, decode: string -> Option<Value>): (r: Result<Value, Error>)
    ensures IsError(resp.status) ==> r == Err(RaiseOnError(resp).value)
    ensures !IsError(resp.status) && decode(resp.body).Some? ==> r == Ok(decode(resp.body).value)
    ensures !IsError(resp.status) && decode(resp.body).None? ==> r == Err(DecodeError(resp.body))
  {
    match RaiseOnError(resp)
    case Some(e) => Err(e)
    case None =>
      match decode(resp.body)
      case Some(v) => Ok(v)
      case None => Err(DecodeError(resp.body))
  }

  /** A POST request: the path under the client's base URL, the JSON body and the extra headers. */
  datatype Request = Request(path: string, json: map<string, Value>, headers: map<string, string>)

  /** The answer a call gives its caller: one decoded body, or a stream of records. */
  datatype Reply = Single(result: Result<Value, Error>) | Streamed(stream: Stream)

  const EventStreamHeaders: map<string, string> := map["Accept" := "text/event-stream"]
  const StreamKey := "stream"

  /** The parameters with `stream` set to false when the caller did not pass it. */
  function WithStreamDefault(kwargs: map<string, Value>): (r: map<string, Value>)
    ensures r.Keys == kwargs.Keys + {StreamKey}
    ensures StreamKey in kwargs ==> r == kwargs
    ensures StreamKey !in kwargs ==> r[StreamKey] == Bool(false)
    ensures forall k | k in kwargs :: r[k] == kwargs[k]
  {
    if StreamKey in kwargs then kwargs else kwargs[StreamKey := Bool(false)]
  }

  /** Whether a call streams: the truthiness of `stream` once it has its default. */
  predicate StreamFlag(kwargs: map<string, Value>)
    ensures StreamFlag(kwargs) <==> Truthy(WithStreamDefault(kwargs)[StreamKey])
  {
    StreamKey in kwargs && Truthy(kwargs[StreamKey])
  }

  /**
    The request a call with parameters `kwargs` sends: the normalised parameters with `stream`
    defaulted as the body, and the streaming path and `Accept` header exactly when the call
    streams, the plain path and no extra header otherwise.
   */
  ghost predicate ShapedRequest(cfg: ModelConfig, kwargs: map<string, Value>, req: Request)
    requires WellFormed(cfg)
  {
    && IsEnrichment(WithStreamDefault(kwargs), cfg.modelName, req.json)
    && req.path == UrlPart(cfg, StreamFlag(kwargs))
    && req.headers == (if StreamFlag(kwargs) then EventStreamHeaders else map[])
  }

  /** Only one request has that shape: the call's parameters determine what is sent. */
  lemma RequestDeterminate(cfg: ModelConfig, kwargs: map<string, Value>, r1: Request, r2: Request)
    requires WellFormed(cfg)
    requires ShapedRequest(cfg, kwargs, r1) && ShapedRequest(cfg, kwargs, r2)
    ensures r1 == r2
  {
    EnrichmentIsUnique(WithStreamDefault(kwargs), cfg.modelName, r1.json, r2.json);
  }

  /** The body carries the same `stream` value that chose the path and the headers. */
  lemma StreamFlagTravels(cfg: ModelConfig, kwargs: map<string, Value>, req: Request)
    requires WellFormed(cfg) && ShapedRequest(cfg, kwargs, req)
    ensures StreamKey in req.json && (Truthy(req.json[StreamKey]) <==> StreamFlag(kwargs))
    ensures StreamFlag(kwargs) <==> req.headers == EventStreamHeaders
  {
    assert StreamKey != "model";
    assert EventStreamHeaders != map[] by {
      assert "Accept" in EventStreamHeaders;
    }
  }

  /** Normalising and defaulting `stream` commute, since `stream` is neither `model` nor `safe_prompt`. */
  lemma DefaultCommutesWithEnrichment(kwargs: map<string, Value>, modelName: string, enriched: map<string, Value>)
    requires IsEnrichment(kwargs, modelName, enriched)
    ensures IsEnrichment(WithStreamDefault(kwargs), modelName, WithStreamDefault(enriched))
    ensures StreamFlag(enriched) <==> StreamFlag(kwargs)
  {
    assert StreamKey != "model" && StreamKey != SafePrompt;
  }

  /** The reply to a request the server answered with `exchange`, by stream mode. */
  function Answer(streaming: bool, exchange: Exchange, decode: string -> Option<Value>): (r: Reply)
    ensures streaming <==> r.Streamed?
    ensures r.Streamed? ==> r.stream == OpenStream(exchange, decode)
    ensures r.Single? ==> r.result == ReadJson(exchange.response, decode)
  {
    if streaming then Streamed(OpenStream(exchange, decode)) else Single(ReadJson(exchange.response, decode))
  }

  /**
    `completion_with_retry`: defaults `stream`, reads the flag, normalises the parameters, and
    sends them either as a streaming request whose events are read by `iter_sse` or as a plain
    POST whose body is read as JSON. `server` is the HTTP client together with the endpoint.
   */
  method CompletionWithRetry(cfg: ModelConfig, kwargs: map<string, Value>,
                             server: Request -> Exchange, decode: string -> Option<Value>)
    returns (req: Request, reply: Reply)
    requires WellFormed(cfg)
    ensures ShapedRequest(cfg, kwargs, req)
    ensures reply == Answer(StreamFlag(kwargs), server(req), decode)
  {
    var params := WithStreamDefault(kwargs);
    var stream := Truthy(params[StreamKey]);
    params := EnrichParams(cfg, params);
    if stream {
      req := Request(UrlPart(cfg, true), params, EventStreamHeaders);
      var records := IterSse(server(req), decode);
      reply := Streamed(records);
    } else {
      req := Request(UrlPart(cfg, false), params, map[]);
      reply := Single(ReadJson(server(req).response, decode));
    }
  }

  /**
    `acompletion_with_retry`: normalises the parameters first and defaults `stream` afterwards,
    inside the retried coroutine; the request and the reply are the same as for the
    synchronous call.
   */
  method ACompletionWithRetry(cfg: ModelConfig, kwargs: map<string, Value>,
                              server: Request -> Exchange, decode: string -> Option<Value>)
    returns (req: Request, reply: Reply)
    requires WellFormed(cfg)
    ensures ShapedRequest(cfg, kwargs, req)
    ensures reply == Answer(StreamFlag(kwargs), server(req), decode)
  {
    var enriched := EnrichParams(cfg, kwargs);
    var params := WithStreamDefault(enriched);
    DefaultCommutesWithEnrichment(kwargs, cfg.modelName, enriched);
    var stream := Truthy(params[StreamKey]);
    if stream {
      req := Request(UrlPart(cfg, true), params, EventStreamHeaders);
      var records := IterSse(server(req), decode);
      reply := Streamed(records);
    } else {
      req := Request(UrlPart(cfg, false), params, map[]);
      reply := Single(ReadJson(server(req).response, decode));
    }
  }
}
