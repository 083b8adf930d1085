/**
  The per-request context of the `http` package (`http/context.go`) and its
  two middlewares (`http/server.go`).

  Unlike the root context, this one writes nothing while the chain runs:
  `Json` and `DieWithHttpStatus` only set the pending response
  (`responseData`, `httpStatus`, `contentType`, `hasResponse`), which
  `response` later flushes to the writer. The request body is read from the
  transport lazily, at most once, by `Body`.

  As for the root context, handlers are scripts of the calls they make, the
  functions `NextSpec`, `LinkSpec`, `StepsSpec`, `RecoverySpec` and
  `LogSpec` say what running the chain does to the context's state, and the
  methods are proved to do exactly that. A panic is an outcome carrying the
  panic's value, shown as text.
 */
module HttpContext {
  import opened Values
  import opened Strings
  import opened Transport
  import opened Envelope
  import opened LogFormat

  /** One call a chain handler makes on its context. */
  datatype Step =
    | CallNext                            // c.Next()
    | SetMeta(key: string, value: Json)   // c.SetMetaData(key, value)
    | RespondJson(data: Json)             // c.Json(data)
    | DieWithStatus(status: int)          // c.DieWithHttpStatus(status)
    | ReadBody                            // c.Body()
    | Panic(msg: string)                  // panic(msg)

  /** An element of the handler chain. */
  datatype Link =
    | Script(steps: seq<Step>)   // a handler making these calls, in order, then returning
    | Recovery                   // `RecoveryHandler`
    | RequestLog                 // `LogHandler`

  /** What the chain runs in: the chain itself, the JSON encoder and the request. */
  datatype Env = Env(chain: seq<Link>, marshal: Encoder, req: Request)

  /**
    The context's changing state. `stream` is what the transport still
    holds of the request body and `streamReads` how many times it was read;
    `log` is what the logger received; `visited` the chain indices run.
   */
  datatype State = State(
    index: nat,
    meta: Option<map<string, Json>>,
    hasReadBody: bool,
    body: seq<Byte>,
    stream: seq<Byte>,
    streamReads: nat,
    hasResponse: bool,
    responseData: seq<Byte>,
    httpStatus: int,
    contentType: string,
    log: seq<LogLine>,
    visited: seq<nat>)

  /** The state a call leaves behind, and the value of the panic that ended it, if any. */
  datatype Outcome = Outcome(st: State, panic: Option<string>)

  const JsonContentType := "application/json;charset=UTF-8"
  const TextContentType := "text/plain;charset=UTF-8"

  /** `newContext`: cursor at 0, status 200, nothing pending, body unread, empty metadata. */
  function Fresh(stream: seq<Byte>): State
  {
    State(0, Some(map[]), false, [], stream, 0, false, [], StatusOK, "", [], [])
  }

  // ----- the single operations -----

  /** `metaData[key]`: a missing key, or a nil map, reads as nil. */
  function GetMeta(meta: Option<map<string, Json>>, key: string): Json
  {
    if meta.Some? && key in meta.value then meta.value[key] else JNull
  }

  /** `SetMetaData`: creates the map when it is nil, then stores the value. */
  function SetMetaSpec(meta: Option<map<string, Json>>, key: string, value: Json): (r: Option<map<string, Json>>)
    ensures r.Some?
    ensures GetMeta(r, key) == value
    ensures forall k :: k != key ==> GetMeta(r, k) == GetMeta(meta, k)
  {
    var m := if meta.None? then map[] else meta.value;
    Some(m[key := value])
  }

  /** `Json(data)`: the encoded `{status: 0, data}` becomes the pending body, with a JSON content type. */
  function JsonSpec(marshal: Encoder, s: State, data: Json): State
  {
    s.(responseData := marshal(SuccessJson(data)), hasResponse := true, contentType := JsonContentType)
  }

  /** `DieWithHttpStatus(status)`: the status and a text content type become pending; the body is kept. */
  function DieSpec(s: State, status: int): State
  {
    s.(httpStatus := status, hasResponse := true, contentType := TextContentType)
  }

  /** `Body()`: the first call drains the transport into the cache; later calls change nothing. */
  function BodySpec(s: State): (r: State)
    ensures r.hasReadBody
    ensures r.body == if s.hasReadBody then s.body else s.stream
  {
    if s.hasReadBody then s
    else s.(hasReadBody := true, body := s.stream, stream := [], streamReads := s.streamReads + 1)
  }

  /** The calls `response()` makes on the writer. */
  function ResponseOps(s: State): seq<WriterOp>
  {
    (if s.contentType != "" then [AddHeader("Content-Type", s.contentType)] else [])
    + (if s.httpStatus == StatusOK then [Write(s.responseData)] else [WriteHeader(s.httpStatus)])
  }

  // ----- running the chain -----

  function Remaining(n: nat, index: nat): nat
  {
    if index < n then n - index else 0
  }

  ghost predicate Increasing(v: seq<nat>)
  {
    forall j, k :: 0 <= j < k < |v| ==> v[j] < v[k]
  }

  /**
    `r` follows from `s` by running handlers: the cursor did not move back,
    the trace only grew, and what it gained is increasing, lies above `lo`,
    at or below the final cursor, and inside the chain of length `n`.
   */
  ghost predicate Grows(s: State, r: State, lo: int, n: nat)
  {
    && s.index <= r.index
    && s.visited <= r.visited
    && (forall k :: |s.visited| <= k < |r.visited| ==> lo < r.visited[k] <= r.index && r.visited[k] < n)
    && (forall j, k :: |s.visited| <= j < k < |r.visited| ==> r.visited[j] < r.visited[k])
  }

  /**
    The transport is read at most once between `s` and `r`: a body already
    cached stays as it was, and a body read in between is what the
    transport held at `s`.
   */
  ghost predicate ReadsOnce(s: State, r: State)
  {
    if s.hasReadBody then
      r.hasReadBody && r.body == s.body && r.stream == s.stream && r.streamReads == s.streamReads
    else if r.hasReadBody then
      r.body == s.stream && r.stream == [] && r.streamReads == s.streamReads + 1
    else
      r.body == s.body && r.stream == s.stream && r.streamReads == s.streamReads
  }

  lemma GrowsTrans(a: State, b: State, c: State, lo: int, n: nat)
    requires Grows(a, b, lo, n) && Grows(b, c, b.index, n) && lo <= b.index
    requires ReadsOnce(a, b) && ReadsOnce(b, c)
    ensures Grows(a, c, lo, n) && ReadsOnce(a, c)
  {
    forall j, k | |a.visited| <= j < k < |c.visited|
      ensures c.visited[j] < c.visited[k]
    {
      if k >= |b.visited| && j < |b.visited| {
        assert c.visited[j] == b.visited[j];
      }
    }
    forall k | |a.visited| <= k < |c.visited|
      ensures lo < c.visited[k] <= c.index
    {
      if k < |b.visited| {
        assert c.visited[k] == b.visited[k];
      }
    }
  }

  /** `Next`: step the cursor, then run the handler under it if the chain has one there. */
  function NextSpec(e: Env, s: State): (r: Outcome)
    decreases Remaining(|e.chain|, s.index), 0
    ensures s.index < r.st.index
    ensures Grows(s, r.st, s.index, |e.chain|) && ReadsOnce(s, r.st)
  {
    var s1 := s.(index := s.index + 1);
    if s1.index < |e.chain| then LinkSpec(e, s1) else Outcome(s1, None)
  }

  /** `processHandler()`: run the handler under the cursor, recording its index. */
  function LinkSpec(e: Env, s: State): (r: Outcome)
    requires s.index < |e.chain|
    decreases Remaining(|e.chain|, s.index), 2
    ensures Grows(s, r.st, s.index - 1, |e.chain|) && ReadsOnce(s, r.st)
    ensures |r.st.visited| > |s.visited| && r.st.visited[..|s.visited| + 1] == s.visited + [s.index]
  {
    var s1 := s.(visited := s.visited + [s.index]);
    var r := match e.chain[s.index]
      case Script(steps) => StepsSpec(e, steps, s1)
      case Recovery => RecoverySpec(e, s1)
      case RequestLog => LogSpec(e, s1);
    GrowsTrans(s, s1, r.st, s.index - 1, |e.chain|);
    r
  }

  /** A scripted handler: its calls in order, until one panics or the script ends. */
  function StepsSpec(e: Env, steps: seq<Step>, s: State): (r: Outcome)
    decreases Remaining(|e.chain|, s.index), 1, |steps|
    ensures Grows(s, r.st, s.index, |e.chain|) && ReadsOnce(s, r.st)
  {
    if steps == [] then Outcome(s, None)
    else match steps[0]
      case CallNext =>
        var o := NextSpec(e, s);
        if o.panic.Some? then o
        else
          var r := StepsSpec(e, steps[1..], o.st);
          GrowsTrans(s, o.st, r.st, s.index, |e.chain|);
          r
      case SetMeta(k, v) => StepsSpec(e, steps[1..], s.(meta := SetMetaSpec(s.meta, k, v)))
      case RespondJson(d) => StepsSpec(e, steps[1..], JsonSpec(e.marshal, s, d))
      case DieWithStatus(st) => StepsSpec(e, steps[1..], DieSpec(s, st))
      case ReadBody =>
        var r := StepsSpec(e, steps[1..], BodySpec(s));
        GrowsTrans(s, BodySpec(s), r.st, s.index, |e.chain|);
        r
      case Panic(msg) => Outcome(s, Some(msg))
  }

  /** `RecoveryHandler`: run the rest of the chain; a panic is logged as `ERROR` and becomes a pending 500. */
  function RecoverySpec(e: Env, s: State): (r: Outcome)
    decreases Remaining(|e.chain|, s.index), 1
    ensures Grows(s, r.st, s.index, |e.chain|) && ReadsOnce(s, r.st)
  {
    var o := NextSpec(e, s);
    if o.panic.Some? then
      Outcome(DieSpec(o.st.(log := o.st.log + [LogLine("ERROR", ["[panic]", o.panic.value])]), StatusInternalServerError), None)
    else o
  }

  /** The address `LogHandler` logs for a request. */
  function RequestIp(req: Request): string
  {
    ClientIp(HeaderValue(req.header, "X-Forwarded-For"), HeaderValue(req.header, "X-Real-Ip"), req.remoteAddr)
  }

  /** The `REQ` line for a request, its (possibly summarised) response and its body. */
  function RequestLine(req: Request, responseData: seq<Byte>, body: seq<Byte>): LogLine
  {
    LogLine("REQ", RequestLogFields(RequestIp(req), req.httpMethod, PathWithQuery(req.path, req.rawQuery),
      HeaderValue(req.header, "Kelp-Traceid"), HeaderValue(req.header, "uuid"),
      BytesToString(body), Summarize(BytesToString(responseData))))
  }

  /**
    `LogHandler`: run the rest of the chain, then read the pending body and
    the request body and log one `REQ` line. A panic passes through it.
   */
  function LogSpec(e: Env, s: State): (r: Outcome)
    decreases Remaining(|e.chain|, s.index), 1
    ensures Grows(s, r.st, s.index, |e.chain|) && ReadsOnce(s, r.st)
  {
    var o := NextSpec(e, s);
    if o.panic.Some? then o
    else
      var s1 := BodySpec(o.st);
      GrowsTrans(s, o.st, s1, s.index, |e.chain|);
      Outcome(s1.(log := s1.log + [RequestLine(e.req, o.st.responseData, s1.body)]), None)
  }

  // ----- the context object -----

  /** `Context` of the `http` package. */
  class Context {
    const request: Request
    const writer: ResponseWriter
    const logger: Logger
    const handlerChain: seq<Link>
    const marshal: Encoder
    var metaData: Option<map<string, Json>>
    var handlerIndex: nat
    var hasReadBody: bool
    var body: seq<Byte>
    var stream: seq<Byte>
    ghost var streamReads: nat
    var hasResponse: bool
    var responseData: seq<Byte>
    var httpStatus: int
    var contentType: string
    ghost var visited: seq<nat>

    function Environment(): Env
    {
      Env(handlerChain, marshal, request)
    }

    ghost function Snapshot(): State
      reads this, logger
    {
      State(handlerIndex, metaData, hasReadBody, body, stream, streamReads, hasResponse,
            responseData, httpStatus, contentType, logger.lines, visited)
    }

    /** `newContext(req, w, chain)`, with the transport holding `transportBody` and the process logger `lg`. */
    constructor (req: Request, w: ResponseWriter, chain: seq<Link>, enc: Encoder, lg: Logger, transportBody: seq<Byte>)
      ensures request == req && writer == w && handlerChain == chain && marshal == enc && logger == lg
      ensures Snapshot() == Fresh(transportBody).(log := lg.lines)
    {
      request := req;
      writer := w;
      logger := lg;
      handlerChain := chain;
      marshal := enc;
      metaData := Some(map[]);
      handlerIndex := 0;
      hasReadBody := false;
      body := [];
      stream := transportBody;
      streamReads := 0;
      hasResponse := false;
      responseData := [];
      httpStatus := StatusOK;
      contentType := "";
      visited := [];
    }

    /** `Next`. */
    method Next() returns (panic: Option<string>)
      modifies this, logger
      decreases Remaining(|handlerChain|, handlerIndex), 0
      ensures Outcome(Snapshot(), panic) == NextSpec(Environment(), old(Snapshot()))
    {
      handlerIndex := handlerIndex + 1;
      panic := None;
      if handlerIndex < |handlerChain| {
        panic := ProcessHandler();
      }
    }

    /** `processHandler`: runs the handler under the cursor. */
    method ProcessHandler() returns (panic: Option<string>)
      requires handlerIndex < |handlerChain|
      modifies this, logger
      decreases Remaining(|handlerChain|, handlerIndex), 2
      ensures Outcome(Snapshot(), panic) == LinkSpec(Environment(), old(Snapshot()))
    {
      visited := visited + [handlerIndex];
      match handlerChain[handlerIndex]
      case Script(steps) =>
        panic := RunScript(steps, this);
      case Recovery =>
        panic := RecoveryHandler(this);
      case RequestLog =>
        panic := LogHandler(this);
    }

    /** `GetUrlParam`. */
    function GetUrlParam(key: string): string
    {
      QueryValue(request.query, key)
    }

    /** `GetHeader`. */
    function GetHeader(key: string): string
    {
      HeaderValue(request.header, key)
    }

    /** `GetMetaData`. */
    function GetMetaData(key: string): Json
      reads this
    {
      GetMeta(metaData, key)
    }

    /** `SetMetaData`. */
    method SetMetaData(key: string, value: Json)
      modifies this
      ensures Snapshot() == old(Snapshot()).(meta := SetMetaSpec(old(metaData), key, value))
    {
      if metaData.None? {
        metaData := Some(map[]);
      }
      metaData := Some(metaData.value[key := value]);
    }

    /** `Json`. */
    method Json(data: Json)
      modifies this
      ensures Snapshot() == JsonSpec(marshal, old(Snapshot()), data)
    {
      var res := marshal(SuccessJson(data));
      responseData := res;
      hasResponse := true;
      contentType := JsonContentType;
    }

    /** `DieWithHttpStatus`. */
    method DieWithHttpStatus(status: int)
      modifies this
      ensures Snapshot() == DieSpec(old(Snapshot()), status)
    {
      httpStatus := status;
      hasResponse := true;
      contentType := TextContentType;
    }

    /** `response`: flushes the pending response to the writer. */
    method Response()
      modifies writer
      ensures writer.ops == old(writer.ops) + ResponseOps(Snapshot())
    {
      if contentType != "" {
        writer.AddHeader("Content-Type", contentType);
      }
      if httpStatus == StatusOK {
        writer.Write(responseData);
      } else {
        writer.WriteHeader(httpStatus);
      }
    }

    /** `Body`. */
    method Body() returns (b: seq<Byte>)
      modifies this
      ensures Snapshot() == BodySpec(old(Snapshot()))
      ensures b == body
    {
      if !hasReadBody {
        var read := stream;
        stream := [];
        streamReads := streamReads + 1;
        hasReadBody := true;
        body := read;
      }
      b := body;
    }
  }

  /** A scripted handler making its calls on `c`. */
  method RunScript(steps: seq<Step>, c: Context) returns (panic: Option<string>)
    modifies c, c.logger
    decreases Remaining(|c.handlerChain|, c.handlerIndex), 1, |steps|
    ensures Outcome(c.Snapshot(), panic) == StepsSpec(c.Environment(), steps, old(c.Snapshot()))
  {
    if steps == [] {
      return None;
    }
    match steps[0]
    case CallNext =>
      panic := c.Next();
      if panic.None? {
        panic := RunScript(steps[1..], c);
      }
    case SetMeta(k, v) =>
      c.SetMetaData(k, v);
      panic := RunScript(steps[1..], c);
    case RespondJson(d) =>
      c.Json(d);
      panic := RunScript(steps[1..], c);
    case DieWithStatus(st) =>
      c.DieWithHttpStatus(st);
      panic := RunScript(steps[1..], c);
    case ReadBody =>
      var _ := c.Body();
      panic := RunScript(steps[1..], c);
    case Panic(msg) =>
      panic := Some(msg);
  }

  /** `RecoveryHandler`. */
  method RecoveryHandler(c: Context) returns (panic: Option<string>)
    modifies c, c.logger
    decreases Remaining(|c.handlerChain|, c.handlerIndex), 1
    ensures panic == None
    ensures Outcome(c.Snapshot(), panic) == RecoverySpec(c.Environment(), old(c.Snapshot()))
  {
    var downstream := c.Next();
    if downstream.Some? {
      c.logger.Log("ERROR", ["[panic]", downstream.value]);
      c.DieWithHttpStatus(StatusInternalServerError);
    }
    panic := None;
  }

  /** `LogHandler`, without the clock. */
  method LogHandler(c: Context) returns (panic: Option<string>)
    modifies c, c.logger
    decreases Remaining(|c.handlerChain|, c.handlerIndex), 1
    ensures Outcome(c.Snapshot(), panic) == LogSpec(c.Environment(), old(c.Snapshot()))
  {
    var path := c.request.path;
    var raw := c.request.rawQuery;
    var ips := c.GetHeader("X-Forwarded-For");
    var ip := "";
    if ips != "" {
      ip := FirstField(ips, ',');
    }
    if ip == "" {
      ip := c.GetHeader("X-Real-Ip");
    }
    if ip == "" {
      ip := c.request.remoteAddr;
    }

    panic := c.Next();
    if panic.Some? {
      return;
    }

    var traceId := c.GetHeader("Kelp-Traceid");
    var uuid := c.GetHeader("uuid");
    var httpMethod := c.request.httpMethod;
    var resp := Summarize(BytesToString(c.responseData));
    var reqBody := c.Body();
    var req := BytesToString(reqBody);
    if raw != "" {
      path := path + "?" + raw;
    }
    c.logger.Log("REQ", RequestLogFields(ip, httpMethod, path, traceId, uuid, req, resp));
  }

  // ----- what the specification promises -----

  /** Past the end of the chain, `Next` only steps the cursor. */
  lemma NextPastEnd(e: Env, s: State)
    requires s.index + 1 >= |e.chain|
    ensures NextSpec(e, s) == Outcome(s.(index := s.index + 1), None)
  {
  }

  /**
    Starting the chain at its first handler from a fresh context runs chain
    indices in strictly increasing order, each at most once, all inside the
    chain, and reads the transport at most once, yielding all it held.
   */
  lemma ChainOrder(e: Env, transportBody: seq<Byte>)
    requires |e.chain| > 0
    ensures var r := LinkSpec(e, Fresh(transportBody));
      && Increasing(r.st.visited)
      && r.st.visited[0] == 0
      && (forall k :: 0 <= k < |r.st.visited| ==> r.st.visited[k] < |e.chain| && r.st.visited[k] <= r.st.index)
      && r.st.streamReads <= 1
      && (r.st.hasReadBody ==> r.st.body == transportBody)
  {
    var r := LinkSpec(e, Fresh(transportBody));
    assert r.st.visited[..1] == [0];
  }

  /** A handler that never calls `Next` leaves the cursor where it is. */
  lemma {:induction false} NoNextNoMove(e: Env, steps: seq<Step>, s: State)
    requires CallNext !in steps
    ensures StepsSpec(e, steps, s).st.index == s.index
    ensures StepsSpec(e, steps, s).st.visited == s.visited
  {
    if steps != [] {
      assert steps[0] in steps;
      assert forall x :: x in steps[1..] ==> x in steps;
      match steps[0]
      case SetMeta(k, v) => NoNextNoMove(e, steps[1..], s.(meta := SetMetaSpec(s.meta, k, v)));
      case RespondJson(d) => NoNextNoMove(e, steps[1..], JsonSpec(e.marshal, s, d));
      case DieWithStatus(st) => NoNextNoMove(e, steps[1..], DieSpec(s, st));
      case ReadBody => NoNextNoMove(e, steps[1..], BodySpec(s));
      case Panic(_) =>
    }
  }

  /**
    Short-circuit: a handler that does not call `Next` runs alone, leaving
    the cursor on itself. Whether the chain goes on after it is up to the
    handlers before it: one that calls `Next` again resumes it (see
    `NextTwiceResumes`); when none does, it is the last one run (see
    `ChainStopsAt`).
   */
  lemma ShortCircuit(e: Env, s: State)
    requires s.index < |e.chain| && e.chain[s.index].Script? && CallNext !in e.chain[s.index].steps
    ensures LinkSpec(e, s).st.index == s.index
    ensures LinkSpec(e, s).st.visited == s.visited + [s.index]
  {
    NoNextNoMove(e, e.chain[s.index].steps, s.(visited := s.visited + [s.index]));
  }

  /** How many times a script calls `Next`. */
  function NextCalls(steps: seq<Step>): (r: nat)
    ensures r == 0 <==> CallNext !in steps
    ensures r <= |steps|
  {
    if steps == [] then 0
    else (if steps[0] == CallNext then 1 else 0) + NextCalls(steps[1..])
  }

  /** Every scripted handler of the chain calls `Next` at most once, as the recovery and logging handlers do. */
  ghost predicate NextAtMostOnce(chain: seq<Link>)
  {
    forall j :: 0 <= j < |chain| && chain[j].Script? ==> NextCalls(chain[j].steps) <= 1
  }

  /** Running from at or before handler `k`, which never calls `Next`, the cursor ends at or before `k`. */
  lemma LinkBound(e: Env, s: State, k: nat)
    requires s.index <= k < |e.chain| && e.chain[k].Script? && CallNext !in e.chain[k].steps && NextAtMostOnce(e.chain)
    ensures LinkSpec(e, s).st.index <= k
    decreases Remaining(|e.chain|, s.index), 2
  {
    var s1 := s.(visited := s.visited + [s.index]);
    LinkCursor(e, s);
    if e.chain[s.index].Script? {
      StepsBound(e, e.chain[s.index].steps, s1, k);
    } else {
      assert s.index < k;
      LinkBound(e, s1.(index := s1.index + 1), k);
    }
  }

  /** Where running the handler under the cursor leaves the cursor: where its script, or its `Next`, leaves it. */
  lemma LinkCursor(e: Env, s: State)
    requires s.index < |e.chain|
    ensures var s1 := s.(visited := s.visited + [s.index]);
      LinkSpec(e, s).st.index ==
        if e.chain[s.index].Script? then StepsSpec(e, e.chain[s.index].steps, s1).st.index
        else NextSpec(e, s1).st.index
  {
  }

  /** The same for the calls of one script, which reaches past the cursor only through its single `Next`. */
  lemma {:induction false} StepsBound(e: Env, steps: seq<Step>, s: State, k: nat)
    requires s.index <= k < |e.chain| && e.chain[k].Script? && CallNext !in e.chain[k].steps && NextAtMostOnce(e.chain)
    requires NextCalls(steps) <= 1 && (NextCalls(steps) == 1 ==> s.index < k)
    ensures StepsSpec(e, steps, s).st.index <= k
    decreases Remaining(|e.chain|, s.index), 1, |steps|
  {
    if steps != [] {
      match steps[0]
      case CallNext =>
        var o := NextSpec(e, s);
        LinkBound(e, s.(index := s.index + 1), k);
        if o.panic.None? {
          StepsBound(e, steps[1..], o.st, k);
        }
      case SetMeta(key, v) =>
        StepsBound(e, steps[1..], s.(meta := SetMetaSpec(s.meta, key, v)), k);
      case RespondJson(d) =>
        StepsBound(e, steps[1..], JsonSpec(e.marshal, s, d), k);
      case DieWithStatus(st) =>
        StepsBound(e, steps[1..], DieSpec(s, st), k);
      case ReadBody =>
        StepsBound(e, steps[1..], BodySpec(s), k);
      case Panic(_) =>
    }
  }

  /**
    When every handler calls `Next` at most once, a handler that never calls
    it ends the chain: starting from the first handler, no handler after it
    runs.
   */
  lemma ChainStopsAt(e: Env, transportBody: seq<Byte>, k: nat)
    requires k < |e.chain| && e.chain[k].Script? && CallNext !in e.chain[k].steps && NextAtMostOnce(e.chain)
    ensures var r := LinkSpec(e, Fresh(transportBody));
      forall j :: 0 <= j < |r.st.visited| ==> r.st.visited[j] <= k
  {
    LinkBound(e, Fresh(transportBody), k);
  }

  /**
    A handler that calls `Next` twice resumes the chain after a handler that
    did not call it: with `[Next; Next]` first and two silent handlers, all
    three run.
   */
  lemma NextTwiceResumes(marshal: Encoder, req: Request, transportBody: seq<Byte>)
    ensures LinkSpec(Env([Script([CallNext, CallNext]), Script([]), Script([])], marshal, req), Fresh(transportBody)).st.visited
      == [0, 1, 2]
  {
    var e := Env([Script([CallNext, CallNext]), Script([]), Script([])], marshal, req);
    var f := Fresh(transportBody);
    var s0 := f.(visited := [0]);
    var s1 := f.(index := 1, visited := [0, 1]);
    var s2 := f.(index := 2, visited := [0, 1, 2]);
    assert e.chain[0] == Script([CallNext, CallNext]) && [] + [0] == [0];
    assert LinkSpec(e, f) == StepsSpec(e, [CallNext, CallNext], s0);
    assert NextSpec(e, s0) == LinkSpec(e, s0.(index := 1)) == Outcome(s1, None);
    assert [CallNext, CallNext][1..] == [CallNext];
    assert NextSpec(e, s1) == LinkSpec(e, s1.(index := 2, visited := [0, 1])) == Outcome(s2, None);
    assert StepsSpec(e, [CallNext], s1) == StepsSpec(e, [], s2);
  }

  /** `Body` reads the transport at most once; every later call returns the same bytes. */
  lemma BodyOnce(s: State)
    ensures BodySpec(BodySpec(s)) == BodySpec(s)
    ensures BodySpec(s).streamReads <= s.streamReads + 1
    ensures s.hasReadBody ==> BodySpec(s) == s
  {
  }

  /** `Json` replaces the pending body, marks a response and leaves the status alone; the last call wins. */
  lemma JsonLastWins(marshal: Encoder, s: State, a: Json, b: Json)
    ensures var r := JsonSpec(marshal, JsonSpec(marshal, s, a), b);
      && r.responseData == marshal(SuccessJson(b))
      && r.httpStatus == s.httpStatus
      && r.hasResponse && r.contentType == "application/json;charset=UTF-8"
  {
  }

  /** `DieWithHttpStatus` sets the status and a text content type and keeps whatever body was pending. */
  lemma DieKeepsBody(s: State, status: int)
    ensures DieSpec(s, status).responseData == s.responseData
    ensures DieSpec(s, status).httpStatus == status && DieSpec(s, status).hasResponse
    ensures DieSpec(s, status).contentType == "text/plain;charset=UTF-8"
  {
  }

  /**
    `response` writes the pending body only under status 200 and otherwise
    only the status line; it adds a content type exactly when one is pending.
   */
  lemma ResponseSpec(s: State)
    ensures var ops := ResponseOps(s);
      && (s.httpStatus == 200 <==> Write(s.responseData) in ops)
      && (s.httpStatus != 200 <==> WriteHeader(s.httpStatus) in ops)
      && (s.httpStatus != 200 ==> forall op :: op in ops ==> !op.Write?)
      && (s.httpStatus == 200 ==> forall op :: op in ops ==> !op.WriteHeader?)
      && (AddHeader("Content-Type", s.contentType) in ops <==> s.contentType != "")
      && |ops| == if s.contentType != "" then 2 else 1
  {
  }

  /** A body set by `Json` is dropped once `DieWithHttpStatus` sets a status other than 200. */
  lemma DieAfterJsonDropsBody(marshal: Encoder, s: State, data: Json, status: int)
    requires status != 200
    ensures ResponseOps(DieSpec(JsonSpec(marshal, s, data), status))
      == [AddHeader("Content-Type", "text/plain;charset=UTF-8"), WriteHeader(status)]
  {
  }

  /** `Json` after `DieWithHttpStatus(404)` does not restore status 200: its body is never written. */
  lemma JsonAfterDieStillFails(marshal: Encoder, s: State, data: Json)
    ensures ResponseOps(JsonSpec(marshal, DieSpec(s, 404), data))
      == [AddHeader("Content-Type", "application/json;charset=UTF-8"), WriteHeader(404)]
  {
  }

  /**
    `RecoveryHandler` never panics. A panic from the rest of the chain is
    logged once with tag `ERROR` and turns the pending response into a 500;
    otherwise it changes nothing of its own.
   */
  lemma RecoveryContains(e: Env, s: State)
    ensures var o := NextSpec(e, s);
      var r := RecoverySpec(e, s);
      && r.panic.None?
      && (o.panic.Some? ==>
            && r.st.log == o.st.log + [LogLine("ERROR", ["[panic]", o.panic.value])]
            && r.st.httpStatus == 500 && r.st.hasResponse && r.st.contentType == "text/plain;charset=UTF-8"
            && r.st.responseData == o.st.responseData)
      && (o.panic.None? ==> r == o)
  {
  }

  /**
    `LogHandler` lets a panic through without logging; otherwise it logs
    exactly one `REQ` line after the rest of the chain, with the request's
    address, the pending body as it was then, and the request body, which
    is now read.
   */
  lemma LogHandlerSpec(e: Env, s: State)
    ensures var o := NextSpec(e, s);
      var r := LogSpec(e, s);
      && (o.panic.Some? ==> r == o)
      && (o.panic.None? ==>
            && r.panic.None?
            && r.st.hasReadBody
            && r.st.log == o.st.log + [RequestLine(e.req, o.st.responseData, r.st.body)]
            && r.st.log[|r.st.log| - 1].fields[0] == RequestIp(e.req)
            && r.st.responseData == o.st.responseData && r.st.httpStatus == o.st.httpStatus)
  {
  }

  /**
    With recovery first and logging second, a handler's panic is logged as
    `ERROR`, no `REQ` line is written, and the response becomes a bare 500.
   */
  lemma PanicUnderRecoveryAndLog(marshal: Encoder, req: Request, transportBody: seq<Byte>, msg: string)
    ensures var e := Env([Recovery, RequestLog, Script([Panic(msg)])], marshal, req);
      var r := LinkSpec(e, Fresh(transportBody));
      && r.panic.None?
      && r.st.log == [LogLine("ERROR", ["[panic]", msg])]
      && ResponseOps(r.st) == [AddHeader("Content-Type", "text/plain;charset=UTF-8"), WriteHeader(500)]
  {
    var e := Env([Recovery, RequestLog, Script([Panic(msg)])], marshal, req);
    var s0 := Fresh(transportBody);
    var s1 := s0.(visited := [0]);
    assert [] + [0] == [0];
    PanicPassesLog(e, s1.(index := 1), msg);
    assert NextSpec(e, s1) == Outcome(s1.(index := 2, visited := [0, 1, 2]), Some(msg));
    assert [] + [LogLine("ERROR", ["[panic]", msg])] == [LogLine("ERROR", ["[panic]", msg])];
    assert LinkSpec(e, s0) == RecoverySpec(e, s1);
  }

  /** Behind the logging element, a panicking handler's panic comes out unlogged, after both were run. */
  lemma PanicPassesLog(e: Env, s: State, msg: string)
    requires e.chain == [Recovery, RequestLog, Script([Panic(msg)])] && s.index == 1
    ensures LinkSpec(e, s) == Outcome(s.(index := 2, visited := s.visited + [1, 2]), Some(msg))
  {
    var s3 := s.(visited := s.visited + [1]);
    var s5 := s3.(index := 2, visited := s3.visited + [2]);
    assert s3.visited + [2] == s.visited + [1, 2];
    assert StepsSpec(e, [Panic(msg)], s5) == Outcome(s5, Some(msg));
    assert LinkSpec(e, s3.(index := 2)) == Outcome(s5, Some(msg));
    assert NextSpec(e, s3) == Outcome(s5, Some(msg));
    assert LinkSpec(e, s) == LogSpec(e, s3);
  }

  /** The metadata written last under a key is what is read back; a fresh context reads nil everywhere. */
  lemma MetaLastWriteWins(meta: Option<map<string, Json>>, key: string, v1: Json, v2: Json, other: string)
    requires other != key
    ensures GetMeta(SetMetaSpec(SetMetaSpec(meta, key, v1), key, v2), key) == v2
    ensures GetMeta(SetMetaSpec(meta, key, v1), other) == GetMeta(meta, other)
    ensures GetMeta(Fresh([]).meta, key) == JNull && GetMeta(None, key) == JNull
  {
  }
}
