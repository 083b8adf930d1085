/**
  The root router (`router.go`): a route table keyed by `method + "_" +
  path`, and `ServeHTTP`, which looks a request up and calls the handler
  found according to how many parameters it takes.

  Reflection is replaced by a closed description of the handler: its
  parameter types as `reflect` classifies them, a decoder standing for
  `json.Unmarshal` into its input, and its body as a function. A panic of
  `ServeHTTP` is a `Fault` it returns.
 */
module Router {
  import opened Values
  import opened Transport
  import opened Envelope
  import RootContext

  /** The type of one handler parameter: `*Context`, a pointer to anything else, or not a pointer. */
  datatype ParamType = ContextPtr | OtherPtr | NonPointer

  predicate IsPointer(p: ParamType) { p != NonPointer }

  /** What `json.Unmarshal` leaves in a fresh input value: the value, and whether it reported an error. */
  datatype Decoded = Decoded(value: Json, failed: bool)

  /** What a typed handler leaves in its output value, and the `*ErrorResponse` it returns (`None` is nil). */
  datatype Reply = Reply(out: Json, err: Option<ErrorResponse>)

  /** A parameter count other than 1, 2 or 3. */
  type OtherCount = n: nat | n != 1 && n != 2 && n != 3

  /** A registered handler, as `ServeHTTP` inspects it. */
  datatype Handler =
    | NotAFunc
      // func(...) with a parameter count ServeHTTP has no case for
    | OtherArity(count: OtherCount)
      // func(c *Context) *ErrorResponse: the calls it makes on c, and its result
    | WithContext(p0: ParamType, run: Request -> (seq<RootContext.Step>, Option<ErrorResponse>))
      // func(in *In, out *Out) *ErrorResponse: its reply, or None when it panics
    | InOut(p0: ParamType, p1: ParamType, decode: seq<Byte> -> Decoded, call: Json -> Option<Reply>)
      // func(in *In, out *Out, c *Context) *ErrorResponse
    | InOutContext(p0: ParamType, p1: ParamType, p2: ParamType, decode: seq<Byte> -> Decoded,
                   callWith: (Json, Request) -> (seq<RootContext.Step>, Reply))

  /** Why `ServeHTTP` panicked. */
  datatype Fault =
    | BodyReadFailed        // panic(err) of ioutil.ReadAll
    | NotAFuncPanic         // "handler type must be func "
    | ParamPanic(msg: string)
    | CallPanic             // reflect's Call: wrong argument count or type
    | HandlerPanic          // the handler itself panicked

  const OneParamMsg := "When handler has one param, it must be ptr to Context"
  const FirstParamMsg := "When handler has three param, first must be ptr to struct"
  const SecondParamMsg := "When handler has three param, second must be ptr to struct"
  const ThirdParamMsg := "When handler has three param, third must be ptr to Context"

  /** An argument in the list `ServeHTTP` hands to `Call`: a fresh value of parameter `i`'s type, or the context. */
  datatype Arg = FromParam(i: nat) | ContextArg

  /** `reflect.Value.Call` accepts `args` for parameters `params` exactly when the count and every type match. */
  predicate CallAccepts(params: seq<ParamType>, args: seq<Arg>)
  {
    |args| == |params|
    && forall k :: 0 <= k < |args| ==> args[k] == FromParam(k) || (args[k] == ContextArg && params[k] == ContextPtr)
  }

  /** What `ServeHTTP` did: the calls on the writer, and the panic that ended it, if any. */
  datatype Served = Served(ops: seq<WriterOp>, fault: Option<Fault>)

  /** The route key `fmt.Sprintf("%s_%s", method, path)`. */
  function Key(httpMethod: string, path: string): string
  {
    httpMethod + "_" + path
  }

  /** The fresh context of a one- or three-parameter handler: `newContext(req, w)`, with no chain. */
  function FreshState(): RootContext.State
  {
    RootContext.State(0, Some(map[]), [], [])
  }

  /** The JSON written for a typed handler: its error if it returned one, else `{status: 0, data: out}`. */
  function ReplyJson(r: Reply): Json
  {
    if r.err.Some? then ErrorJson(r.err.value) else SuccessJson(r.out)
  }

  function ReplyOps(marshal: Encoder, r: Reply): seq<WriterOp>
  {
    [AddHeader("Content-Type", "application/json"), Write(marshal(ReplyJson(r)))]
  }

  /** The arguments the two-parameter case builds: one per pointer parameter, in order. */
  function TwoArgs(p0: ParamType, p1: ParamType): seq<Arg>
  {
    (if IsPointer(p0) then [FromParam(0)] else []) + (if IsPointer(p1) then [FromParam(1)] else [])
  }

  /**
    The third-parameter guard as `router.go` writes it: it re-tests the
    first parameter, which is a pointer by the time it runs.
   */
  function ThirdParamGuardAsWritten(p0: ParamType, p2: ParamType): bool
  {
    IsPointer(p0)
  }

  /** The third-parameter guard as intended: the third parameter must be a pointer. */
  function ThirdParamGuard(p0: ParamType, p2: ParamType): bool
  {
    IsPointer(p2)
  }

  /** The three-parameter case once the body is read, with the third-parameter guard as a parameter. */
  function ServeThree(marshal: Encoder, req: Request, body: seq<Byte>, p0: ParamType, p1: ParamType, p2: ParamType,
                      decode: seq<Byte> -> Decoded, callWith: (Json, Request) -> (seq<RootContext.Step>, Reply),
                      guard: (ParamType, ParamType) -> bool): Served
  {
    if !IsPointer(p0) then Served([], Some(ParamPanic(FirstParamMsg)))
    else if !IsPointer(p1) then Served([], Some(ParamPanic(SecondParamMsg)))
    else if !guard(p0, p2) then Served([], Some(ParamPanic(ThirdParamMsg)))
    else if !CallAccepts([p0, p1, p2], [FromParam(0), FromParam(1), ContextArg]) then Served([], Some(CallPanic))
    else
      var (steps, reply) := callWith(decode(body).value, req);
      var o := RootContext.StepsSpec([], marshal, steps, FreshState());
      if o.panicked then Served(o.st.ops, Some(HandlerPanic))
      else Served(o.st.ops + ReplyOps(marshal, reply), None)
  }

  /** What `ServeHTTP` does with a request whose body read gave `body` (`None`: the read failed). */
  function Dispatch(trees: map<string, Handler>, marshal: Encoder, req: Request, body: Option<seq<Byte>>): Served
  {
    if body.None? then Served([], Some(BodyReadFailed))
    else if Key(req.httpMethod, req.path) !in trees then Served([WriteHeader(StatusNotFound)], None)
    else match trees[Key(req.httpMethod, req.path)]
      case NotAFunc => Served([], Some(NotAFuncPanic))
      case OtherArity(_) => Served([], None)
      case WithContext(p0, run) =>
        if !IsPointer(p0) then Served([], Some(ParamPanic(OneParamMsg)))
        else if !CallAccepts([p0], [ContextArg]) then Served([], Some(CallPanic))
        else
          var (steps, err) := run(req);
          var o := RootContext.StepsSpec([], marshal, steps, FreshState());
          if o.panicked then Served(o.st.ops, Some(HandlerPanic))
          else if err.None? then Served(o.st.ops, None)
          else Served(o.st.ops + [AddHeader("Content-Type", "application/json"), Write(marshal(ErrorJson(err.value)))], None)
      case InOut(p0, p1, decode, call) =>
        if !CallAccepts([p0, p1], TwoArgs(p0, p1)) then Served([], Some(CallPanic))
        else (match call(decode(body.value).value)
          case None => Served([], Some(HandlerPanic))
          case Some(reply) => Served(ReplyOps(marshal, reply), None))
      case InOutContext(p0, p1, p2, decode, callWith) =>
        ServeThree(marshal, req, body.value, p0, p1, p2, decode, callWith, ThirdParamGuardAsWritten)
  }

  /** `Router`: the route table and the encoder its responses go through. */
  class Router {
    var trees: map<string, Handler>
    const marshal: Encoder

    /** `New`: an empty table. */
    constructor New(enc: Encoder)
      ensures trees == map[] && marshal == enc
    {
      trees := map[];
      marshal := enc;
    }

    /** `Handle`: registers under `method_path`, replacing what was there. */
    method Handle(httpMethod: string, path: string, h: Handler)
      modifies this
      ensures trees == old(trees)[Key(httpMethod, path) := h]
    {
      var key := Key(httpMethod, path);
      trees := trees[key := h];
    }

    method GET(path: string, h: Handler)
      modifies this
      ensures trees == old(trees)[Key("GET", path) := h]
    {
      Handle("GET", path, h);
    }

    method POST(path: string, h: Handler)
      modifies this
      ensures trees == old(trees)[Key("POST", path) := h]
    {
      Handle("POST", path, h);
    }

    method DELETE(path: string, h: Handler)
      modifies this
      ensures trees == old(trees)[Key("DELETE", path) := h]
    {
      Handle("DELETE", path, h);
    }

    method PUT(path: string, h: Handler)
      modifies this
      ensures trees == old(trees)[Key("PUT", path) := h]
    {
      Handle("PUT", path, h);
    }

    /** `ServeHTTP`, given the outcome of reading the request body. */
    method ServeHTTP(w: ResponseWriter, req: Request, body: Option<seq<Byte>>) returns (fault: Option<Fault>)
      modifies w
      ensures w.ops == old(w.ops) + Dispatch(trees, marshal, req, body).ops
      ensures fault == Dispatch(trees, marshal, req, body).fault
    {
      if body.None? {
        return Some(BodyReadFailed);
      }
      var key := Key(req.httpMethod, req.path);
      if key !in trees {
        w.WriteHeader(StatusNotFound);
        return None;
      }
      var args: seq<Arg> := [];
      fault := None;
      match trees[key]
      case NotAFunc =>
        fault := Some(NotAFuncPanic);
      case OtherArity(_) =>
      case WithContext(p0, run) =>
        if !IsPointer(p0) {
          return Some(ParamPanic(OneParamMsg));
        }
        var cxt := new RootContext.Context(req, w, [], marshal);
        args := args + [ContextArg];
        if !CallAccepts([p0], args) {
          return Some(CallPanic);
        }
        var (steps, err) := run(req);
        fault := RunHandler(cxt, steps);
        if fault.None? && err.Some? {
          var res := marshal(ErrorJson(err.value));
          w.AddHeader("Content-Type", "application/json");
          w.Write(res);
        }
      case InOut(p0, p1, decode, call) =>
        var input := Json.JNull;
        if IsPointer(p0) {
          input := decode(body.value).value;
          args := args + [FromParam(0)];
        }
        if IsPointer(p1) {
          args := args + [FromParam(1)];
        }
        if !CallAccepts([p0, p1], args) {
          return Some(CallPanic);
        }
        var reply := call(input);
        if reply.None? {
          return Some(HandlerPanic);
        }
        var res := marshal(ReplyJson(reply.value));
        w.AddHeader("Content-Type", "application/json");
        w.Write(res);
      case InOutContext(p0, p1, p2, decode, callWith) =>
        if !IsPointer(p0) {
          return Some(ParamPanic(FirstParamMsg));
        }
        var input := decode(body.value).value;
        args := args + [FromParam(0)];
        if !IsPointer(p1) {
          return Some(ParamPanic(SecondParamMsg));
        }
        args := args + [FromParam(1)];
        if !ThirdParamGuardAsWritten(p0, p2) {
          return Some(ParamPanic(ThirdParamMsg));
        }
        var cxt := new RootContext.Context(req, w, [], marshal);
        args := args + [ContextArg];
        if !CallAccepts([p0, p1, p2], args) {
          return Some(CallPanic);
        }
        var (steps, reply) := callWith(input, req);
        fault := RunHandler(cxt, steps);
        if fault.None? {
          var res := marshal(ReplyJson(reply));
          w.AddHeader("Content-Type", "application/json");
          w.Write(res);
        }
    }
  }

  /** Runs a handler's calls on its fresh, chainless context. */
  method RunHandler(cxt: RootContext.Context, steps: seq<RootContext.Step>) returns (fault: Option<Fault>)
    requires cxt.handlerChain == [] && cxt.handlerIndex == 0 && cxt.metaData == Some(map[]) && cxt.visited == []
    modifies cxt, cxt.writer
    ensures var o := RootContext.StepsSpec([], cxt.marshal, steps, FreshState());
      cxt.writer.ops == old(cxt.writer.ops) + o.st.ops && fault == (if o.panicked then Some(HandlerPanic) else None)
  {
    ghost var before := cxt.writer.ops;
    var panicked := RootContext.RunScript(steps, cxt);
    StepsShift(cxt.marshal, steps, FreshState(), before);
    assert FreshState().(ops := before + FreshState().ops) == old(cxt.Snapshot());
    fault := if panicked then Some(HandlerPanic) else None;
  }

  /** With no chain behind it, a handler's calls write the same whatever was written before. */
  lemma {:induction false} StepsShift(marshal: Encoder, steps: seq<RootContext.Step>, s: RootContext.State, pre: seq<WriterOp>)
    ensures var r := RootContext.StepsSpec([], marshal, steps, s);
      RootContext.StepsSpec([], marshal, steps, s.(ops := pre + s.ops)) == RootContext.Outcome(r.st.(ops := pre + r.st.ops), r.panicked)
    decreases |steps|
  {
    if steps != [] {
      match steps[0]
      case CallNext =>
        StepsShift(marshal, steps[1..], s.(index := s.index + 1), pre);
      case SetMeta(k, v) =>
        StepsShift(marshal, steps[1..], s.(meta := RootContext.SetMetaSpec(s.meta, k, v)), pre);
      case RespondJson(d) =>
        assert pre + s.ops + RootContext.JsonOps(marshal, d) == pre + (s.ops + RootContext.JsonOps(marshal, d));
        StepsShift(marshal, steps[1..], s.(ops := s.ops + RootContext.JsonOps(marshal, d)), pre);
      case DieWithStatus(st) =>
        assert pre + s.ops + RootContext.DieOps(st) == pre + (s.ops + RootContext.DieOps(st));
        StepsShift(marshal, steps[1..], s.(ops := s.ops + RootContext.DieOps(st)), pre);
      case Panic =>
    }
  }

  // ----- what dispatch promises -----

  /** Distinct method/path pairs never share a key, as long as the method holds no '_'. */
  lemma KeyInjective(m1: string, p1: string, m2: string, p2: string)
    requires '_' !in m1 && '_' !in m2
    ensures Key(m1, p1) == Key(m2, p2) <==> m1 == m2 && p1 == p2
  {
    if Key(m1, p1) == Key(m2, p2) {
      var k := Key(m1, p1);
      if |m1| < |m2| {
        SeparatorAt(m1, p1, m2, p2);
        assert false;
      } else if |m2| < |m1| {
        SeparatorAt(m2, p2, m1, p1);
        assert false;
      }
      assert m1 == k[..|m1|] == m2;
      assert p1 == k[|m1| + 1..] == p2;
    }
  }

  /** When a shorter method gives the same key, the longer method holds the separator. */
  lemma SeparatorAt(m1: string, p1: string, m2: string, p2: string)
    requires |m1| < |m2| && Key(m1, p1) == Key(m2, p2)
    ensures '_' in m2
  {
    assert Key(m1, p1)[|m1|] == '_';
    assert Key(m2, p2)[|m1|] == m2[|m1|];
  }

  /** Registering a route replaces any earlier handler for the same method and path and leaves every other route. */
  lemma HandleReplaces(trees: map<string, Handler>, m: string, p: string, h1: Handler, h2: Handler, m2: string, p2: string)
    requires '_' !in m && '_' !in m2 && (m2 != m || p2 != p) && Key(m2, p2) in trees
    ensures Key(m, p) in trees[Key(m, p) := h1][Key(m, p) := h2]
    ensures Key(m2, p2) in trees[Key(m, p) := h1]
    ensures |trees[Key(m, p) := h1][Key(m, p) := h2].Keys| == |trees[Key(m, p) := h1].Keys|
    ensures trees[Key(m, p) := h1][Key(m, p) := h2][Key(m, p)] == h2
    ensures trees[Key(m, p) := h1][Key(m, p) := h2][Key(m2, p2)] == trees[Key(m2, p2)]
  {
    KeyInjective(m, p, m2, p2);
    assert trees[Key(m, p) := h1][Key(m, p) := h2].Keys == trees[Key(m, p) := h1].Keys;
  }

  /** A request with no route gets a bare 404 and no handler runs. */
  lemma MissIsNotFound(trees: map<string, Handler>, marshal: Encoder, req: Request, body: seq<Byte>)
    requires Key(req.httpMethod, req.path) !in trees
    ensures Dispatch(trees, marshal, req, Some(body)) == Served([WriteHeader(404)], None)
  {
  }

  /** A failed body read panics before the route is even looked up. */
  lemma BodyReadFirst(trees: map<string, Handler>, marshal: Encoder, req: Request)
    ensures Dispatch(trees, marshal, req, None) == Served([], Some(BodyReadFailed))
  {
  }

  /**
    A two-parameter handler with pointer parameters that returns gets one
    JSON body: its error when it returned one, else `{status: 0, data: out}`;
    one that panics has nothing written.
   */
  lemma TwoParamResponse(trees: map<string, Handler>, marshal: Encoder, req: Request, body: seq<Byte>)
    requires Key(req.httpMethod, req.path) in trees
    requires var h := trees[Key(req.httpMethod, req.path)]; h.InOut? && IsPointer(h.p0) && IsPointer(h.p1)
    ensures var h := trees[Key(req.httpMethod, req.path)];
      var reply := h.call(h.decode(body).value);
      var d := Dispatch(trees, marshal, req, Some(body));
      && (reply.None? ==> d == Served([], Some(HandlerPanic)))
      && (reply.Some? ==>
            && d.fault == None
            && |d.ops| == 2 && d.ops[0] == AddHeader("Content-Type", "application/json") && d.ops[1].Write?
            && (reply.value.err.Some? ==> d.ops[1] == Write(marshal(ErrorJson(reply.value.err.value))))
            && (reply.value.err.None? ==>
                  exists j :: d.ops[1] == Write(marshal(j))
                    && Field(j, "status") == Some(JNum(0)) && Field(j, "data") == Some(reply.value.out)))
  {
    var h := trees[Key(req.httpMethod, req.path)];
    var reply := h.call(h.decode(body).value);
    assert CallAccepts([h.p0, h.p1], TwoArgs(h.p0, h.p1));
    if reply.Some? && reply.value.err.None? {
      SuccessJsonFields(reply.value.out);
    }
  }

  /** A two-parameter handler is called exactly when both its parameters are pointers; otherwise `Call` panics. */
  lemma TwoParamCall(p0: ParamType, p1: ParamType)
    ensures CallAccepts([p0, p1], TwoArgs(p0, p1)) <==> IsPointer(p0) && IsPointer(p1)
  {
    if CallAccepts([p0, p1], TwoArgs(p0, p1)) {
      assert |TwoArgs(p0, p1)| == 2;
    }
  }

  /**
    A one-parameter handler taking `*Context` writes a body of its own only
    when it returns an error: after its own calls, the error as JSON.
   */
  lemma OneParamResponse(trees: map<string, Handler>, marshal: Encoder, req: Request, body: seq<Byte>)
    requires Key(req.httpMethod, req.path) in trees
    requires var h := trees[Key(req.httpMethod, req.path)]; h.WithContext? && h.p0 == ContextPtr
    requires !RootContext.StepsSpec([], marshal, trees[Key(req.httpMethod, req.path)].run(req).0, FreshState()).panicked
    ensures var (steps, err) := trees[Key(req.httpMethod, req.path)].run(req);
      var own := RootContext.StepsSpec([], marshal, steps, FreshState()).st.ops;
      Dispatch(trees, marshal, req, Some(body)) ==
        Served(own + (if err.Some? then [AddHeader("Content-Type", "application/json"), Write(marshal(ErrorJson(err.value)))] else []), None)
  {
  }

  /** A handler taking one parameter that is not `*Context` never runs: ServeHTTP or `Call` panics. */
  lemma OneParamWrongType(trees: map<string, Handler>, marshal: Encoder, req: Request, body: seq<Byte>)
    requires Key(req.httpMethod, req.path) in trees
    requires var h := trees[Key(req.httpMethod, req.path)]; h.WithContext? && h.p0 != ContextPtr
    ensures Dispatch(trees, marshal, req, Some(body)).ops == []
    ensures Dispatch(trees, marshal, req, Some(body)).fault ==
      if trees[Key(req.httpMethod, req.path)].p0 == NonPointer then Some(ParamPanic(OneParamMsg)) else Some(CallPanic)
  {
    var p0 := trees[Key(req.httpMethod, req.path)].p0;
    assert [ContextArg][0] == ContextArg && [p0][0] == p0;
  }

  /** A three-parameter handler whose first or second parameter is not a pointer is rejected with a panic, writing nothing. */
  lemma ThreeParamRejects(trees: map<string, Handler>, marshal: Encoder, req: Request, body: seq<Byte>)
    requires Key(req.httpMethod, req.path) in trees
    requires var h := trees[Key(req.httpMethod, req.path)]; h.InOutContext? && (!IsPointer(h.p0) || !IsPointer(h.p1))
    ensures Dispatch(trees, marshal, req, Some(body)).ops == []
    ensures Dispatch(trees, marshal, req, Some(body)).fault ==
      Some(ParamPanic(if !IsPointer(trees[Key(req.httpMethod, req.path)].p0) then FirstParamMsg else SecondParamMsg))
  {
  }

  /** A handler with any other parameter count is never called and nothing is written. */
  lemma OtherArityWritesNothing(trees: map<string, Handler>, marshal: Encoder, req: Request, body: seq<Byte>)
    requires Key(req.httpMethod, req.path) in trees && trees[Key(req.httpMethod, req.path)].OtherArity?
    ensures Dispatch(trees, marshal, req, Some(body)) == Served([], None)
  {
  }

  /** A decode that reports failure is ignored: the handler runs on whatever value was decoded. */
  lemma DecodeFailureIgnored(trees: map<string, Handler>, marshal: Encoder, req: Request, body: seq<Byte>,
                             p0: ParamType, p1: ParamType, decode: seq<Byte> -> Decoded, call: Json -> Option<Reply>)
    ensures var key := Key(req.httpMethod, req.path);
      var quiet := (b: seq<Byte>) => Decoded(decode(b).value, false);
      Dispatch(trees[key := InOut(p0, p1, decode, call)], marshal, req, Some(body))
        == Dispatch(trees[key := InOut(p0, p1, quiet, call)], marshal, req, Some(body))
  {
  }

  /** The same for a three-parameter handler. */
  lemma DecodeFailureIgnoredWithContext(trees: map<string, Handler>, marshal: Encoder, req: Request, body: seq<Byte>,
                                        p0: ParamType, p1: ParamType, p2: ParamType, decode: seq<Byte> -> Decoded,
                                        callWith: (Json, Request) -> (seq<RootContext.Step>, Reply))
    ensures var key := Key(req.httpMethod, req.path);
      var quiet := (b: seq<Byte>) => Decoded(decode(b).value, false);
      Dispatch(trees[key := InOutContext(p0, p1, p2, decode, callWith)], marshal, req, Some(body))
        == Dispatch(trees[key := InOutContext(p0, p1, p2, quiet, callWith)], marshal, req, Some(body))
  {
  }

  // ----- the third-parameter check -----

  /**
    As written, the third-parameter check passes for every handler whose
    first parameter is a pointer, which is every handler that reaches it:
    a non-pointer third parameter gets past it and only `Call` panics.
   */
  lemma ThirdParamGuardAsWrittenNeverFires(marshal: Encoder, req: Request, body: seq<Byte>, p1: ParamType,
                                           decode: seq<Byte> -> Decoded,
                                           callWith: (Json, Request) -> (seq<RootContext.Step>, Reply))
    requires IsPointer(p1)
    ensures forall p0, p2 :: IsPointer(p0) ==> ThirdParamGuardAsWritten(p0, p2)
    ensures ThirdParamGuardAsWritten(OtherPtr, NonPointer)
    ensures ServeThree(marshal, req, body, OtherPtr, p1, NonPointer, decode, callWith, ThirdParamGuardAsWritten).fault
      == Some(CallPanic)
  {
    var args := [FromParam(0), FromParam(1), ContextArg];
    assert args[2] == ContextArg && [OtherPtr, p1, NonPointer][2] == NonPointer;
  }

  /**
    What `ServeHTTP` does as written with a registered three-parameter
    handler whose first two parameters are pointers and whose third is not:
    the check lets it through, and `Call` panics before anything is written.
   */
  lemma ThirdParamNonPointerReachesCall(trees: map<string, Handler>, marshal: Encoder, req: Request, body: seq<Byte>)
    requires Key(req.httpMethod, req.path) in trees
    requires var h := trees[Key(req.httpMethod, req.path)];
      h.InOutContext? && IsPointer(h.p0) && IsPointer(h.p1) && !IsPointer(h.p2)
    ensures Dispatch(trees, marshal, req, Some(body)) == Served([], Some(CallPanic))
  {
    var h := trees[Key(req.httpMethod, req.path)];
    var args := [FromParam(0), FromParam(1), ContextArg];
    assert args[2] == ContextArg && [h.p0, h.p1, h.p2][2] == h.p2;
  }

  /** With the intended check, a non-pointer third parameter is rejected by the check's own panic. */
  lemma ThirdParamGuardRejects(marshal: Encoder, req: Request, body: seq<Byte>, p0: ParamType, p1: ParamType,
                               decode: seq<Byte> -> Decoded,
                               callWith: (Json, Request) -> (seq<RootContext.Step>, Reply))
    requires IsPointer(p0) && IsPointer(p1)
    ensures ServeThree(marshal, req, body, p0, p1, NonPointer, decode, callWith, ThirdParamGuard)
      == Served([], Some(ParamPanic(ThirdParamMsg)))
    ensures forall p2 :: ThirdParamGuard(p0, p2) <==> IsPointer(p2)
  {
  }

  /**
    A three-parameter handler with pointer parameters and `*Context` last
    writes its own calls, then one JSON body: its error or `{status: 0, data: out}`.
   */
  lemma ThreeParamResponse(marshal: Encoder, req: Request, body: seq<Byte>, p0: ParamType, p1: ParamType,
                           decode: seq<Byte> -> Decoded,
                           callWith: (Json, Request) -> (seq<RootContext.Step>, Reply))
    requires IsPointer(p0) && IsPointer(p1)
    ensures var (steps, reply) := callWith(decode(body).value, req);
      var o := RootContext.StepsSpec([], marshal, steps, FreshState());
      ServeThree(marshal, req, body, p0, p1, ContextPtr, decode, callWith, ThirdParamGuard)
        == if o.panicked then Served(o.st.ops, Some(HandlerPanic))
           else Served(o.st.ops + [AddHeader("Content-Type", "application/json"), Write(marshal(ReplyJson(reply)))], None)
  {
    assert CallAccepts([p0, p1, ContextPtr], [FromParam(0), FromParam(1), ContextArg]);
  }
}
