/**
  The per-request context of the root package (`context.go`) and its
  recovery middleware (`server.go`).

  A context walks a handler chain with a cursor that only `Next` moves: it
  steps the cursor by one and runs the handler it now points at, if any.
  Handlers are given as scripts of the calls they make on the context, so
  that running a chain is a function of the chain and the context's state:
  `NextSpec`, `LinkSpec` and `StepsSpec` are that function, and the methods
  of `Context` are proved to compute it. A panic is an outcome: the flag
  that the methods return and the specification functions carry.
 */
module RootContext {
  import opened Values
  import opened Transport
  import opened Envelope

  /** One call a chain handler makes on its context. */
  datatype Step =
    | CallNext                            // c.Next()
    | SetMeta(key: string, value: Json)   // c.SetMetaData(key, value)
    | RespondJson(data: Json)             // c.Json(data)
    | DieWithStatus(status: int)          // c.DieWithHttpStatus(status)
    | Panic                               // panic(...)

  /** An element of the handler chain. */
  datatype Link =
    | Script(steps: seq<Step>)   // a handler making these calls, in order, then returning
    | Recovery                   // `RecoveryHandler` of server.go

  /**
    What the handlers can change: the cursor, the metadata map (`None` is a
    nil map), the calls made on the response writer, and the trace of the
    chain indices run so far.
   */
  datatype State = State(index: nat, meta: Option<map<string, Json>>, ops: seq<WriterOp>, visited: seq<nat>)

  /** The state a call leaves behind, and whether it panicked. */
  datatype Outcome = Outcome(st: State, panicked: bool)

  const JsonContentType := "application/json"
  const TextContentType := "text/plain;charset=UTF-8"

  // ----- metadata -----

  /** `metaData[key]`: a missing key, or a nil map, reads as nil. */
  function GetMeta(meta: Option<map<string, Json>>, key: string): Json
  {
    if meta.Some? && key in meta.value then meta.value[key] else JNull
  }

  /** `SetMetaData`: creates the map when it is nil, then stores the value. */
  function SetMetaSpec(meta: Option<map<string, Json>>, key: string, value: Json): (r: Option<map<string, Json>>)
    ensures r.Some?
    ensures GetMeta(r, key) == value
    ensures forall k :: k != key ==> GetMeta(r, k) == GetMeta(meta, k)
    ensures meta.Some? ==> r.value.Keys == meta.value.Keys + {key}
  {
    var m := if meta.None? then map[] else meta.value;
    Some(m[key := value])
  }

  // ----- writer calls -----

  /** The calls `Json(data)` makes: a JSON content type, then the encoded `{status: 0, data}`. */
  function JsonOps(marshal: Encoder, data: Json): seq<WriterOp>
  {
    [AddHeader("Content-Type", JsonContentType), Write(marshal(SuccessJson(data)))]
  }

  /** The calls `DieWithHttpStatus(status)` makes: the status line first, then a text content type. */
  function DieOps(status: int): seq<WriterOp>
  {
    [WriteHeader(status), AddHeader("Content-Type", TextContentType)]
  }

  // ----- running the chain -----

  /** How many chain elements lie at or after the cursor; what every run of the chain decreases. */
  function Remaining(n: nat, index: nat): nat
  {
    if index < n then n - index else 0
  }

  /** A strictly increasing sequence: indices that were each run at most once, in chain order. */
  ghost predicate Increasing(v: seq<nat>)
  {
    forall j, k :: 0 <= j < k < |v| ==> v[j] < v[k]
  }

  /**
    `r` follows from `s` by running handlers: the cursor did not move back,
    the trace only grew, and what it gained is increasing, lies above `lo`,
    at or below the final cursor, and inside the chain of length `n`.
   */
  ghost predicate Grows(s: State, r: State, lo: int, n: nat)
  {
    && s.index <= r.index
    && s.visited <= r.visited
    && (forall k :: |s.visited| <= k < |r.visited| ==> lo < r.visited[k] <= r.index && r.visited[k] < n)
    && (forall j, k :: |s.visited| <= j < k < |r.visited| ==> r.visited[j] < r.visited[k])
  }

  lemma GrowsTrans(a: State, b: State, c: State, lo: int, n: nat)
    requires Grows(a, b, lo, n) && Grows(b, c, b.index, n) && lo <= b.index
    ensures Grows(a, c, lo, n)
  {
    forall j, k | |a.visited| <= j < k < |c.visited|
      ensures c.visited[j] < c.visited[k]
    {
      if k >= |b.visited| && j < |b.visited| {
        assert c.visited[j] == b.visited[j];
      }
    }
    forall k | |a.visited| <= k < |c.visited|
      ensures lo < c.visited[k] <= c.index
    {
      if k < |b.visited| {
        assert c.visited[k] == b.visited[k];
      }
    }
  }

  /** `Next`: step the cursor, then run the handler under it if the chain has one there. */
  function NextSpec(chain: seq<Link>, marshal: Encoder, s: State): (r: Outcome)
    decreases Remaining(|chain|, s.index), 0
    ensures s.index < r.st.index
    ensures Grows(s, r.st, s.index, |chain|)
  {
    var s1 := s.(index := s.index + 1);
    if s1.index < |chain| then
      LinkSpec(chain, marshal, s1)
    else Outcome(s1, false)
  }

  /** `processHandler(chain[index], c)`: run the handler under the cursor, recording its index. */
  function LinkSpec(chain: seq<Link>, marshal: Encoder, s: State): (r: Outcome)
    requires s.index < |chain|
    decreases Remaining(|chain|, s.index), 2
    ensures Grows(s, r.st, s.index - 1, |chain|)
    ensures |r.st.visited| > |s.visited| && r.st.visited[..|s.visited| + 1] == s.visited + [s.index]
  {
    var s1 := s.(visited := s.visited + [s.index]);
    var r := match chain[s.index]
      case Script(steps) => StepsSpec(chain, marshal, steps, s1)
      case Recovery => RecoverySpec(chain, marshal, s1);
    GrowsTrans(s, s1, r.st, s.index - 1, |chain|);
    r
  }

  /** A scripted handler: its calls in order, until one panics or the script ends. */
  function StepsSpec(chain: seq<Link>, marshal: Encoder, steps: seq<Step>, s: State): (r: Outcome)
    decreases Remaining(|chain|, s.index), 1, |steps|
    ensures Grows(s, r.st, s.index, |chain|)
  {
    if steps == [] then Outcome(s, false)
    else match steps[0]
      case CallNext =>
        var o := NextSpec(chain, marshal, s);
        if o.panicked then o
        else
          var r := StepsSpec(chain, marshal, steps[1..], o.st);
          GrowsTrans(s, o.st, r.st, s.index, |chain|);
          r
      case SetMeta(k, v) => StepsSpec(chain, marshal, steps[1..], s.(meta := SetMetaSpec(s.meta, k, v)))
      case RespondJson(d) => StepsSpec(chain, marshal, steps[1..], s.(ops := s.ops + JsonOps(marshal, d)))
      case DieWithStatus(st) => StepsSpec(chain, marshal, steps[1..], s.(ops := s.ops + DieOps(st)))
      case Panic => Outcome(s, true)
  }

  /** `RecoveryHandler`: run the rest of the chain; a panic from it becomes a 500 and goes no further. */
  function RecoverySpec(chain: seq<Link>, marshal: Encoder, s: State): (r: Outcome)
    decreases Remaining(|chain|, s.index), 1
    ensures Grows(s, r.st, s.index, |chain|)
  {
    var o := NextSpec(chain, marshal, s);
    if o.panicked then Outcome(o.st.(ops := o.st.ops + DieOps(500)), false) else o
  }

  // ----- the context object -----

  /** `Context`: the request, the writer, the chain and the state the handlers change. */
  class Context {
    const request: Request
    const writer: ResponseWriter
    const handlerChain: seq<Link>
    const marshal: Encoder
    var metaData: Option<map<string, Json>>
    var handlerIndex: nat
    ghost var visited: seq<nat>

    ghost function Snapshot(): State
      reads this, writer
    {
      State(handlerIndex, metaData, writer.ops, visited)
    }

    /** `newContext(req, w, chain)`: cursor at 0 and an empty, non-nil metadata map. */
    constructor (req: Request, w: ResponseWriter, chain: seq<Link>, enc: Encoder)
      ensures request == req && writer == w && handlerChain == chain && marshal == enc
      ensures handlerIndex == 0 && metaData == Some(map[]) && visited == []
    {
      request := req;
      writer := w;
      handlerChain := chain;
      marshal := enc;
      metaData := Some(map[]);
      handlerIndex := 0;
      visited := [];
    }

    /** `Next`. */
    method Next() returns (panicked: bool)
      modifies this, writer
      decreases Remaining(|handlerChain|, handlerIndex), 0
      ensures Outcome(Snapshot(), panicked) == NextSpec(handlerChain, marshal, old(Snapshot()))
    {
      handlerIndex := handlerIndex + 1;
      panicked := false;
      if handlerIndex < |handlerChain| {
        panicked := ProcessHandler(handlerChain[handlerIndex], this);
      }
    }

    /** `GetUrlParam`. */
    function GetUrlParam(key: string): string
    {
      QueryValue(request.query, key)
    }

    /** `GetHeader`. */
    function GetHeader(key: string): string
    {
      HeaderValue(request.header, key)
    }

    /** `GetMetaData`. */
    function GetMetaData(key: string): Json
      reads this
    {
      GetMeta(metaData, key)
    }

    /** `SetMetaData`. */
    method SetMetaData(key: string, value: Json)
      modifies this
      ensures metaData == SetMetaSpec(old(metaData), key, value)
      ensures handlerIndex == old(handlerIndex) && visited == old(visited)
    {
      if metaData.None? {
        metaData := Some(map[]);
      }
      metaData := Some(metaData.value[key := value]);
    }

    /** `Json`: writes at once, so every call adds its own header and body. */
    method Json(data: Json)
      modifies writer
      ensures writer.ops == old(writer.ops) + JsonOps(marshal, data)
    {
      var res := marshal(SuccessJson(data));
      writer.AddHeader("Content-Type", JsonContentType);
      writer.Write(res);
    }

    /** `DieWithHttpStatus`. */
    method DieWithHttpStatus(status: int)
      modifies writer
      ensures writer.ops == old(writer.ops) + DieOps(status)
    {
      writer.WriteHeader(status);
      writer.AddHeader("Content-Type", TextContentType);
    }
  }

  /** `processHandler(handler, c)` for the handler under the cursor. */
  method ProcessHandler(link: Link, c: Context) returns (panicked: bool)
    requires c.handlerIndex < |c.handlerChain| && link == c.handlerChain[c.handlerIndex]
    modifies c, c.writer
    decreases Remaining(|c.handlerChain|, c.handlerIndex), 2
    ensures Outcome(c.Snapshot(), panicked) == LinkSpec(c.handlerChain, c.marshal, old(c.Snapshot()))
  {
    c.visited := c.visited + [c.handlerIndex];
    match link
    case Script(steps) =>
      panicked := RunScript(steps, c);
    case Recovery =>
      panicked := RecoveryHandler(c);
  }

  /** A scripted handler making its calls on `c`. */
  method RunScript(steps: seq<Step>, c: Context) returns (panicked: bool)
    modifies c, c.writer
    decreases Remaining(|c.handlerChain|, c.handlerIndex), 1, |steps|
    ensures Outcome(c.Snapshot(), panicked) == StepsSpec(c.handlerChain, c.marshal, steps, old(c.Snapshot()))
  {
    if steps == [] {
      return false;
    }
    match steps[0]
    case CallNext =>
      panicked := c.Next();
      if !panicked {
        panicked := RunScript(steps[1..], c);
      }
    case SetMeta(k, v) =>
      c.SetMetaData(k, v);
      panicked := RunScript(steps[1..], c);
    case RespondJson(d) =>
      c.Json(d);
      panicked := RunScript(steps[1..], c);
    case DieWithStatus(st) =>
      c.DieWithHttpStatus(st);
      panicked := RunScript(steps[1..], c);
    case Panic =>
      panicked := true;
  }

  /** `RecoveryHandler` of server.go: `Next` once, and a recovered panic becomes `DieWithHttpStatus(500)`. */
  method RecoveryHandler(c: Context) returns (panicked: bool)
    modifies c, c.writer
    decreases Remaining(|c.handlerChain|, c.handlerIndex), 1
    ensures !panicked
    ensures Outcome(c.Snapshot(), panicked) == RecoverySpec(c.handlerChain, c.marshal, old(c.Snapshot()))
  {
    var downstream := c.Next();
    if downstream {
      c.DieWithHttpStatus(500);
    }
    panicked := false;
  }

  // ----- what the specification promises -----

  /** Past the end of the chain, `Next` only steps the cursor: nothing runs and nothing is written. */
  lemma NextPastEnd(chain: seq<Link>, marshal: Encoder, s: State)
    requires s.index + 1 >= |chain|
    ensures NextSpec(chain, marshal, s) == Outcome(s.(index := s.index + 1), false)
  {
  }

  /** Inside the chain, `Next` runs exactly the handler one past the cursor, first. */
  lemma NextRunsFollowing(chain: seq<Link>, marshal: Encoder, s: State)
    requires s.index + 1 < |chain|
    ensures var r := NextSpec(chain, marshal, s);
      |r.st.visited| > |s.visited| && r.st.visited[|s.visited|] == s.index + 1
  {
    var r := LinkSpec(chain, marshal, s.(index := s.index + 1));
    assert r.st.visited[..|s.visited| + 1][|s.visited|] == s.index + 1;
  }

  /**
    Starting the chain at its first handler from a fresh context runs chain
    indices in strictly increasing order, each at most once, all inside the
    chain, and leaves the cursor at or past the last one run.
   */
  lemma ChainOrder(chain: seq<Link>, marshal: Encoder, meta: Option<map<string, Json>>, ops: seq<WriterOp>)
    requires |chain| > 0
    ensures var r := LinkSpec(chain, marshal, State(0, meta, ops, []));
      && Increasing(r.st.visited)
      && r.st.visited[0] == 0
      && (forall k :: 0 <= k < |r.st.visited| ==> r.st.visited[k] < |chain| && r.st.visited[k] <= r.st.index)
  {
    var r := LinkSpec(chain, marshal, State(0, meta, ops, []));
    assert r.st.visited[..1] == [0];
  }

  /** A handler that never calls `Next` leaves the cursor where it is: the chain stops there. */
  lemma {:induction false} NoNextNoMove(chain: seq<Link>, marshal: Encoder, steps: seq<Step>, s: State)
    requires CallNext !in steps
    ensures StepsSpec(chain, marshal, steps, s).st.index == s.index
    ensures StepsSpec(chain, marshal, steps, s).st.visited == s.visited
  {
    if steps != [] {
      assert steps[0] in steps;
      assert forall x :: x in steps[1..] ==> x in steps;
      match steps[0]
      case SetMeta(k, v) => NoNextNoMove(chain, marshal, steps[1..], s.(meta := SetMetaSpec(s.meta, k, v)));
      case RespondJson(d) => NoNextNoMove(chain, marshal, steps[1..], s.(ops := s.ops + JsonOps(marshal, d)));
      case DieWithStatus(st) => NoNextNoMove(chain, marshal, steps[1..], s.(ops := s.ops + DieOps(st)));
      case Panic =>
    }
  }

  /**
    Short-circuit: a handler that does not call `Next` runs alone, leaving
    the cursor on itself. Whether the chain goes on after it is up to the
    handlers before it: one that calls `Next` again resumes it (see
    `NextTwiceResumes`); when none does, it is the last one run (see
    `ChainStopsAt`).
   */
  lemma ShortCircuit(chain: seq<Link>, marshal: Encoder, s: State)
    requires s.index < |chain| && chain[s.index].Script? && CallNext !in chain[s.index].steps
    ensures LinkSpec(chain, marshal, s).st.index == s.index
    ensures LinkSpec(chain, marshal, s).st.visited == s.visited + [s.index]
  {
    NoNextNoMove(chain, marshal, chain[s.index].steps, s.(visited := s.visited + [s.index]));
  }

  /** How many times a script calls `Next`. */
  function NextCalls(steps: seq<Step>): (r: nat)
    ensures r == 0 <==> CallNext !in steps
    ensures r <= |steps|
  {
    if steps == [] then 0
    else (if steps[0] == CallNext then 1 else 0) + NextCalls(steps[1..])
  }

  /** Every scripted handler of the chain calls `Next` at most once, as middleware usually does. */
  ghost predicate NextAtMostOnce(chain: seq<Link>)
  {
    forall j :: 0 <= j < |chain| && chain[j].Script? ==> NextCalls(chain[j].steps) <= 1
  }

  /** Running from at or before handler `k`, which never calls `Next`, the cursor ends at or before `k`. */
  lemma LinkBound(chain: seq<Link>, marshal: Encoder, s: State, k: nat)
    requires s.index <= k < |chain| && chain[k].Script? && CallNext !in chain[k].steps && NextAtMostOnce(chain)
    ensures LinkSpec(chain, marshal, s).st.index <= k
    decreases Remaining(|chain|, s.index), 2
  {
    var s1 := s.(visited := s.visited + [s.index]);
    match chain[s.index]
    case Script(steps) =>
      StepsBound(chain, marshal, steps, s1, k);
    case Recovery =>
      assert s.index < k;
      LinkBound(chain, marshal, s1.(index := s1.index + 1), k);
      assert RecoverySpec(chain, marshal, s1).st.index == LinkSpec(chain, marshal, s1.(index := s1.index + 1)).st.index;
  }

  /** The same for the calls of one script, which reaches past the cursor only through its single `Next`. */
  lemma {:induction false} StepsBound(chain: seq<Link>, marshal: Encoder, steps: seq<Step>, s: State, k: nat)
    requires s.index <= k < |chain| && chain[k].Script? && CallNext !in chain[k].steps && NextAtMostOnce(chain)
    requires NextCalls(steps) <= 1 && (NextCalls(steps) == 1 ==> s.index < k)
    ensures StepsSpec(chain, marshal, steps, s).st.index <= k
    decreases Remaining(|chain|, s.index), 1, |steps|
  {
    if steps != [] {
      match steps[0]
      case CallNext =>
        var o := NextSpec(chain, marshal, s);
        LinkBound(chain, marshal, s.(index := s.index + 1), k);
        if !o.panicked {
          StepsBound(chain, marshal, steps[1..], o.st, k);
        }
      case SetMeta(key, v) =>
        StepsBound(chain, marshal, steps[1..], s.(meta := SetMetaSpec(s.meta, key, v)), k);
      case RespondJson(d) =>
        StepsBound(chain, marshal, steps[1..], s.(ops := s.ops + JsonOps(marshal, d)), k);
      case DieWithStatus(st) =>
        StepsBound(chain, marshal, steps[1..], s.(ops := s.ops + DieOps(st)), k);
      case Panic =>
    }
  }

  /**
    When every handler calls `Next` at most once, a handler that never calls
    it ends the chain: starting from the first handler, no handler after it
    runs.
   */
  lemma ChainStopsAt(chain: seq<Link>, marshal: Encoder, meta: Option<map<string, Json>>, ops: seq<WriterOp>, k: nat)
    requires k < |chain| && chain[k].Script? && CallNext !in chain[k].steps && NextAtMostOnce(chain)
    ensures var r := LinkSpec(chain, marshal, State(0, meta, ops, []));
      forall j :: 0 <= j < |r.st.visited| ==> r.st.visited[j] <= k
  {
    LinkBound(chain, marshal, State(0, meta, ops, []), k);
  }

  /**
    A handler that calls `Next` twice resumes the chain after a handler that
    did not call it: with `[Next; Next]` first and two silent handlers, all
    three run.
   */
  lemma NextTwiceResumes(marshal: Encoder, meta: Option<map<string, Json>>, ops: seq<WriterOp>)
    ensures LinkSpec([Script([CallNext, CallNext]), Script([]), Script([])], marshal, State(0, meta, ops, [])).st.visited
      == [0, 1, 2]
  {
    var chain := [Script([CallNext, CallNext]), Script([]), Script([])];
    var s0 := State(0, meta, ops, [0]);
    var s1 := State(1, meta, ops, [0, 1]);
    var s2 := State(2, meta, ops, [0, 1, 2]);
    assert chain[0] == Script([CallNext, CallNext]) && [] + [0] == [0];
    assert LinkSpec(chain, marshal, s0.(visited := [])) == StepsSpec(chain, marshal, [CallNext, CallNext], s0);
    assert NextSpec(chain, marshal, s0) == LinkSpec(chain, marshal, s0.(index := 1)) == Outcome(s1, false);
    assert [CallNext, CallNext][1..] == [CallNext];
    assert NextSpec(chain, marshal, s1) == LinkSpec(chain, marshal, s1.(index := 2, visited := [0, 1])) == Outcome(s2, false);
    assert StepsSpec(chain, marshal, [CallNext], s1) == StepsSpec(chain, marshal, [], s2);
  }

  /**
    `RecoveryHandler` never panics. When the rest of the chain panicked it
    adds exactly the calls of `DieWithHttpStatus(500)`; otherwise it makes
    no call of its own.
   */
  lemma RecoveryContains(chain: seq<Link>, marshal: Encoder, s: State)
    ensures var o := NextSpec(chain, marshal, s);
      var r := RecoverySpec(chain, marshal, s);
      && !r.panicked
      && (o.panicked ==> r.st == o.st.(ops := o.st.ops + [WriteHeader(500), AddHeader("Content-Type", "text/plain;charset=UTF-8")]))
      && (!o.panicked ==> r == o)
  {
  }

  /** A panic under a recovery element turns into status 500 written after everything before it. */
  lemma RecoveryOfPanic(marshal: Encoder, s: State)
    requires s.index == 0
    ensures var r := LinkSpec([Recovery, Script([Panic])], marshal, s);
      && !r.panicked
      && r.st.ops == s.ops + [WriteHeader(500), AddHeader("Content-Type", "text/plain;charset=UTF-8")]
      && r.st.visited == s.visited + [0, 1]
  {
    var chain := [Recovery, Script([Panic])];
    var s1 := s.(visited := s.visited + [0]);
    var s2 := s1.(index := 1);
    var s3 := s2.(visited := s2.visited + [1]);
    assert LinkSpec(chain, marshal, s2) == StepsSpec(chain, marshal, [Panic], s3) == Outcome(s3, true);
    assert NextSpec(chain, marshal, s1) == Outcome(s3, true);
    assert s.visited + [0] + [1] == s.visited + [0, 1];
  }

  /** Two `Json` calls write twice: two content-type headers and two encoded bodies, in call order. */
  lemma JsonWritesEachCall(chain: seq<Link>, marshal: Encoder, a: Json, b: Json, s: State)
    ensures StepsSpec(chain, marshal, [RespondJson(a), RespondJson(b)], s)
      == Outcome(s.(ops := s.ops + [AddHeader("Content-Type", "application/json"), Write(marshal(SuccessJson(a))),
                                   AddHeader("Content-Type", "application/json"), Write(marshal(SuccessJson(b)))]), false)
  {
    var s1 := s.(ops := s.ops + JsonOps(marshal, a));
    assert [RespondJson(a), RespondJson(b)][1..] == [RespondJson(b)];
    assert StepsSpec(chain, marshal, [RespondJson(b)], s1)
      == StepsSpec(chain, marshal, [], s1.(ops := s1.ops + JsonOps(marshal, b)));
  }

  /** The metadata written last under a key is what is read back; a fresh context reads nil everywhere. */
  lemma MetaLastWriteWins(meta: Option<map<string, Json>>, key: string, v1: Json, v2: Json, other: string)
    requires other != key
    ensures GetMeta(SetMetaSpec(SetMetaSpec(meta, key, v1), key, v2), key) == v2
    ensures GetMeta(SetMetaSpec(meta, key, v1), other) == GetMeta(meta, other)
    ensures GetMeta(Some(map[]), key) == JNull && GetMeta(None, key) == JNull
  {
  }
}
