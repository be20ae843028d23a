/**
 * One iteration of the k6 load script (benchmarks/benchmark.js, the default
 * function). Each virtual user repeatedly runs: create an item, then, only
 * if the create answered 201, read, update and delete that item, and
 * finally list all items whatever happened before. Every request adds one
 * sample to the `requests` counter, tagged with its route, and one sample to
 * the `errors` rate, true when the status is not the one expected.
 *
 * HTTP is an oracle `serve` from a server state and a request to the next
 * state and the response, so the same iteration can be run against anything,
 * in particular against the gin and echo store models.
 */
module Workload {
  import opened Wrappers
  import opened GoStrconv
  import opened ItemStore
  import GinService
  import EchoService

  /** The five groups of the script; each tags its request with its name. */
  datatype Op = OpCreate | OpDetail | OpUpdate | OpDelete | OpList

  /** The tag value: `route` on the counter, `type` on the rate and the latency metric. */
  function Route(op: Op): string {
    match op
    case OpCreate => "create"
    case OpDetail => "detail"
    case OpUpdate => "update"
    case OpDelete => "delete"
    case OpList => "list"
  }

  /** The status each group's check accepts. */
  function ExpectedStatus(op: Op): int {
    match op
    case OpCreate => StatusCreated
    case OpDetail => StatusOK
    case OpUpdate => StatusOK
    case OpDelete => StatusNoContent
    case OpList => StatusOK
  }

  /** The bodies JSON.stringify produces for the create and update payloads, as the services decode them. */
  const CreatePayload := Input("item", 100)
  const UpdatePayload := Input("item-upd", 200)

  /** A request as issued: its group, its route and path parameter, and the `ts` cache-busting query value. */
  datatype Call = Call(op: Op, req: Request, ts: int)

  /** requests.add(value, {route}) */
  datatype CounterSample = CounterSample(value: nat, route: string)

  /** errorRate.add(failed, {type}) */
  datatype RateSample = RateSample(failed: bool, typeTag: string)

  /**
   * What an iteration leaves behind: the server state, the requests issued
   * and their responses in order, the samples added to the two metrics, and
   * whether it ended by an exception.
   */
  datatype Outcome<S> = Outcome(
    state: S,
    calls: seq<Call>,
    responses: seq<Response>,
    requests: seq<CounterSample>,
    errors: seq<RateSample>,
    aborted: bool)

  /**
   * `item.id` after `JSON.parse(res.body)`, written into a URL. An item body
   * gives the decimal id. An array or an error object has no `id`, so the
   * URL gets "undefined". A body that is not one JSON document makes
   * JSON.parse throw, which is None.
   */
  function IdText(body: Body): (r: Option<string>)
    ensures r.None? <==> body.Empty? || body.Malformed?
    ensures body.ItemJson? ==> r == Some(FormatInt(body.item.id))
  {
    match body
    case ItemJson(item) => Some(FormatInt(item.id))
    case ItemsJson(_) => Some("undefined")
    case ErrorJson(_) => Some("undefined")
    case Empty => None
    case Malformed => None
  }

  /** One group's request: send it, count it, and record whether its check failed. */
  function Issue<S>(serve: (S, Request) -> (S, Response), o: Outcome<S>, op: Op, req: Request, ts: int): (r: Outcome<S>)
    ensures r.calls == o.calls + [Call(op, req, ts)]
    ensures r.responses == o.responses + [serve(o.state, req).1]
    ensures r.requests == o.requests + [CounterSample(1, Route(op))]
    ensures r.errors == o.errors + [RateSample(serve(o.state, req).1.status != ExpectedStatus(op), Route(op))]
    ensures r.state == serve(o.state, req).0 && r.aborted == o.aborted
  {
    var (s, resp) := serve(o.state, req);
    Outcome(s, o.calls + [Call(op, req, ts)], o.responses + [resp],
            o.requests + [CounterSample(1, Route(op))],
            o.errors + [RateSample(resp.status != ExpectedStatus(op), Route(op))],
            o.aborted)
  }

  /**
   * The create group, with the detail, update and delete groups nested in
   * it. The create is always sent first; the three dependent requests follow
   * exactly when it answered 201 with a body whose id can be read; reading
   * it throws exactly when the 201 body is not one JSON document.
   */
  function CreateGroup<S>(serve: (S, Request) -> (S, Response), s0: S, ts: int): (r: Outcome<S>)
    ensures |r.calls| >= 1 && r.calls[0] == Call(OpCreate, CreateReq(Some(CreatePayload)), ts)
    ensures var created := serve(s0, CreateReq(Some(CreatePayload))).1;
            && (|r.calls| == 4 <==> created.status == StatusCreated && IdText(created.body).Some?)
            && (|r.calls| != 4 ==> |r.calls| == 1)
            && (r.aborted <==> created.status == StatusCreated && IdText(created.body).None?)
  {
    var o1 := Issue(serve, Outcome(s0, [], [], [], [], false), OpCreate, CreateReq(Some(CreatePayload)), ts);
    var created := serve(s0, CreateReq(Some(CreatePayload))).1;
    if created.status != StatusCreated then o1
    else match IdText(created.body)
      case None => o1.(aborted := true)
      case Some(id) =>
        var o2 := Issue(serve, o1, OpDetail, GetReq(id), ts);
        var o3 := Issue(serve, o2, OpUpdate, UpdateReq(id, Some(UpdatePayload)), ts);
        Issue(serve, o3, OpDelete, DeleteReq(id), ts)
  }

  /**
   * The whole iteration: the create group, then, unless it threw, the list
   * group, which is then the last request sent.
   */
  function Run<S>(serve: (S, Request) -> (S, Response), s0: S, ts: int): (r: Outcome<S>)
    ensures |r.calls| >= 1 && r.calls[0] == Call(OpCreate, CreateReq(Some(CreatePayload)), ts)
    ensures r.aborted == CreateGroup(serve, s0, ts).aborted
    ensures !r.aborted ==> r.calls[|r.calls| - 1] == Call(OpList, ListReq, ts)
  {
    var o := CreateGroup(serve, s0, ts);
    if o.aborted then o else Issue(serve, o, OpList, ListReq, ts)
  }

  function Ops(calls: seq<Call>): (ops: seq<Op>)
    ensures |ops| == |calls| && forall i | 0 <= i < |calls| :: ops[i] == calls[i].op
  {
    seq(|calls|, i requires 0 <= i < |calls| => calls[i].op)
  }

  function Statuses(responses: seq<Response>): (st: seq<int>)
    ensures |st| == |responses| && forall i | 0 <= i < |responses| :: st[i] == responses[i].status
  {
    seq(|responses|, i requires 0 <= i < |responses| => responses[i].status)
  }

  /**
   * The metric accounting of every iteration: one counter sample of 1 and one
   * rate sample per request issued, tagged with the request's group, the rate
   * sample true exactly when the status is not the expected one; and either
   * 5 requests, or 2 when the create failed, or 1 when reading the created
   * id threw. Every request carries the iteration's one `ts`.
   */
  lemma Accounting<S>(serve: (S, Request) -> (S, Response), s0: S, ts: int)
    ensures var o := Run(serve, s0, ts);
            && Aligned(o, ts)
            && (o.aborted <==> |o.calls| == 1)
            && (!o.aborted ==> |o.calls| == 5 || |o.calls| == 2)
  {
    var o0 := Outcome(s0, [], [], [], [], false);
    var o1 := Issue(serve, o0, OpCreate, CreateReq(Some(CreatePayload)), ts);
    IssueAligned(serve, o0, OpCreate, CreateReq(Some(CreatePayload)), ts);
    var created := serve(s0, CreateReq(Some(CreatePayload))).1;
    if created.status == StatusCreated && IdText(created.body).Some? {
      var id := IdText(created.body).value;
      var o2 := Issue(serve, o1, OpDetail, GetReq(id), ts);
      IssueAligned(serve, o1, OpDetail, GetReq(id), ts);
      var o3 := Issue(serve, o2, OpUpdate, UpdateReq(id, Some(UpdatePayload)), ts);
      IssueAligned(serve, o2, OpUpdate, UpdateReq(id, Some(UpdatePayload)), ts);
      var o4 := Issue(serve, o3, OpDelete, DeleteReq(id), ts);
      IssueAligned(serve, o3, OpDelete, DeleteReq(id), ts);
      assert CreateGroup(serve, s0, ts) == o4;
      IssueAligned(serve, o4, OpList, ListReq, ts);
    } else if created.status == StatusCreated {
      assert CreateGroup(serve, s0, ts) == o1.(aborted := true);
    } else {
      assert CreateGroup(serve, s0, ts) == o1;
      IssueAligned(serve, o1, OpList, ListReq, ts);
    }
  }

  /**
   * One counter sample of 1 and one rate sample per request issued, tagged
   * with the request's group, the rate sample true exactly when the status
   * is not the one expected, and every request carrying `ts`.
   */
  ghost predicate Aligned<S>(o: Outcome<S>, ts: int) {
    && |o.responses| == |o.calls| && |o.requests| == |o.calls| && |o.errors| == |o.calls|
    && forall i | 0 <= i < |o.calls| ::
         && o.requests[i] == CounterSample(1, Route(o.calls[i].op))
         && o.errors[i] == RateSample(o.responses[i].status != ExpectedStatus(o.calls[i].op), Route(o.calls[i].op))
         && o.calls[i].ts == ts
  }

  lemma IssueAligned<S>(serve: (S, Request) -> (S, Response), o: Outcome<S>, op: Op, req: Request, ts: int)
    requires Aligned(o, ts)
    ensures Aligned(Issue(serve, o, op, req, ts), ts)
    ensures |Issue(serve, o, op, req, ts).calls| == |o.calls| + 1
  {
  }

  /** A create that does not answer 201 skips detail, update and delete, but the list still runs. */
  lemma CreateFailureSkipsDependents<S>(serve: (S, Request) -> (S, Response), s0: S, ts: int)
    requires serve(s0, CreateReq(Some(CreatePayload))).1.status != StatusCreated
    ensures var o := Run(serve, s0, ts);
            && !o.aborted
            && o.calls == [Call(OpCreate, CreateReq(Some(CreatePayload)), ts), Call(OpList, ListReq, ts)]
            && o.requests == [CounterSample(1, "create"), CounterSample(1, "list")]
            && o.errors[0] == RateSample(true, "create")
  {
  }

  /**
   * After a 201 whose body yields an id, the requests go out as create,
   * detail, update, delete, list, the three middle ones on that id, all with
   * the same ts, whatever detail, update and delete answer.
   */
  lemma CreateSuccessOrder<S>(serve: (S, Request) -> (S, Response), s0: S, ts: int)
    requires serve(s0, CreateReq(Some(CreatePayload))).1.status == StatusCreated
    requires IdText(serve(s0, CreateReq(Some(CreatePayload))).1.body).Some?
    ensures var id := IdText(serve(s0, CreateReq(Some(CreatePayload))).1.body).value;
            var o := Run(serve, s0, ts);
            && !o.aborted
            && o.calls == [Call(OpCreate, CreateReq(Some(CreatePayload)), ts),
                           Call(OpDetail, GetReq(id), ts),
                           Call(OpUpdate, UpdateReq(id, Some(UpdatePayload)), ts),
                           Call(OpDelete, DeleteReq(id), ts),
                           Call(OpList, ListReq, ts)]
            && Ops(o.calls) == [OpCreate, OpDetail, OpUpdate, OpDelete, OpList]
  {
  }

  /** A 201 whose body is not JSON makes JSON.parse throw: nothing after the create is sent, not even the list. */
  lemma UnparsableCreateAborts<S>(serve: (S, Request) -> (S, Response), s0: S, ts: int)
    requires serve(s0, CreateReq(Some(CreatePayload))).1 == Response(StatusCreated, Empty)
    ensures Run(serve, s0, ts).aborted && |Run(serve, s0, ts).calls| == 1
  {
  }

  /** The script's payloads pass gin's `binding:"required"` checks. */
  lemma ScriptPayloadsBind()
    ensures GinService.BindsRequired(Some(CreatePayload))
    ensures GinService.BindsRequired(Some(UpdatePayload))
  {
  }

  /** The gin service as the k6 oracle. */
  function GinServe(st: WfState, req: Request): (WfState, Response) {
    var r := GinService.Serve(st, req);
    (r.0, r.1)
  }

  /** The echo service as the k6 oracle, on the usual path where every write succeeds. */
  function EchoServe(st: WfState, req: Request): (WfState, Response) {
    var r := EchoService.Serve(st, req);
    (r.0, r.1)
  }

  /**
   * After a create that answers 201 with a readable id, the iteration's
   * state and responses are those of the five calls made one after another.
   */
  lemma RunOnSuccess<S>(serve: (S, Request) -> (S, Response), s0: S, ts: int)
    requires serve(s0, CreateReq(Some(CreatePayload))).1.status == StatusCreated
    requires IdText(serve(s0, CreateReq(Some(CreatePayload))).1.body).Some?
    ensures var id := IdText(serve(s0, CreateReq(Some(CreatePayload))).1.body).value;
            var (s1, r1) := serve(s0, CreateReq(Some(CreatePayload)));
            var (s2, r2) := serve(s1, GetReq(id));
            var (s3, r3) := serve(s2, UpdateReq(id, Some(UpdatePayload)));
            var (s4, r4) := serve(s3, DeleteReq(id));
            var (s5, r5) := serve(s4, ListReq);
            var o := Run(serve, s0, ts);
            && o.state == s5 && o.responses == [r1, r2, r3, r4, r5]
            && o.errors == [RateSample(r1.status != 201, "create"), RateSample(r2.status != 200, "detail"),
                            RateSample(r3.status != 200, "update"), RateSample(r4.status != 204, "delete"),
                            RateSample(r5.status != 200, "list")]
  {
    var id := IdText(serve(s0, CreateReq(Some(CreatePayload))).1.body).value;
    var o1 := Issue(serve, Outcome(s0, [], [], [], [], false), OpCreate, CreateReq(Some(CreatePayload)), ts);
    var o2 := Issue(serve, o1, OpDetail, GetReq(id), ts);
    var o3 := Issue(serve, o2, OpUpdate, UpdateReq(id, Some(UpdatePayload)), ts);
    var o4 := Issue(serve, o3, OpDelete, DeleteReq(id), ts);
    assert CreateGroup(serve, s0, ts) == o4;
  }

  /** The next id the script works on, as the services issue and format it. */
  function NextItem(st: State, input: Input): Item {
    Item(st.nextID + 1, input.name, input.value)
  }

  /** The gin store answering the five requests of a successful iteration, one at a time. */
  lemma GinSteps(st: WfState)
    requires Valid(st) && st.nextID < MaxInt64
    ensures var id := st.nextID + 1;
            var s1 := State(st.items[id := NextItem(st, CreatePayload)], id);
            var s3 := State(st.items[id := NextItem(st, UpdatePayload)], id);
            var s4 := State(st.items, id);
            && IdText(ItemJson(NextItem(st, CreatePayload))) == Some(FormatInt(id))
            && GinServe(st, CreateReq(Some(CreatePayload))) == (s1, Response(StatusCreated, ItemJson(NextItem(st, CreatePayload))))
            && GinServe(s1, GetReq(FormatInt(id))) == (s1, Response(StatusOK, ItemJson(NextItem(st, CreatePayload))))
            && GinServe(s1, UpdateReq(FormatInt(id), Some(UpdatePayload))) == (s3, Response(StatusOK, ItemJson(NextItem(st, UpdatePayload))))
            && GinServe(s3, DeleteReq(FormatInt(id))) == (s4, Response(StatusNoContent, Empty))
            && GinServe(s4, ListReq).0 == s4 && GinServe(s4, ListReq).1.status == StatusOK
            && Valid(s4)
  {
    ScriptPayloadsBind();
    var id := st.nextID + 1;
    ParseFormat(id);
    var s1 := State(st.items[id := NextItem(st, CreatePayload)], id);
    var s3 := State(s1.items[id := NextItem(st, UpdatePayload)], id);
    assert s3.items == st.items[id := NextItem(st, UpdatePayload)];
    assert s3.items - {id} == st.items by {
      assert id !in st.items;
    }
  }

  /** The echo store answering the same five requests; every write succeeds and each handler writes once. */
  lemma EchoSteps(st: WfState)
    requires Valid(st) && st.nextID < MaxInt64
    ensures var id := st.nextID + 1;
            var s1 := State(st.items[id := NextItem(st, CreatePayload)], id);
            var s3 := State(st.items[id := NextItem(st, UpdatePayload)], id);
            var s4 := State(st.items, id);
            && IdText(ItemJson(NextItem(st, CreatePayload))) == Some(FormatInt(id))
            && EchoServe(st, CreateReq(Some(CreatePayload))) == (s1, Response(StatusCreated, ItemJson(NextItem(st, CreatePayload))))
            && EchoServe(s1, GetReq(FormatInt(id))) == (s1, Response(StatusOK, ItemJson(NextItem(st, CreatePayload))))
            && EchoServe(s1, UpdateReq(FormatInt(id), Some(UpdatePayload))) == (s3, Response(StatusOK, ItemJson(NextItem(st, UpdatePayload))))
            && EchoServe(s3, DeleteReq(FormatInt(id))) == (s4, Response(StatusNoContent, Empty))
            && EchoServe(s4, ListReq).0 == s4 && EchoServe(s4, ListReq).1.status == StatusOK
            && Valid(s4)
  {
    var id := st.nextID + 1;
    var idText := FormatInt(id);
    ParseFormat(id);
    var item := NextItem(st, CreatePayload);
    var s1 := State(st.items[id := item], id);
    assert EchoService.Get(s1, idText, false) == [Response(StatusOK, ItemJson(item))];
    var upd := NextItem(st, UpdatePayload);
    var s3 := State(s1.items[id := upd], id);
    assert s3.items == st.items[id := upd];
    assert EchoService.Update(s1, idText, Some(UpdatePayload), false) == (s3, [Response(StatusOK, ItemJson(upd))]);
    var s4 := State(st.items, id);
    assert s3.items - {id} == st.items by {
      assert id !in st.items;
    }
    assert EchoService.Delete(s3, idText, false) == (s4, [Response(StatusNoContent, Empty)]);
  }

  /**
   * Whatever the service, when its five answers have the statuses the checks
   * expect and the list leaves the state the delete left, the iteration
   * records no error and ends in that state.
   */
  lemma SucceedsGiven<S>(serve: (S, Request) -> (S, Response), s0: S, ts: int, id: string,
                         s1: S, s3: S, s4: S, b1: Body, b3: Body)
    requires serve(s0, CreateReq(Some(CreatePayload))) == (s1, Response(StatusCreated, b1))
    requires IdText(b1) == Some(id)
    requires serve(s1, GetReq(id)).0 == s1 && serve(s1, GetReq(id)).1.status == StatusOK
    requires serve(s1, UpdateReq(id, Some(UpdatePayload))) == (s3, Response(StatusOK, b3))
    requires serve(s3, DeleteReq(id)) == (s4, Response(StatusNoContent, Empty))
    requires serve(s4, ListReq).0 == s4 && serve(s4, ListReq).1.status == StatusOK
    ensures var o := Run(serve, s0, ts);
            && Statuses(o.responses) == [201, 200, 200, 204, 200]
            && (forall i | 0 <= i < |o.errors| :: !o.errors[i].failed)
            && o.state == s4
  {
    RunOnSuccess(serve, s0, ts);
    var o := Run(serve, s0, ts);
    assert o.responses == [serve(s0, CreateReq(Some(CreatePayload))).1, serve(s1, GetReq(id)).1,
                           serve(s1, UpdateReq(id, Some(UpdatePayload))).1, serve(s3, DeleteReq(id)).1,
                           serve(s4, ListReq).1];
  }

  /**
   * Run against the gin store (short of int64 overflow), an iteration gets
   * 201, 200, 200, 204, 200, records no error, leaves the same items behind
   * and has advanced nextID by one.
   */
  lemma GinIterationSucceeds(st: WfState, ts: int)
    requires Valid(st) && st.nextID < MaxInt64
    ensures var o := Run(GinServe, st, ts);
            && Statuses(o.responses) == [201, 200, 200, 204, 200]
            && (forall i | 0 <= i < |o.errors| :: !o.errors[i].failed)
            && o.state.items == st.items && o.state.nextID == st.nextID + 1
            && Valid(o.state)
  {
    GinSteps(st);
    var id := st.nextID + 1;
    var s1: WfState := State(st.items[id := NextItem(st, CreatePayload)], id);
    var s3: WfState := State(st.items[id := NextItem(st, UpdatePayload)], id);
    var s4: WfState := State(st.items, id);
    SucceedsGiven(GinServe, st, ts, FormatInt(id), s1, s3, s4,
                  ItemJson(NextItem(st, CreatePayload)), ItemJson(NextItem(st, UpdatePayload)));
  }

  /** The same iteration against the echo store: echo accepts the payloads too, so the outcome is the same. */
  lemma EchoIterationSucceeds(st: WfState, ts: int)
    requires Valid(st) && st.nextID < MaxInt64
    ensures var o := Run(EchoServe, st, ts);
            && Statuses(o.responses) == [201, 200, 200, 204, 200]
            && (forall i | 0 <= i < |o.errors| :: !o.errors[i].failed)
            && o.state.items == st.items && o.state.nextID == st.nextID + 1
            && Valid(o.state)
  {
    EchoSteps(st);
    var id := st.nextID + 1;
    var s1: WfState := State(st.items[id := NextItem(st, CreatePayload)], id);
    var s3: WfState := State(st.items[id := NextItem(st, UpdatePayload)], id);
    var s4: WfState := State(st.items, id);
    SucceedsGiven(EchoServe, st, ts, FormatInt(id), s1, s3, s4,
                  ItemJson(NextItem(st, CreatePayload)), ItemJson(NextItem(st, UpdatePayload)));
  }

  /** Iterations one after another against a gin store, one `ts` each; the samples of all of them. */
  function RunMany(st: WfState, tss: seq<int>): (r: (WfState, seq<RateSample>))
    decreases |tss|
  {
    if tss == [] then (st, [])
    else
      var o := Run(GinServe, st, tss[0]);
      var rest := RunMany(o.state, tss[1..]);
      (rest.0, o.errors + rest.1)
  }

  /**
   * From the seeded store, any number of sequential iterations (until nextID
   * would overflow) record no failed check, and each leaves the items as it
   * found them: the error rate stays 0 and the threshold `rate<0.01` holds.
   */
  lemma {:induction false} GinRunHasNoErrors(st: WfState, tss: seq<int>)
    requires Valid(st) && st.nextID + |tss| <= MaxInt64
    ensures var r := RunMany(st, tss);
            && r.0.items == st.items && r.0.nextID == st.nextID + |tss| && Valid(r.0)
            && |r.1| == 5 * |tss|
            && forall i | 0 <= i < |r.1| :: !r.1[i].failed
    decreases |tss|
  {
    if tss != [] {
      var o := Run(GinServe, st, tss[0]);
      GinIterationSucceeds(st, tss[0]);
      Accounting(GinServe, st, tss[0]);
      GinRunHasNoErrors(o.state, tss[1..]);
      var rest := RunMany(o.state, tss[1..]);
      assert RunMany(st, tss) == (rest.0, o.errors + rest.1);
      NoFailedIn(o.errors, rest.1);
    }
  }

  /** No failed sample in either part means none in the whole. */
  lemma NoFailedIn(a: seq<RateSample>, b: seq<RateSample>)
    requires forall i | 0 <= i < |a| :: !a[i].failed
    requires forall i | 0 <= i < |b| :: !b[i].failed
    ensures forall i | 0 <= i < |a + b| :: !(a + b)[i].failed
  {
  }

  /** k6's Counter metric; add appends a sample. */
  class Counter {
    var samples: seq<CounterSample>

    constructor ()
      ensures samples == []
    {
      samples := [];
    }

    method Add(value: nat, route: string)
      modifies this
      ensures samples == old(samples) + [CounterSample(value, route)]
    {
      samples := samples + [CounterSample(value, route)];
    }
  }

  /** k6's Rate metric; add appends a sample. */
  class Rate {
    var samples: seq<RateSample>

    constructor ()
      ensures samples == []
    {
      samples := [];
    }

    method Add(failed: bool, typeTag: string)
      modifies this
      ensures samples == old(samples) + [RateSample(failed, typeTag)]
    {
      samples := samples + [RateSample(failed, typeTag)];
    }
  }

  /**
   * The imperative iteration so far agrees with the outcome g: same server
   * state, requests and responses, and the metrics hold, after what they held
   * at the start (r0, e0), exactly g's samples.
   */
  ghost predicate Tracks<S>(g: Outcome<S>, s: S, calls: seq<Call>, responses: seq<Response>,
                            requests: Counter, errorRate: Rate, r0: seq<CounterSample>, e0: seq<RateSample>)
    reads requests, errorRate
  {
    && g.state == s && g.calls == calls && g.responses == responses
    && requests.samples == r0 + g.requests && errorRate.samples == e0 + g.errors
  }

  /**
   * The body every group shares: the HTTP call, requests.add(1, {route}),
   * the status check, and errorRate.add(!success, {type}).
   */
  method Send<S>(serve: (S, Request) -> (S, Response), s: S, calls: seq<Call>, responses: seq<Response>,
                 op: Op, req: Request, ts: int, requests: Counter, errorRate: Rate,
                 ghost g: Outcome<S>, ghost r0: seq<CounterSample>, ghost e0: seq<RateSample>)
    returns (s': S, calls': seq<Call>, responses': seq<Response>, res: Response, ghost g': Outcome<S>)
    requires Tracks(g, s, calls, responses, requests, errorRate, r0, e0)
    modifies requests, errorRate
    ensures (s', res) == serve(s, req)
    ensures calls' == calls + [Call(op, req, ts)] && responses' == responses + [res]
    ensures requests.samples == old(requests.samples) + [CounterSample(1, Route(op))]
    ensures errorRate.samples == old(errorRate.samples) + [RateSample(res.status != ExpectedStatus(op), Route(op))]
    ensures g' == Issue(serve, g, op, req, ts)
    ensures Tracks(g', s', calls', responses', requests, errorRate, r0, e0)
  {
    s', res := serve(s, req).0, serve(s, req).1;
    calls', responses' := calls + [Call(op, req, ts)], responses + [res];
    requests.Add(1, Route(op));
    var success := res.status == ExpectedStatus(op);
    errorRate.Add(!success, Route(op));
    g' := Issue(serve, g, op, req, ts);
    assert requests.samples == r0 + g'.requests;
    assert errorRate.samples == e0 + g'.errors;
  }

  /**
   * The default function, run by one virtual user: returns the server state
   * it leaves, the requests sent and their responses, and whether it threw;
   * the two metrics have its samples appended.
   */
  method Iteration<S>(serve: (S, Request) -> (S, Response), s0: S, ts: int, requests: Counter, errorRate: Rate)
    returns (s: S, calls: seq<Call>, responses: seq<Response>, threw: bool)
    modifies requests, errorRate
    ensures var o := Run(serve, s0, ts);
            && (s, calls, responses, threw) == (o.state, o.calls, o.responses, o.aborted)
            && requests.samples == old(requests.samples) + o.requests
            && errorRate.samples == old(errorRate.samples) + o.errors
  {
    ghost var r0, e0 := requests.samples, errorRate.samples;
    ghost var g := Outcome(s0, [], [], [], [], false);
    var res;
    s, calls, responses, res, g := Send(serve, s0, [], [], OpCreate, CreateReq(Some(CreatePayload)), ts,
                                        requests, errorRate, g, r0, e0);
    threw := false;
    if res.status == StatusCreated {
      var itemId := IdText(res.body);
      if itemId.None? {
        threw := true;
        g := g.(aborted := true);
        assert g == CreateGroup(serve, s0, ts) == Run(serve, s0, ts);
        return;
      }
      var id := itemId.value;
      s, calls, responses, res, g := Send(serve, s, calls, responses, OpDetail, GetReq(id), ts,
                                          requests, errorRate, g, r0, e0);
      s, calls, responses, res, g := Send(serve, s, calls, responses, OpUpdate, UpdateReq(id, Some(UpdatePayload)), ts,
                                          requests, errorRate, g, r0, e0);
      s, calls, responses, res, g := Send(serve, s, calls, responses, OpDelete, DeleteReq(id), ts,
                                          requests, errorRate, g, r0, e0);
    }
    assert g == CreateGroup(serve, s0, ts);
    s, calls, responses, res, g := Send(serve, s, calls, responses, OpList, ListReq, ts,
                                        requests, errorRate, g, r0, e0);
  }
}
