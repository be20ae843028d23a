/**
 * The echo variant of the benchmark service (benchmarks/golang/echo/main.go).
 * It differs from the gin variant in two ways. Binding does no validation,
 * so any body that decodes is accepted. And parseID, on a malformed id,
 * writes the 400 answer and returns what c.JSON returned as its error: nil
 * unless the write itself failed. So the handlers usually carry on with
 * id 0 and may write a second answer after the first. A handler is therefore
 * modelled as returning every write it makes, in order; the client sees the
 * status of the first (echo ignores later status codes on a committed
 * response and appends their bodies).
 */
module EchoService {
  import opened Wrappers
  import opened GoStrconv
  import opened ItemStore

  /** c.Bind into struct{Name; Value}: no validation, so any body that decodes binds. */
  predicate Binds(body: Option<Input>) {
    body.Some?
  }

  /** What parseID returns: the id, whether its error result is non-nil, and what it wrote. */
  datatype Parsed = Parsed(id: int, failed: bool, writes: seq<Response>)

  /**
   * parseID. `jsonErr` is whether the c.JSON call that answers a malformed
   * id itself fails. Only then is the returned error non-nil.
   */
  function ParseId(param: string, jsonErr: bool): (p: Parsed)
    ensures ParseInt(param).Some? ==> p == Parsed(ParseInt(param).value, false, [])
    ensures ParseInt(param).None? ==>
              p == Parsed(0, jsonErr, [Response(StatusBadRequest, ErrorJson(InvalidId))])
  {
    match ParseInt(param)
    case Some(id) => Parsed(id, false, [])
    case None => Parsed(0, jsonErr, [Response(StatusBadRequest, ErrorJson(InvalidId))])
  }

  /** The status the client receives: that of the first write. */
  function Status(writes: seq<Response>): int
    requires |writes| > 0
  {
    writes[0].status
  }

  /** What the client receives: the first status, and a body that is one JSON document only if there was one write. */
  function Seen(writes: seq<Response>): (r: Response)
    requires |writes| > 0
    ensures r.status == Status(writes)
    ensures |writes| == 1 ==> r == writes[0]
    ensures |writes| > 1 ==> r.body == Malformed
  {
    if |writes| == 1 then writes[0] else Response(writes[0].status, Malformed)
  }

  /** listItems: 200 with every stored item exactly once. */
  function List(st: State): (r: Response)
    requires Wf(st)
    ensures r.status == StatusOK && r.body.ItemsJson?
    ensures |r.body.items| == |st.items|
    ensures forall x :: x in r.body.items <==> x.id in st.items && st.items[x.id] == x
  {
    ValuesCount(st.items);
    Response(StatusOK, ItemsJson(multiset(st.items.Values)))
  }

  /**
   * getItem. The client sees 200 exactly when the id parses and is stored.
   * On a malformed id it sees 400, though the handler goes on and looks up id 0.
   */
  function Get(st: State, param: string, jsonErr: bool): (w: seq<Response>)
    requires Wf(st)
    ensures |w| > 0
    ensures Status(w) == StatusOK <==> ParseInt(param).Some? && ParseInt(param).value in st.items
    ensures Status(w) == StatusOK ==> w == [Response(StatusOK, ItemJson(st.items[ParseInt(param).value]))]
    ensures ParseInt(param).Some? && ParseInt(param).value !in st.items ==>
              w == [Response(StatusNotFound, ErrorJson(NotFound))]
    ensures ParseInt(param).None? ==> w[0] == Response(StatusBadRequest, ErrorJson(InvalidId))
    ensures ParseInt(param).None? && !jsonErr && Valid(st) ==>
              w == [Response(StatusBadRequest, ErrorJson(InvalidId)), Response(StatusNotFound, ErrorJson(NotFound))]
  {
    var p := ParseId(param, jsonErr);
    if p.failed then p.writes
    else if p.id !in st.items then p.writes + [Response(StatusNotFound, ErrorJson(NotFound))]
    else p.writes + [Response(StatusOK, ItemJson(st.items[p.id]))]
  }

  /** createItem: any body that decodes gets the next id and 201; a body that does not, 400 and no change. */
  function Create(st: State, body: Option<Input>): (r: (State, Response))
    requires Wf(st)
    ensures Wf(r.0)
    ensures r.1.status == StatusCreated <==> Binds(body)
    ensures !Binds(body) ==> r.0 == st && r.1 == Response(StatusBadRequest, ErrorJson(BindFailure))
    ensures Binds(body) ==>
              var item := Item(Wrap64(st.nextID + 1), body.value.name, body.value.value);
              && r.0 == State(st.items[item.id := item], item.id)
              && r.1 == Response(StatusCreated, ItemJson(item))
    ensures Valid(st) && st.nextID < MaxInt64 ==> Valid(r.0)
    ensures Valid(st) && st.nextID < MaxInt64 && Binds(body) ==>
              r.1.body.item.id !in st.items && r.0.nextID == st.nextID + 1
  {
    if !Binds(body) then (st, Response(StatusBadRequest, ErrorJson(BindFailure)))
    else
      var id := Wrap64(st.nextID + 1);
      var item := Item(id, body.value.name, body.value.value);
      (State(st.items[id := item], id), Response(StatusCreated, ItemJson(item)))
  }

  /**
   * updateItem. The store changes only under the effective id: the parsed
   * one, or 0 after a malformed id whose 400 was written. Because no stored
   * id is 0 while the store is Valid, a malformed id never changes anything.
   */
  function Update(st: State, param: string, body: Option<Input>, jsonErr: bool): (r: (State, seq<Response>))
    requires Wf(st)
    ensures Wf(r.0) && |r.1| > 0
    ensures r.0.items.Keys == st.items.Keys && r.0.nextID == st.nextID
    ensures Valid(st) ==> Valid(r.0)
    ensures var p := ParseId(param, jsonErr);
            r.0 == if !p.failed && Binds(body) && p.id in st.items
                   then State(st.items[p.id := Item(p.id, body.value.name, body.value.value)], st.nextID)
                   else st
    ensures Valid(st) && ParseInt(param).None? ==> r.0 == st
    ensures Status(r.1) == StatusOK <==>
              ParseInt(param).Some? && Binds(body) && ParseInt(param).value in st.items
    ensures Status(r.1) == StatusOK ==>
              r.1 == [Response(StatusOK, ItemJson(r.0.items[ParseInt(param).value]))]
    ensures ParseInt(param).None? ==> r.1[0] == Response(StatusBadRequest, ErrorJson(InvalidId))
    ensures ParseInt(param).Some? && !Binds(body) ==> r.1 == [Response(StatusBadRequest, ErrorJson(BindFailure))]
    ensures ParseInt(param).Some? && Binds(body) && ParseInt(param).value !in st.items ==>
              r.1 == [Response(StatusNotFound, ErrorJson(NotFound))]
  {
    var p := ParseId(param, jsonErr);
    if p.failed then (st, p.writes)
    else if !Binds(body) then (st, p.writes + [Response(StatusBadRequest, ErrorJson(BindFailure))])
    else if p.id !in st.items then (st, p.writes + [Response(StatusNotFound, ErrorJson(NotFound))])
    else
      var item := Item(p.id, body.value.name, body.value.value);
      (State(st.items[p.id := item], st.nextID), p.writes + [Response(StatusOK, ItemJson(item))])
  }

  /** deleteItem: 204 and the id removed when it parses and is stored; otherwise, while Valid, no change. */
  function Delete(st: State, param: string, jsonErr: bool): (r: (State, seq<Response>))
    requires Wf(st)
    ensures Wf(r.0) && |r.1| > 0
    ensures r.0.nextID == st.nextID
    ensures Valid(st) ==> Valid(r.0)
    ensures var p := ParseId(param, jsonErr);
            r.0 == if !p.failed && p.id in st.items then State(st.items - {p.id}, st.nextID) else st
    ensures Valid(st) && ParseInt(param).None? ==> r.0 == st
    ensures Status(r.1) == StatusNoContent <==> ParseInt(param).Some? && ParseInt(param).value in st.items
    ensures Status(r.1) == StatusNoContent ==> r.1 == [Response(StatusNoContent, Empty)]
    ensures ParseInt(param).None? ==> r.1[0] == Response(StatusBadRequest, ErrorJson(InvalidId))
    ensures ParseInt(param).Some? && ParseInt(param).value !in st.items ==>
              r.1 == [Response(StatusNotFound, ErrorJson(NotFound))]
  {
    var p := ParseId(param, jsonErr);
    if p.failed then (st, p.writes)
    else if p.id !in st.items then (st, p.writes + [Response(StatusNotFound, ErrorJson(NotFound))])
    else (State(st.items - {p.id}, st.nextID), p.writes + [Response(StatusNoContent, Empty)])
  }

  /**
   * The router, seen from the client, on the usual path where every c.JSON
   * call succeeds. Only a create answers 201, and it issues nextID + 1.
   */
  function Serve(st: State, req: Request): (r: (State, Response))
    requires Wf(st)
    ensures Wf(r.0)
    ensures Valid(st) && st.nextID < MaxInt64 ==> Valid(r.0)
    ensures st.nextID < MaxInt64 ==> st.nextID <= r.0.nextID <= st.nextID + 1
    ensures r.1.status == StatusCreated ==> req.CreateReq? && r.1.body.ItemJson?
    ensures r.1.status == StatusCreated && st.nextID < MaxInt64 ==>
              r.1.body.item.id == r.0.nextID == st.nextID + 1
    ensures r.1.status != StatusCreated ==> r.0.nextID == st.nextID
  {
    match req
    case ListReq => (st, List(st))
    case GetReq(p) => (st, Seen(Get(st, p, false)))
    case CreateReq(b) => Create(st, b)
    case UpdateReq(p, b) => var (s, w) := Update(st, p, b, false); (s, Seen(w))
    case DeleteReq(p) => var (s, w) := Delete(st, p, false); (s, Seen(w))
  }

  /** A sequence of requests served one after another. */
  function Run(st: State, reqs: seq<Request>): (r: (State, seq<Response>))
    requires Wf(st)
    ensures Wf(r.0) && |r.1| == |reqs|
    decreases |reqs|
  {
    if reqs == [] then (st, [])
    else
      var (s1, resp) := Serve(st, reqs[0]);
      var (s2, rest) := Run(s1, reqs[1..]);
      (s2, [resp] + rest)
  }

  /**
   * Across any sequence of requests (short of int64 overflow) nextID only
   * grows, the store stays Valid, and the creates issue strictly increasing
   * ids above every id that existed before: an id is never issued twice,
   * deleted or not.
   */
  lemma {:induction false} IdsNeverReused(st: State, reqs: seq<Request>)
    requires Valid(st) && st.nextID + |reqs| <= MaxInt64
    ensures Fresh(st, Run(st, reqs).0, CreatedIds(Run(st, reqs).1))
    decreases |reqs|
  {
    if reqs != [] {
      var (s1, resp) := Serve(st, reqs[0]);
      IdsNeverReused(s1, reqs[1..]);
      var (fin, rest) := Run(s1, reqs[1..]);
      FreshStep(st, s1, fin, resp, rest);
    }
  }

  /** The fall-through made visible: a GET with a malformed id writes 400 and then, for id 0, 404. */
  lemma MalformedIdFallsThrough(st: State)
    requires Valid(st)
    ensures Get(st, "abc", false) ==
              [Response(StatusBadRequest, ErrorJson(InvalidId)), Response(StatusNotFound, ErrorJson(NotFound))]
    ensures Delete(st, "abc", false).0 == st
  {
    assert !IsDigit('a');
  }

  /** The in-place server: the store as fields, each handler as a method returning its writes. */
  class Server {
    var items: map<int, Item>
    var nextID: int

    function Store(): State
      reads this
    {
      State(items, nextID)
    }

    /** init(): items 1..10 seeded, nextID == 10. */
    constructor ()
      ensures items == SeedItems() && nextID == 10
      ensures Valid(Store())
    {
      var st := Seed();
      items := st.items;
      nextID := st.nextID;
    }

    /** parseID on the request context. */
    method ParseParam(param: string, jsonErr: bool) returns (id: int, failed: bool, writes: seq<Response>)
      ensures Parsed(id, failed, writes) == ParseId(param, jsonErr)
    {
      var parsed := ParseInt(param);
      if parsed.None? {
        return 0, jsonErr, [Response(StatusBadRequest, ErrorJson(InvalidId))];
      }
      return parsed.value, false, [];
    }

    method ListItems() returns (resp: Response)
      requires Wf(Store())
      ensures resp == List(Store())
    {
      var result := CollectItems(items);
      resp := Response(StatusOK, ItemsJson(multiset(result)));
    }

    method GetItem(param: string, jsonErr: bool) returns (writes: seq<Response>)
      requires Wf(Store())
      ensures writes == Get(Store(), param, jsonErr)
    {
      var id, failed;
      id, failed, writes := ParseParam(param, jsonErr);
      if failed {
        return;
      }
      if id !in items {
        writes := writes + [Response(StatusNotFound, ErrorJson(NotFound))];
        return;
      }
      writes := writes + [Response(StatusOK, ItemJson(items[id]))];
    }

    method CreateItem(body: Option<Input>) returns (resp: Response)
      requires Wf(Store())
      modifies this
      ensures (Store(), resp) == Create(old(Store()), body)
    {
      if !Binds(body) {
        resp := Response(StatusBadRequest, ErrorJson(BindFailure));
        return;
      }
      nextID := Wrap64(nextID + 1);
      var id := nextID;
      var item := Item(id, body.value.name, body.value.value);
      items := items[id := item];
      resp := Response(StatusCreated, ItemJson(item));
    }

    method UpdateItem(param: string, body: Option<Input>, jsonErr: bool) returns (writes: seq<Response>)
      requires Wf(Store())
      modifies this
      ensures (Store(), writes) == Update(old(Store()), param, body, jsonErr)
    {
      var id, failed;
      id, failed, writes := ParseParam(param, jsonErr);
      if failed {
        return;
      }
      if !Binds(body) {
        writes := writes + [Response(StatusBadRequest, ErrorJson(BindFailure))];
        return;
      }
      if id !in items {
        writes := writes + [Response(StatusNotFound, ErrorJson(NotFound))];
        return;
      }
      var item := Item(id, body.value.name, body.value.value);
      items := items[id := item];
      writes := writes + [Response(StatusOK, ItemJson(item))];
    }

    method DeleteItem(param: string, jsonErr: bool) returns (writes: seq<Response>)
      requires Wf(Store())
      modifies this
      ensures (Store(), writes) == Delete(old(Store()), param, jsonErr)
    {
      var id, failed;
      id, failed, writes := ParseParam(param, jsonErr);
      if failed {
        return;
      }
      if id !in items {
        writes := writes + [Response(StatusNotFound, ErrorJson(NotFound))];
        return;
      }
      items := items - {id};
      writes := writes + [Response(StatusNoContent, Empty)];
    }
  }
}
