/**
 * The gin variant of the benchmark service (benchmarks/golang/gin/main.go).
 * Each handler is one atomic step over the store: first as a function from
 * the old state to the new state and the response (what the k6 workflow is
 * run against), then as a method of Server, which updates the package-level
 * `items` map and `nextID` counter in place.
 */
module GinService {
  import opened Wrappers
  import opened GoStrconv
  import opened ItemStore

  /**
   * ShouldBindJSON with `binding:"required"` on both fields: the body must
   * decode, and the validator treats a field holding its zero value ("" for
   * Name, 0 for Value) as missing.
   */
  predicate BindsRequired(body: Option<Input>) {
    body.Some? && body.value.name != "" && body.value.value != 0
  }

  /**
   * parseID: the :id parameter as a base-10 int64; on failure the handler
   * has already answered 400. An id that parses is an int64, a missing
   * parameter never parses, and every id the service formats parses back.
   */
  function ParseId(param: string): (r: Option<int>)
    ensures r.Some? ==> IsInt64(r.value) && ParseInt(FormatInt(r.value)) == r
    ensures param == "" ==> r.None?
  {
    var r := ParseInt(param);
    if r.Some? then ParseFormat(r.value); r else r
  }

  /** listItems: 200 with every stored item exactly once. */
  function List(st: State): (r: Response)
    requires Wf(st)
    ensures r.status == StatusOK && r.body.ItemsJson?
    ensures |r.body.items| == |st.items|
    ensures forall x :: x in r.body.items <==> x.id in st.items && st.items[x.id] == x
  {
    ValuesCount(st.items);
    Response(StatusOK, ItemsJson(multiset(st.items.Values)))
  }

  /** getItem: 200 and the stored item when the id parses and is present; 400 or 404 otherwise. */
  function Get(st: State, param: string): (r: Response)
    requires Wf(st)
    ensures r.status == StatusOK <==> ParseId(param).Some? && ParseId(param).value in st.items
    ensures r.status == StatusOK ==> r.body.ItemJson? && r.body.item.id == ParseId(param).value
                                     && st.items[r.body.item.id] == r.body.item
    ensures ParseId(param).None? ==> r == Response(StatusBadRequest, ErrorJson(InvalidId))
    ensures ParseId(param).Some? && ParseId(param).value !in st.items ==>
              r == Response(StatusNotFound, ErrorJson(NotFound))
  {
    match ParseId(param)
    case None => Response(StatusBadRequest, ErrorJson(InvalidId))
    case Some(id) =>
      if id !in st.items then Response(StatusNotFound, ErrorJson(NotFound))
      else Response(StatusOK, ItemJson(st.items[id]))
  }

  /**
   * createItem: a body that binds gets the next id (nextID + 1, wrapping as
   * int64), is stored under it and answered 201; otherwise 400 and no change.
   */
  function Create(st: State, body: Option<Input>): (r: (State, Response))
    requires Wf(st)
    ensures Wf(r.0)
    ensures r.1.status == StatusCreated <==> BindsRequired(body)
    ensures !BindsRequired(body) ==> r.0 == st && r.1 == Response(StatusBadRequest, ErrorJson(BindFailure))
    ensures BindsRequired(body) ==>
              var item := Item(Wrap64(st.nextID + 1), body.value.name, body.value.value);
              && r.0 == State(st.items[item.id := item], item.id)
              && r.1 == Response(StatusCreated, ItemJson(item))
    ensures Valid(st) && st.nextID < MaxInt64 ==> Valid(r.0)
    ensures Valid(st) && st.nextID < MaxInt64 && BindsRequired(body) ==>
              r.1.body.item.id !in st.items && r.0.nextID == st.nextID + 1
  {
    if !BindsRequired(body) then (st, Response(StatusBadRequest, ErrorJson(BindFailure)))
    else
      var id := Wrap64(st.nextID + 1);
      var item := Item(id, body.value.name, body.value.value);
      (State(st.items[id := item], id), Response(StatusCreated, ItemJson(item)))
  }

  /**
   * updateItem: checks the id, then the body, then presence; on success the
   * item under that id is replaced (its ID stays the id) and answered 200.
   * The set of ids and nextID never change.
   */
  function Update(st: State, param: string, body: Option<Input>): (r: (State, Response))
    requires Wf(st)
    ensures Wf(r.0)
    ensures r.0.items.Keys == st.items.Keys && r.0.nextID == st.nextID
    ensures Valid(st) ==> Valid(r.0)
    ensures r.1.status == StatusOK <==>
              ParseId(param).Some? && BindsRequired(body) && ParseId(param).value in st.items
    ensures r.1.status == StatusOK ==>
              var item := Item(ParseId(param).value, body.value.name, body.value.value);
              r.0.items == st.items[item.id := item] && r.1.body == ItemJson(item)
    ensures r.1.status != StatusOK ==> r.0 == st
    ensures ParseId(param).None? ==> r.1 == Response(StatusBadRequest, ErrorJson(InvalidId))
    ensures ParseId(param).Some? && !BindsRequired(body) ==>
              r.1 == Response(StatusBadRequest, ErrorJson(BindFailure))
    ensures ParseId(param).Some? && BindsRequired(body) && ParseId(param).value !in st.items ==>
              r.1 == Response(StatusNotFound, ErrorJson(NotFound))
  {
    match ParseId(param)
    case None => (st, Response(StatusBadRequest, ErrorJson(InvalidId)))
    case Some(id) =>
      if !BindsRequired(body) then (st, Response(StatusBadRequest, ErrorJson(BindFailure)))
      else if id !in st.items then (st, Response(StatusNotFound, ErrorJson(NotFound)))
      else
        var item := Item(id, body.value.name, body.value.value);
        (State(st.items[id := item], st.nextID), Response(StatusOK, ItemJson(item)))
  }

  /** deleteItem: 204 and the id removed when it parses and is present; 400 or 404 and no change otherwise. */
  function Delete(st: State, param: string): (r: (State, Response))
    requires Wf(st)
    ensures Wf(r.0)
    ensures Valid(st) ==> Valid(r.0)
    ensures r.0.nextID == st.nextID
    ensures r.1.status == StatusNoContent <==> ParseId(param).Some? && ParseId(param).value in st.items
    ensures r.1.status == StatusNoContent ==> r.0.items == st.items - {ParseId(param).value} && r.1.body == Empty
    ensures r.1.status != StatusNoContent ==> r.0 == st
    ensures ParseId(param).None? ==> r.1 == Response(StatusBadRequest, ErrorJson(InvalidId))
    ensures ParseId(param).Some? && ParseId(param).value !in st.items ==>
              r.1 == Response(StatusNotFound, ErrorJson(NotFound))
  {
    match ParseId(param)
    case None => (st, Response(StatusBadRequest, ErrorJson(InvalidId)))
    case Some(id) =>
      if id !in st.items then (st, Response(StatusNotFound, ErrorJson(NotFound)))
      else (State(st.items - {id}, st.nextID), Response(StatusNoContent, Empty))
  }

  /** The router: each of the five routes to its handler. */
  function Serve(st: State, req: Request): (r: (State, Response))
    requires Wf(st)
    ensures Wf(r.0)
    ensures Valid(st) && st.nextID < MaxInt64 ==> Valid(r.0)
    ensures st.nextID <= MaxInt64 - 1 ==> st.nextID <= r.0.nextID <= st.nextID + 1
    ensures r.1.status == StatusCreated ==> req.CreateReq? && r.1.body.ItemJson?
    ensures r.1.status == StatusCreated && st.nextID < MaxInt64 ==>
              r.1.body.item.id == r.0.nextID == st.nextID + 1
    ensures r.1.status != StatusCreated ==> r.0.nextID == st.nextID
  {
    match req
    case ListReq => (st, List(st))
    case GetReq(p) => (st, Get(st, p))
    case CreateReq(b) => Create(st, b)
    case UpdateReq(p, b) => Update(st, p, b)
    case DeleteReq(p) => Delete(st, p)
  }

  /** A sequence of requests served one after another. */
  function Run(st: State, reqs: seq<Request>): (r: (State, seq<Response>))
    requires Wf(st)
    ensures Wf(r.0) && |r.1| == |reqs|
    decreases |reqs|
  {
    if reqs == [] then (st, [])
    else
      var (s1, resp) := Serve(st, reqs[0]);
      var (s2, rest) := Run(s1, reqs[1..]);
      (s2, [resp] + rest)
  }

  /**
   * Across any sequence of requests (short of int64 overflow) nextID only
   * grows, the store stays Valid, and the creates issue strictly increasing
   * ids above every id that existed before: an id is never issued twice,
   * deleted or not.
   */
  lemma {:induction false} IdsNeverReused(st: State, reqs: seq<Request>)
    requires Valid(st) && st.nextID + |reqs| <= MaxInt64
    ensures Fresh(st, Run(st, reqs).0, CreatedIds(Run(st, reqs).1))
    decreases |reqs|
  {
    if reqs != [] {
      var (s1, resp) := Serve(st, reqs[0]);
      IdsNeverReused(s1, reqs[1..]);
      var (fin, rest) := Run(s1, reqs[1..]);
      FreshStep(st, s1, fin, resp, rest);
    }
  }

  /**
   * A deleted id is never handed out again: whatever requests follow a
   * successful delete, none of their creates issues the id just removed.
   */
  lemma DeletedIdNotReissued(st: State, param: string, reqs: seq<Request>)
    requires Valid(st) && st.nextID + |reqs| <= MaxInt64
    requires Delete(st, param).1.status == StatusNoContent
    ensures ParseId(param).value !in CreatedIds(Run(Delete(st, param).0, reqs).1)
  {
    var afterDelete := Delete(st, param).0;
    IdsNeverReused(afterDelete, reqs);
    assert ParseId(param).value <= st.nextID == afterDelete.nextID;
  }

  /** The in-place server: the store as fields, each handler as a method. */
  class Server {
    var items: map<int, Item>
    var nextID: int

    function Store(): State
      reads this
    {
      State(items, nextID)
    }

    /** init(): items 1..10 seeded, nextID == 10. */
    constructor ()
      ensures items == SeedItems() && nextID == 10
      ensures Valid(Store())
    {
      var st := Seed();
      items := st.items;
      nextID := st.nextID;
    }

    method ListItems() returns (resp: Response)
      requires Wf(Store())
      ensures resp == List(Store())
    {
      var result := CollectItems(items);
      resp := Response(StatusOK, ItemsJson(multiset(result)));
    }

    method GetItem(param: string) returns (resp: Response)
      requires Wf(Store())
      ensures resp == Get(Store(), param)
    {
      var parsed := ParseId(param);
      if parsed.None? {
        resp := Response(StatusBadRequest, ErrorJson(InvalidId));
        return;
      }
      var id := parsed.value;
      if id !in items {
        resp := Response(StatusNotFound, ErrorJson(NotFound));
        return;
      }
      resp := Response(StatusOK, ItemJson(items[id]));
    }

    method CreateItem(body: Option<Input>) returns (resp: Response)
      requires Wf(Store())
      modifies this
      ensures (Store(), resp) == Create(old(Store()), body)
    {
      if !BindsRequired(body) {
        resp := Response(StatusBadRequest, ErrorJson(BindFailure));
        return;
      }
      nextID := Wrap64(nextID + 1);
      var id := nextID;
      var item := Item(id, body.value.name, body.value.value);
      items := items[id := item];
      resp := Response(StatusCreated, ItemJson(item));
    }

    method UpdateItem(param: string, body: Option<Input>) returns (resp: Response)
      requires Wf(Store())
      modifies this
      ensures (Store(), resp) == Update(old(Store()), param, body)
    {
      var parsed := ParseId(param);
      if parsed.None? {
        resp := Response(StatusBadRequest, ErrorJson(InvalidId));
        return;
      }
      var id := parsed.value;
      if !BindsRequired(body) {
        resp := Response(StatusBadRequest, ErrorJson(BindFailure));
        return;
      }
      if id !in items {
        resp := Response(StatusNotFound, ErrorJson(NotFound));
        return;
      }
      var item := Item(id, body.value.name, body.value.value);
      items := items[id := item];
      resp := Response(StatusOK, ItemJson(item));
    }

    method DeleteItem(param: string) returns (resp: Response)
      requires Wf(Store())
      modifies this
      ensures (Store(), resp) == Delete(old(Store()), param)
    {
      var parsed := ParseId(param);
      if parsed.None? {
        resp := Response(StatusBadRequest, ErrorJson(InvalidId));
        return;
      }
      var id := parsed.value;
      if id !in items {
        resp := Response(StatusNotFound, ErrorJson(NotFound));
        return;
      }
      items := items - {id};
      resp := Response(StatusNoContent, Empty);
    }
  }
}
