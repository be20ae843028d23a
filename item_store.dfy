/**
 * What the gin and echo benchmark services have in common: the Item record,
 * the in-memory store (a map from int64 id to Item plus the nextID counter),
 * the five routes of the HTTP API, the responses, the seeding done by init()
 * and the map-iteration loop of listItems.
 */
module ItemStore {
  import opened Wrappers
  import opened GoStrconv
  import Choice

  /** Item{ID, Name, Value}; ID is an int64, Value a Go int (64 bits wide). */
  datatype Item = Item(id: int, name: string, value: int)

  /**
   * A request body after JSON decoding into `struct{Name string; Value int}`:
   * a field that is absent keeps its zero value ("" or 0).
   */
  datatype Input = Input(name: string, value: int)

  /** The five routes: GET /items, GET /items/:id, POST /items, PUT /items/:id, DELETE /items/:id. */
  datatype Request =
    | ListReq
    | GetReq(idParam: string)
    | CreateReq(body: Option<Input>)
    | UpdateReq(idParam: string, body: Option<Input>)
    | DeleteReq(idParam: string)

  /**
   * The error bodies the handlers write: {"error": "invalid id"},
   * {"error": "item not found"}, or the binder's own message.
   */
  datatype ErrorKind = InvalidId | NotFound | BindFailure

  /**
   * A response body. ItemsJson holds the listed items as a multiset because
   * Go's map iteration order is unspecified. Malformed is what a client reads
   * when a handler wrote more than one JSON document into the same response.
   */
  datatype Body =
    | ItemJson(item: Item)
    | ItemsJson(items: multiset<Item>)
    | ErrorJson(error: ErrorKind)
    | Empty
    | Malformed

  datatype Response = Response(status: int, body: Body)

  const StatusOK := 200
  const StatusCreated := 201
  const StatusNoContent := 204
  const StatusBadRequest := 400
  const StatusNotFound := 404

  /** The package-level `items` map and `nextID` counter. */
  datatype State = State(items: map<int, Item>, nextID: int)

  /** Kept by every handler, even past int64 overflow: each key holds the item with that id. */
  predicate Wf(st: State) {
    && IsInt64(st.nextID)
    && forall k | k in st.items :: st.items[k].id == k
  }

  /** The states a handler can be handed: every state the services reach is well formed. */
  type WfState = st: State | Wf(st) witness State(map[], 0)

  /** Also true until nextID wraps: every stored id was issued, so lies in 1..nextID. */
  predicate Valid(st: State) {
    && Wf(st)
    && 0 <= st.nextID
    && forall k | k in st.items :: 1 <= k <= st.nextID
  }

  /** The ids the creates of a run issued, in order. */
  function CreatedIds(resps: seq<Response>): seq<int> {
    if resps == [] then []
    else if resps[0].status == StatusCreated && resps[0].body.ItemJson?
    then [resps[0].body.item.id] + CreatedIds(resps[1..])
    else CreatedIds(resps[1..])
  }

  /**
   * The store went from st to fin, stays Valid, and issued the ids ids in
   * increasing order, each above every id st held.
   */
  predicate Fresh(st: State, fin: State, ids: seq<int>) {
    && Valid(fin)
    && st.nextID <= fin.nextID
    && (forall i | 0 <= i < |ids| :: st.nextID < ids[i] <= fin.nextID && ids[i] !in st.items)
    && (forall i, j | 0 <= i < j < |ids| :: ids[i] < ids[j])
  }

  /**
   * One request in front of a run that issued fresh ids: when the request
   * did not lower nextID and a create it answered took nextID + 1, the ids
   * of the longer run are still fresh.
   */
  lemma FreshStep(st: State, s1: State, fin: State, resp: Response, rest: seq<Response>)
    requires Valid(st) && st.nextID <= s1.nextID
    requires Fresh(s1, fin, CreatedIds(rest))
    requires resp.status == StatusCreated && resp.body.ItemJson? ==>
               resp.body.item.id == s1.nextID == st.nextID + 1
    ensures Fresh(st, fin, CreatedIds([resp] + rest))
  {
    assert ([resp] + rest)[1..] == rest;
    var restIds := CreatedIds(rest);
    if resp.status == StatusCreated && resp.body.ItemJson? {
      var ids := [resp.body.item.id] + restIds;
      assert CreatedIds([resp] + rest) == ids;
      forall i | 0 <= i < |ids| ensures st.nextID < ids[i] <= fin.nextID && ids[i] !in st.items {
        if i > 0 { assert ids[i] == restIds[i - 1]; }
      }
      forall i, j | 0 <= i < j < |ids| ensures ids[i] < ids[j] {
        assert ids[j] == restIds[j - 1];
        if i > 0 { assert ids[i] == restIds[i - 1]; }
      }
    } else {
      assert CreatedIds([resp] + rest) == restIds;
    }
  }

  /** Keys holding the item with that id make the map injective, so its values are as many as its keys. */
  lemma {:induction false} ValuesCount(items: map<int, Item>)
    requires forall k | k in items :: items[k].id == k
    ensures |items.Values| == |items|
    decreases |items|
  {
    if |items| > 0 {
      var k := Choice.Key(items);
      var rest := items - {k};
      ValuesCount(rest);
      assert rest.Values == items.Values - {items[k]} by {
        forall x | x in items.Values
          ensures x in rest.Values <==> x != items[k]
        {
          var j := Choice.KeyOf(items, x);
          assert j == x.id;
          if x != items[k] {
            assert j in rest && rest[j] == x;
          }
        }
      }
      assert |rest.Keys| == |items.Keys| - 1 by {
        assert rest.Keys == items.Keys - {k};
      }
    }
  }

  /** The name init() gives the i-th seed item: fmt.Sprintf("item-%d", i), "item-" + strconv.Itoa(i). */
  function SeedName(i: int): string {
    "item-" + FormatInt(i)
  }

  /** The ten items init() stores: ids 1..10, the i-th named item-i with value 10*i. */
  function SeedItems(): map<int, Item> {
    map i | 1 <= i <= 10 :: Item(i, SeedName(i), i * 10)
  }

  /** init(): ten times, draw an id from nextID and store the seed item under it. */
  method Seed() returns (st: State)
    ensures st.items == SeedItems() && st.nextID == 10
    ensures Valid(st)
  {
    var items: map<int, Item> := map[];
    var nextID := 0;
    for i := 1 to 11
      invariant nextID == i - 1
      invariant items == map j | 1 <= j < i :: Item(j, SeedName(j), j * 10)
    {
      nextID := Wrap64(nextID + 1);
      items := items[nextID := Item(nextID, SeedName(i), i * 10)];
    }
    st := State(items, nextID);
  }

  /** The seed names are the decimal numerals, so item 7 is called "item-7" and item 10 "item-10". */
  lemma SeedNames()
    ensures SeedItems()[7] == Item(7, "item-7", 70)
    ensures SeedItems()[10] == Item(10, "item-10", 100)
  {
  }

  /**
   * The `for _, item := range items` loop of listItems: every stored item
   * exactly once, in whatever order the map yields its keys.
   */
  method CollectItems(items: map<int, Item>) returns (result: seq<Item>)
    requires forall k | k in items :: items[k].id == k
    ensures multiset(result) == multiset(items.Values)
    ensures |result| == |items|
  {
    result := [];
    var keys := items.Keys;
    ghost var seen: set<Item> := {};
    while keys != {}
      invariant keys <= items.Keys
      invariant multiset(result) == multiset(seen)
      invariant forall x | x in seen :: x.id in items.Keys - keys && items[x.id] == x
      invariant forall j | j in items.Keys - keys :: items[j] in seen
      invariant |result| + |keys| == |items.Keys|
      decreases keys
    {
      ghost var k0 := Choice.Element(keys);
      var k :| k in keys;
      var x := items[k];
      assert x !in seen;
      result := result + [x];
      seen := seen + {x};
      keys := keys - {k};
    }
    assert seen == items.Values by {
      forall x | x in items.Values ensures x in seen {
        var j := Choice.KeyOf(items, x);
        assert j in items.Keys - keys;
      }
    }
  }
}
