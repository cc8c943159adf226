/**
 * The menu-items endpoint (`POST`, `PUT`, `GET` and `DELETE` handlers).
 *
 * A request body is a JSON object, modelled as a map from key to value.
 * Before storing it the handlers rewrite it in place: `category` and
 * `subcategory` are converted to object ids when truthy and deleted
 * otherwise; the update handler also splits `_id` off and converts an array
 * of restaurant ids, dropping the empty ones. The object-id constructor is
 * the parameter `convert`; the database operations are parameters that give
 * the store's outcome for the data they receive.
 */
module MenuItemsRoute {
  import opened Wrappers
  import Seqs

  datatype Json =
    | JNull
    | JBool(b: bool)
    | JNum(n: real)
    | JStr(s: string)
    | JArr(items: seq<Json>)
    | JObj(fields: map<string, Json>)

  /** A request body or stored document. */
  type Body = map<string, Json>

  /** JavaScript truthiness of a JSON value (objects and arrays, even empty, are truthy). */
  predicate Truthy(v: Json) {
    match v
    case JNull => false
    case JBool(b) => b
    case JNum(n) => n != 0.0
    case JStr(s) => s != ""
    case JArr(_) => true
    case JObj(_) => true
  }

  /**
   * `if (data[key] && data[key] !== "") data[key] = convert(data[key]); else delete data[key]`:
   * the key survives exactly when it held a truthy value, and then holds the
   * converted value; every other key is left as it was.
   */
  function WithIdField(data: Body, key: string, convert: Json -> Json): (r: Body)
    ensures key in r <==> key in data && Truthy(data[key])
    ensures key in r ==> r[key] == convert(data[key])
    ensures forall k :: k != key ==> (k in r <==> k in data)
    ensures forall k :: k != key && k in r ==> r[k] == data[k]
  {
    if key in data && Truthy(data[key]) then data[key := convert(data[key])] else data - {key}
  }

  /** Dropping an absent or falsy id field twice is the same as once: the step is idempotent on such keys. */
  lemma WithIdFieldDropsFalsy(data: Body, key: string, convert: Json -> Json)
    requires key !in data || !Truthy(data[key])
    ensures WithIdField(data, key, convert) == data - {key}
    ensures WithIdField(WithIdField(data, key, convert), key, convert) == WithIdField(data, key, convert)
  {
  }

  /** `ids.filter(id => id !== "").map(convert)`. */
  function ConvertRestaurantIds(ids: seq<Json>, convert: Json -> Json): (r: seq<Json>)
    ensures |r| <= |ids|
  {
    Seqs.Map(Seqs.Filter(ids, (x: Json) => x != JStr("")), convert)
  }

  /** The rewrite works element by element in order: it distributes over concatenation. */
  lemma ConvertRestaurantIdsAppend(a: seq<Json>, b: seq<Json>, convert: Json -> Json)
    ensures ConvertRestaurantIds(a + b, convert) == ConvertRestaurantIds(a, convert) + ConvertRestaurantIds(b, convert)
  {
    Seqs.FilterAppend(a, b, (x: Json) => x != JStr(""));
    Seqs.MapAppend(Seqs.Filter(a, (x: Json) => x != JStr("")), Seqs.Filter(b, (x: Json) => x != JStr("")), convert);
  }

  /** One id: the empty string disappears, anything else is converted. */
  lemma ConvertRestaurantIdsSingle(x: Json, convert: Json -> Json)
    ensures ConvertRestaurantIds([x], convert) == if x == JStr("") then [] else [convert(x)]
  {
    assert Seqs.Filter([x], (y: Json) => y != JStr("")) == if x == JStr("") then [] else [x];
  }

  /** Without empty ids nothing is dropped: every id is converted in place. */
  lemma ConvertRestaurantIdsNoEmpty(ids: seq<Json>, convert: Json -> Json)
    requires forall i :: 0 <= i < |ids| ==> ids[i] != JStr("")
    ensures |ConvertRestaurantIds(ids, convert)| == |ids|
    ensures forall i :: 0 <= i < |ids| ==> ConvertRestaurantIds(ids, convert)[i] == convert(ids[i])
  {
    Seqs.FilterKeepsAll(ids, (x: Json) => x != JStr(""));
  }

  /** The document `POST` creates from a body. */
  function PostData(body: Body, convert: Json -> Json): (r: Body)
    ensures "category" in r <==> "category" in body && Truthy(body["category"])
    ensures "category" in r ==> r["category"] == convert(body["category"])
    ensures "subcategory" in r <==> "subcategory" in body && Truthy(body["subcategory"])
    ensures "subcategory" in r ==> r["subcategory"] == convert(body["subcategory"])
    ensures forall k :: k != "category" && k != "subcategory" ==> (k in r <==> k in body)
    ensures forall k :: k != "category" && k != "subcategory" && k in r ==> r[k] == body[k]
  {
    WithIdField(WithIdField(body, "category", convert), "subcategory", convert)
  }

  /** `{ _id, ...data }`: the body without its `_id`. */
  function WithoutId(body: Body): (r: Body)
    ensures "_id" !in r
    ensures forall k :: k != "_id" ==> (k in r <==> k in body)
    ensures forall k :: k in r ==> r[k] == body[k]
  {
    body - {"_id"}
  }

  /** The `restaurants` rewrite of `PUT`: only an array value is rewritten. */
  function WithRestaurantIds(data: Body, convert: Json -> Json): (r: Body)
    ensures r.Keys == data.Keys
    ensures "restaurants" in data && data["restaurants"].JArr? ==>
              r["restaurants"] == JArr(ConvertRestaurantIds(data["restaurants"].items, convert))
    ensures forall k :: k in data && (k != "restaurants" || !data[k].JArr?) ==> r[k] == data[k]
  {
    if "restaurants" in data && data["restaurants"].JArr?
    then data["restaurants" := JArr(ConvertRestaurantIds(data["restaurants"].items, convert))]
    else data
  }

  /** The update `PUT` sends for a body. */
  function PutData(body: Body, convert: Json -> Json): (r: Body)
    ensures "_id" !in r
    ensures "category" in r <==> "category" in body && Truthy(body["category"])
    ensures "category" in r ==> r["category"] == convert(body["category"])
    ensures "subcategory" in r <==> "subcategory" in body && Truthy(body["subcategory"])
    ensures "subcategory" in r ==> r["subcategory"] == convert(body["subcategory"])
    ensures "restaurants" in r <==> "restaurants" in body
    ensures "restaurants" in body && body["restaurants"].JArr? ==>
              r["restaurants"] == JArr(ConvertRestaurantIds(body["restaurants"].items, convert))
    ensures "restaurants" in body && !body["restaurants"].JArr? ==> r["restaurants"] == body["restaurants"]
    ensures forall k :: k !in {"_id", "category", "subcategory", "restaurants"} ==>
              (k in r <==> k in body) && (k in r ==> r[k] == body[k])
  {
    WithRestaurantIds(WithIdField(WithIdField(WithoutId(body), "category", convert), "subcategory", convert), convert)
  }

  /** On the fields the two share, `PUT` rewrites a body as `POST` does, minus `_id`. */
  lemma PutAgreesWithPost(body: Body, convert: Json -> Json)
    requires "restaurants" !in body || !body["restaurants"].JArr?
    ensures PutData(body, convert) == PostData(body, convert) - {"_id"}
  {
    var put := PutData(body, convert);
    var post := PostData(body, convert) - {"_id"};
    assert put.Keys == post.Keys;
    forall k | k in put ensures put[k] == post[k] {
      if k == "restaurants" {
      } else if k == "category" || k == "subcategory" {
      } else {
        assert k !in {"_id", "category", "subcategory", "restaurants"};
      }
    }
  }

  // ---------------------------------------------------------------------------
  // Handlers

  /** What a database call did: returned a value, or threw an error. */
  datatype StoreOutcome = StoreOk(value: Json) | StoreThrew(error: Json)

  datatype Response = Response(status: int, body: Json)

  /** The `error` member of a failure body. */
  function ErrorMessage(r: Response): Option<Json> {
    if r.body.JObj? && "error" in r.body.fields then Some(r.body.fields["error"]) else None
  }

  /** `POST`'s answer: 201 with the created document, or 500 with the error. */
  function CreatedResponse(outcome: StoreOutcome): (r: Response)
    ensures r.status == 201 <==> outcome.StoreOk?
    ensures r.status == 500 <==> outcome.StoreThrew?
    ensures outcome.StoreOk? ==> r.body == outcome.value
    ensures outcome.StoreThrew? ==> ErrorMessage(r) == Some(JStr("Error creating menu item"))
  {
    match outcome
    case StoreOk(doc) => Response(201, doc)
    case StoreThrew(error) =>
      Response(500, JObj(map["error" := JStr("Error creating menu item"), "details" := error]))
  }

  /** The answer of a handler that reports success without data: 200, or 500 with the given message. */
  function SuccessResponse(outcome: StoreOutcome, message: string): (r: Response)
    ensures r.status == 200 <==> outcome.StoreOk?
    ensures r.status == 500 <==> outcome.StoreThrew?
    ensures outcome.StoreOk? ==> r.body == JObj(map["success" := JBool(true)]) && ErrorMessage(r).None?
    ensures outcome.StoreThrew? ==> ErrorMessage(r) == Some(JStr(message))
  {
    if outcome.StoreOk? then Response(200, JObj(map["success" := JBool(true)]))
    else Response(500, JObj(map["error" := JStr(message)]))
  }

  /** `GET`'s answer: 200 with the items found, or 500. */
  function ListResponse(outcome: StoreOutcome): (r: Response)
    ensures r.status == 200 <==> outcome.StoreOk?
    ensures r.status == 500 <==> outcome.StoreThrew?
    ensures outcome.StoreOk? ==> r.body == outcome.value
    ensures outcome.StoreThrew? ==> ErrorMessage(r) == Some(JStr("Error fetching menu items"))
  {
    if outcome.StoreOk? then Response(200, outcome.value)
    else Response(500, JObj(map["error" := JStr("Error fetching menu items")]))
  }

  /**
   * `POST`: rewrite the body in place, hand it to `create`, answer with the
   * outcome. Returns what the store received.
   */
  method Post(body: Body, convert: Json -> Json, create: Body -> StoreOutcome)
    returns (sent: Body, response: Response)
    ensures sent == PostData(body, convert)
    ensures response == CreatedResponse(create(sent))
  {
    var data := body;
    if "category" in data && Truthy(data["category"]) {
      data := data["category" := convert(data["category"])];
    } else {
      data := data - {"category"};
    }
    if "subcategory" in data && Truthy(data["subcategory"]) {
      data := data["subcategory" := convert(data["subcategory"])];
    } else {
      data := data - {"subcategory"};
    }
    sent := data;
    response := CreatedResponse(create(sent));
  }

  /**
   * `PUT`: split `_id` off (`None` when the body has none), rewrite the rest
   * in place, hand both to `update`, answer with the outcome.
   */
  method Put(body: Body, convert: Json -> Json, update: (Option<Json>, Body) -> StoreOutcome)
    returns (id: Option<Json>, sent: Body, response: Response)
    ensures id == (if "_id" in body then Some(body["_id"]) else None)
    ensures sent == PutData(body, convert)
    ensures response == SuccessResponse(update(id, sent), "Error updating menu item")
  {
    id := if "_id" in body then Some(body["_id"]) else None;
    var data := body - {"_id"};
    ghost var stripped := data;
    assert stripped == WithoutId(body);
    if "category" in data && Truthy(data["category"]) {
      data := data["category" := convert(data["category"])];
    } else {
      data := data - {"category"};
    }
    ghost var withCategory := data;
    assert withCategory == WithIdField(stripped, "category", convert);
    if "subcategory" in data && Truthy(data["subcategory"]) {
      data := data["subcategory" := convert(data["subcategory"])];
    } else {
      data := data - {"subcategory"};
    }
    ghost var withSubcategory := data;
    assert withSubcategory == WithIdField(withCategory, "subcategory", convert);
    if "restaurants" in data && Truthy(data["restaurants"]) && data["restaurants"].JArr? {
      data := data["restaurants" := JArr(ConvertRestaurantIds(data["restaurants"].items, convert))];
    } else {
      // an array is always truthy, so only a non-array value skips the rewrite
      assert !("restaurants" in data && data["restaurants"].JArr?);
    }
    assert data == WithRestaurantIds(withSubcategory, convert);
    sent := data;
    response := SuccessResponse(update(id, sent), "Error updating menu item");
  }

  /** `GET`: answer with whatever `find` gives. */
  method Get(find: StoreOutcome) returns (response: Response)
    ensures response == ListResponse(find)
  {
    response := ListResponse(find);
  }

  /** `searchParams.get(name)`: the value of the first parameter with that name. */
  function QueryParam(params: seq<(string, string)>, name: string): (r: Option<string>)
    ensures r.None? <==> forall i :: 0 <= i < |params| ==> params[i].0 != name
    ensures r.Some? ==> exists i :: 0 <= i < |params| && params[i] == (name, r.value)
                                    && forall k :: 0 <= k < i ==> params[k].0 != name
  {
    match Seqs.FirstIndex(params, (p: (string, string)) => p.0 == name)
    case Some(i) => Some(params[i].1)
    case None => None
  }

  /** `DELETE`: the id comes from the query string (`None` when absent) and goes to `deleteOne`. */
  method Delete(params: seq<(string, string)>, deleteOne: Option<string> -> StoreOutcome)
    returns (id: Option<string>, response: Response)
    ensures id == QueryParam(params, "_id")
    ensures response == SuccessResponse(deleteOne(id), "Error deleting menu item")
  {
    id := QueryParam(params, "_id");
    response := SuccessResponse(deleteOne(id), "Error deleting menu item");
  }
}
