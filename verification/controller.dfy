/**
 * The product controller of app/controllers/product_controller.py, run
 * against an in-memory product table. Each HTTP handler is a method of
 * `ProductTable` that takes the already-decoded request and returns the
 * status code with the JSON reply. The storage layer's own work is kept
 * abstract: a fresh id for an insert, a map lookup for `get_or_404`, a
 * case-insensitive substring test for `ilike`, and a map update for a commit.
 */
module Controller {
  import opened Wrappers
  import opened Models
  import opened Text

  // ---------------------------------------------------------------- replies

  /** A JSON value as it appears in a serialized product. */
  datatype Value = Int(i: int) | Str(s: string) | Float(x: Price) | Null | DateTime(t: Time)

  /** The keys of a serialized product. */
  const ProductKeys: set<string> := {"id", "name", "price", "description", "category", "createdAt", "updatedAt"}

  const MandatoryMessage: string := "Name and price are mandatory!"
  const NotJsonMessage: string := "Request body must be JSON!"
  const NotListMessage: string := "Expected a list of products"
  const IncompleteItemMessage: string := "Each product must include at least 'name' and 'price'"
  const DeletedMessage: string := "Product deleted successfully!"

  /**
   * A response body. `Inserted(n)` stands for the message
   * "<n> products inserted successfully."; `NotFound` for the page that
   * `get_or_404` aborts with; `ServerError` for the page the framework sends
   * when a handler raises.
   */
  datatype Reply =
    | Item(product: map<string, Value>)
    | Items(products: seq<map<string, Value>>)
    | Message(text: string)
    | Inserted(count: nat)
    | Error(error: string)
    | NotFound
    | ServerError

  datatype Response = Response(status: nat, reply: Reply)

  /** `dict_product`: the JSON object a product is sent as; it has exactly the seven column keys. */
  function DictProduct(p: Product): (d: map<string, Value>)
    ensures d.Keys == ProductKeys
  {
    map[
      "id" := Int(p.id),
      "name" := Str(p.name),
      "price" := Float(p.price),
      "description" := if p.description.Some? then Str(p.description.value) else Null,
      "category" := Str(p.category),
      "createdAt" := DateTime(p.createdAt),
      "updatedAt" := DateTime(p.updatedAt)]
  }

  /** Reads a `dict_product` dictionary back; `None` for anything else. */
  function ParseProduct(d: map<string, Value>): Option<Product> {
    if && d.Keys == ProductKeys
       && d["id"].Int? && d["name"].Str? && d["price"].Float?
       && (d["description"].Null? || d["description"].Str?)
       && d["category"].Str? && d["createdAt"].DateTime? && d["updatedAt"].DateTime?
    then
      Some(Product(
        d["id"].i, d["name"].s, d["price"].x,
        if d["description"].Str? then Some(d["description"].s) else None,
        d["category"].s, d["createdAt"].t, d["updatedAt"].t))
    else
      None
  }

  /** Serializing loses nothing: the reply gives back the product. */
  lemma DictRoundTrip(p: Product)
    ensures ParseProduct(DictProduct(p)) == Some(p)
  {
  }

  /** Every object that reads back as a product is exactly that product's serialization. */
  lemma ParseProductExact(d: map<string, Value>)
    requires ParseProduct(d).Some?
    ensures DictProduct(ParseProduct(d).value) == d
  {
    var e := DictProduct(ParseProduct(d).value);
    assert forall k :: k in ProductKeys ==> e[k] == d[k];
  }

  /** Two products with the same serialization are the same product. */
  lemma {:induction false} DictProductInjective(p: Product, q: Product)
    requires DictProduct(p) == DictProduct(q)
    ensures p == q
  {
    DictRoundTrip(p);
    DictRoundTrip(q);
  }

  // ---------------------------------------------------------------- requests

  /**
   * The keys of a decoded JSON object that the handlers look at. An absent key
   * is `None`. `description` may be sent as null, hence the inner option.
   * `otherKeys` counts the keys the handlers ignore; it matters only for
   * whether the object is empty.
   */
  datatype Fields = Fields(
    name: Option<string>,
    price: Option<Price>,
    description: Option<Option<string>>,
    category: Option<string>,
    otherKeys: nat)
  {
    predicate IsEmpty() {
      name.None? && price.None? && description.None? && category.None? && otherKeys == 0
    }

    /** Has both keys that creating a product needs. */
    predicate Complete() {
      name.Some? && price.Some?
    }

    /** `key in data` for an object. */
    predicate Has(c: Column) {
      match c
      case Name => name.Some?
      case Price => price.Some?
      case Description => description.Some?
      case Category => category.Some?
    }

    /** `item.get('description')`: the description, or null when absent. */
    function Description(): Option<string> {
      description.GetOr(None)
    }
  }

  const NoFields: Fields := Fields(None, None, None, None, 0)

  /** The four columns a request may set, in the order `update_product` tests them. */
  datatype Column = Name | Price | Description | Category {
    function Key(): string {
      match this
      case Name => "name"
      case Price => "price"
      case Description => "description"
      case Category => "category"
    }
  }

  /**
   * A decoded JSON request body. `Absent` is a body of `null`. Of an object only the keys the handlers look at
   * are kept (`Fields`); the elements of an array are JSON values again.
   */
  datatype Json =
    | Absent
    | Boolean(b: bool)
    | Number(x: real)
    | String(s: string)
    | Array(elems: seq<Json>)
    | Object(fields: Fields)

  /** Python truthiness: null, `false`, `0`, `""`, `[]` and `{}` are false. */
  predicate Truthy(j: Json) {
    match j
    case Absent => false
    case Boolean(b) => b
    case Number(x) => x != 0.0
    case String(s) => s != []
    case Array(elems) => elems != []
    case Object(f) => !f.IsEmpty()
  }

  /**
   * Python's `key in data`: a key of an object, an element of an array, a
   * substring of a string. `None` where Python raises a `TypeError` (null, a
   * boolean, a number).
   */
  function Member(j: Json, c: Column): Option<bool> {
    match j
    case Object(f) => Some(f.Has(c))
    case Array(elems) => Some(String(c.Key()) in elems)
    case String(s) => Some(Contains(s, c.Key()))
    case _ => None
  }

  /** The keys an update applies: those of an object; any other body supplies none. */
  function Keys(j: Json): Fields {
    if j.Object? then j.fields else NoFields
  }

  /** What the `'name'`/`'price'` check and the subscripts after it do with a body. */
  datatype Verdict = Accept | Reject | Crash

  /**
   * `'name' not in item or 'price' not in item`, then `item['name']`:
   * rejected when a key is missing, a crash when `in` raises or when the
   * keys are found in something that cannot be subscripted by a string.
   * Exactly the objects with both keys are accepted.
   */
  function Judge(j: Json): (v: Verdict)
    ensures v == Accept <==> j.Object? && j.fields.Complete()
    ensures v == Crash ==> !j.Object?
  {
    match Member(j, Name)
    case None => Crash
    case Some(hasName) =>
      if !hasName || Member(j, Price) != Some(true) then Reject
      else if j.Object? then Accept
      else Crash
  }

  /**
   * Whether `update_product` raises on a truthy body: an object never does;
   * anything else does when `in` raises, or when one of the four keys is
   * found in it and the subscript that follows raises.
   */
  predicate UpdateRaises(j: Json) {
    && !j.Object?
    && (|| Member(j, Name).None?
        || Member(j, Name) == Some(true)
        || Member(j, Price) == Some(true)
        || Member(j, Description) == Some(true)
        || Member(j, Category) == Some(true))
  }

  /** A body that passes the update without raising supplies exactly the keys of an object. */
  lemma UpdateKeys(j: Json)
    requires Truthy(j) && !UpdateRaises(j)
    ensures j.Object? || Keys(j) == NoFields
    ensures forall c: Column :: Member(j, c) == Some(Keys(j).Has(c))
  {
  }

  predicate AllComplete(items: seq<Json>) {
    forall k :: 0 <= k < |items| ==> items[k].Object? && items[k].fields.Complete()
  }

  /**
   * The rows built from a complete item under `id`: `category` stands in when
   * the item has none, and the two timestamps are the column defaults.
   */
  function NewRow(id: int, item: Fields, category: string, created: Time, updated: Time): Product
    requires item.Complete()
  {
    Product(id, item.name.value, item.price.value, item.Description(), item.category.GetOr(category), created, updated)
  }

  /** The product after `update_product` applies the supplied keys of `f` at time `now`. */
  function Patched(p: Product, f: Fields, now: Time): Product {
    Product(
      p.id,
      f.name.GetOr(p.name),
      f.price.GetOr(p.price),
      f.description.GetOr(p.description),
      f.category.GetOr(p.category),
      p.createdAt,
      now)
  }

  /** An update changes exactly the supplied columns and `updatedAt`; `id` and `createdAt` stay. */
  lemma PatchedChangesOnlySupplied(p: Product, f: Fields, now: Time)
    ensures var q := Patched(p, f, now);
      && q.id == p.id && q.createdAt == p.createdAt && q.updatedAt == now
      && (if f.name.Some? then q.name == f.name.value else q.name == p.name)
      && (if f.price.Some? then q.price == f.price.value else q.price == p.price)
      && (if f.description.Some? then q.description == f.description.value else q.description == p.description)
      && (if f.category.Some? then q.category == f.category.value else q.category == p.category)
  {
  }

  /** A body with none of the four columns only refreshes `updatedAt`. */
  lemma PatchedWithoutColumns(p: Product, f: Fields, now: Time)
    requires f.name.None? && f.price.None? && f.description.None? && f.category.None?
    ensures Patched(p, f, now) == p.(updatedAt := now)
  {
  }

  /** Applying the same update twice at the same time is applying it once. */
  lemma PatchedIdempotent(p: Product, f: Fields, now: Time)
    ensures Patched(Patched(p, f, now), f, now) == Patched(p, f, now)
  {
  }

  /** The rows a bulk save adds for `items`: the k-th item under id `first + k`. */
  function Batch(items: seq<Json>, first: int, category: string, created: Time, updated: Time): map<int, Product>
    requires AllComplete(items)
  {
    if items == [] then map[]
    else
      var n := |items| - 1;
      Batch(items[..n], first, category, created, updated)[first + n := NewRow(first + n, items[n].fields, category, created, updated)]
  }

  /**
   * A bulk save adds one row per item: the ids are the `|items|` ids from
   * `first` on, item k is stored under `first + k`, and every row carries the
   * two column defaults.
   */
  lemma {:induction false} BatchRows(items: seq<Json>, first: int, category: string, created: Time, updated: Time)
    requires AllComplete(items)
    ensures var b := Batch(items, first, category, created, updated);
      && (forall id :: id in b <==> first <= id < first + |items|)
      && |b| == |items|
      && (forall k :: 0 <= k < |items| ==> b[first + k] == NewRow(first + k, items[k].fields, category, created, updated))
      && (forall id :: id in b ==> b[id].id == id && b[id].createdAt == created && b[id].updatedAt == updated)
  {
    if items != [] {
      BatchRows(items[..|items| - 1], first, category, created, updated);
    }
  }

  /**
   * The verdict on a list of bulk items, checked front to back: the verdict
   * on the first item that is not accepted, or `Accept` when all are.
   */
  function Screen(items: seq<Json>): (v: Verdict)
    ensures v == Accept <==> AllComplete(items)
  {
    if items == [] then Accept
    else if Judge(items[0]) != Accept then Judge(items[0])
    else
      var v := Screen(items[1..]);
      assert AllComplete(items[1..]) ==> AllComplete(items) by {
        if AllComplete(items[1..]) {
          forall k | 0 <= k < |items| ensures items[k].Object? && items[k].fields.Complete() {
            if k > 0 {
              assert items[k] == items[1..][k - 1];
            }
          }
        }
      }
      assert AllComplete(items) ==> AllComplete(items[1..]) by {
        if AllComplete(items) {
          forall k | 0 <= k < |items| - 1 ensures items[1..][k].Object? && items[1..][k].fields.Complete() {
            assert items[1..][k] == items[k + 1];
          }
        }
      }
      v
  }

  /** Whether `list_products` returns a product for a stripped search term: an empty term keeps every row. */
  predicate Listed(p: Product, term: string) {
    term == [] || NameMatches(p.name, term)
  }

  /** The ids of the rows `list_products` returns for a stripped search term. */
  function Selected(rows: map<int, Product>, term: string): (ids: set<int>)
    ensures ids <= rows.Keys
  {
    set id | id in rows && Listed(rows[id], term)
  }

  /** `[dict_product(product) for product in products]`. */
  function Serialized(products: seq<Product>): seq<map<string, Value>> {
    seq(|products|, k requires 0 <= k < |products| => DictProduct(products[k]))
  }

  /** A search term that strips to nothing lists every row. */
  lemma BlankSearchListsEveryRow(rows: map<int, Product>, search: string)
    requires AllSpace(search)
    ensures Selected(rows, Strip(search)) == rows.Keys
  {
    var term := Strip(search);
    assert term == [];
    forall id | id in rows
      ensures id in Selected(rows, term)
    {
      assert Listed(rows[id], term);
    }
  }

  /** With a non-blank term, exactly the rows whose name contains it, ignoring ASCII case, are listed. */
  lemma SearchListsMatchingRows(rows: map<int, Product>, search: string, id: int)
    requires !AllSpace(search) && id in rows
    ensures id in Selected(rows, Strip(search)) <==> NameMatches(rows[id].name, Strip(search))
  {
  }

  /** `found` holds the row under each id of `ids`, each once, and no other row. */
  ghost predicate Enumerates(found: seq<Product>, rows: map<int, Product>, ids: set<int>)
    requires ids <= rows.Keys
  {
    && |found| == |ids|
    && (forall k :: 0 <= k < |found| ==> found[k].id in ids && found[k] == rows[found[k].id])
    && (forall id :: id in ids ==> rows[id] in found)
    && (forall i, j :: 0 <= i < j < |found| ==> found[i].id != found[j].id)
  }

  /** `ds` holds the serialization of each row under `ids`, each once, and nothing else. */
  ghost predicate EachOnce(ds: seq<map<string, Value>>, rows: map<int, Product>, ids: set<int>)
    requires ids <= rows.Keys
  {
    && |ds| == |ids|
    && (forall id :: id in ids ==> DictProduct(rows[id]) in ds)
    && (forall d :: d in ds ==> exists id :: id in ids && d == DictProduct(rows[id]))
    && (forall i, j :: 0 <= i < j < |ds| ==> ds[i] != ds[j])
  }

  /** A query result holding each selected row once serializes to each selected row once. */
  lemma SerializedQuery(rows: map<int, Product>, term: string, found: seq<Product>)
    requires Enumerates(found, rows, Selected(rows, term))
    ensures EachOnce(Serialized(found), rows, Selected(rows, term))
  {
    var ds := Serialized(found);
    forall d | d in ds
      ensures exists id :: id in Selected(rows, term) && d == DictProduct(rows[id])
    {
      var k :| 0 <= k < |ds| && ds[k] == d;
      assert d == DictProduct(rows[found[k].id]);
    }
    forall id | id in Selected(rows, term)
      ensures DictProduct(rows[id]) in ds
    {
      var k :| 0 <= k < |found| && found[k] == rows[id];
      assert ds[k] == DictProduct(rows[id]);
    }
    forall i, j | 0 <= i < j < |ds|
      ensures ds[i] != ds[j]
    {
      if ds[i] == ds[j] {
        DictProductInjective(found[i], found[j]);
      }
    }
  }

  /**
   * Saving a batch under the ids that follow `lastId` keeps ids as primary
   * keys and adds exactly one row per item.
   */
  lemma SaveBatch(rows: map<int, Product>, lastId: nat, items: seq<Json>, category: string, created: Time, updated: Time)
    requires PrimaryKeyed(rows) && forall id :: id in rows ==> id <= lastId
    requires AllComplete(items)
    ensures var saved := rows + Batch(items, lastId + 1, category, created, updated);
      && PrimaryKeyed(saved)
      && (forall id :: id in saved ==> id <= lastId + |items|)
      && |saved| == |rows| + |items|
  {
    BatchRows(items, lastId + 1, category, created, updated);
  }

  /** Screening from item `i` on looks at item `i` first. */
  lemma ScreenFrom(items: seq<Json>, i: int)
    requires 0 <= i < |items|
    ensures Screen(items[i..]) == if Judge(items[i]) != Accept then Judge(items[i]) else Screen(items[i + 1..])
  {
    assert items[i..][0] == items[i];
    assert items[i..][1..] == items[i + 1..];
  }

  /** One more accepted item keeps the prefix complete. */
  lemma CompletePrefix(items: seq<Json>, i: int)
    requires 0 <= i < |items| && AllComplete(items[..i]) && Judge(items[i]) == Accept
    ensures AllComplete(items[..i + 1])
  {
    assert forall k :: 0 <= k < i ==> items[..i + 1][k] == items[..i][k];
  }

  /**
   * The loop of `bulk_insert_products` that builds one product per item,
   * under the ids the save will give them, and stops at the first item that
   * is not accepted.
   */
  method BuildBatch(items: seq<Json>, first: int, category: string, created: Time, updated: Time)
    returns (verdict: Verdict, batch: map<int, Product>)
    ensures verdict == Screen(items)
    ensures verdict == Accept ==> batch == Batch(items, first, category, created, updated)
  {
    batch := map[];
    var i := 0;
    while i < |items|
      invariant 0 <= i <= |items|
      invariant AllComplete(items[..i])
      invariant Screen(items[i..]) == Screen(items)
      invariant batch == Batch(items[..i], first, category, created, updated)
    {
      var item := items[i];
      ScreenFrom(items, i);
      var v := Judge(item);
      if v != Accept {
        return v, batch;
      }
      CompletePrefix(items, i);
      assert items[..i + 1][..i] == items[..i];
      batch := batch[first + i := NewRow(first + i, item.fields, category, created, updated)];
      i := i + 1;
    }
    assert items[..i] == items;
    verdict := Accept;
  }

  // ---------------------------------------------------------------- table

  /**
   * The product table. `lastId` is the storage layer's id counter.
   * `createdDefault` and `updatedDefault` are the values the `createdAt` and
   * `updatedAt` column defaults were computed as, each once, by its own clock
   * reading when the `Product` class was defined.
   */
  class ProductTable {
    var rows: map<int, Product>
    var lastId: nat
    const createdDefault: Time
    const updatedDefault: Time

    ghost predicate Valid()
      reads this
    {
      && PrimaryKeyed(rows)
      && forall id :: id in rows ==> id <= lastId
    }

    /** An empty table, as `db.create_all()` leaves a fresh database. */
    constructor(createdDefault: Time, updatedDefault: Time)
      ensures Valid()
      ensures rows == map[] && lastId == 0
      ensures this.createdDefault == createdDefault && this.updatedDefault == updatedDefault
    {
      rows := map[];
      lastId := 0;
      this.createdDefault := createdDefault;
      this.updatedDefault := updatedDefault;
    }

    /**
     * The table as a restarted server finds it: `db.create_all()` keeps the
     * rows already in the database file, whatever timestamps an earlier
     * process gave them, and the id counter is past every stored id.
     */
    constructor Open(rows: map<int, Product>, lastId: nat, createdDefault: Time, updatedDefault: Time)
      requires PrimaryKeyed(rows) && forall id :: id in rows ==> id <= lastId
      ensures Valid()
      ensures this.rows == rows && this.lastId == lastId
      ensures this.createdDefault == createdDefault && this.updatedDefault == updatedDefault
    {
      this.rows := rows;
      this.lastId := lastId;
      this.createdDefault := createdDefault;
      this.updatedDefault := updatedDefault;
    }

    /** `POST /api/products`. */
    method Create(body: Json) returns (r: Response)
      requires Valid()
      modifies this
      ensures Valid()
      ensures !Truthy(body) || Judge(body) == Reject ==>
        r == Response(400, Error(MandatoryMessage)) && rows == old(rows) && lastId == old(lastId)
      ensures Truthy(body) && Judge(body) == Crash ==>
        r == Response(500, ServerError) && rows == old(rows) && lastId == old(lastId)
      ensures body.Object? && body.fields.Complete() ==>
        && lastId == old(lastId) + 1
        && lastId !in old(rows)
        && rows == old(rows)[lastId := NewRow(lastId, body.fields, DefaultCategory, createdDefault, updatedDefault)]
        && r == Response(201, Item(DictProduct(rows[lastId])))
    {
      if !Truthy(body) {
        return Response(400, Error(MandatoryMessage));
      }
      var hasName := Member(body, Name);
      if hasName.None? {
        return Response(500, ServerError);
      }
      if !hasName.value || Member(body, Price) != Some(true) {
        return Response(400, Error(MandatoryMessage));
      }
      if !body.Object? {
        // `data['name']` on a list or a string
        return Response(500, ServerError);
      }
      var data := body.fields;
      var product := Product(
        0, data.name.value, data.price.value, data.Description(),
        data.category.GetOr(DefaultCategory), createdDefault, updatedDefault);
      // add and commit: the storage layer assigns the next id
      lastId := lastId + 1;
      product := product.(id := lastId);
      rows := rows[lastId := product];
      r := Response(201, Item(DictProduct(product)));
    }

    /** `GET /api/products/<id>`. */
    method Get(id: int) returns (r: Response)
      ensures id in rows ==> r == Response(200, Item(DictProduct(rows[id])))
      ensures id !in rows ==> r == Response(404, NotFound)
    {
      if id !in rows {
        return Response(404, NotFound);
      }
      r := Response(200, Item(DictProduct(rows[id])));
    }

    /**
     * `query.all()` on `Product.query`, filtered by name when `term` is not
     * empty: each selected row once, in the storage layer's order.
     */
    method Query(term: string) returns (found: seq<Product>)
      requires Valid()
      ensures Enumerates(found, rows, Selected(rows, term))
    {
      var table := rows;
      found := [];
      var pending := table.Keys;
      ghost var taken: set<int> := {};
      while pending != {}
        invariant pending <= table.Keys
        invariant forall id :: id in taken <==> id in table && id !in pending && Listed(table[id], term)
        invariant |found| == |taken|
        invariant forall k :: 0 <= k < |found| ==> found[k].id in taken && found[k] == table[found[k].id]
        invariant forall id :: id in taken ==> table[id] in found
        invariant forall i, j :: 0 <= i < j < |found| ==> found[i].id != found[j].id
        decreases pending
      {
        assert (forall x :: x !in pending) ==> pending == {};
        var id :| id in pending;
        if Listed(table[id], term) {
          found := found + [table[id]];
          taken := taken + {id};
        }
        pending := pending - {id};
      }
      assert taken == Selected(table, term) by {
        forall id ensures id in taken <==> id in Selected(table, term) {
        }
      }
    }

    /**
     * `GET /api/products?search=...`: every row when the stripped term is
     * empty, otherwise every row whose name contains the term ignoring case;
     * each row once, serialized.
     */
    method List(search: Option<string>) returns (r: Response)
      requires Valid()
      ensures r.status == 200 && r.reply.Items?
      ensures EachOnce(r.reply.products, rows, Selected(rows, Strip(search.GetOr(""))))
    {
      var term := Strip(search.GetOr(""));
      var found := Query(term);
      SerializedQuery(rows, term, found);
      r := Response(200, Items(Serialized(found)));
    }

    /**
     * `PUT /api/products/<id>`: existence is checked before the body, then
     * the four keys in order.
     */
    method Update(id: int, body: Json, now: Time) returns (r: Response)
      requires Valid()
      modifies this
      ensures Valid()
      ensures lastId == old(lastId)
      ensures id !in old(rows) ==> r == Response(404, NotFound) && rows == old(rows)
      ensures id in old(rows) && !Truthy(body) ==> r == Response(400, Error(NotJsonMessage)) && rows == old(rows)
      ensures id in old(rows) && Truthy(body) && UpdateRaises(body) ==>
        r == Response(500, ServerError) && rows == old(rows)
      ensures id in old(rows) && Truthy(body) && !UpdateRaises(body) ==>
        && rows == old(rows)[id := Patched(old(rows)[id], Keys(body), now)]
        && r == Response(200, Item(DictProduct(rows[id])))
    {
      if id !in rows {
        return Response(404, NotFound);
      }
      var product := rows[id];
      if !Truthy(body) {
        return Response(400, Error(NotJsonMessage));
      }
      if Member(body, Name).None? {
        return Response(500, ServerError);
      }
      // each `data[key]` below raises unless the body is an object
      if Member(body, Name) == Some(true) {
        if !body.Object? { return Response(500, ServerError); }
        product := product.(name := body.fields.name.value);
      }
      if Member(body, Price) == Some(true) {
        if !body.Object? { return Response(500, ServerError); }
        product := product.(price := body.fields.price.value);
      }
      if Member(body, Description) == Some(true) {
        if !body.Object? { return Response(500, ServerError); }
        product := product.(description := body.fields.description.value);
      }
      if Member(body, Category) == Some(true) {
        if !body.Object? { return Response(500, ServerError); }
        product := product.(category := body.fields.category.value);
      }
      product := product.(updatedAt := now);
      rows := rows[id := product];
      r := Response(200, Item(DictProduct(product)));
    }

    /** `DELETE /api/products/<id>`. */
    method Delete(id: int) returns (r: Response)
      requires Valid()
      modifies this
      ensures Valid()
      ensures lastId == old(lastId)
      ensures id !in old(rows) ==> r == Response(404, NotFound) && rows == old(rows)
      ensures id in old(rows) ==> r == Response(200, Message(DeletedMessage)) && rows == old(rows) - {id}
    {
      if id !in rows {
        return Response(404, NotFound);
      }
      rows := rows - {id};
      r := Response(200, Message(DeletedMessage));
    }

    /**
     * `POST /api/products/bulk`: every item is checked before the single save,
     * so either all items become rows or none does. An item without a category
     * hands the storage layer a null category; `nullCategory` is what the
     * storage layer stores for it.
     */
    method BulkInsert(body: Json, nullCategory: string) returns (r: Response)
      requires Valid()
      modifies this
      ensures Valid()
      ensures !body.Array? ==>
        r == Response(400, Error(NotListMessage)) && rows == old(rows) && lastId == old(lastId)
      ensures body.Array? && Screen(body.elems) == Reject ==>
        r == Response(400, Error(IncompleteItemMessage)) && rows == old(rows) && lastId == old(lastId)
      ensures body.Array? && Screen(body.elems) == Crash ==>
        r == Response(500, ServerError) && rows == old(rows) && lastId == old(lastId)
      ensures body.Array? && AllComplete(body.elems) ==>
        && r == Response(201, Inserted(|body.elems|))
        && lastId == old(lastId) + |body.elems|
        && rows == old(rows) + Batch(body.elems, old(lastId) + 1, nullCategory, createdDefault, updatedDefault)
        && |rows| == |old(rows)| + |body.elems|
    {
      if !body.Array? {
        return Response(400, Error(NotListMessage));
      }
      var items := body.elems;
      var verdict, batch := BuildBatch(items, lastId + 1, nullCategory, createdDefault, updatedDefault);
      if verdict == Reject {
        return Response(400, Error(IncompleteItemMessage));
      } else if verdict == Crash {
        return Response(500, ServerError);
      }
      SaveAll(items, nullCategory, batch);
      r := Response(201, Inserted(|items|));
    }

    /** `bulk_save_objects` and `commit`: the built rows join the table under the next ids. */
    method SaveAll(items: seq<Json>, nullCategory: string, batch: map<int, Product>)
      requires Valid() && AllComplete(items)
      requires batch == Batch(items, lastId + 1, nullCategory, createdDefault, updatedDefault)
      modifies this
      ensures Valid()
      ensures lastId == old(lastId) + |items|
      ensures rows == old(rows) + batch
      ensures |rows| == |old(rows)| + |items|
    {
      SaveBatch(rows, lastId, items, nullCategory, createdDefault, updatedDefault);
      rows, lastId := rows + batch, lastId + |items|;
    }
  }

  /**
   * A walk through the API: create a product, read it, change its price,
   * delete it, and read it again.
   */
  method Walkthrough(createdDefault: Time, updatedDefault: Time, now: Time) {
    var table := new ProductTable(createdDefault, updatedDefault);
    var created := table.Create(Object(Fields(Some("Widget"), Some(9.99), None, None, 0)));
    assert created.status == 201;
    assert table.rows[1].category == DefaultCategory && table.rows[1].description == None;
    assert table.rows[1].createdAt == createdDefault && table.rows[1].updatedAt == updatedDefault;
    var got := table.Get(1);
    assert got == Response(200, created.reply);
    var updated := table.Update(1, Object(Fields(None, Some(12.50), None, None, 0)), now);
    assert updated.status == 200 && table.rows[1].price == 12.50 && table.rows[1].name == "Widget";
    var deleted := table.Delete(1);
    assert deleted == Response(200, Message(DeletedMessage));
    got := table.Get(1);
    assert got == Response(404, NotFound);
  }

  /** The string `"abc"` contains none of the four keys. */
  lemma NoKeyInAbc()
    ensures forall c: Column :: Member(String("abc"), c) == Some(false)
  {
    forall c: Column ensures !Contains("abc", c.Key()) {
      assert |c.Key()| > 3;
    }
  }

  /** A string that mentions both keys passes the create check and fails at `data['name']`. */
  method StringCreate(createdDefault: Time, updatedDefault: Time) {
    var table := new ProductTable(createdDefault, updatedDefault);
    assert OccursAt("name price", "name", 0) && OccursAt("name price", "price", 5);
    var created := table.Create(String("name price"));
    assert created == Response(500, ServerError) && table.rows == map[];
  }

  /** Update bodies that are not objects: a keyless string only refreshes `updatedAt`; `true` cannot be searched. */
  method ScalarUpdates(createdDefault: Time, updatedDefault: Time, now: Time) {
    var table := new ProductTable(createdDefault, updatedDefault);
    var created := table.Create(Object(Fields(Some("Widget"), Some(9.99), None, None, 0)));
    NoKeyInAbc();
    var updated := table.Update(1, String("abc"), now);
    assert updated.status == 200 && table.rows[1].price == 9.99 && table.rows[1].updatedAt == now;
    updated := table.Update(1, Boolean(true), now + 1);
    assert updated == Response(500, ServerError) && table.rows[1].updatedAt == now;
  }

  /**
   * A server restarted over a database file that holds a row from an earlier
   * process: a new row gets this process's defaults, the old row keeps its own.
   */
  method Restart() {
    var lamp := Product(1, "Lamp", 5.0, None, DefaultCategory, 100, 101);
    var table := new ProductTable.Open(map[1 := lamp], 1, 200, 201);
    var created := table.Create(Object(Fields(Some("Widget"), Some(9.99), None, None, 0)));
    assert created.status == 201;
    assert table.rows[2].createdAt == 200 && table.rows[2].updatedAt == 201;
    assert table.rows[1] == lamp;
  }

  /** A bulk insert whose second item has no price saves nothing. */
  method IncompleteBulk(createdDefault: Time, updatedDefault: Time) {
    var table := new ProductTable(createdDefault, updatedDefault);
    var items := [Object(Fields(Some("A"), Some(1.0), None, None, 0)), Object(Fields(Some("B"), None, None, None, 0))];
    var bulk := table.BulkInsert(Array(items), DefaultCategory);
    assert bulk.status == 400 && table.rows == map[];
  }
}
