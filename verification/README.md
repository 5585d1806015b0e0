# Product catalogue controller

A Dafny model of the product service's REST controller
(`app/controllers/product_controller.py`) and of the `Product` table it
serves (`app/models/product.py`). The table is a class, `ProductTable`,
that holds the rows as a map from primary key to `Product`. Each handler
is a method of it. A handler takes the request the web framework has
already decoded and returns the HTTP status with the JSON reply.

- `wrappers.dfy`: `Option`.
- `models.dfy`: the `Product` record (its seven columns), the `General`
  default category, and the primary-key invariant of a table.
- `text.dfy`: Python's `str.strip` and the case-insensitive substring test
  that `name ILIKE '%term%'` performs.
- `controller.dfy`:
  - `dict_product` and its inverse;
  - the decoded request body (`Json`, `Fields`), Python truthiness, and what
    Python's `key in data` does on each kind of body;
  - the pure meaning of each write (`NewRow`, `Patched`, `Batch`), of the
    bulk item check (`Judge`, `Screen`) and of a search (`Selected`);
  - the `ProductTable` class with one method per endpoint;
  - `Walkthrough`, `StringCreate`, `ScalarUpdates`, `Restart` and `IncompleteBulk`,
    clients that call the handlers and assert each reply.

How the request body is read:

- `Json.Absent` is a body of `null`.
- `Json.Object` is a JSON object. For each of the four columns it records
  whether the key is present, plus how many other keys there are.
- `Json.Boolean`, `Json.Number`, `Json.String` and `Json.Array` are the
  other JSON values; the elements of an array are JSON values again.

`not data` is true exactly for null, `false`, `0`, `""`, `[]` and `{}`.
`key in data` looks up a key of an object, an element of a list, or a
substring of a string, and raises a `TypeError` on null, a boolean or a
number. A key found in a list or a string makes the following `data[key]`
raise. The handlers answer 500 where they raise, and the model says so.

Where the code is looser than its docstrings and front-ends suggest, the
model follows the code:

- A product name is not checked to be non-empty. Both front-ends mark the
  name input `required` (`frontend/src/App.jsx`, `product-manager/app/page.tsx`),
  but the handler only checks that the key is present.
- `PUT` with a truthy body that is not an object answers 200 when none of
  the four keys is found in it (for example the string `"abc"`), and only
  `updatedAt` changes. When a key is found in it, or it is `true` or a
  number, the handler raises. The docstring promises only 200, 400 and 404.
- A create body that is a string or a list mentioning both `name` and
  `price` passes the check and raises at `data['name']`.
- The `createdAt` and `updatedAt` defaults are each computed once, by two
  separate clock readings when the `Product` class is defined, not at each
  insert. So every row inserted by one server process gets the same two
  values, `ProductTable.createdDefault` and `ProductTable.updatedDefault`,
  and they are not equal in general. The database file outlives the
  process: after a restart (or a reload in debug mode) the table also holds
  rows with the timestamps of earlier processes, and `ProductTable.Open`
  starts the model from such a table.
- `updatedAt >= createdAt` is not guaranteed. `PUT` stores the clock
  reading `now`, which is taken as a parameter.

## Model

| member | source | states |
|---|---|---|
| Models.IdsAreUnique | app/models/product.py:4-5 | in a table keyed by primary key, two rows have the same `id` exactly when they are the same row |
| Controller.DictProduct | app/controllers/product_controller.py:8-33 | the serialized product has exactly the seven column keys |
| Controller.DictRoundTrip | app/controllers/product_controller.py:25-33 | reading a `dict_product` dictionary back gives the same product: the dictionary loses nothing, and a null description stays null |
| Controller.ParseProductExact | app/controllers/product_controller.py:25-33 | any dictionary that reads back as a product is exactly that product's `dict_product` dictionary |
| Controller.DictProductInjective | app/controllers/product_controller.py:25-33 | two different products never serialize to the same object |
| Controller.PatchedChangesOnlySupplied | app/controllers/product_controller.py:150-158 | an update sets each of name, price, description and category to the supplied value when its key is present and keeps it otherwise; `id` and `createdAt` never change; `updatedAt` becomes the current time |
| Controller.PatchedWithoutColumns | app/controllers/product_controller.py:148-158 | a truthy body with none of the four keys only refreshes `updatedAt` |
| Controller.PatchedIdempotent | app/controllers/product_controller.py:150-158 | sending the same update twice at the same instant leaves the same row as sending it once |
| Controller.Patched | app/controllers/product_controller.py:150-158 | the row after an update: each of the four columns takes the supplied value or keeps its own, `id` and `createdAt` are kept, `updatedAt` is the clock reading |
| Controller.Truthy | app/controllers/product_controller.py:59 | Python truthiness of a decoded body, as `not data` tests it at lines 59 and 148 |
| Controller.Member | app/controllers/product_controller.py:59 | Python's `key in data` at lines 59, 150-156 and 217: a key of an object, an element of a list, a substring of a string, and a `TypeError` for anything else |
| Controller.Keys | app/controllers/product_controller.py:150-157 | the keys an update applies: those of an object, none for any other body |
| Controller.UpdateRaises | app/controllers/product_controller.py:150-157 | a truthy body makes the update raise exactly when it is not an object and either `in` raises on it or one of the four keys is found in it |
| Controller.UpdateKeys | app/controllers/product_controller.py:150-157 | for a truthy body on which the update does not raise, each key the handler finds is a key the update applies, and a body that is not an object applies none |
| Controller.Judge | app/controllers/product_controller.py:217-220 | the check of one bulk item (and of a create body at lines 59-63): accepted exactly when it is an object with both `name` and `price`; a crash only for something that is not an object |
| Controller.Screen | app/controllers/product_controller.py:216-218 | the items are checked front to back and the first one not accepted decides; the result is `Accept` exactly when every item is an object with both keys |
| Controller.NewRow | app/controllers/product_controller.py:62-67 | the row built from a complete body or bulk item (lines 219-224): its name, price and description, its category or the given default, and the two column defaults as timestamps |
| Controller.Batch | app/controllers/product_controller.py:215-225 | the rows a bulk save adds: the k-th item under the k-th following id |
| Controller.BatchRows | app/controllers/product_controller.py:215-225 | a bulk save adds exactly one row per item: item k goes under the k-th following id with the item's name, price, description and category, and every new row carries the `createdAt` default and the `updatedAt` default |
| Controller.BuildBatch | app/controllers/product_controller.py:215-224 | the loop over the items ends with the verdict on the first item not accepted (a 400 or a crash), or accepts all of them and has then built the batch of rows for them |
| Controller.SaveBatch | app/controllers/product_controller.py:225-226 | merging a batch into a table keyed by primary key keeps it keyed by primary key, keeps the id counter ahead of every id, and grows the table by the number of items |
| Controller.Listed | app/controllers/product_controller.py:114-115 | whether a product is returned for a stripped search term: always when the term is empty, otherwise when its name matches |
| Controller.Selected | app/controllers/product_controller.py:113-116 | a search returns only ids of stored rows |
| Controller.BlankSearchListsEveryRow | app/controllers/product_controller.py:112-116 | a missing, empty or all-whitespace `search` lists every product |
| Controller.SearchListsMatchingRows | app/controllers/product_controller.py:112-116 | with a non-blank `search`, a product is listed exactly when its name contains the stripped term, ignoring ASCII case |
| Controller.Serialized | app/controllers/product_controller.py:117 | the list comprehension that serializes the query result in order |
| Controller.SerializedQuery | app/controllers/product_controller.py:116-117 | serializing a query result that holds each selected row once gives each selected product's serialization, no serialization twice, and nothing else |
| Controller.ProductTable.constructor | app/models/product.py:4-11 | a fresh table is empty, its id counter is 0, it keeps the two column defaults, and it satisfies the table invariant |
| Controller.ProductTable.Open | app/app.py:9-15 | a table reopened from the database file holds the stored rows, whatever their timestamps, with the id counter past every stored id and this process's two column defaults |
| Controller.ProductTable.Create | app/controllers/product_controller.py:58-70 | 400 with "Name and price are mandatory!" and no change for a falsy body or one lacking `name` or `price`; 500 and no change where `in` or `data['name']` raises; for an object with both keys a row is stored under a new id with the given name, price and description, the category or `General`, and the two column defaults as timestamps, and the reply is 201 with that row's serialization |
| Controller.ProductTable.Get | app/controllers/product_controller.py:90-91 | 200 with the serialization of the row under the id when there is one, 404 otherwise |
| Controller.ProductTable.Query | app/controllers/product_controller.py:113-116 | the rows the query returns are exactly the selected ones, as stored, with no id twice |
| Controller.ProductTable.List | app/controllers/product_controller.py:112-117 | 200, and the list holds the serialization of each product whose name matches the stripped `search` (every product when it is blank), none twice, and nothing else |
| Controller.ProductTable.Update | app/controllers/product_controller.py:146-160 | 404 and no change for an unknown id; otherwise 400 with "Request body must be JSON!" and no change for a falsy body; 500 and no change where the key tests or subscripts raise; otherwise only that row changes, to the patched row, and the reply is 200 with its serialization; the id counter never moves |
| Controller.ProductTable.SaveAll | app/controllers/product_controller.py:225-226 | the built rows join the table under the next ids, the counter moves past them, the table grows by the number of items, and the table invariant is kept |
| Controller.ProductTable.Delete | app/controllers/product_controller.py:180-183 | 404 and no change for an unknown id; otherwise exactly that row is removed and the reply is 200 with "Product deleted successfully!" |
| Controller.ProductTable.BulkInsert | app/controllers/product_controller.py:211-227 | 400 with "Expected a list of products" and no change unless the body is a list; 400 with "Each product must include at least 'name' and 'price'" and nothing saved if the first item not accepted lacks a key; 500 and nothing saved if checking or reading that item raises; otherwise the batch is added under fresh ids, the table grows by the number of items, and the reply is 201 with that count |
| Text.IsSpace | app/controllers/product_controller.py:112 | the characters Python's `str.strip` removes: those for which `str.isspace` holds |
| Text.TrimStart | app/controllers/product_controller.py:112 | the result is a suffix of the input, what was dropped is all whitespace, and the result does not start with whitespace |
| Text.TrimEnd | app/controllers/product_controller.py:112 | the result is a prefix of the input, what was dropped is all whitespace, and the result does not end with whitespace |
| Text.Strip | app/controllers/product_controller.py:112 | `str.strip`: the result is a slice of the input with only whitespace around it, does not start or end with whitespace, and is empty exactly when the input is all whitespace |
| Text.StripIdempotent | app/controllers/product_controller.py:112 | stripping twice is stripping once |
| Text.Contains | app/controllers/product_controller.py:115 | true exactly when the term occurs at some position of the name |
| Text.Lower | app/controllers/product_controller.py:115 | the case folding of `ILIKE` on SQLite: only `A`-`Z` are lowered |
| Text.Fold | app/controllers/product_controller.py:115 | a string folded character by character |
| Text.NameMatches | app/controllers/product_controller.py:115 | `name ILIKE '%term%'`: the folded term occurs in the folded name |
| Text.ExactOccurrenceMatches | app/controllers/product_controller.py:115 | a name containing the term verbatim matches it |
| Text.MatchIgnoresCase | app/controllers/product_controller.py:115 | lower-casing the name, the term, or both never changes whether they match |
| Text.FoldIdempotent | app/controllers/product_controller.py:115 | ASCII case folding applied twice is applied once |

## Left out

- HTTP routing, JSON encoding and decoding, and the `jsonify` response objects are not modelled. A handler gets the decoded body and returns a status with a `Reply` value. `jsonify` writes timestamps as HTTP dates to the second; a `Reply` keeps the full `Time`.
- Values of the wrong type under the four keys of an object are not modelled: `Fields` carries strings and prices only, and JSON null only for `description`. A null `name` or `price` would be refused by the non-null columns. A null `category` on create is not modelled either; what the row then holds depends on how the storage layer treats a null attribute of a column that has a default, the same open point as `nullCategory` below.
- Prices are kept as exact values. The `float(item['price'])` conversion in bulk insert, floating-point rounding and non-numeric prices are not modelled.
- The framework's own 400 and 415 answers for a malformed body or a wrong content type are not modelled.
- `%` and `_` in the search term are not treated as `LIKE` wildcards: the search is a plain substring test.
- Case is folded for ASCII letters only, as SQLite's `LIKE` does; other databases fold more.
- The `String(120)` and `String(100)` column lengths are not enforced.
- Ids come from a counter that never reuses a deleted id. SQLite may reuse the largest id after it is deleted.
- Storage errors and the 500 answers they would cause are not modelled, and neither are transactions or concurrent requests. The 500 answers the model does give are those of a `TypeError` in the handler's own code.
- Controller.ProductTable.BulkInsert: takes `nullCategory`, the category the storage layer stores for an item without `category`. Whether that is `General` or an integrity error depends on the storage layer, which is not part of this model.
- Controller.ProductTable.BulkInsert: the reply text "N products inserted successfully." is represented as `Inserted(N)`.
- Controller.ProductTable.Update: the clock reading `datetime.now(timezone.utc)` is the parameter `now`.
- `app/app.py` (application set-up) and the two web front-ends are not part of this model.
