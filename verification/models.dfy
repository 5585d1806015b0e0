/**
 * The `Product` table declared in app/models/product.py: one record per row,
 * with the declared nullability expressed in the field types.
 */
module Models {
  import opened Wrappers

  /** An instant, as stored in a `DateTime` column. */
  type Time = int

  /** The `Float` price column, treated as an opaque number. */
  type Price = real

  /** The default of the `category` column. */
  const DefaultCategory: string := "General"

  /**
   * One row. `name`, `price` and `category` are NOT NULL, so they are plain
   * values; `description` is nullable, so it is optional.
   */
  datatype Product = Product(
    id: int,
    name: string,
    price: Price,
    description: Option<string>,
    category: string,
    createdAt: Time,
    updatedAt: Time)

  /** `id` is the integer primary key: every row sits under its own id, and ids are positive. */
  ghost predicate PrimaryKeyed(rows: map<int, Product>) {
    forall id :: id in rows ==> rows[id].id == id && id >= 1
  }

  /** No two rows of a primary-keyed table share an id. */
  lemma IdsAreUnique(rows: map<int, Product>, a: int, b: int)
    requires PrimaryKeyed(rows) && a in rows && b in rows
    ensures rows[a].id == rows[b].id <==> a == b
  {
  }
}
