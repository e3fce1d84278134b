/** `save_product` of supabase_operations.py: insert-or-update of one product
    in the `products` table, keyed by `id`. The table is held in memory; the
    module-level client is a flag; whether the database calls go through is a
    parameter; the clock reading `now` is a parameter. */
module Sink {
  import opened Wrappers

  /** The product dictionary handed to `save_product`; `None` is a key that is
      absent. */
  datatype ProductInput = ProductInput(
    id: Option<string>, name: Option<string>, tagline: Option<string>,
    description: Option<string>, url: Option<string>, websiteUrl: Option<string>,
    thumbnailUrl: Option<string>, launchDate: Option<string>, upvotes: Option<int>,
    makerIds: Option<seq<string>>, topics: Option<seq<string>>)

  /** The columns every save writes; the optional ones hold `None` when the
      product lacks the key. */
  datatype Columns = Columns(
    name: string, tagline: Option<string>, description: Option<string>,
    url: Option<string>, websiteUrl: Option<string>, thumbnailUrl: Option<string>,
    launchDate: Option<string>, upvotes: int, makerIds: seq<string>, topics: seq<string>)

  datatype Row = Row(id: string, columns: Columns, createdAt: string, updatedAt: string)

  /** The `product_data` dictionary, less `updated_at`. */
  function ColumnsOf(p: ProductInput): Columns
    requires p.name.Some?
  {
    Columns(
      name := p.name.value, tagline := p.tagline, description := p.description,
      url := p.url, websiteUrl := p.websiteUrl, thumbnailUrl := p.thumbnailUrl,
      launchDate := p.launchDate, upvotes := p.upvotes.GetOr(0),
      makerIds := p.makerIds.GetOr([]), topics := p.topics.GetOr([]))
  }

  /** Every row is filed under its own id. */
  predicate KeyedById(rows: map<string, Row>)
  {
    forall k | k in rows :: rows[k].id == k
  }

  /** Whether a save writes at all: it needs the client, both `id` and
      `name` (a missing one raises `KeyError`, which is swallowed), and the
      database calls to go through. */
  predicate Writes(p: ProductInput, ok: bool)
  {
    ok && p.id.Some? && p.name.Some?
  }

  /** The table after one save. */
  function Upserted(rows: map<string, Row>, p: ProductInput, now: string, ok: bool): map<string, Row>
  {
    if !Writes(p, ok) then rows
    else
      var id := p.id.value;
      if id in rows then rows[id := rows[id].(columns := ColumnsOf(p), updatedAt := now)]
      else rows[id := Row(id, ColumnsOf(p), now, now)]
  }

  class ProductsTable {
    var rows: map<string, Row>
    /** The module-level `supabase` client was created. */
    var connected: bool

    ghost predicate Valid()
      reads this
    {
      KeyedById(rows)
    }

    constructor (connected: bool)
      ensures rows == map[] && this.connected == connected
      ensures Valid()
    {
      rows := map[];
      this.connected := connected;
    }

    /** `save_product`: never raises; writes nothing unless it `Writes`. */
    method SaveProduct(p: ProductInput, now: string, backendOk: bool)
      requires Valid()
      modifies this
      ensures Valid()
      ensures connected == old(connected)
      ensures rows == Upserted(old(rows), p, now, old(connected) && backendOk)
    {
      if !connected {
        return;
      }
      if p.id.None? || p.name.None? || !backendOk {
        return;
      }
      var id := p.id.value;
      var data := ColumnsOf(p);
      if id in rows {
        rows := rows[id := rows[id].(columns := data, updatedAt := now)];
      } else {
        rows := rows[id := Row(id, data, now, now)];
      }
    }
  }

  // ---------------------------------------------------------------------
  // What a save promises
  // ---------------------------------------------------------------------

  /** A save keeps every row filed under its own id, so there is at most one
      row per id however many saves run. */
  lemma UpsertKeepsRowsKeyed(rows: map<string, Row>, p: ProductInput, now: string, ok: bool)
    requires KeyedById(rows)
    ensures KeyedById(Upserted(rows, p, now, ok))
  {
  }

  /** Without a client, without `id` or `name`, or when the database fails,
      the table is left as it was. */
  lemma NoWriteLeavesTable(rows: map<string, Row>, p: ProductInput, now: string, ok: bool)
    requires !ok || p.id.None? || p.name.None?
    ensures Upserted(rows, p, now, ok) == rows
  {
  }

  /** A save touches only the row of its own id, and adds no other id. */
  lemma UpsertTouchesOneRow(rows: map<string, Row>, p: ProductInput, now: string, ok: bool)
    ensures var after := Upserted(rows, p, now, ok);
      (forall k | k in rows && (p.id.None? || k != p.id.value) :: k in after && after[k] == rows[k]) &&
      (forall k | k in after :: k in rows || (Writes(p, ok) && k == p.id.value))
  {
  }

  /** What a write leaves in the product's row: every mutable column from the
      product, with `None`, 0 or `[]` for a missing key, `updated_at` set to
      now; an existing row keeps its `id` and `created_at`, a new one gets
      `created_at == updated_at == now`. */
  lemma UpsertWritesRow(rows: map<string, Row>, p: ProductInput, now: string, ok: bool)
    requires Writes(p, ok)
    ensures var id := p.id.value;
      var row := Upserted(rows, p, now, ok)[id];
      row.columns.name == p.name.value &&
      row.columns.tagline == p.tagline && row.columns.description == p.description &&
      row.columns.url == p.url && row.columns.websiteUrl == p.websiteUrl &&
      row.columns.thumbnailUrl == p.thumbnailUrl && row.columns.launchDate == p.launchDate &&
      (p.upvotes.None? ==> row.columns.upvotes == 0) &&
      (p.upvotes.Some? ==> row.columns.upvotes == p.upvotes.value) &&
      (p.makerIds.None? ==> row.columns.makerIds == []) &&
      (p.makerIds.Some? ==> row.columns.makerIds == p.makerIds.value) &&
      (p.topics.None? ==> row.columns.topics == []) &&
      (p.topics.Some? ==> row.columns.topics == p.topics.value) &&
      row.updatedAt == now &&
      (id in rows ==> row.id == rows[id].id && row.createdAt == rows[id].createdAt) &&
      (id !in rows ==> row.id == id && row.createdAt == now)
  {
  }

  /** Saving the same product twice leaves the table as saving it once, except
      for the second save's `updated_at`. */
  lemma SaveTwiceIsSaveOnce(rows: map<string, Row>, p: ProductInput, t1: string, t2: string)
    ensures var once := Upserted(rows, p, t1, true);
      Upserted(once, p, t2, true) ==
        (if Writes(p, true) then once[p.id.value := once[p.id.value].(updatedAt := t2)] else once)
  {
  }
}
