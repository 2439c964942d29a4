/** The `crop_listings` table and the crop-listing hook over it: insert one
    listing, patch the listing with a given id, delete by id. */
module CropStore {
  import opened Common
  import opened Records

  /** The row the store creates from a draft under the id it assigns. */
  function ListingOf(d: ListingDraft, id: string): CropListing
    requires d.quantity.Some? && d.pricePerUnit.Some?
  {
    CropListing(id, d.farmerId, d.cropName, d.quantity.value, d.unit, d.pricePerUnit.value,
                d.location, d.description, d.availableFrom, d.availableUntil)
  }

  /** `insert([draft]).select().single()`: fails on a store error, an id
      already taken, and a null (NaN) quantity or price, which are NOT NULL
      columns; otherwise adds exactly one row and returns it. */
  function InsertListing(rows: map<string, CropListing>, d: ListingDraft, newId: string, fail: bool): (w: Write<CropListing>)
    ensures w.result.Some? <==> !fail && newId !in rows && d.quantity.Some? && d.pricePerUnit.Some?
    ensures w.result.None? ==> w.rows == rows
    ensures w.result.Some? ==> |w.rows| == |rows| + 1 && w.rows.Keys == rows.Keys + {newId}
    ensures w.result.Some? ==> w.result.value.id == newId && w.rows[newId] == w.result.value
    ensures w.result.Some? ==>
              var c := w.result.value;
              c.farmerId == d.farmerId && c.cropName == d.cropName && c.quantity == d.quantity.value
              && c.unit == d.unit && c.pricePerUnit == d.pricePerUnit.value && c.location == d.location
              && c.description == d.description && c.availableFrom == d.availableFrom
              && c.availableUntil == d.availableUntil
    ensures forall k :: k in rows ==> k in w.rows && w.rows[k] == rows[k]
  {
    if fail || newId in rows || d.quantity.None? || d.pricePerUnit.None? then Write(rows, None)
    else
      var row := ListingOf(d, newId);
      Write(rows[newId := row], Some(row))
  }

  /** The columns an update may carry; None leaves a column out of the
      request. `location` and `description` may be set to null. The hook
      forwards any object, so the farmer column is among them; the id, the
      row's key, is not. */
  datatype ListingPatch = ListingPatch(
    farmerId: Option<string>,
    cropName: Option<string>,
    quantity: Option<real>,
    unit: Option<string>,
    pricePerUnit: Option<real>,
    location: Option<Option<string>>,
    description: Option<Option<string>>,
    availableFrom: Option<string>,
    availableUntil: Option<string>)

  /** The row after an update: each column the patch carries takes its
      value, every other column keeps its own, and the id is kept. */
  function Patched(c: CropListing, p: ListingPatch): (r: CropListing)
    ensures r.id == c.id && r.farmerId == p.farmerId.GetOr(c.farmerId)
    ensures r.cropName == p.cropName.GetOr(c.cropName) && r.quantity == p.quantity.GetOr(c.quantity)
    ensures r.unit == p.unit.GetOr(c.unit) && r.pricePerUnit == p.pricePerUnit.GetOr(c.pricePerUnit)
    ensures r.location == p.location.GetOr(c.location) && r.description == p.description.GetOr(c.description)
    ensures r.availableFrom == p.availableFrom.GetOr(c.availableFrom)
    ensures r.availableUntil == p.availableUntil.GetOr(c.availableUntil)
  {
    CropListing(c.id, p.farmerId.GetOr(c.farmerId), p.cropName.GetOr(c.cropName), p.quantity.GetOr(c.quantity),
                p.unit.GetOr(c.unit), p.pricePerUnit.GetOr(c.pricePerUnit),
                p.location.GetOr(c.location), p.description.GetOr(c.description),
                p.availableFrom.GetOr(c.availableFrom), p.availableUntil.GetOr(c.availableUntil))
  }

  /** The patch that carries nothing. */
  function EmptyPatch(): ListingPatch {
    ListingPatch(None, None, None, None, None, None, None, None, None)
  }

  /** An empty patch changes nothing, and patching twice is patching once
      with the later patch laid over the earlier one. */
  lemma PatchLaws(c: CropListing, p: ListingPatch, q: ListingPatch)
    ensures Patched(c, EmptyPatch()) == c
    ensures Patched(Patched(c, p), q) == Patched(c, Overlay(p, q))
  {
  }

  /** `q` laid over `p`: the columns of `q`, and those of `p` it leaves out. */
  function Overlay(p: ListingPatch, q: ListingPatch): ListingPatch {
    ListingPatch(
      if q.farmerId.Some? then q.farmerId else p.farmerId,
      if q.cropName.Some? then q.cropName else p.cropName,
      if q.quantity.Some? then q.quantity else p.quantity,
      if q.unit.Some? then q.unit else p.unit,
      if q.pricePerUnit.Some? then q.pricePerUnit else p.pricePerUnit,
      if q.location.Some? then q.location else p.location,
      if q.description.Some? then q.description else p.description,
      if q.availableFrom.Some? then q.availableFrom else p.availableFrom,
      if q.availableUntil.Some? then q.availableUntil else p.availableUntil)
  }

  /** `update(patch).eq("id", id).select().single()`: an error and an id that
      matches no row yield null and leave the table; otherwise only that
      row changes. */
  function PatchListing(rows: map<string, CropListing>, id: string, p: ListingPatch, fail: bool): (w: Write<CropListing>)
    ensures w.result.Some? <==> !fail && id in rows
    ensures w.rows.Keys == rows.Keys
    ensures forall k :: k in rows && k != id ==> w.rows[k] == rows[k]
    ensures w.result.None? ==> w.rows == rows
    ensures w.result.Some? ==> w.result.value == Patched(rows[id], p) && w.rows[id] == w.result.value
  {
    if fail || id !in rows then Write(rows, None)
    else
      var row := Patched(rows[id], p);
      Write(rows[id := row], Some(row))
  }

  /** `delete().eq("id", id)`: true and the row gone unless the store
      reports an error; deleting an id that matches nothing is not an error. */
  function DeleteListing(rows: map<string, CropListing>, id: string, fail: bool): (r: (map<string, CropListing>, bool))
    ensures r.1 <==> !fail
    ensures r.1 ==> r.0.Keys == rows.Keys - {id} && id !in r.0
    ensures !r.1 ==> r.0 == rows
    ensures forall k :: k in rows && k != id ==> k in r.0 && r.0[k] == rows[k]
  {
    if fail then (rows, false) else (rows - {id}, true)
  }

  /** Deleting twice is deleting once. */
  lemma DeleteIdempotent(rows: map<string, CropListing>, id: string)
    ensures DeleteListing(DeleteListing(rows, id, false).0, id, false).0 == DeleteListing(rows, id, false).0
  {
  }

  /** Deleting a listing just created gives back the table as it was. */
  lemma DeleteUndoesInsert(rows: map<string, CropListing>, d: ListingDraft, newId: string)
    requires InsertListing(rows, d, newId, false).result.Some?
    ensures DeleteListing(InsertListing(rows, d, newId, false).rows, newId, false).0 == rows
  {
    var w := InsertListing(rows, d, newId, false);
    assert DeleteListing(w.rows, newId, false).0.Keys == rows.Keys;
  }

  class ListingTable {
    var rows: map<string, CropListing>

    constructor (initial: map<string, CropListing>)
      ensures rows == initial
    {
      rows := initial;
    }
  }

  /** One instance of the crop-listing hook: its own loading flag over the
      shared table. */
  class CropListingsApi {
    var isLoading: bool
    const table: ListingTable

    constructor (table: ListingTable)
      ensures this.table == table && !isLoading
    {
      this.table := table;
      isLoading := false;
    }

    method CreateCropListing(d: ListingDraft, newId: string, fail: bool) returns (r: Option<CropListing>)
      modifies this, table
      ensures var w := InsertListing(old(table.rows), d, newId, fail); table.rows == w.rows && r == w.result
      ensures !isLoading
    {
      isLoading := true;
      if fail || newId in table.rows || d.quantity.None? || d.pricePerUnit.None? {
        r := None;
      } else {
        var row := ListingOf(d, newId);
        table.rows := table.rows[newId := row];
        r := Some(row);
      }
      isLoading := false;
    }

    method UpdateCropListing(id: string, p: ListingPatch, fail: bool) returns (r: Option<CropListing>)
      modifies this, table
      ensures var w := PatchListing(old(table.rows), id, p, fail); table.rows == w.rows && r == w.result
      ensures !isLoading
    {
      isLoading := true;
      if fail || id !in table.rows {
        r := None;
      } else {
        var row := Patched(table.rows[id], p);
        table.rows := table.rows[id := row];
        r := Some(row);
      }
      isLoading := false;
    }

    method DeleteCropListing(id: string, fail: bool) returns (ok: bool)
      modifies this, table
      ensures (table.rows, ok) == DeleteListing(old(table.rows), id, fail)
      ensures !isLoading
    {
      isLoading := true;
      if fail {
        ok := false;
      } else {
        table.rows := table.rows - {id};
        ok := true;
      }
      isLoading := false;
    }
  }
}
