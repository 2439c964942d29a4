/** The crop-listing screens: the "Add Crop" dialog, which builds a listing
    from its fields, inserts it and hands the created row to its `onSuccess`
    callback; the farmer dashboard's list of listings with its add and delete
    handlers; and the crop tab, which wires the dialog's callback to the
    dashboard's add handler. */
module CropViews {
  import opened Common
  import opened Records
  import opened CropStore

  // ---------------------------------------------------------------------
  // The "Add Crop" dialog

  datatype CropField = CropName | Quantity | Unit | PricePerUnit | Location | Description

  /** `cropData`: the text of every input. */
  datatype CropFormData = CropFormData(
    cropName: string,
    quantity: string,
    unit: string,
    pricePerUnit: string,
    location: string,
    description: string)

  /** The dialog's fields when it first renders and after a reset. */
  function InitialCropData(): CropFormData {
    CropFormData("", "", "tons", "", "", "")
  }

  function FieldValue(d: CropFormData, f: CropField): string {
    match f
    case CropName => d.cropName
    case Quantity => d.quantity
    case Unit => d.unit
    case PricePerUnit => d.pricePerUnit
    case Location => d.location
    case Description => d.description
  }

  /** handleChange (and the unit select): one field takes the typed text. */
  function WithField(d: CropFormData, f: CropField, v: string): (r: CropFormData)
    ensures FieldValue(r, f) == v
    ensures forall g :: g != f ==> FieldValue(r, g) == FieldValue(d, g)
  {
    match f
    case CropName => d.(cropName := v)
    case Quantity => d.(quantity := v)
    case Unit => d.(unit := v)
    case PricePerUnit => d.(pricePerUnit := v)
    case Location => d.(location := v)
    case Description => d.(description := v)
  }

  /** handleSubmit's guard: a profile and both availability dates. */
  predicate CanSubmitCrop(profile: Option<Profile>, from: Option<Day>, until: Option<Day>) {
    profile.Some? && from.Some? && until.Some?
  }

  /** The submit button is disabled while the hook is loading and while a
      date is missing; it does not look at the profile. */
  predicate SubmitDisabled(isLoading: bool, from: Option<Day>, until: Option<Day>) {
    isLoading || from.None? || until.None?
  }

  /** A missing date both disables the button and stops the handler; with
      both dates and an idle hook the button is enabled, and the handler
      proceeds exactly when there is a profile. */
  lemma SubmitGuards(isLoading: bool, profile: Option<Profile>, from: Option<Day>, until: Option<Day>)
    ensures from.None? || until.None? ==> SubmitDisabled(isLoading, from, until) && !CanSubmitCrop(profile, from, until)
    ensures !isLoading && from.Some? && until.Some? ==>
              !SubmitDisabled(isLoading, from, until) && (CanSubmitCrop(profile, from, until) <==> profile.Some?)
  {
  }

  /** The listing handleSubmit sends: the form's text fields, the profile as
      farmer, quantity and price parsed, the dates cut to their part before
      'T', and the profile's location when the location field is empty. */
  function NewListing(d: CropFormData, profile: Profile, from: Day, until: Day): (r: ListingDraft)
    ensures r.farmerId == profile.id && r.cropName == d.cropName && r.unit == d.unit
    ensures r.quantity == ParseFloat(d.quantity) && r.pricePerUnit == ParseFloat(d.pricePerUnit)
    ensures r.availableFrom == BeforeT(from.iso) && r.availableUntil == BeforeT(until.iso)
    ensures d.location == "" ==> r.location == profile.location
    ensures d.location != "" ==> r.location == Some(d.location)
    ensures r.description == Some(d.description)
  {
    ListingDraft(profile.id, d.cropName, ParseFloat(d.quantity), d.unit, ParseFloat(d.pricePerUnit),
                 if d.location != "" then Some(d.location) else profile.location,
                 Some(d.description), BeforeT(from.iso), BeforeT(until.iso))
  }

  /** A day whose ISO text is `date + "T" + time` is stored as `date`. */
  lemma NewListingDates(d: CropFormData, profile: Profile, from: Day, until: Day,
                        fromDate: string, fromTime: string, untilDate: string, untilTime: string)
    requires from.iso == fromDate + "T" + fromTime && untilDate + "T" + untilTime == until.iso
    requires forall i :: 0 <= i < |fromDate| ==> fromDate[i] != 'T'
    requires forall i :: 0 <= i < |untilDate| ==> untilDate[i] != 'T'
    ensures NewListing(d, profile, from, until).availableFrom == fromDate
    ensures NewListing(d, profile, from, until).availableUntil == untilDate
  {
    BeforeTOfTimestamp(fromDate, fromTime);
    BeforeTOfTimestamp(untilDate, untilTime);
  }

  class AddCropForm {
    var data: CropFormData
    var open: bool
    var availableFrom: Option<Day>
    var availableUntil: Option<Day>
    const api: CropListingsApi

    constructor (api: CropListingsApi)
      ensures data == InitialCropData() && !open && availableFrom == None && availableUntil == None
      ensures this.api == api
    {
      this.api := api;
      data := InitialCropData();
      open := false;
      availableFrom := None;
      availableUntil := None;
    }

    /** The dialog's open state, as the trigger and the close button set it. */
    method SetOpen(b: bool)
      modifies this
      ensures open == b && data == old(data)
      ensures availableFrom == old(availableFrom) && availableUntil == old(availableUntil)
    {
      open := b;
    }

    method HandleChange(f: CropField, v: string)
      modifies this
      ensures data == WithField(old(data), f, v)
      ensures open == old(open) && availableFrom == old(availableFrom) && availableUntil == old(availableUntil)
    {
      data := WithField(data, f, v);
    }

    /** The "available from" picker, which disables the days before now. */
    method PickFrom(day: Day, now: int)
      modifies this
      ensures availableFrom == if DayDisabled(day, None, now) then old(availableFrom) else Some(day)
      ensures data == old(data) && open == old(open) && availableUntil == old(availableUntil)
    {
      if !DayDisabled(day, None, now) {
        availableFrom := Some(day);
      }
    }

    /** The "available until" picker, which disables the days before the
        chosen start (before now while there is none). */
    method PickUntil(day: Day, now: int)
      modifies this
      ensures availableUntil == if DayDisabled(day, availableFrom, now) then old(availableUntil) else Some(day)
      ensures availableUntil != old(availableUntil) && availableFrom.Some? ==>
                availableUntil.value.time >= availableFrom.value.time
      ensures data == old(data) && open == old(open) && availableFrom == old(availableFrom)
    {
      if !DayDisabled(day, availableFrom, now) {
        availableUntil := Some(day);
      }
    }

    /** handleSubmit: without a profile or a date nothing happens. Otherwise
        the listing goes to the store; when the store creates it, the dialog
        closes, every field returns to its initial value, both dates are
        cleared, and the created row is what `onSuccess` receives. A failed
        insert leaves the dialog as it was. */
    method HandleSubmit(profile: Option<Profile>, newId: string, fail: bool) returns (created: Option<CropListing>)
      modifies this, api, api.table
      ensures !CanSubmitCrop(profile, old(availableFrom), old(availableUntil)) ==>
                created == None && api.table.rows == old(api.table.rows)
                && data == old(data) && open == old(open)
                && availableFrom == old(availableFrom) && availableUntil == old(availableUntil)
      ensures CanSubmitCrop(profile, old(availableFrom), old(availableUntil)) ==>
                var draft := NewListing(old(data), profile.value, old(availableFrom).value, old(availableUntil).value);
                var w := InsertListing(old(api.table.rows), draft, newId, fail);
                api.table.rows == w.rows && created == w.result
      ensures created.Some? ==>
                !open && data == InitialCropData() && availableFrom == None && availableUntil == None
      ensures created.None? ==>
                data == old(data) && open == old(open)
                && availableFrom == old(availableFrom) && availableUntil == old(availableUntil)
    {
      if !CanSubmitCrop(profile, availableFrom, availableUntil) {
        created := None;
        return;
      }
      created := SubmitDraft(NewListing(data, profile.value, availableFrom.value, availableUntil.value), newId, fail);
    }

    /** The part of handleSubmit after its guard: create the listing and, on
        success, close and reset the dialog. */
    method SubmitDraft(draft: ListingDraft, newId: string, fail: bool) returns (created: Option<CropListing>)
      modifies this, api, api.table
      ensures var w := InsertListing(old(api.table.rows), draft, newId, fail);
              api.table.rows == w.rows && created == w.result
      ensures created.Some? ==>
                !open && data == InitialCropData() && availableFrom == None && availableUntil == None
      ensures created.None? ==>
                data == old(data) && open == old(open)
                && availableFrom == old(availableFrom) && availableUntil == old(availableUntil)
    {
      created := api.CreateCropListing(draft, newId, fail);
      if created.Some? {
        open := false;
        data := InitialCropData();
        availableFrom := None;
        availableUntil := None;
      }
    }
  }

  // ---------------------------------------------------------------------
  // The farmer dashboard's listings

  /** `cropListings.filter(crop => crop.id !== id)`. */
  function RemoveId(cs: seq<CropListing>, id: string): (r: seq<CropListing>)
    ensures |r| <= |cs|
    ensures forall c :: c in r <==> c in cs && c.id != id
  {
    if cs == [] then []
    else
      assert cs == [cs[0]] + cs[1..];
      (if cs[0].id == id then [] else [cs[0]]) + RemoveId(cs[1..], id)
  }

  /** One listing in front: it is kept unless it carries the id. */
  lemma RemoveIdCons(x: CropListing, t: seq<CropListing>, id: string)
    ensures RemoveId([x] + t, id) == (if x.id == id then [] else [x]) + RemoveId(t, id)
  {
    assert ([x] + t)[1..] == t;
  }

  /** The filter keeps the surviving listings in their order: it works on
      each part of a list separately. */
  lemma {:induction false} RemoveIdDistributes(a: seq<CropListing>, b: seq<CropListing>, id: string)
    ensures RemoveId(a + b, id) == RemoveId(a, id) + RemoveId(b, id)
  {
    if a == [] {
      assert a + b == b;
    } else {
      var x, t := a[0], a[1..];
      var h := if x.id == id then [] else [x];
      assert a == [x] + t;
      assert a + b == [x] + (t + b);
      calc {
        RemoveId(a + b, id);
        { RemoveIdCons(x, t + b, id); }
        h + RemoveId(t + b, id);
        { RemoveIdDistributes(t, b, id); }
        h + (RemoveId(t, id) + RemoveId(b, id));
        (h + RemoveId(t, id)) + RemoveId(b, id);
        { RemoveIdCons(x, t, id); }
        RemoveId(a, id) + RemoveId(b, id);
      }
    }
  }

  /** A list without that id is left exactly as it is. */
  lemma {:induction false} RemoveIdAbsent(cs: seq<CropListing>, id: string)
    requires forall i :: 0 <= i < |cs| ==> cs[i].id != id
    ensures RemoveId(cs, id) == cs
  {
    if cs != [] {
      RemoveIdAbsent(cs[1..], id);
    }
  }

  /** The row handleAddCropListing builds from the `cropData` it is given:
      the signed-in profile as farmer, the crop's fields, and '' for a
      missing description or location. It carries no id, so the store
      assigns a fresh one. */
  function Resubmitted(row: CropListing, profile: Profile): (r: ListingDraft)
    ensures r.farmerId == profile.id && r.cropName == row.cropName && r.unit == row.unit
    ensures r.quantity == Some(row.quantity) && r.pricePerUnit == Some(row.pricePerUnit)
    ensures r.availableFrom == row.availableFrom && r.availableUntil == row.availableUntil
    ensures r.description == Some(row.description.GetOr("")) && r.location == Some(row.location.GetOr(""))
  {
    ListingDraft(profile.id, row.cropName, Some(row.quantity), row.unit, Some(row.pricePerUnit),
                 Some(row.location.GetOr("")), Some(row.description.GetOr("")),
                 row.availableFrom, row.availableUntil)
  }

  class FarmerCrops {
    var cropListings: seq<CropListing>
    const api: CropListingsApi

    constructor (api: CropListingsApi, fetched: seq<CropListing>)
      ensures this.api == api && cropListings == fetched
    {
      this.api := api;
      cropListings := fetched;
    }

    /** handleAddCropListing: nothing without a profile id; otherwise insert
        the rebuilt row and, when the store creates it, put it first. */
    method HandleAddCropListing(profile: Option<Profile>, cropData: CropListing, newId: string, fail: bool)
      modifies this, api, api.table
      ensures profile.None? || profile.value.id == "" ==>
                cropListings == old(cropListings) && api.table.rows == old(api.table.rows)
      ensures profile.Some? && profile.value.id != "" ==>
                var w := InsertListing(old(api.table.rows), Resubmitted(cropData, profile.value), newId, fail);
                api.table.rows == w.rows
                && cropListings == (if w.result.Some? then [w.result.value] + old(cropListings) else old(cropListings))
    {
      if profile.None? || profile.value.id == "" {
        return;
      }
      var result := api.CreateCropListing(Resubmitted(cropData, profile.value), newId, fail);
      if result.Some? {
        cropListings := [result.value] + cropListings;
      }
    }

    /** What the dialog's callback evidently means to do: show the listing
        the dialog has already created, first in the list. */
    method AcceptCreatedListing(created: CropListing)
      modifies this
      ensures cropListings == [created] + old(cropListings)
    {
      cropListings := [created] + cropListings;
    }

    /** handleDeleteCropListing: delete in the store and, on success, drop the
        listings with that id from the list. */
    method HandleDeleteCropListing(id: string, fail: bool) returns (ok: bool)
      modifies this, api, api.table
      ensures (api.table.rows, ok) == DeleteListing(old(api.table.rows), id, fail)
      ensures cropListings == if ok then RemoveId(old(cropListings), id) else old(cropListings)
    {
      ok := api.DeleteCropListing(id, fail);
      if ok {
        cropListings := RemoveId(cropListings, id);
      }
    }
  }

  // ---------------------------------------------------------------------
  // The crop tab: the dialog's callback wired to the add handler

  /** The table and the dashboard's list after an add. */
  datatype CropScreen = CropScreen(rows: map<string, CropListing>, listings: seq<CropListing>)

  /** The add as wired: the dialog inserts its listing, its callback hands
      the created row to handleAddCropListing, and that inserts it again
      under a second id and shows only the second row. */
  function AddAsWritten(rows: map<string, CropListing>, listings: seq<CropListing>, draft: ListingDraft,
                        profile: Profile, id1: string, id2: string, fail1: bool, fail2: bool): CropScreen
  {
    var w1 := InsertListing(rows, draft, id1, fail1);
    if w1.result.None? then CropScreen(rows, listings)
    else if profile.id == "" then CropScreen(w1.rows, listings)
    else
      var w2 := InsertListing(w1.rows, Resubmitted(w1.result.value, profile), id2, fail2);
      CropScreen(w2.rows, if w2.result.Some? then [w2.result.value] + listings else listings)
  }

  /** The add as intended: one insert, and the created row shown first. */
  function AddCorrected(rows: map<string, CropListing>, listings: seq<CropListing>, draft: ListingDraft,
                        id1: string, fail1: bool): CropScreen
  {
    var w1 := InsertListing(rows, draft, id1, fail1);
    CropScreen(w1.rows, if w1.result.Some? then [w1.result.value] + listings else listings)
  }

  /** When neither store call fails, one click on "Add" stores the crop
      twice: two new rows, under both ids, for the same crop and quantity. */
  lemma AddAsWrittenInsertsTwice(rows: map<string, CropListing>, listings: seq<CropListing>, draft: ListingDraft,
                                 profile: Profile, id1: string, id2: string)
    requires id1 != id2 && id1 !in rows && id2 !in rows && profile.id != ""
    requires draft.quantity.Some? && draft.pricePerUnit.Some?
    ensures var s := AddAsWritten(rows, listings, draft, profile, id1, id2, false, false);
            |s.rows| == |rows| + 2 && s.rows.Keys == rows.Keys + {id1, id2}
            && s.rows[id1].cropName == s.rows[id2].cropName == draft.cropName
            && s.rows[id1].quantity == s.rows[id2].quantity
  {
    var row1 := ListingOf(draft, id1);
    var row2 := ListingOf(Resubmitted(row1, profile), id2);
    assert InsertListing(rows, draft, id1, false) == Write(rows[id1 := row1], Some(row1));
    assert InsertListing(rows[id1 := row1], Resubmitted(row1, profile), id2, false)
        == Write(rows[id1 := row1][id2 := row2], Some(row2));
  }

  /** ... and the list shows only the second copy, not the row the dialog
      created (when every listed row was already in the table). */
  lemma AddAsWrittenShowsSecondCopy(rows: map<string, CropListing>, listings: seq<CropListing>, draft: ListingDraft,
                                    profile: Profile, id1: string, id2: string)
    requires id1 != id2 && id1 !in rows && id2 !in rows && profile.id != ""
    requires draft.quantity.Some? && draft.pricePerUnit.Some?
    requires forall i :: 0 <= i < |listings| ==> listings[i].id in rows
    ensures var s := AddAsWritten(rows, listings, draft, profile, id1, id2, false, false);
            id1 in s.rows && id2 in s.rows
            && s.listings == [s.rows[id2]] + listings && s.rows[id1] !in s.listings
  {
    var row1 := ListingOf(draft, id1);
    var row2 := ListingOf(Resubmitted(row1, profile), id2);
    assert InsertListing(rows, draft, id1, false) == Write(rows[id1 := row1], Some(row1));
    assert InsertListing(rows[id1 := row1], Resubmitted(row1, profile), id2, false)
        == Write(rows[id1 := row1][id2 := row2], Some(row2));
    assert forall i :: 0 <= i < |listings| ==> listings[i].id != id1;
  }

  /** The intended add stores the crop once and shows that very row first. */
  lemma AddCorrectedInsertsOnce(rows: map<string, CropListing>, listings: seq<CropListing>, draft: ListingDraft, id1: string)
    requires id1 !in rows && draft.quantity.Some? && draft.pricePerUnit.Some?
    ensures var s := AddCorrected(rows, listings, draft, id1, false);
            |s.rows| == |rows| + 1 && s.rows.Keys == rows.Keys + {id1}
            && s.listings == [s.rows[id1]] + listings && s.rows[id1].cropName == draft.cropName
  {
  }

  /** A failed insert in the dialog changes neither the table nor the list
      on either wiring. */
  lemma FailedAddChangesNothing(rows: map<string, CropListing>, listings: seq<CropListing>, draft: ListingDraft,
                                profile: Profile, id1: string, id2: string, fail2: bool)
    ensures AddAsWritten(rows, listings, draft, profile, id1, id2, true, fail2) == CropScreen(rows, listings)
    ensures AddCorrected(rows, listings, draft, id1, true) == CropScreen(rows, listings)
  {
  }

  /** The crop tab as written: the dialog's submit, then its `onSuccess`
      forwarding the created row to handleAddCropListing. The dialog and the
      dashboard each hold their own hook over the same table. */
  method SubmitAsWired(form: AddCropForm, page: FarmerCrops, profile: Option<Profile>,
                       id1: string, id2: string, fail1: bool, fail2: bool)
    requires form.api.table == page.api.table
    requires CanSubmitCrop(profile, form.availableFrom, form.availableUntil)
    modifies form, form.api, page, page.api, page.api.table
    ensures var draft := NewListing(old(form.data), profile.value, old(form.availableFrom).value, old(form.availableUntil).value);
            var s := AddAsWritten(old(page.api.table.rows), old(page.cropListings), draft, profile.value, id1, id2, fail1, fail2);
            page.api.table.rows == s.rows && page.cropListings == s.listings
  {
    var created := form.HandleSubmit(profile, id1, fail1);
    if created.Some? {
      page.HandleAddCropListing(profile, created.value, id2, fail2);
    }
  }

  /** The crop tab as intended: the callback only shows the created row. */
  method SubmitCorrected(form: AddCropForm, page: FarmerCrops, profile: Option<Profile>, id1: string, fail1: bool)
    requires form.api.table == page.api.table
    requires CanSubmitCrop(profile, form.availableFrom, form.availableUntil)
    modifies form, form.api, page, page.api.table
    ensures var draft := NewListing(old(form.data), profile.value, old(form.availableFrom).value, old(form.availableUntil).value);
            var s := AddCorrected(old(page.api.table.rows), old(page.cropListings), draft, id1, fail1);
            page.api.table.rows == s.rows && page.cropListings == s.listings
  {
    var created := form.HandleSubmit(profile, id1, fail1);
    if created.Some? {
      page.AcceptCreatedListing(created.value);
    }
  }
}
