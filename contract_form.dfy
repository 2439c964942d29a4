/** The buyer's new-contract form: its text fields, the disabled total field
    it recomputes whenever the quantity or the price changes, the two date
    pickers, and the submit handler that builds the draft and hands it to
    `createContract`. */
module ContractFormModel {
  import opened Common
  import opened Records
  import opened ContractStore

  /** The editable fields of `contractData`. */
  datatype Field = Title | CropName | Quantity | Unit | PricePerUnit | QualityParameters | PaymentTerms

  /** `contractData`. The disabled total field is kept as the number its
      text denotes (None for the initial empty text, which parses to NaN). */
  datatype FormData = FormData(
    title: string,
    cropName: string,
    quantity: string,
    unit: string,
    pricePerUnit: string,
    totalValue: Option<real>,
    qualityParameters: string,
    paymentTerms: string)

  /** The form as it first renders: every field empty, unit "tons". */
  function InitialData(): FormData {
    FormData("", "", "", "tons", "", None, "", "")
  }

  function Get(d: FormData, f: Field): string {
    match f
    case Title => d.title
    case CropName => d.cropName
    case Quantity => d.quantity
    case Unit => d.unit
    case PricePerUnit => d.pricePerUnit
    case QualityParameters => d.qualityParameters
    case PaymentTerms => d.paymentTerms
  }

  /** `(parseFloat(quantity) || 0) * (parseFloat(price) || 0)`. */
  function TotalOf(quantity: string, price: string): real {
    NumberOrZero(quantity) * NumberOrZero(price)
  }

  /** `a` and `b` agree on every editable field other than `f`. */
  predicate SameOutside(a: FormData, b: FormData, f: Field) {
    (f != Title ==> a.title == b.title)
    && (f != CropName ==> a.cropName == b.cropName)
    && (f != Quantity ==> a.quantity == b.quantity)
    && (f != Unit ==> a.unit == b.unit)
    && (f != PricePerUnit ==> a.pricePerUnit == b.pricePerUnit)
    && (f != QualityParameters ==> a.qualityParameters == b.qualityParameters)
    && (f != PaymentTerms ==> a.paymentTerms == b.paymentTerms)
  }

  /** handleChange: the edited field takes the new text; an edit of the
      quantity or the price sets the total to `(parseFloat(q) || 0) *
      (parseFloat(p) || 0)`, reading the new text for the edited field and
      the previous text for the other one. The unit select writes its field
      the same way and leaves the total alone. */
  function Changed(d: FormData, f: Field, v: string): (r: FormData)
    ensures Get(r, f) == v
    ensures SameOutside(r, d, f)
    ensures f == Quantity ==> r.totalValue == Some(TotalOf(v, d.pricePerUnit))
    ensures f == PricePerUnit ==> r.totalValue == Some(TotalOf(d.quantity, v))
    ensures f != Quantity && f != PricePerUnit ==> r.totalValue == d.totalValue
  {
    match f
    case Title => d.(title := v)
    case CropName => d.(cropName := v)
    case Unit => d.(unit := v)
    case QualityParameters => d.(qualityParameters := v)
    case PaymentTerms => d.(paymentTerms := v)
    case Quantity => d.(quantity := v, totalValue := Some(TotalOf(v, d.pricePerUnit)))
    case PricePerUnit => d.(pricePerUnit := v, totalValue := Some(TotalOf(d.quantity, v)))
  }

  /** The total agrees with the quantity and price texts now shown, or
      neither has been touched and the total is still empty. */
  predicate TotalConsistent(d: FormData) {
    d.totalValue == Some(TotalOf(d.quantity, d.pricePerUnit))
    || (d.totalValue == None && d.quantity == "" && d.pricePerUnit == "")
  }

  function ApplyEdits(d: FormData, edits: seq<(Field, string)>): FormData
    decreases |edits|
  {
    if edits == [] then d else ApplyEdits(Changed(d, edits[0].0, edits[0].1), edits[1..])
  }

  /** Whatever the user types in whatever order, the total shown is the
      product of the quantity and price shown (with non-numbers read as 0),
      until the first of them is edited. */
  lemma {:induction false} EditsKeepTotalConsistent(d: FormData, edits: seq<(Field, string)>)
    requires TotalConsistent(d)
    ensures TotalConsistent(ApplyEdits(d, edits))
    decreases |edits|
  {
    if edits != [] {
      ChangeKeepsTotalConsistent(d, edits[0].0, edits[0].1);
      EditsKeepTotalConsistent(Changed(d, edits[0].0, edits[0].1), edits[1..]);
    }
  }

  lemma ChangeKeepsTotalConsistent(d: FormData, f: Field, v: string)
    requires TotalConsistent(d)
    ensures TotalConsistent(Changed(d, f, v))
  {
    var r := Changed(d, f, v);
    if f == Quantity {
      assert r.quantity == v && r.pricePerUnit == d.pricePerUnit;
    } else if f == PricePerUnit {
      assert r.quantity == d.quantity && r.pricePerUnit == v;
    } else {
      assert r.quantity == d.quantity && r.pricePerUnit == d.pricePerUnit && r.totalValue == d.totalValue;
    }
  }

  lemma InitialTotalConsistent()
    ensures TotalConsistent(InitialData())
    ensures InitialData().totalValue == None
  {
  }

  /** A quantity or price that is not a number counts as zero, so the total
      becomes 0. */
  lemma NonNumericGivesZeroTotal(d: FormData, f: Field, v: string)
    requires f == Quantity || f == PricePerUnit
    requires ParseFloat(v) == None
    ensures Changed(d, f, v).totalValue == Some(0.0)
  {
  }

  /** handleSubmit's guard: a profile, both dates and a non-empty farmer id. */
  predicate CanSubmit(profile: Option<Profile>, start: Option<Day>, end: Option<Day>, farmerId: Option<string>) {
    profile.Some? && start.Some? && end.Some? && Present(farmerId)
  }

  /** The draft handleSubmit sends: a pending contract with nothing done and
      nothing paid, bought by the signed-in profile from the farmer of the
      route, with the numbers parsed from the form and the stored total sent
      as it is, not recomputed from quantity and price. */
  function BuildContract(d: FormData, farmerId: string, buyer: Profile, start: Day, end: Day): (r: ContractDraft)
    ensures r.status == Pending && r.progress == 0 && r.paidAmount == 0.0
    ensures r.buyerId == buyer.id && r.farmerId == farmerId
    ensures r.totalValue == d.totalValue
    ensures r.quantity == ParseFloat(d.quantity) && r.pricePerUnit == ParseFloat(d.pricePerUnit)
    ensures r.startDate == BeforeT(start.iso) && r.endDate == BeforeT(end.iso)
    ensures r.title == d.title && r.cropName == d.cropName && r.unit == d.unit
    ensures r.paymentTerms == d.paymentTerms && r.qualityParameters == d.qualityParameters
  {
    ContractDraft(d.title, farmerId, buyer.id, d.cropName, ParseFloat(d.quantity), d.unit,
                  ParseFloat(d.pricePerUnit), d.totalValue, d.paymentTerms, d.qualityParameters,
                  BeforeT(start.iso), BeforeT(end.iso), Pending, 0, 0.0)
  }

  /** Once the quantity or the price has been typed, a consistent form
      submits as total the product of the parsed quantity and price texts
      (each NaN read as 0), for the quantity and price it submits. */
  lemma SubmittedTotalIsProduct(d: FormData, farmerId: string, buyer: Profile, start: Day, end: Day)
    requires TotalConsistent(d) && (d.quantity != "" || d.pricePerUnit != "")
    ensures var r := BuildContract(d, farmerId, buyer, start, end);
            r.totalValue == Some(TotalOf(d.quantity, d.pricePerUnit))
            && r.quantity == ParseFloat(d.quantity) && r.pricePerUnit == ParseFloat(d.pricePerUnit)
  {
  }

  /** The route the form navigates to after a contract was created. */
  const BuyerDashboardRoute: string := "/buyer/dashboard"

  class ContractForm {
    var data: FormData
    var startDate: Option<Day>
    var endDate: Option<Day>
    const api: ContractsApi

    constructor (api: ContractsApi)
      ensures data == InitialData() && startDate == None && endDate == None && this.api == api
    {
      this.api := api;
      data := InitialData();
      startDate := None;
      endDate := None;
    }

    /** An input edit or a unit choice. */
    method HandleChange(f: Field, v: string)
      modifies this
      ensures data == Changed(old(data), f, v)
      ensures startDate == old(startDate) && endDate == old(endDate)
      ensures TotalConsistent(old(data)) ==> TotalConsistent(data)
    {
      var prev := data;
      match f {
        case Title => data := prev.(title := v);
        case CropName => data := prev.(cropName := v);
        case Unit => data := prev.(unit := v);
        case QualityParameters => data := prev.(qualityParameters := v);
        case PaymentTerms => data := prev.(paymentTerms := v);
        case Quantity =>
          data := prev.(quantity := v, totalValue := Some(TotalOf(v, prev.pricePerUnit)));
        case PricePerUnit =>
          data := prev.(pricePerUnit := v, totalValue := Some(TotalOf(prev.quantity, v)));
      }
    }

    /** A click on a day of the start picker, which disables the days
        before now; a disabled day does nothing. */
    method PickStart(day: Day, now: int)
      modifies this
      ensures startDate == if DayDisabled(day, None, now) then old(startDate) else Some(day)
      ensures data == old(data) && endDate == old(endDate)
    {
      if !DayDisabled(day, None, now) {
        startDate := Some(day);
      }
    }

    /** A click on a day of the end picker, which disables the days before
        the chosen start (before now while there is none); an accepted day
        is never before the start chosen at that moment. */
    method PickEnd(day: Day, now: int)
      modifies this
      ensures endDate == if DayDisabled(day, startDate, now) then old(endDate) else Some(day)
      ensures endDate != old(endDate) && startDate.Some? ==> endDate.value.time >= startDate.value.time
      ensures data == old(data) && startDate == old(startDate)
    {
      if !DayDisabled(day, startDate, now) {
        endDate := Some(day);
      }
    }

    /** handleSubmit: nothing happens unless the guard holds; otherwise the
        draft goes to the store, and the form navigates to the buyer
        dashboard exactly when the store created the row. */
    method HandleSubmit(profile: Option<Profile>, farmerId: Option<string>, newId: string, fail: bool)
      returns (navigateTo: Option<string>)
      modifies api, api.table
      ensures !CanSubmit(profile, startDate, endDate, farmerId) ==>
                navigateTo == None && api.table.rows == old(api.table.rows)
      ensures CanSubmit(profile, startDate, endDate, farmerId) ==>
                var draft := BuildContract(data, farmerId.value, profile.value, startDate.value, endDate.value);
                var w := InsertContract(old(api.table.rows), draft, newId, fail);
                api.table.rows == w.rows && (navigateTo.Some? <==> w.result.Some?)
      ensures navigateTo.Some? ==> navigateTo.value == BuyerDashboardRoute
    {
      if !CanSubmit(profile, startDate, endDate, farmerId) {
        navigateTo := None;
        return;
      }
      var draft := BuildContract(data, farmerId.value, profile.value, startDate.value, endDate.value);
      var result := api.CreateContract(draft, newId, fail);
      navigateTo := if result.Some? then Some(BuyerDashboardRoute) else None;
    }
  }
}
