/** The contract lists of the four contract pages (buyer dashboard, buyer
    contracts page, farmer dashboard, farmer contracts page). Each page keeps
    the contracts it fetched in a local list; its handlers call the store and,
    only when the store answers with a row, rewrite the matching entries of
    the list with the value they asked for. The buttons decide what is asked:
    the status toggle, the ±10 progress buttons and "Make Payment". */
module ContractViews {
  import opened Common
  import opened Records
  import opened ContractRules
  import opened ContractStore

  /** `contracts.map(c => c.id === id ? { ...c, field: value } : c)`. */
  function ReplaceWhere(cs: seq<Contract>, id: string, p: ContractPatch): (r: seq<Contract>)
    ensures |r| == |cs|
    ensures forall i :: 0 <= i < |cs| ==> r[i].id == cs[i].id
    ensures forall i :: 0 <= i < |cs| && cs[i].id != id ==> r[i] == cs[i]
    ensures forall i :: 0 <= i < |cs| && cs[i].id == id ==> r[i] == ApplyPatch(cs[i], p)
  {
    if cs == [] then []
    else [if cs[0].id == id then ApplyPatch(cs[0], p) else cs[0]] + ReplaceWhere(cs[1..], id, p)
  }

  /** No two entries of the list carry the same id (the list is a query
      result over a table keyed by id). */
  predicate UniqueIds(cs: seq<Contract>) {
    forall i, j :: 0 <= i < |cs| && 0 <= j < |cs| && cs[i].id == cs[j].id ==> i == j
  }

  /** Every entry of the local list is the current row of the table. */
  predicate Mirrors(cs: seq<Contract>, rows: map<string, Contract>) {
    forall i :: 0 <= i < |cs| ==> cs[i].id in rows && rows[cs[i].id] == cs[i]
  }

  /** A handler keeps the page in step with the table: after its write the
      list still shows exactly the stored rows, whether the write succeeded
      (both changed the same way) or failed (neither changed). */
  lemma WriteKeepsMirror(cs: seq<Contract>, rows: map<string, Contract>, id: string, p: ContractPatch, fail: bool)
    requires Mirrors(cs, rows)
    ensures var w := UpdateRow(rows, id, p, fail);
            Mirrors(if w.result.Some? then ReplaceWhere(cs, id, p) else cs, w.rows)
  {
    var w := UpdateRow(rows, id, p, fail);
    if w.result.Some? {
      var r := ReplaceWhere(cs, id, p);
      forall i | 0 <= i < |r|
        ensures r[i].id in w.rows && w.rows[r[i].id] == r[i]
      {
        if cs[i].id == id {
          assert rows[id] == cs[i];
        }
      }
    }
  }

  /** A toggle click on an entry that is not cancelled sets that entry to
      the toggle's target and never makes any entry pending or cancelled. */
  lemma ToggleClickStatuses(cs: seq<Contract>, i: int)
    requires UniqueIds(cs) && 0 <= i < |cs| && !ToggleDisabled(cs[i].status)
    ensures var r := ReplaceWhere(cs, cs[i].id, StatusPatch(ToggleTarget(cs[i].status)));
            r[i].status == ToggleTarget(cs[i].status)
            && (forall j :: 0 <= j < |r| && j != i ==> r[j] == cs[j])
            && (forall j :: 0 <= j < |r| && r[j].status in {Pending, Cancelled} ==> r[j].status == cs[j].status)
  {
  }

  /** A progress click keeps every progress in [0,100] when all of them
      were: the clamped target lands in range. */
  lemma ProgressClickKeepsRange(cs: seq<Contract>, i: int, up: bool)
    requires 0 <= i < |cs|
    requires forall j :: 0 <= j < |cs| ==> 0 <= ProgressOf(cs[j]) <= 100
    ensures var target := if up then StepUp(cs[i].progress) else StepDown(cs[i].progress);
            var r := ReplaceWhere(cs, cs[i].id, ProgressPatch(target));
            forall j :: 0 <= j < |r| ==> 0 <= ProgressOf(r[j]) <= 100
  {
    StepsStayInRange(cs[i].progress);
  }

  /** A payment click on an offered entry raises what is recorded as paid
      on that entry, keeps every entry within `0 <= paid <= total`, and
      leaves every other entry alone. */
  lemma PaymentClickKeepsRange(cs: seq<Contract>, i: int)
    requires UniqueIds(cs) && 0 <= i < |cs| && PaymentOffered(cs[i])
    requires forall j :: 0 <= j < |cs| ==> PaymentInRange(cs[j])
    ensures var r := ReplaceWhere(cs, cs[i].id, PaidPatch(PaymentTarget(PaidOf(cs[i]), cs[i].totalValue)));
            PaidOf(cs[i]) < PaidOf(r[i])
            && (forall j :: 0 <= j < |r| ==> PaymentInRange(r[j]))
            && (forall j :: 0 <= j < |r| && j != i ==> r[j] == cs[j])
  {
    PaymentClickAdvances(cs[i]);
  }

  /** A contract page: the list it holds and the contract hook it calls. */
  class ContractsPage {
    var contracts: seq<Contract>
    const api: ContractsApi

    constructor (api: ContractsApi, fetched: seq<Contract>)
      ensures this.api == api && contracts == fetched
    {
      this.api := api;
      contracts := fetched;
    }

    /** handleUpdateStatus: write the status; on success show it locally. */
    method HandleUpdateStatus(id: string, newStatus: Status, fail: bool) returns (ok: bool)
      modifies this, api, api.table
      ensures var w := UpdateRow(old(api.table.rows), id, StatusPatch(newStatus), fail);
              api.table.rows == w.rows && ok == w.result.Some?
              && contracts == (if ok then ReplaceWhere(old(contracts), id, StatusPatch(newStatus)) else old(contracts))
      ensures Mirrors(old(contracts), old(api.table.rows)) ==> Mirrors(contracts, api.table.rows)
    {
      ghost var cs0, rows0 := contracts, api.table.rows;
      var result := api.UpdateContractStatus(id, newStatus, fail);
      ok := result.Some?;
      if ok {
        contracts := ReplaceWhere(contracts, id, StatusPatch(newStatus));
      }
      if Mirrors(cs0, rows0) {
        WriteKeepsMirror(cs0, rows0, id, StatusPatch(newStatus), fail);
      }
    }

    /** handleUpdateProgress: write the progress; on success show it locally. */
    method HandleUpdateProgress(id: string, newProgress: int, fail: bool) returns (ok: bool)
      modifies this, api, api.table
      ensures var w := UpdateRow(old(api.table.rows), id, ProgressPatch(newProgress), fail);
              api.table.rows == w.rows && ok == w.result.Some?
              && contracts == (if ok then ReplaceWhere(old(contracts), id, ProgressPatch(newProgress)) else old(contracts))
      ensures Mirrors(old(contracts), old(api.table.rows)) ==> Mirrors(contracts, api.table.rows)
    {
      ghost var cs0, rows0 := contracts, api.table.rows;
      var result := api.UpdateContractProgress(id, newProgress, fail);
      ok := result.Some?;
      if ok {
        contracts := ReplaceWhere(contracts, id, ProgressPatch(newProgress));
      }
      if Mirrors(cs0, rows0) {
        WriteKeepsMirror(cs0, rows0, id, ProgressPatch(newProgress), fail);
      }
    }

    /** handleMakePayment: write `min(total, paid + total/5)` as the new
        paid amount; on success show it locally and report the increment. */
    method HandleMakePayment(id: string, currentPaid: real, totalValue: real, fail: bool) returns (increment: Option<real>)
      modifies this, api, api.table
      ensures var amount := PaymentTarget(currentPaid, totalValue);
              var w := UpdateRow(old(api.table.rows), id, PaidPatch(amount), fail);
              api.table.rows == w.rows && (increment.Some? <==> w.result.Some?)
              && contracts == (if w.result.Some? then ReplaceWhere(old(contracts), id, PaidPatch(amount)) else old(contracts))
      ensures increment.Some? ==> increment.value == PaymentIncrement(currentPaid, totalValue)
      ensures Mirrors(old(contracts), old(api.table.rows)) ==> Mirrors(contracts, api.table.rows)
    {
      ghost var cs0, rows0 := contracts, api.table.rows;
      var amount := PaymentTarget(currentPaid, totalValue);
      var result := api.UpdatePaymentAmount(id, amount, fail);
      if result.Some? {
        contracts := ReplaceWhere(contracts, id, PaidPatch(amount));
        increment := Some(amount - currentPaid);
      } else {
        increment := None;
      }
      if Mirrors(cs0, rows0) {
        WriteKeepsMirror(cs0, rows0, id, PaidPatch(amount), fail);
      }
    }

    /** The "Mark Complete" / "Mark Active" button of entry `i`: disabled on
        a cancelled contract, otherwise it asks for the toggle's target. */
    method ClickToggle(i: int, fail: bool)
      requires 0 <= i < |contracts|
      modifies this, api, api.table
      ensures ToggleDisabled(old(contracts[i].status)) ==> contracts == old(contracts) && api.table.rows == old(api.table.rows)
      ensures !ToggleDisabled(old(contracts[i].status)) ==>
                var c := old(contracts[i]);
                var w := UpdateRow(old(api.table.rows), c.id, StatusPatch(ToggleTarget(c.status)), fail);
                api.table.rows == w.rows
                && contracts == (if w.result.Some? then ReplaceWhere(old(contracts), c.id, StatusPatch(ToggleTarget(c.status))) else old(contracts))
      ensures Mirrors(old(contracts), old(api.table.rows)) ==> Mirrors(contracts, api.table.rows)
    {
      var c := contracts[i];
      if !ToggleDisabled(c.status) {
        var _ := HandleUpdateStatus(c.id, ToggleTarget(c.status), fail);
      }
    }

    /** The "+10%" (`up`) or "-10%" button of entry `i`, each disabled at
        its end of the range. */
    method ClickStep(i: int, up: bool, fail: bool)
      requires 0 <= i < |contracts|
      modifies this, api, api.table
      ensures var p := old(contracts[i].progress);
              (if up then StepUpDisabled(p) else StepDownDisabled(p)) ==>
                contracts == old(contracts) && api.table.rows == old(api.table.rows)
      ensures var c := old(contracts[i]);
              var target := if up then StepUp(c.progress) else StepDown(c.progress);
              !(if up then StepUpDisabled(c.progress) else StepDownDisabled(c.progress)) ==>
                var w := UpdateRow(old(api.table.rows), c.id, ProgressPatch(target), fail);
                api.table.rows == w.rows
                && contracts == (if w.result.Some? then ReplaceWhere(old(contracts), c.id, ProgressPatch(target)) else old(contracts))
      ensures Mirrors(old(contracts), old(api.table.rows)) ==> Mirrors(contracts, api.table.rows)
    {
      var c := contracts[i];
      var disabled := if up then StepUpDisabled(c.progress) else StepDownDisabled(c.progress);
      if !disabled {
        var target := if up then StepUp(c.progress) else StepDown(c.progress);
        var _ := HandleUpdateProgress(c.id, target, fail);
      }
    }

    /** The "Make Payment" button of entry `i`, shown only on an active
        contract that is not paid up; it passes `paid_amount || 0`. */
    method ClickMakePayment(i: int, fail: bool) returns (increment: Option<real>)
      requires 0 <= i < |contracts|
      modifies this, api, api.table
      ensures !PaymentOffered(old(contracts[i])) ==>
                increment == None && contracts == old(contracts) && api.table.rows == old(api.table.rows)
      ensures PaymentOffered(old(contracts[i])) ==>
                var c := old(contracts[i]);
                var amount := PaymentTarget(PaidOf(c), c.totalValue);
                var w := UpdateRow(old(api.table.rows), c.id, PaidPatch(amount), fail);
                api.table.rows == w.rows
                && contracts == (if w.result.Some? then ReplaceWhere(old(contracts), c.id, PaidPatch(amount)) else old(contracts))
      ensures Mirrors(old(contracts), old(api.table.rows)) ==> Mirrors(contracts, api.table.rows)
    {
      var c := contracts[i];
      if PaymentOffered(c) {
        increment := HandleMakePayment(c.id, PaidOf(c), c.totalValue, fail);
      } else {
        increment := None;
      }
    }
  }
}
