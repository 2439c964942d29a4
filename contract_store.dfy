/** The `contracts` table and the contract hook over it. Each hook operation
    inserts one row or sends a partial update of exactly one column of the
    row with the given id, and returns the row the store answers with, or
    null when the store reports an error. No operation checks the value it
    writes: any status, any progress and any amount reach the table. */
module ContractStore {
  import opened Common
  import opened Records

  /** The one-column updates the hook sends: `{ status }`, `{ progress }`,
      `{ paid_amount }`. */
  datatype ContractPatch = StatusPatch(status: Status) | ProgressPatch(progress: int) | PaidPatch(paidAmount: real)

  /** A row after a one-column update: that column takes the written value
      and every other column keeps its value. The dashboards build the same
      copy (`{ ...contract, status: newStatus }`) for their local lists. */
  function ApplyPatch(c: Contract, p: ContractPatch): (r: Contract)
    ensures r.id == c.id
    ensures p.StatusPatch? ==> r.status == p.status && r.(status := c.status) == c
    ensures p.ProgressPatch? ==> r.progress == Some(p.progress) && r.(progress := c.progress) == c
    ensures p.PaidPatch? ==> r.paidAmount == Some(p.paidAmount) && r.(paidAmount := c.paidAmount) == c
  {
    match p
    case StatusPatch(s) => c.(status := s)
    case ProgressPatch(g) => c.(progress := Some(g))
    case PaidPatch(a) => c.(paidAmount := Some(a))
  }

  predicate SameColumn(p: ContractPatch, q: ContractPatch) {
    (p.StatusPatch? && q.StatusPatch?) || (p.ProgressPatch? && q.ProgressPatch?) || (p.PaidPatch? && q.PaidPatch?)
  }

  /** Updates of different columns do not clobber each other: a farmer's
      progress write and a buyer's payment write give the same row in either
      order. Two writes of the same column keep the later one. */
  lemma PatchesCommuteOrOverwrite(c: Contract, p: ContractPatch, q: ContractPatch)
    ensures !SameColumn(p, q) ==> ApplyPatch(ApplyPatch(c, p), q) == ApplyPatch(ApplyPatch(c, q), p)
    ensures SameColumn(p, q) ==> ApplyPatch(ApplyPatch(c, p), q) == ApplyPatch(c, q)
  {
  }

  /** `update(patch).eq("id", id).select().single()`: an error (`fail`) and an
      id that matches no row (`single()` then reports an error too) leave the
      table as it was and yield null; otherwise exactly that row changes,
      whatever value the patch carries. */
  function UpdateRow(rows: map<string, Contract>, id: string, p: ContractPatch, fail: bool): (w: Write<Contract>)
    ensures w.result.Some? <==> !fail && id in rows
    ensures w.rows.Keys == rows.Keys
    ensures forall k :: k in rows && k != id ==> w.rows[k] == rows[k]
    ensures w.result.None? ==> w.rows == rows
    ensures w.result.Some? ==> w.result.value == ApplyPatch(rows[id], p) && w.rows[id] == w.result.value
  {
    if fail || id !in rows then Write(rows, None)
    else
      var row := ApplyPatch(rows[id], p);
      Write(rows[id := row], Some(row))
  }

  /** The row the store creates from a draft under the id it assigns. */
  function RowOf(d: ContractDraft, id: string): Contract
    requires d.quantity.Some? && d.pricePerUnit.Some? && d.totalValue.Some?
  {
    Contract(id, d.farmerId, d.buyerId, d.title, d.cropName, d.quantity.value, d.unit,
             d.pricePerUnit.value, d.totalValue.value, Some(d.qualityParameters), Some(d.paymentTerms),
             d.startDate, d.endDate, d.status, Some(d.progress), Some(d.paidAmount))
  }

  /** `insert([draft]).select().single()` with the store assigning `newId`.
      The insert fails on a store error, on an id already taken, and on a
      null (NaN) quantity, price or total, which are NOT NULL columns. */
  function InsertContract(rows: map<string, Contract>, d: ContractDraft, newId: string, fail: bool): (w: Write<Contract>)
    ensures w.result.Some? <==> !fail && newId !in rows && d.quantity.Some? && d.pricePerUnit.Some? && d.totalValue.Some?
    ensures w.result.None? ==> w.rows == rows
    ensures w.result.Some? ==> |w.rows| == |rows| + 1 && w.rows.Keys == rows.Keys + {newId}
    ensures w.result.Some? ==> w.result.value.id == newId && w.rows[newId] == w.result.value
    ensures w.result.Some? ==>
              var c := w.result.value;
              c.farmerId == d.farmerId && c.buyerId == d.buyerId && c.title == d.title
              && c.cropName == d.cropName && c.quantity == d.quantity.value && c.unit == d.unit
              && c.pricePerUnit == d.pricePerUnit.value && c.totalValue == d.totalValue.value
              && c.qualityParameters == Some(d.qualityParameters) && c.paymentTerms == Some(d.paymentTerms)
              && c.startDate == d.startDate && c.endDate == d.endDate && c.status == d.status
              && c.progress == Some(d.progress) && c.paidAmount == Some(d.paidAmount)
    ensures forall k :: k in rows ==> k in w.rows && w.rows[k] == rows[k]
  {
    if fail || newId in rows || d.quantity.None? || d.pricePerUnit.None? || d.totalValue.None? then Write(rows, None)
    else
      var row := RowOf(d, newId);
      Write(rows[newId := row], Some(row))
  }

  /** The hosted `contracts` table. */
  class ContractTable {
    var rows: map<string, Contract>

    constructor (initial: map<string, Contract>)
      ensures rows == initial
    {
      rows := initial;
    }
  }

  /** The contract hook: a loading flag and the four operations. `fail`
      stands for the store's answer being an error. */
  class ContractsApi {
    var isLoading: bool
    const table: ContractTable

    constructor (table: ContractTable)
      ensures this.table == table && !isLoading
    {
      this.table := table;
      isLoading := false;
    }

    method CreateContract(d: ContractDraft, newId: string, fail: bool) returns (r: Option<Contract>)
      modifies this, table
      ensures var w := InsertContract(old(table.rows), d, newId, fail); table.rows == w.rows && r == w.result
      ensures !isLoading
    {
      isLoading := true;
      if fail || newId in table.rows || d.quantity.None? || d.pricePerUnit.None? || d.totalValue.None? {
        r := None;
      } else {
        var row := RowOf(d, newId);
        table.rows := table.rows[newId := row];
        r := Some(row);
      }
      isLoading := false;
    }

    /** The write shared by the three update operations. */
    method Update(id: string, p: ContractPatch, fail: bool) returns (r: Option<Contract>)
      modifies this, table
      ensures var w := UpdateRow(old(table.rows), id, p, fail); table.rows == w.rows && r == w.result
      ensures !isLoading
    {
      isLoading := true;
      if fail || id !in table.rows {
        r := None;
      } else {
        var row := ApplyPatch(table.rows[id], p);
        table.rows := table.rows[id := row];
        r := Some(row);
      }
      isLoading := false;
    }

    method UpdateContractStatus(id: string, status: Status, fail: bool) returns (r: Option<Contract>)
      modifies this, table
      ensures var w := UpdateRow(old(table.rows), id, StatusPatch(status), fail); table.rows == w.rows && r == w.result
      ensures !isLoading
    {
      r := Update(id, StatusPatch(status), fail);
    }

    method UpdateContractProgress(id: string, progress: int, fail: bool) returns (r: Option<Contract>)
      modifies this, table
      ensures var w := UpdateRow(old(table.rows), id, ProgressPatch(progress), fail); table.rows == w.rows && r == w.result
      ensures !isLoading
    {
      r := Update(id, ProgressPatch(progress), fail);
    }

    /** Writes the absolute amount given, not an increment. */
    method UpdatePaymentAmount(id: string, paidAmount: real, fail: bool) returns (r: Option<Contract>)
      modifies this, table
      ensures var w := UpdateRow(old(table.rows), id, PaidPatch(paidAmount), fail); table.rows == w.rows && r == w.result
      ensures !isLoading
    {
      r := Update(id, PaidPatch(paidAmount), fail);
    }
  }
}
