/**
 * The process-wide dataset slot of backend/app/services/data_store.py:
 * empty at start-up, overwritten by every set, read by get.
 */
module DataStore {
  import opened Wrappers
  import opened Table

  const NoSalesData := "No sales data uploaded yet"

  class Store {
    /** The module-global `sales_df`; `None` until the first upload. */
    var salesDf: Option<Table>

    constructor ()
      ensures salesDf == None
    {
      salesDf := None;
    }

    /** `set_sales_data`: the new table replaces whatever was stored. */
    method SetSalesData(df: Table)
      modifies this
      ensures salesDf == Some(df)
    {
      salesDf := Some(df);
    }

    /** `get_sales_data`: the stored table, or the ValueError raised when there is none.
        It has no modifies clause, so it leaves the slot as it was. */
    method GetSalesData() returns (r: Result<Table, string>)
      ensures salesDf.None? ==> r == Failure(NoSalesData)
      ensures salesDf.Some? ==> r == Success(salesDf.value)
    {
      if salesDf.None? {
        r := Failure(NoSalesData);
      } else {
        r := Success(salesDf.value);
      }
    }
  }

  /** A get on a fresh store raises. */
  method GetBeforeSet() returns (r: Result<Table, string>)
    ensures r == Failure(NoSalesData)
  {
    var store := new Store();
    r := store.GetSalesData();
  }

  /** Last write wins: after two sets, get returns the second table. */
  method LastWriteWins(d1: Table, d2: Table) returns (r: Result<Table, string>)
    ensures r == Success(d2)
  {
    var store := new Store();
    store.SetSalesData(d1);
    store.SetSalesData(d2);
    r := store.GetSalesData();
  }

  /** An operation on the store. */
  datatype StoreOp = Set(df: Table) | Get

  /** The table the store holds after `first` was set and then `ops` were applied. */
  function LastSet(first: Table, ops: seq<StoreOp>): Table
  {
    if ops == [] then first
    else
      match ops[|ops| - 1]
      case Set(df) => df
      case Get => LastSet(first, ops[..|ops| - 1])
  }

  /** Without any Set, the store still holds `first`. */
  lemma {:induction false} LastSetWithoutSet(first: Table, ops: seq<StoreOp>)
    requires forall i :: 0 <= i < |ops| ==> ops[i].Get?
    ensures LastSet(first, ops) == first
  {
    if ops != [] {
      var init := ops[..|ops| - 1];
      assert forall i :: 0 <= i < |init| ==> init[i] == ops[i];
      LastSetWithoutSet(first, init);
    }
  }

  /** The store holds the table of the last Set: the one at `i` when only gets follow it. */
  lemma {:induction false} LastSetIsLastWrite(first: Table, ops: seq<StoreOp>, i: nat)
    requires i < |ops| && ops[i].Set?
    requires forall j :: i < j < |ops| ==> ops[j].Get?
    ensures LastSet(first, ops) == ops[i].df
  {
    if i < |ops| - 1 {
      var init := ops[..|ops| - 1];
      assert init[i] == ops[i];
      assert forall j :: i < j < |init| ==> init[j] == ops[j];
      LastSetIsLastWrite(first, init, i);
    }
  }

  /** Once a table has been set, get never raises again: after `first` is set, every later
      operation is followed by a get that returns the most recently set table. */
  method ReadsAfterSet(first: Table, ops: seq<StoreOp>) returns (observed: seq<Result<Table, string>>)
    ensures |observed| == |ops|
    ensures forall i :: 0 <= i < |ops| ==> observed[i] == Success(LastSet(first, ops[..i + 1]))
  {
    var store := new Store();
    store.SetSalesData(first);
    observed := [];
    var i := 0;
    while i < |ops|
      invariant 0 <= i <= |ops|
      invariant store.salesDf == Some(LastSet(first, ops[..i]))
      invariant |observed| == i
      invariant forall j :: 0 <= j < i ==> observed[j] == Success(LastSet(first, ops[..j + 1]))
    {
      assert ops[..i + 1][..i] == ops[..i];
      match ops[i] {
        case Set(df) =>
          store.SetSalesData(df);
        case Get =>
          var ignored := store.GetSalesData();
      }
      var r := store.GetSalesData();
      observed := observed + [r];
      i := i + 1;
    }
  }
}
