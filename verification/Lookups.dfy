/**
 * Lookup by id only depends on the entries in id order: what the commitments bind is what
 * the prover and the verifier look up.
 */
module Lookups {
  import opened Wrappers
  import opened Kernels
  import opened Tensors
  import opened Commitments
  import opened Sorting

  // ------------------------------------------------------------------------ tensors

  lemma {:induction false} FindTensorSnoc(ts: seq<TensorT>, id: nat)
    requires |ts| > 0
    ensures var n := |ts| - 1;
            FindTensor(ts, id)
            == if FindTensor(ts[..n], id).Some? then FindTensor(ts[..n], id)
               else if ts[n].tensorId == id then Some(ts[n]) else None
  {
    var n := |ts| - 1;
    if n > 0 {
      assert ts[1..][..n - 1] == ts[..n][1..];
      FindTensorSnoc(ts[1..], id);
    } else {
      assert ts[..0] == [] && ts[1..] == [];
    }
  }

  lemma {:induction false} FindTensorIsFirst(ts: seq<TensorT>, id: nat)
    ensures FindTensor(ts, id) == First(KeyedTensors(ts), id)
  {
    if |ts| > 0 {
      FindTensorSnoc(ts, id);
      FindTensorIsFirst(ts[..|ts| - 1], id);
      assert KeyedTensors(ts)[..|ts| - 1] == KeyedTensors(ts[..|ts| - 1]);
    }
  }

  /** Sorted entries are still keyed by their ids. */
  lemma SortedTensors(ts: seq<TensorT>)
    ensures Sort(KeyedTensors(ts)) == KeyedTensors(InIdOrder(ts))
  {
    var k, s := KeyedTensors(ts), Sort(KeyedTensors(ts));
    SortSorts(k);
    forall i | 0 <= i < |s| ensures s[i] == KeyedTensors(InIdOrder(ts))[i] {
      assert s[i] in multiset(s);
      assert s[i] in k;
    }
  }

  /** The same tensors in id order look up alike. */
  lemma TensorsAlike(a: seq<TensorT>, b: seq<TensorT>, id: nat)
    requires InIdOrder(a) == InIdOrder(b)
    ensures FindTensor(a, id) == FindTensor(b, id)
  {
    hide InIdOrder, KeyedTensors;
    FindTensorIsFirst(a, id);
    FindTensorIsFirst(b, id);
    SortStable(KeyedTensors(a), id);
    SortStable(KeyedTensors(b), id);
    SortedTensors(a);
    SortedTensors(b);
  }

  // ------------------------------------------------------------------------- tables

  lemma {:induction false} FindTableSnoc(ts: seq<ActivationTable>, id: nat)
    requires |ts| > 0
    ensures var n := |ts| - 1;
            FindTable(ts, id)
            == if FindTable(ts[..n], id).Some? then FindTable(ts[..n], id)
               else if ts[n].tableId == id then Some(ts[n]) else None
  {
    var n := |ts| - 1;
    if n > 0 {
      assert ts[1..][..n - 1] == ts[..n][1..];
      FindTableSnoc(ts[1..], id);
    } else {
      assert ts[..0] == [] && ts[1..] == [];
    }
  }

  lemma {:induction false} FindTableIsFirst(ts: seq<ActivationTable>, id: nat)
    ensures FindTable(ts, id) == First(KeyedTables(ts), id)
  {
    if |ts| > 0 {
      FindTableSnoc(ts, id);
      FindTableIsFirst(ts[..|ts| - 1], id);
      assert KeyedTables(ts)[..|ts| - 1] == KeyedTables(ts[..|ts| - 1]);
    }
  }

  lemma TablesInOrder(ts: seq<ActivationTable>)
    ensures |SortedTables(ts)| == |ts| && Sort(KeyedTables(ts)) == KeyedTables(SortedTables(ts))
  {
    var k, s := KeyedTables(ts), Sort(KeyedTables(ts));
    SortSorts(k);
    forall i | 0 <= i < |s| ensures s[i] == KeyedTables(SortedTables(ts))[i] {
      assert s[i] in multiset(s);
      assert s[i] in k;
    }
  }

  /** The same tables in id order look up alike. */
  lemma TablesAlike(a: seq<ActivationTable>, b: seq<ActivationTable>, id: nat)
    requires SortedTables(a) == SortedTables(b)
    ensures FindTable(a, id) == FindTable(b, id)
  {
    hide SortedTables, KeyedTables;
    FindTableIsFirst(a, id);
    FindTableIsFirst(b, id);
    SortStable(KeyedTables(a), id);
    SortStable(KeyedTables(b), id);
    TablesInOrder(a);
    TablesInOrder(b);
  }
}
