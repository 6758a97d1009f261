/** crates/pwm-core/src/tensor.rs: committed tensors, and lookup by id. */
module Tensors {
  import opened Wrappers
  import opened Arith
  import opened FixedPoint
  import opened Kernels
  import Field

  /** The product of the dimensions, multiplied from the left; None once a partial product leaves u64. */
  function CheckedProduct(dims: seq<nat>): (p: Option<nat>)
    ensures p.Some? ==> p.value < Field.TWO64
  {
    if |dims| == 0 then Some(1)
    else
      var p :- CheckedProduct(dims[..|dims| - 1]);
      MulMono(0, p, dims[|dims| - 1]);
      if p * dims[|dims| - 1] < Field.TWO64 then Some(p * dims[|dims| - 1]) else None
  }

  datatype TensorData = Tensor(tensorId: nat, shape: seq<nat>, scaleId: nat, data: seq<BoundedInt>) {
    /** What `Tensor::new` enforces. */
    predicate Valid() {
      && |shape| <= 4
      && CheckedProduct(shape) == Some(|data|)
      && forall i :: 0 <= i < |data| ==> data[i].Valid()
    }

    function Values(): (v: seq<int>)
      ensures |v| == |data|
    {
      seq(|data|, i requires 0 <= i < |data| => data[i].value)
    }
  }

  type TensorT = t: TensorData | t.Valid() witness Tensor(0, [0], 0, [])

  lemma TwoDims(rows: nat, cols: nat)
    ensures CheckedProduct([rows, cols]) ==
      if rows < Field.TWO64 && 0 <= rows * cols < Field.TWO64 then Some(rows * cols) else None
  {
    assert [rows, cols][..1] == [rows] && [rows][..0] == [];
    assert CheckedProduct([rows]) == if rows < Field.TWO64 then Some(1 * rows) else None;
    MulMono(0, rows, cols);
  }

  lemma MatrixSize(t: TensorT)
    requires |t.shape| == 2
    ensures |t.data| == t.shape[0] * t.shape[1]
  {
    assert t.shape == [t.shape[0], t.shape[1]];
    TwoDims(t.shape[0], t.shape[1]);
  }

  /** The first tensor carrying the id. */
  function FindTensor(ts: seq<TensorT>, id: nat): (r: Option<TensorT>)
    ensures r.Some? ==> r.value.tensorId == id && r.value in ts
  {
    if |ts| == 0 then None
    else if ts[0].tensorId == id then Some(ts[0])
    else FindTensor(ts[1..], id)
  }

  function FindTable(ts: seq<ActivationTable>, id: nat): (r: Option<ActivationTable>)
    ensures r.Some? ==> r.value.tableId == id && r.value in ts
  {
    if |ts| == 0 then None
    else if ts[0].tableId == id then Some(ts[0])
    else FindTable(ts[1..], id)
  }

  /** The cast `as i8`. */
  function AsI8(x: int): int {
    (x + 128) % 256 - 128
  }

  lemma AsI8Identity(x: int)
    ensures -128 <= x <= 127 ==> AsI8(x) == x
    ensures -128 <= AsI8(x) <= 127 && (AsI8(x) - x) % 256 == 0
  {
  }
}
