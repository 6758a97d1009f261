/**
 * crates/pwm-core/src/serialize.rs: the canonical binary codec. Every encoded type is
 * described by a `Kind` built from the same pieces as the original's impls (integers,
 * bool, Option, Vec, M31, BoundedInt, Tensor, enums, structs in field order).
 */
module Codec {
  import opened Wrappers
  import opened Arith
  import opened Bytes
  import Field
  import FixedPoint

  datatype Kind =
    | U8 | U16 | U32 | U64 | I32 | I64
    | Bool | Hash32 | M31
    | Shift                      // a u32 carried as u64; decoding casts it back
    | Discriminant(count: nat)   // a fieldless enum: one byte below `count`
    | Checked(raw: Kind, test: Test)  // decode `raw`, then run a checked constructor
    | Optional(inner: Kind)
    | Vector(item: Kind)
    | Record(fields: seq<Kind>)
    | Variant(cases: seq<Kind>)  // tag byte, then the payload of that case

  datatype Test = IsBoundedInt | IsTensor

  datatype Value =
    | Int(x: int)
    | Flag(b: bool)
    | Bits(d: seq<Byte>)
    | Absent
    | Present(v: Value)
    | List(items: seq<Value>)
    | Case(tag: nat, payload: Value)

  datatype DecodeError =
    | UnexpectedEof(needed: nat, have: nat)
    | TrailingBytes(remaining: nat)
    | InvalidBool(byte: Byte)
    | InvalidOptionTag(byte: Byte)
    | NonCanonicalM31(residue: int)
    | InvalidDiscriminant(byte: Byte)
    | Bound(error: FixedPoint.BoundError)
    | TensorShape

  // ------------------------------------------------------------------ integers

  predicate IsInt(k: Kind) {
    k.U8? || k.U16? || k.U32? || k.U64? || k.I32? || k.I64? || k.M31? || k.Shift? || k.Discriminant?
  }

  function Width(k: Kind): nat
    requires IsInt(k)
  {
    match k
    case U8 => 1
    case U16 => 2
    case U32 => 4
    case I32 => 4
    case M31 => 4
    case Discriminant(_) => 1
    case _ => 8
  }

  const TWO31: int := 0x8000_0000

  predicate IntFits(k: Kind, x: int)
    requires IsInt(k)
  {
    match k
    case U8 => 0 <= x < 256
    case U16 => 0 <= x < 0x1_0000
    case U32 => 0 <= x < TWO32
    case U64 => 0 <= x < Field.TWO64
    case I32 => -TWO31 <= x < TWO31
    case I64 => Field.FitsI64(x)
    case M31 => 0 <= x < Field.M31_P
    case Shift => 0 <= x < TWO32
    case Discriminant(n) => 0 <= x < n && x < 256
  }

  /** `from_le_bytes` at the kind's signedness, then the kind's own check or cast. */
  function IntOf(k: Kind, raw: nat): Result<int, DecodeError>
    requires IsInt(k)
  {
    match k
    case I32 => Ok(if raw < TWO31 then raw else raw - TWO32)
    case I64 => Ok(if raw <= Field.I64_MAX then raw else raw - Field.TWO64)
    case M31 => if raw >= Field.M31_P then Err(NonCanonicalM31(raw)) else Ok(raw)
    case Shift => Ok(raw % TWO32)
    case Discriminant(n) => if raw < n then Ok(raw) else Err(InvalidDiscriminant(raw % 256))
    case _ => Ok(raw)
  }

  // -------------------------------------------------------- checked constructors

  const BOUNDED_INT: Kind := Checked(Record([I64, I64, I64]), IsBoundedInt)
  const TENSOR: Kind := Checked(Record([U32, U32, Vector(U32), Vector(BOUNDED_INT)]), IsTensor)
  const MAX_DIMS: nat := 4

  /** The product of the dimensions, multiplied from the left; None once a partial product leaves u64. */
  function CheckedProduct(dims: seq<Value>): Option<int> {
    if |dims| == 0 then Some(1)
    else
      var p :- CheckedProduct(dims[..|dims| - 1]);
      var last := dims[|dims| - 1];
      if last.Int? && p * last.x < Field.TWO64 then Some(p * last.x) else None
  }

  /**
   * `BoundedInt::new` and `Tensor::new` on decoded fields: lo <= value <= hi inside the
   * signed range; rank at most 4, no overflow on the way to the product of the shape, and data of that length.
   */
  function Check(test: Test, v: Value): Result<Value, DecodeError> {
    if !v.List? then Err(TensorShape)
    else
      match test
      case IsBoundedInt =>
        if |v.items| == 3 && v.items[0].Int? && v.items[1].Int? && v.items[2].Int? then
          match FixedPoint.NewBounded(v.items[0].x, v.items[1].x, v.items[2].x)
          case Ok(_) => Ok(v)
          case Err(e) => Err(Bound(e))
        else Err(TensorShape)
      case IsTensor =>
        if |v.items| == 4 && v.items[2].List? && v.items[3].List?
           && |v.items[2].items| <= MAX_DIMS && CheckedProduct(v.items[2].items) == Some(|v.items[3].items|)
        then Ok(v) else Err(TensorShape)
  }

  /** A zero dimension does not excuse an overflow before it: this empty tensor is rejected. */
  lemma OverflowBeforeZero()
    ensures var m := Int(0xFFFF_FFFF);
            && CheckedProduct([m, m, m, Int(0)]) == None
            && Check(IsTensor, List([Int(0), Int(0), List([m, m, m, Int(0)]), List([])])).Err?
  {
    var m := Int(0xFFFF_FFFF);
    assert [m, m, m, Int(0)][..3] == [m, m, m] && [m, m, m][..2] == [m, m] && [m, m][..1] == [m] && [m][..0] == [];
    assert CheckedProduct([m]) == Some(1 * m.x);
    assert CheckedProduct([m, m]) == Some(m.x * m.x);
    assert CheckedProduct([m, m, m]) == None;
  }

  // ------------------------------------------------------------------ encoding

  /** The values of a kind: integers in range, lengths below 2^32, checks passed. */
  predicate Typed(k: Kind, v: Value)
    decreases k, 0, 0
  {
    match k
    case Bool => v.Flag?
    case Hash32 => v.Bits? && |v.d| == 32
    case Checked(raw, test) => Typed(raw, v) && Check(test, v).Ok?
    case Optional(inner) => v.Absent? || (v.Present? && Typed(inner, v.v))
    case Vector(item) => v.List? && |v.items| < TWO32 && TypedItems(item, v.items)
    case Record(fields) => v.List? && TypedFields(fields, v.items)
    case Variant(cases) => v.Case? && v.tag < |cases| && v.tag < 256 && Typed(cases[v.tag], v.payload)
    case _ => v.Int? && IntFits(k, v.x)
  }

  predicate TypedItems(item: Kind, vs: seq<Value>)
    decreases item, 1, |vs|
  {
    |vs| == 0 || (Typed(item, vs[0]) && TypedItems(item, vs[1..]))
  }

  predicate TypedFields(ks: seq<Kind>, vs: seq<Value>)
    decreases ks, 0, 0
  {
    if |ks| == 0 then |vs| == 0
    else |vs| > 0 && Typed(ks[0], vs[0]) && TypedFields(ks[1..], vs[1..])
  }

  /** Canonical bytes; a value of the wrong shape has none. */
  function Enc(k: Kind, v: Value): seq<Byte>
    decreases k, 0, 0
  {
    match k
    case Bool => if v.Flag? then [if v.b then 1 else 0] else []
    case Hash32 => if v.Bits? then v.d else []
    case Checked(raw, _) => Enc(raw, v)
    case Optional(inner) => if v.Present? then [1] + Enc(inner, v.v) else [0]
    case Vector(item) => if v.List? then LE(|v.items|, 4) + EncItems(item, v.items) else []
    case Record(fields) => if v.List? then EncFields(fields, v.items) else []
    case Variant(cases) =>
      if v.Case? && v.tag < |cases| then [v.tag % 256] + Enc(cases[v.tag], v.payload) else []
    case _ => if v.Int? then LE(v.x, Width(k)) else []
  }

  function EncItems(item: Kind, vs: seq<Value>): seq<Byte>
    decreases item, 1, |vs|
  {
    if |vs| == 0 then [] else Enc(item, vs[0]) + EncItems(item, vs[1..])
  }

  function EncFields(ks: seq<Kind>, vs: seq<Value>): seq<Byte>
    decreases ks, 0, 0
  {
    if |ks| == 0 || |vs| == 0 then [] else Enc(ks[0], vs[0]) + EncFields(ks[1..], vs[1..])
  }

  // ------------------------------------------------------------------ decoding

  type Decoded = Result<(Value, seq<Byte>), DecodeError>
  type DecodedList = Result<(seq<Value>, seq<Byte>), DecodeError>

  /** The reader's `take`: the next `n` bytes and what follows them. */
  function TakeBytes(b: seq<Byte>, n: nat): Result<(seq<Byte>, seq<Byte>), DecodeError> {
    if n > |b| then Err(UnexpectedEof(n, |b|)) else Ok((b[..n], b[n..]))
  }

  function Dec(k: Kind, b: seq<Byte>): Decoded
    decreases k, 0, 0
  {
    match k
    case Bool =>
      var (t, rest) :- TakeBytes(b, 1);
      if t[0] == 0 then Ok((Flag(false), rest))
      else if t[0] == 1 then Ok((Flag(true), rest))
      else Err(InvalidBool(t[0]))
    case Hash32 =>
      var (t, rest) :- TakeBytes(b, 32);
      Ok((Bits(t), rest))
    case Checked(raw, test) =>
      var (v, rest) :- Dec(raw, b);
      var w :- Check(test, v);
      Ok((w, rest))
    case Optional(inner) =>
      var (t, rest) :- TakeBytes(b, 1);
      if t[0] == 0 then Ok((Absent, rest))
      else if t[0] == 1 then
        var (v, rest') :- Dec(inner, rest);
        Ok((Present(v), rest'))
      else Err(InvalidOptionTag(t[0]))
    case Vector(item) =>
      var (t, rest) :- TakeBytes(b, 4);
      var (vs, rest') :- DecItems(item, FromLE(t), rest);
      Ok((List(vs), rest'))
    case Record(fields) =>
      var (vs, rest) :- DecFields(fields, b);
      Ok((List(vs), rest))
    case Variant(cases) =>
      var (t, rest) :- TakeBytes(b, 1);
      if t[0] >= |cases| then Err(InvalidDiscriminant(t[0]))
      else
        var (v, rest') :- Dec(cases[t[0]], rest);
        Ok((Case(t[0], v), rest'))
    case _ =>
      var (t, rest) :- TakeBytes(b, Width(k));
      var x :- IntOf(k, FromLE(t));
      Ok((Int(x), rest))
  }

  function DecItems(item: Kind, n: nat, b: seq<Byte>): DecodedList
    decreases item, 1, n
  {
    if n == 0 then Ok(([], b))
    else
      var (v, rest) :- Dec(item, b);
      var (vs, rest') :- DecItems(item, n - 1, rest);
      Ok(([v] + vs, rest'))
  }

  function DecFields(ks: seq<Kind>, b: seq<Byte>): DecodedList
    decreases ks, 0, 0
  {
    if |ks| == 0 then Ok(([], b))
    else
      var (v, rest) :- Dec(ks[0], b);
      var (vs, rest') :- DecFields(ks[1..], rest);
      Ok(([v] + vs, rest'))
  }

  // ------------------------------------------------- decode(encode(v)) == v

  lemma IntRoundTrip(k: Kind, x: int)
    requires IsInt(k) && IntFits(k, x)
    ensures IntOf(k, FromLE(LE(x, Width(k)))) == Ok(x)
  {
    var w := Width(k);
    FromLEOfLE(x, w);
    Pow256Values();
    if x >= 0 {
      ModUnique(x, Pow256(w), 0, x);
      if k.Shift? { ModUnique(x, TWO32, 0, x); }
    } else {
      ModUnique(x, Pow256(w), -1, x + Pow256(w));
    }
  }

  lemma TakePrefix(a: seq<Byte>, s: seq<Byte>)
    ensures TakeBytes(a + s, |a|) == Ok((a, s))
  {
    assert (a + s)[..|a|] == a && (a + s)[|a|..] == s;
  }

  lemma RoundTripPrimitive(k: Kind, v: Value, s: seq<Byte>)
    requires Typed(k, v) && (IsInt(k) || k.Bool? || k.Hash32?)
    ensures Dec(k, Enc(k, v) + s) == Ok((v, s))
  {
    TakePrefix(Enc(k, v), s);
    if IsInt(k) { IntRoundTrip(k, v.x); }
  }

  /** A one-byte tag followed by an encoded payload. */
  lemma RoundTripTagged(tag: Byte, k: Kind, v: Value, s: seq<Byte>)
    requires Dec(k, Enc(k, v) + s) == Ok((v, s))
    ensures TakeBytes([tag] + Enc(k, v) + s, 1) == Ok(([tag], Enc(k, v) + s))
  {
    assert [tag] + Enc(k, v) + s == [tag] + (Enc(k, v) + s);
    TakePrefix([tag], Enc(k, v) + s);
  }

  /** Four length bytes, then the items. */
  lemma VectorBytes(item: Kind, vs: seq<Value>, s: seq<Byte>)
    ensures Enc(Vector(item), List(vs)) + s == LE(|vs|, 4) + (EncItems(item, vs) + s)
  {
  }

  lemma RoundTripVector(item: Kind, vs: seq<Value>, s: seq<Byte>)
    requires |vs| < TWO32 && DecItems(item, |vs|, EncItems(item, vs) + s) == Ok((vs, s))
    ensures Dec(Vector(item), Enc(Vector(item), List(vs)) + s) == Ok((List(vs), s))
  {
    var n := |vs|;
    VectorBytes(item, vs, s);
    TakePrefix(LE(n, 4), EncItems(item, vs) + s);
    IntRoundTrip(U32, n);
  }

  /** Decoding an encoding, whatever follows it, gives the value back and stops there. */
  lemma {:induction false} RoundTrip(k: Kind, v: Value, s: seq<Byte>)
    requires Typed(k, v)
    ensures Dec(k, Enc(k, v) + s) == Ok((v, s))
    decreases k, 0, 0
  {
    hide DecItems, EncItems, TypedItems, IntOf, LE, FromLE, IntFits;
    match k {
      case Checked(raw, test) =>
        assert Check(test, v) == Ok(v);
        RoundTrip(raw, v, s);
      case Optional(inner) =>
        if v.Present? {
          RoundTrip(inner, v.v, s);
          RoundTripTagged(1, inner, v.v, s);
        } else {
          TakePrefix([0], s);
        }
      case Vector(item) =>
        RoundTripItems(item, v.items, s);
        RoundTripVector(item, v.items, s);
      case Record(fields) => RoundTripFields(fields, v.items, s);
      case Variant(cases) =>
        RoundTrip(cases[v.tag], v.payload, s);
        RoundTripTagged(v.tag, cases[v.tag], v.payload, s);
      case _ => RoundTripPrimitive(k, v, s);
    }
  }

  lemma {:induction false} RoundTripItems(item: Kind, vs: seq<Value>, s: seq<Byte>)
    requires TypedItems(item, vs)
    ensures DecItems(item, |vs|, EncItems(item, vs) + s) == Ok((vs, s))
    decreases item, 1, |vs|
  {
    hide Enc, Dec, Typed;
    if |vs| == 0 {
      assert EncItems(item, vs) + s == s;
    } else {
      assert EncItems(item, vs) + s == Enc(item, vs[0]) + (EncItems(item, vs[1..]) + s);
      RoundTrip(item, vs[0], EncItems(item, vs[1..]) + s);
      RoundTripItems(item, vs[1..], s);
      assert vs == [vs[0]] + vs[1..];
    }
  }

  lemma {:induction false} RoundTripFields(ks: seq<Kind>, vs: seq<Value>, s: seq<Byte>)
    requires TypedFields(ks, vs)
    ensures DecFields(ks, EncFields(ks, vs) + s) == Ok((vs, s))
    decreases ks, 0, 0
  {
    hide Enc, Dec, Typed;
    if |ks| == 0 {
      assert EncFields(ks, vs) + s == s;
    } else {
      assert EncFields(ks, vs) + s == Enc(ks[0], vs[0]) + (EncFields(ks[1..], vs[1..]) + s);
      RoundTrip(ks[0], vs[0], EncFields(ks[1..], vs[1..]) + s);
      RoundTripFields(ks[1..], vs[1..], s);
      assert vs == [vs[0]] + vs[1..];
    }
  }

  /** No encoding is a proper prefix of another: equal streams hold equal values. */
  lemma PrefixFree(k: Kind, v: Value, w: Value, s: seq<Byte>, t: seq<Byte>)
    requires Typed(k, v) && Typed(k, w) && Enc(k, v) + s == Enc(k, w) + t
    ensures v == w && s == t
  {
    RoundTrip(k, v, s);
    RoundTrip(k, w, t);
  }

  lemma EncInjective(k: Kind, v: Value, w: Value)
    requires Typed(k, v) && Typed(k, w) && Enc(k, v) == Enc(k, w)
    ensures v == w
  {
    PrefixFree(k, v, w, [], []);
  }

  // ------------------------------------------------- accepted bytes re-encode

  /** Every u64 shift field the decoder reads is below 2^32, so the cast loses nothing. */
  predicate ShiftsFit(k: Kind, b: seq<Byte>)
    decreases k, 0, 0
  {
    match k
    case Shift => |b| < 8 || FromLE(b[..8]) < TWO32
    case Checked(raw, _) => ShiftsFit(raw, b)
    case Optional(inner) => |b| == 0 || b[0] != 1 || ShiftsFit(inner, b[1..])
    case Vector(item) => |b| < 4 || ShiftsFitItems(item, FromLE(b[..4]), b[4..])
    case Record(fields) => ShiftsFitFields(fields, b)
    case Variant(cases) => |b| == 0 || b[0] >= |cases| || ShiftsFit(cases[b[0]], b[1..])
    case _ => true
  }

  predicate ShiftsFitItems(item: Kind, n: nat, b: seq<Byte>)
    decreases item, 1, n
  {
    n == 0 || (ShiftsFit(item, b) && (Dec(item, b).Ok? ==> ShiftsFitItems(item, n - 1, Dec(item, b).value.1)))
  }

  predicate ShiftsFitFields(ks: seq<Kind>, b: seq<Byte>)
    decreases ks, 0, 0
  {
    |ks| == 0 || (ShiftsFit(ks[0], b) && (Dec(ks[0], b).Ok? ==> ShiftsFitFields(ks[1..], Dec(ks[0], b).value.1)))
  }

  /** Reading an integer and writing it back, except for a truncated shift. */
  lemma IntBytes(k: Kind, t: seq<Byte>)
    requires IsInt(k) && |t| == Width(k) && IntOf(k, FromLE(t)).Ok?
    ensures IntFits(k, IntOf(k, FromLE(t)).value)
    ensures LE(IntOf(k, FromLE(t)).value, Width(k)) == t <==> (k.Shift? ==> FromLE(t) < TWO32)
  {
    hide LE, FromLE;
    var raw, x, w := FromLE(t), IntOf(k, FromLE(t)).value, Width(k);
    Pow256Values();
    if k.Shift? && raw >= TWO32 {
      FromLEOfLE(x, 8);
      ModUnique(x, Pow256(8), 0, x);
    } else {
      if k.Shift? { ModUnique(raw, TWO32, 0, raw); }
      SignedBytes(t, x);
    }
  }

  lemma SignedBytes(t: seq<Byte>, x: int)
    requires x == FromLE(t) || x == FromLE(t) - Pow256(|t|)
    ensures LE(x, |t|) == t
  {
    CongShift(FromLE(t), -1, Pow256(|t|));
    LEOfFromLE(t, x);
  }

  lemma Pow256Values()
    ensures Pow256(1) == 256 && Pow256(2) == 0x1_0000 && Pow256(4) == TWO32 && Pow256(8) == Field.TWO64
  {
    assert Pow256(6) == 256 * 256 * Pow256(4);
  }

  /** The decoded value is well typed, as long as what was consumed, and re-encodes
      to the bytes it came from exactly when no shift was truncated. */
  ghost predicate Reencodes(k: Kind, b: seq<Byte>) {
    Dec(k, b).Ok? ==>
      var (v, s) := Dec(k, b).value;
      Typed(k, v) && |Enc(k, v) + s| == |b| && (Enc(k, v) + s == b <==> ShiftsFit(k, b))
  }

  lemma ReencodePrimitive(k: Kind, b: seq<Byte>)
    requires IsInt(k) || k.Bool? || k.Hash32?
    ensures Reencodes(k, b)
  {
    hide LE, FromLE;
    if Dec(k, b).Ok? {
      var w := if IsInt(k) then Width(k) else if k.Bool? then 1 else 32;
      assert b == b[..w] + b[w..];
      if IsInt(k) { IntBytes(k, b[..w]); }
      if k.Bool? { assert b[..1] == [b[0]]; }
    }
  }

  /** A tag byte in front of a payload. */
  lemma ReencodeTagged(k: Kind, b: seq<Byte>, v: Value, s: seq<Byte>)
    requires |b| > 0 && Dec(k, b[1..]) == Ok((v, s)) && Reencodes(k, b[1..])
    ensures |[b[0]] + Enc(k, v) + s| == |b|
    ensures [b[0]] + Enc(k, v) + s == b <==> ShiftsFit(k, b[1..])
  {
    assert b == [b[0]] + b[1..];
    assert [b[0]] + Enc(k, v) + s == [b[0]] + (Enc(k, v) + s);
    if [b[0]] + (Enc(k, v) + s) == b {
      assert ([b[0]] + (Enc(k, v) + s))[1..] == Enc(k, v) + s;
    }
  }

  lemma ReencodeVector(item: Kind, b: seq<Byte>)
    requires |b| >= 4 && DecItems(item, FromLE(b[..4]), b[4..]).Ok?
    requires ItemsOk(item, FromLE(b[..4]), b[4..])
    ensures Reencodes(Vector(item), b)
  {
    var (vs, s) := DecItems(item, FromLE(b[..4]), b[4..]).value;
    Pow256Values();
    IntBytes(U32, b[..4]);
    VectorBytes(item, vs, s);
    var head := b[..4];
    assert LE(|vs|, 4) == head;
    assert b == head + b[4..];
    SplitEqual(head, b[4..], EncItems(item, vs) + s, b);
  }

  /**
   * Bytes the decoder accepts are re-encoded to themselves exactly when no u64 shift
   * field in them exceeds a u32.
   */
  lemma {:induction false} AcceptedReencodes(k: Kind, b: seq<Byte>)
    ensures Reencodes(k, b)
    decreases k, 0, 0
  {
    match k {
      case Checked(raw, _) => AcceptedReencodes(raw, b);
      case Optional(inner) =>
        if Dec(k, b).Ok? {
          if b[0] == 1 {
            AcceptedReencodes(inner, b[1..]);
            ReencodeTagged(inner, b, Dec(inner, b[1..]).value.0, Dec(inner, b[1..]).value.1);
          } else {
            assert b == [b[0]] + b[1..];
          }
        }
      case Vector(item) =>
        if Dec(k, b).Ok? {
          ItemsReencode(item, FromLE(b[..4]), b[4..]);
          ReencodeVector(item, b);
        }
      case Record(fields) => FieldsReencode(fields, b);
      case Variant(cases) =>
        if Dec(k, b).Ok? {
          var c := cases[b[0]];
          AcceptedReencodes(c, b[1..]);
          ReencodeTagged(c, b, Dec(c, b[1..]).value.0, Dec(c, b[1..]).value.1);
        }
      case _ => ReencodePrimitive(k, b);
    }
  }

  ghost predicate ItemsOk(item: Kind, n: nat, b: seq<Byte>) {
    DecItems(item, n, b).Ok? ==>
      var (vs, s) := DecItems(item, n, b).value;
      && TypedItems(item, vs) && |vs| == n && |EncItems(item, vs) + s| == |b|
      && (EncItems(item, vs) + s == b <==> ShiftsFitItems(item, n, b))
  }

  ghost predicate FieldsOk(ks: seq<Kind>, b: seq<Byte>) {
    DecFields(ks, b).Ok? ==>
      var (vs, s) := DecFields(ks, b).value;
      && TypedFields(ks, vs) && |EncFields(ks, vs) + s| == |b|
      && (EncFields(ks, vs) + s == b <==> ShiftsFitFields(ks, b))
  }

  lemma ItemsCons(item: Kind, v: Value, vs: seq<Value>, s: seq<Byte>)
    ensures EncItems(item, [v] + vs) + s == Enc(item, v) + (EncItems(item, vs) + s)
    ensures TypedItems(item, [v] + vs) <==> Typed(item, v) && TypedItems(item, vs)
  {
    assert ([v] + vs)[0] == v && ([v] + vs)[1..] == vs;
  }

  lemma FieldsCons(ks: seq<Kind>, v: Value, vs: seq<Value>, s: seq<Byte>)
    requires |ks| > 0
    ensures EncFields(ks, [v] + vs) + s == Enc(ks[0], v) + (EncFields(ks[1..], vs) + s)
    ensures TypedFields(ks, [v] + vs) <==> Typed(ks[0], v) && TypedFields(ks[1..], vs)
  {
    assert ([v] + vs)[0] == v && ([v] + vs)[1..] == vs;
  }

  lemma {:induction false} ItemsReencode(item: Kind, n: nat, b: seq<Byte>)
    ensures ItemsOk(item, n, b)
    decreases item, 1, n
  {
    if n == 0 {
      assert EncItems(item, []) + b == b;
    } else {
      AcceptedReencodes(item, b);
      if Dec(item, b).Ok? {
        ItemsReencode(item, n - 1, Dec(item, b).value.1);
        ItemsOkCons(item, n, b);
      }
    }
  }

  lemma ItemsOkCons(item: Kind, n: nat, b: seq<Byte>)
    requires n > 0 && Dec(item, b).Ok? && Reencodes(item, b) && ItemsOk(item, n - 1, Dec(item, b).value.1)
    ensures ItemsOk(item, n, b)
  {
    hide Enc, Dec, ShiftsFit, Typed;
    var (v, rest) := Dec(item, b).value;
    if DecItems(item, n - 1, rest).Ok? {
      var (vs, s) := DecItems(item, n - 1, rest).value;
      DecDrops(item, b);
      ItemsCons(item, v, vs, s);
      SplitEqual(Enc(item, v), rest, EncItems(item, vs) + s, b);
    }
  }

  /** `head + rest'` equals `b` iff `head + rest` does and the tails agree. */
  lemma SplitEqual(head: seq<Byte>, rest: seq<Byte>, rest': seq<Byte>, b: seq<Byte>)
    requires |head + rest| == |b| && |rest'| == |rest| && rest == b[|head|..]
    ensures head + rest' == b <==> (head + rest == b && rest' == rest)
  {
    if head + rest' == b {
      assert rest' == b[|head|..];
    }
  }

  ghost predicate Drops(b: seq<Byte>, rest: seq<Byte>) {
    |rest| <= |b| && rest == b[|b| - |rest|..]
  }

  lemma DropsMore(b: seq<Byte>, n: nat, rest: seq<Byte>)
    requires n <= |b| && Drops(b[n..], rest)
    ensures Drops(b, rest)
  {
  }

  lemma DropsTransitive(b: seq<Byte>, c: seq<Byte>, rest: seq<Byte>)
    requires Drops(b, c) && Drops(c, rest)
    ensures Drops(b, rest)
  {
    DropsMore(b, |b| - |c|, rest);
  }

  /** The decoder only ever drops a prefix of its input. */
  lemma {:induction false} DecDrops(k: Kind, b: seq<Byte>)
    requires Dec(k, b).Ok?
    ensures Drops(b, Dec(k, b).value.1)
    decreases k, 0, 0
  {
    match k {
      case Checked(raw, _) => DecDrops(raw, b);
      case Optional(inner) =>
        if b[0] == 1 {
          DecDrops(inner, b[1..]);
          DropsMore(b, 1, Dec(inner, b[1..]).value.1);
        }
      case Vector(item) =>
        var n := FromLE(b[..4]);
        DecItemsDrops(item, n, b[4..]);
        DropsMore(b, 4, DecItems(item, n, b[4..]).value.1);
      case Record(fields) => DecFieldsDrops(fields, b);
      case Variant(cases) =>
        DecDrops(cases[b[0]], b[1..]);
        DropsMore(b, 1, Dec(cases[b[0]], b[1..]).value.1);
      case _ => PrimitiveDrops(k, b);
    }
  }

  lemma PrimitiveDrops(k: Kind, b: seq<Byte>)
    requires Dec(k, b).Ok? && (IsInt(k) || k.Bool? || k.Hash32?)
    ensures Drops(b, Dec(k, b).value.1)
  {
  }

  lemma {:induction false} DecItemsDrops(item: Kind, n: nat, b: seq<Byte>)
    requires DecItems(item, n, b).Ok?
    ensures Drops(b, DecItems(item, n, b).value.1)
    decreases item, 1, n
  {
    if n != 0 {
      var rest := Dec(item, b).value.1;
      DecDrops(item, b);
      DecItemsDrops(item, n - 1, rest);
      DropsTransitive(b, rest, DecItems(item, n, b).value.1);
    }
  }

  lemma {:induction false} DecFieldsDrops(ks: seq<Kind>, b: seq<Byte>)
    requires DecFields(ks, b).Ok?
    ensures Drops(b, DecFields(ks, b).value.1)
    decreases ks, 0, 0
  {
    if |ks| != 0 {
      var rest := Dec(ks[0], b).value.1;
      DecDrops(ks[0], b);
      DecFieldsDrops(ks[1..], rest);
      DropsTransitive(b, rest, DecFields(ks, b).value.1);
    }
  }

  lemma {:induction false} FieldsReencode(ks: seq<Kind>, b: seq<Byte>)
    ensures FieldsOk(ks, b)
    decreases ks, 0, 0
  {
    if |ks| == 0 {
      assert EncFields(ks, []) + b == b;
    } else {
      AcceptedReencodes(ks[0], b);
      if Dec(ks[0], b).Ok? {
        FieldsReencode(ks[1..], Dec(ks[0], b).value.1);
        FieldsOkCons(ks, b);
      }
    }
  }

  lemma FieldsOkCons(ks: seq<Kind>, b: seq<Byte>)
    requires |ks| > 0 && Dec(ks[0], b).Ok? && Reencodes(ks[0], b) && FieldsOk(ks[1..], Dec(ks[0], b).value.1)
    ensures FieldsOk(ks, b)
  {
    hide Enc, Dec, ShiftsFit, Typed;
    var (v, rest) := Dec(ks[0], b).value;
    if DecFields(ks[1..], rest).Ok? {
      var (vs, s) := DecFields(ks[1..], rest).value;
      DecDrops(ks[0], b);
      FieldsCons(ks, v, vs, s);
      SplitEqual(Enc(ks[0], v), rest, EncFields(ks[1..], vs) + s, b);
    }
  }

  /** Kinds with no u64-carried shift: Tensor, Scale and PublicInput among them. */
  predicate NoShift(k: Kind) {
    match k
    case Shift => false
    case Checked(raw, _) => NoShift(raw)
    case Optional(inner) => NoShift(inner)
    case Vector(item) => NoShift(item)
    case Record(fields) => forall i :: 0 <= i < |fields| ==> NoShift(fields[i])
    case Variant(cases) => forall i :: 0 <= i < |cases| ==> NoShift(cases[i])
    case _ => true
  }

  lemma {:induction false} NoShiftFits(k: Kind, b: seq<Byte>)
    requires NoShift(k)
    ensures ShiftsFit(k, b)
    decreases k, 0, 0
  {
    match k {
      case Checked(raw, _) => NoShiftFits(raw, b);
      case Optional(inner) => if |b| > 0 { NoShiftFits(inner, b[1..]); }
      case Vector(item) => if |b| >= 4 { NoShiftFitsItems(item, FromLE(b[..4]), b[4..]); }
      case Record(fields) => NoShiftFitsFields(fields, b);
      case Variant(cases) => if |b| > 0 && b[0] < |cases| { NoShiftFits(cases[b[0]], b[1..]); }
      case _ =>
    }
  }

  lemma {:induction false} NoShiftFitsItems(item: Kind, n: nat, b: seq<Byte>)
    requires NoShift(item)
    ensures ShiftsFitItems(item, n, b)
    decreases item, 1, n
  {
    if n != 0 {
      NoShiftFits(item, b);
      if Dec(item, b).Ok? { NoShiftFitsItems(item, n - 1, Dec(item, b).value.1); }
    }
  }

  lemma {:induction false} NoShiftFitsFields(ks: seq<Kind>, b: seq<Byte>)
    requires forall i :: 0 <= i < |ks| ==> NoShift(ks[i])
    ensures ShiftsFitFields(ks, b)
    decreases ks, 0, 0
  {
    if |ks| != 0 {
      NoShiftFits(ks[0], b);
      if Dec(ks[0], b).Ok? { NoShiftFitsFields(ks[1..], Dec(ks[0], b).value.1); }
    }
  }
}
