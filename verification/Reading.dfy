/**
 * crates/pwm-core/src/serialize.rs: the forward-only reader, and what accepting a byte
 * string means for whole values.
 */
module Reading {
  import opened Wrappers
  import opened Arith
  import opened Bytes
  import opened Codec
  import opened Commitments
  import opened Traces
  import Field

  /** A cursor over a byte string. */
  class Reader {
    const bytes: seq<Byte>
    var pos: nat

    ghost predicate Valid()
      reads this
    {
      pos <= |bytes|
    }

    /** What is still to be read. */
    ghost function Rest(): seq<Byte>
      reads this
      requires Valid()
    {
      bytes[pos..]
    }

    constructor (bytes: seq<Byte>)
      ensures Valid() && this.bytes == bytes && pos == 0
    {
      this.bytes := bytes;
      pos := 0;
    }

    method Take(n: nat) returns (r: Result<seq<Byte>, DecodeError>)
      requires Valid()
      modifies this
      ensures Valid()
      ensures var spec := TakeBytes(old(Rest()), n);
              if spec.Ok? then r == Ok(spec.value.0) && Rest() == spec.value.1 else r == Err(spec.error)
    {
      var end := pos + n;
      if end > |bytes| {
        return Err(UnexpectedEof(n, |bytes| - pos));
      }
      assert bytes[pos..][..n] == bytes[pos..end] && bytes[pos..][n..] == bytes[end..];
      var slice := bytes[pos..end];
      pos := end;
      r := Ok(slice);
    }

    /** One value, advancing past its bytes. */
    method Decode(k: Kind) returns (r: Result<Value, DecodeError>)
      requires Valid()
      modifies this
      ensures Valid()
      ensures var spec := Dec(k, old(Rest()));
              if spec.Ok? then r == Ok(spec.value.0) && Rest() == spec.value.1 else r == Err(spec.error)
      decreases k, 0, 0
    {
      match k {
        case Bool =>
          var t :- Take(1);
          if t[0] == 0 { return Ok(Flag(false)); }
          if t[0] == 1 { return Ok(Flag(true)); }
          return Err(InvalidBool(t[0]));
        case Hash32 =>
          var t :- Take(32);
          return Ok(Bits(t));
        case Checked(raw, test) =>
          var v :- Decode(raw);
          return Check(test, v);
        case Optional(inner) =>
          var t :- Take(1);
          if t[0] == 0 { return Ok(Absent); }
          if t[0] != 1 { return Err(InvalidOptionTag(t[0])); }
          var v :- Decode(inner);
          return Ok(Present(v));
        case Vector(item) =>
          var t :- Take(4);
          var vs :- DecodeMany(item, FromLE(t));
          return Ok(List(vs));
        case Record(fields) =>
          var vs :- DecodeAll(fields);
          return Ok(List(vs));
        case Variant(cases) =>
          var t :- Take(1);
          if t[0] >= |cases| { return Err(InvalidDiscriminant(t[0])); }
          var v :- Decode(cases[t[0]]);
          return Ok(Case(t[0], v));
        case _ =>
          var t :- Take(Width(k));
          return AsInt(IntOf(k, FromLE(t)));
      }
    }

    /** `n` items of one kind, pushed in a loop. */
    method DecodeMany(item: Kind, n: nat) returns (r: Result<seq<Value>, DecodeError>)
      requires Valid()
      modifies this
      ensures Valid()
      ensures var spec := DecItems(item, n, old(Rest()));
              if spec.Ok? then r == Ok(spec.value.0) && Rest() == spec.value.1 else r == Err(spec.error)
      decreases item, 1, n
    {
      hide Dec;
      var items: seq<Value> := [];
      PrependedNone(DecItems(item, n, Rest()));
      for i := 0 to n
        invariant Valid()
        invariant Prepended(items, DecItems(item, n - i, Rest())) == DecItems(item, n, old(Rest()))
      {
        ghost var before := DecItems(item, n - i, Rest());
        ghost var was := items;
        var v :- Decode(item);
        items := items + [v];
        PrependedStep(was, v, DecItems(item, n - i - 1, Rest()));
      }
      assert items + [] == items;
      r := Ok(items);
    }

    /** A struct's fields in order. */
    method DecodeAll(fields: seq<Kind>) returns (r: Result<seq<Value>, DecodeError>)
      requires Valid()
      modifies this
      ensures Valid()
      ensures var spec := DecFields(fields, old(Rest()));
              if spec.Ok? then r == Ok(spec.value.0) && Rest() == spec.value.1 else r == Err(spec.error)
      decreases fields, 0, 0
    {
      if |fields| == 0 { return Ok([]); }
      var v :- Decode(fields[0]);
      var vs :- DecodeAll(fields[1..]);
      return Ok([v] + vs);
    }

    method Finish() returns (r: Result<(), DecodeError>)
      requires Valid()
      ensures r == if Rest() == [] then Ok(()) else Err(TrailingBytes(|Rest()|))
    {
      var remaining := |bytes| - pos;
      r := if remaining == 0 then Ok(()) else Err(TrailingBytes(remaining));
    }
  }

  function AsInt(x: Result<int, DecodeError>): Result<Value, DecodeError> {
    match x
    case Ok(v) => Ok(Int(v))
    case Err(e) => Err(e)
  }

  /** Items already read, in front of what is read next. */
  function Prepended(items: seq<Value>, d: DecodedList): DecodedList {
    match d
    case Err(e) => Err(e)
    case Ok((vs, rest)) => Ok((items + vs, rest))
  }

  lemma PrependedNone(d: DecodedList)
    ensures Prepended([], d) == d
  {
    if d.Ok? { assert [] + d.value.0 == d.value.0; }
  }

  lemma PrependedStep(items: seq<Value>, v: Value, d: DecodedList)
    ensures Prepended(items + [v], d) == Prepended(items, Prepended([v], d))
  {
    if d.Ok? {
      assert (items + [v]) + d.value.0 == items + ([v] + d.value.0);
    }
  }

  // ------------------------------------------------------------------ whole strings

  /** A value from a whole byte string: trailing bytes are an error. */
  function FromCanonical(k: Kind, b: seq<Byte>): Result<Value, DecodeError> {
    var (v, rest) :- Dec(k, b);
    if rest == [] then Ok(v) else Err(TrailingBytes(|rest|))
  }

  method FromCanonicalBytes(k: Kind, b: seq<Byte>) returns (r: Result<Value, DecodeError>)
    ensures r == FromCanonical(k, b)
  {
    var reader := new Reader(b);
    assert b[0..] == b;
    var v :- reader.Decode(k);
    var _ :- reader.Finish();
    r := Ok(v);
  }

  /**
   * The accepted strings, exactly: a value decodes from the string with no shift
   * truncated iff it is well typed and the string is its encoding.
   */
  lemma CanonicalIff(k: Kind, b: seq<Byte>, v: Value)
    ensures FromCanonical(k, b) == Ok(v) && ShiftsFit(k, b) <==> Typed(k, v) && Enc(k, v) == b
    ensures FromCanonical(k, b) == Ok(v) ==> Typed(k, v)
  {
    AcceptedReencodes(k, b);
    if Typed(k, v) && Enc(k, v) == b {
      RoundTrip(k, v, []);
      assert Enc(k, v) + [] == b;
    }
    if FromCanonical(k, b) == Ok(v) {
      assert Enc(k, v) + [] == Enc(k, v);
    }
  }

  /** For kinds without a u64-carried shift nothing else is accepted. */
  lemma CanonicalNoShift(k: Kind, b: seq<Byte>, v: Value)
    requires NoShift(k)
    ensures FromCanonical(k, b) == Ok(v) <==> Typed(k, v) && Enc(k, v) == b
  {
    NoShiftFits(k, b);
    CanonicalIff(k, b, v);
  }

  /** Tensor, Scale, activation table and PublicInput carry no such shift. */
  lemma UnshiftedKinds()
    ensures NoShift(TENSOR) && NoShift(SCALE) && NoShift(TABLE) && NoShift(PUBLIC_INPUT)
  {
    assert NoShift(BOUNDED_INT);
  }

  // ----------------------------------------------------------- where the cast shows

  const AFTER_SHIFT: seq<Kind> := [I64, I64, I64, U8]
  const ZERO_FIELDS: seq<Value> := [Int(0), Int(0), Int(0), Int(0)]

  /** The bytes of a requant spec with zero parameters whose u64 shift field holds `shift`. */
  function RequantSpecBytes(opId: nat, shift: nat): seq<Byte> {
    [1] + (LE(opId, 4) + (LE(shift, 8) + EncFields(AFTER_SHIFT, ZERO_FIELDS)))
  }

  lemma ZeroTail()
    ensures DecFields(AFTER_SHIFT, EncFields(AFTER_SHIFT, ZERO_FIELDS)) == Ok((ZERO_FIELDS, []))
  {
    assert TypedFields([U8], [Int(0)]);
    assert AFTER_SHIFT[3..] == [U8] && ZERO_FIELDS[3..] == [Int(0)];
    assert AFTER_SHIFT[2..][1..] == AFTER_SHIFT[3..] && ZERO_FIELDS[2..][1..] == ZERO_FIELDS[3..];
    assert AFTER_SHIFT[1..][1..] == AFTER_SHIFT[2..] && ZERO_FIELDS[1..][1..] == ZERO_FIELDS[2..];
    assert TypedFields(AFTER_SHIFT[2..], ZERO_FIELDS[2..]);
    assert TypedFields(AFTER_SHIFT[1..], ZERO_FIELDS[1..]);
    RoundTripFields(AFTER_SHIFT, ZERO_FIELDS, []);
    var b := EncFields(AFTER_SHIFT, ZERO_FIELDS);
    assert b + [] == b;
  }

  lemma IntDecodes(k: Kind, x: int, s: seq<Byte>)
    requires IsInt(k) && IntFits(k, x)
    ensures Dec(k, LE(x, Width(k)) + s) == Ok((Int(x), s))
  {
    TakePrefix(LE(x, Width(k)), s);
    IntRoundTrip(k, x);
  }

  /** A shift of 2^32 decodes to 0, and does not fit. */
  lemma ShiftWraps(s: seq<Byte>)
    ensures Dec(Shift, LE(TWO32, 8) + s) == Ok((Int(0), s)) && !ShiftsFit(Shift, LE(TWO32, 8) + s)
  {
    TakePrefix(LE(TWO32, 8), s);
    FromLEOfLE(TWO32, 8);
    Pow256Values();
    ModUnique(TWO32, Field.TWO64, 0, TWO32);
    ModUnique(TWO32, TWO32, 1, 0);
  }

  lemma FieldsStep(k: Kind, ks: seq<Kind>, b: seq<Byte>, v: Value, rest: seq<Byte>, vs: seq<Value>, end: seq<Byte>)
    requires Dec(k, b) == Ok((v, rest)) && DecFields(ks, rest) == Ok((vs, end))
    ensures DecFields([k] + ks, b) == Ok(([v] + vs, end))
    ensures ShiftsFitFields([k] + ks, b) <==> ShiftsFit(k, b) && ShiftsFitFields(ks, rest)
  {
    assert ([k] + ks)[1..] == ks;
  }

  lemma CaseStep(cases: seq<Kind>, tag: Byte, b: seq<Byte>, v: Value)
    requires tag < |cases| && Dec(cases[tag], b) == Ok((v, []))
    ensures FromCanonical(Variant(cases), [tag] + b) == Ok(Case(tag, v))
    ensures ShiftsFit(Variant(cases), [tag] + b) <==> ShiftsFit(cases[tag], b)
  {
    TakePrefix([tag], b);
    assert ([tag] + b)[1..] == b;
  }

  /**
   * Two different strings decode to one op spec: the shift field is cast to u32, so the
   * string with 2^32 in it is accepted as shift 0 and re-encodes to other bytes.
   */
  lemma ShiftAliases(opId: nat)
    requires opId < TWO32
    ensures var b, v := RequantSpecBytes(opId, TWO32), SpecValue(RequantSpec(opId, 0, 0, 0, 0, 0));
            FromCanonical(OP_SPEC, b) == Ok(v) && Enc(OP_SPEC, v) != b
  {
    hide LE, EncFields, DecFields, ShiftsFitFields, FromCanonical, Enc, ShiftsFit, Dec, Typed, TypedFields, SpecValue;
    var tail := EncFields(AFTER_SHIFT, ZERO_FIELDS);
    var b1 := LE(TWO32, 8) + tail;
    var b0 := LE(opId, 4) + b1;
    ZeroTail();
    ShiftWraps(tail);
    FieldsStep(Shift, AFTER_SHIFT, b1, Int(0), tail, ZERO_FIELDS, []);
    IntDecodes(U32, opId, b1);
    FieldsStep(U32, [Shift] + AFTER_SHIFT, b0, Int(opId), b1, [Int(0)] + ZERO_FIELDS, []);
    var fields, items := [U32] + ([Shift] + AFTER_SHIFT), [Int(opId)] + ([Int(0)] + ZERO_FIELDS);
    SpecCase(opId);
    RecordStep(fields, b0, items);
    CaseStep(OP_SPEC.cases, 1, b0, List(items));
    CanonicalIff(OP_SPEC, [1] + b0, Case(1, List(items)));
  }

  lemma SpecCase(opId: nat)
    ensures OP_SPEC.cases[1] == Record([U32] + ([Shift] + AFTER_SHIFT))
    ensures SpecValue(RequantSpec(opId, 0, 0, 0, 0, 0)) == Case(1, List([Int(opId)] + ([Int(0)] + ZERO_FIELDS)))
  {
    assert [U32] + ([Shift] + AFTER_SHIFT) == [U32, Shift, I64, I64, I64, U8];
    assert [Int(opId)] + ([Int(0)] + ZERO_FIELDS) == [Int(opId), Int(0), Int(0), Int(0), Int(0), Int(0)];
  }

  lemma RecordStep(fields: seq<Kind>, b: seq<Byte>, items: seq<Value>)
    requires DecFields(fields, b) == Ok((items, []))
    ensures Dec(Record(fields), b) == Ok((List(items), []))
    ensures ShiftsFit(Record(fields), b) <==> ShiftsFitFields(fields, b)
  {
  }
}
