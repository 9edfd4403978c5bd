/** The payload builder: collects a data type tag, a value and a memory order,
    then encodes the value into the holding-register words Modbus receives.
    Integers are packed the way pymodbus's BinaryPayloadBuilder packs them:
    big-endian two's-complement bytes of the declared width, laid out in the
    memory order, padded to an even length and read back as big-endian words. */
module PayloadBuilder {
  import opened Wrappers
  import opened Errors
  import opened PyValue
  import opened Endianness
  import opened Registers

  /** The closed set of data types a tag can name. */
  datatype DataType =
    | Float64 | Float32 | Float16
    | Int8 | UInt8 | Int16 | UInt16 | Int32 | UInt32 | Int64 | UInt64
    | String

  /** The encoders the model keeps abstract: the IEEE-754 bit pattern of a
      finite float of the given type (or the text of the OverflowError packing
      raises), and the UTF-8 bytes of a str. */
  datatype Codecs = Codecs(ieee: (DataType, real) -> Result<nat, string>, utf8: string -> seq<Byte>)

  /** The tag strings `build` dispatches on. */
  const AcceptedTags: seq<string> := [
    "FLOAT64-IEEE", "FLOAT32-IEEE", "FLOAT32", "FLOAT16-IEEE",
    "INT8", "UINT8", "INT16", "UINT16", "INT32", "UINT32", "INT64", "UINT64",
    "STRING"]

  /** The data type a tag names; FLOAT32 is an alias of FLOAT32-IEEE. */
  function ParseTag(tag: string): (r: Option<DataType>)
    ensures r.Some? <==> tag in AcceptedTags
    ensures r == Some(String) <==> tag == "STRING"
  {
    match tag
    case "FLOAT64-IEEE" => Some(Float64)
    case "FLOAT32-IEEE" => Some(Float32)
    case "FLOAT32" => Some(Float32)
    case "FLOAT16-IEEE" => Some(Float16)
    case "INT8" => Some(Int8)
    case "UINT8" => Some(UInt8)
    case "INT16" => Some(Int16)
    case "UINT16" => Some(UInt16)
    case "INT32" => Some(Int32)
    case "UINT32" => Some(UInt32)
    case "INT64" => Some(Int64)
    case "UINT64" => Some(UInt64)
    case "STRING" => Some(String)
    case _ => None
  }

  /** The canonical tag of a data type. */
  function TagName(dt: DataType): (tag: string)
    ensures ParseTag(tag) == Some(dt)
  {
    match dt
    case Float64 => "FLOAT64-IEEE"
    case Float32 => "FLOAT32-IEEE"
    case Float16 => "FLOAT16-IEEE"
    case Int8 => "INT8"
    case UInt8 => "UINT8"
    case Int16 => "INT16"
    case UInt16 => "UINT16"
    case Int32 => "INT32"
    case UInt32 => "UINT32"
    case Int64 => "INT64"
    case UInt64 => "UINT64"
    case String => "STRING"
  }

  predicate IsInteger(dt: DataType) {
    dt in {Int8, UInt8, Int16, UInt16, Int32, UInt32, Int64, UInt64}
  }

  predicate IsFloat(dt: DataType) {
    dt in {Float64, Float32, Float16}
  }

  predicate Signed(dt: DataType) {
    dt in {Int8, Int16, Int32, Int64}
  }

  /** Width in bytes of a numeric type. */
  function Width(dt: DataType): (n: nat)
    requires dt != String
    ensures n in {1, 2, 4, 8}
  {
    match dt
    case Int8 => 1
    case UInt8 => 1
    case Int16 => 2
    case UInt16 => 2
    case Float16 => 2
    case Int32 => 4
    case UInt32 => 4
    case Float32 => 4
    case Int64 => 8
    case UInt64 => 8
    case Float64 => 8
  }

  /** Number of registers a numeric type occupies. */
  function WordCount(dt: DataType): nat
    requires dt != String
  {
    (Width(dt) + 1) / 2
  }

  /** Smallest value an integer type packs. */
  function Lo(dt: DataType): int
    requires IsInteger(dt)
  {
    if Signed(dt) then -(Pow256(Width(dt)) / 2) else 0
  }

  /** Largest value an integer type packs. */
  function Hi(dt: DataType): int
    requires IsInteger(dt)
  {
    if Signed(dt) then Pow256(Width(dt)) / 2 - 1 else Pow256(Width(dt)) - 1
  }

  /** The struct format character of an integer type. */
  function FormatChar(dt: DataType): char
    requires IsInteger(dt)
  {
    match dt
    case Int8 => 'b'
    case UInt8 => 'B'
    case Int16 => 'h'
    case UInt16 => 'H'
    case Int32 => 'i'
    case UInt32 => 'I'
    case Int64 => 'q'
    case UInt64 => 'Q'
  }

  /** The text of the struct.error an out-of-range integer raises. */
  function RangeText(dt: DataType): string
    requires IsInteger(dt)
  {
    "'" + [FormatChar(dt)] + "' format requires " + IntToString(Lo(dt))
    + " <= number <= " + IntToString(Hi(dt))
  }

  /** Place the big-endian bytes of a value in memory: a single byte is padded
      with a zero byte after it, wider values are laid out in order `o`. */
  function Place(o: Order, bs: seq<Byte>): (ps: seq<Byte>)
    requires |bs| in {1, 2, 4, 8}
    ensures |ps| % 2 == 0
  {
    if |bs| == 1 then PadEven(bs) else Arrange(o, bs)
  }

  /** The inverse of Place on the bytes of an n-byte value. */
  function Unplace(o: Order, ps: seq<Byte>, n: nat): (bs: seq<Byte>)
    requires n in {1, 2, 4, 8}
    requires |ps| == n + n % 2
    ensures |bs| == n
  {
    if n == 1 then ps[..1] else Unarrange(o, ps)
  }

  /** The registers holding the unsigned n-byte number u. */
  function PackUnsigned(o: Order, u: nat, n: nat): (ws: seq<Word>)
    requires n in {1, 2, 4, 8}
    requires u < Pow256(n)
    ensures |ws| == (n + 1) / 2
  {
    PairUp(Place(o, NatToBytes(u, n)))
  }

  /** The unsigned n-byte number held in registers ws. */
  function UnpackUnsigned(o: Order, ws: seq<Word>, n: nat): (u: nat)
    requires n in {1, 2, 4, 8}
    requires |ws| == (n + 1) / 2
    ensures u < Pow256(n)
  {
    BytesToNat(Unplace(o, Split(ws), n))
  }

  /** Two's complement of v in n bytes. */
  function ToUnsigned(v: int, n: nat): int {
    if v < 0 then v + Pow256(n) else v
  }

  /** Reading an unsigned n-byte number back as a signed one. */
  function ToSigned(u: int, n: nat): int {
    if u >= Pow256(n) / 2 then u - Pow256(n) else u
  }

  /** The int `struct.pack` accepts for an integer format: Python ints and bools. */
  function IntegerOf(v: Json): Option<int> {
    match v
    case JInt(i) => Some(i)
    case JBool(b) => Some(if b then 1 else 0)
    case _ => None
  }

  /** The float `struct.pack` accepts for a float format: ints, bools and floats. */
  function FloatOf(v: Json): Option<Float> {
    match v
    case JInt(i) => Some(Finite(i as real))
    case JBool(b) => Some(Finite(if b then 1.0 else 0.0))
    case JFloat(f) => Some(f)
    case _ => None
  }

  /** The sign bit of a float type's bit pattern. */
  function SignBit(dt: DataType): nat
    requires IsFloat(dt)
  {
    if dt == Float16 then 0x8000 else if dt == Float32 then 0x8000_0000 else 0x8000_0000_0000_0000
  }

  /** Every exponent bit of a float type's bit pattern set. */
  function ExponentBits(dt: DataType): nat
    requires IsFloat(dt)
  {
    if dt == Float16 then 0x7c00 else if dt == Float32 then 0x7f80_0000 else 0x7ff0_0000_0000_0000
  }

  /** The highest fraction bit, which marks a quiet NaN. */
  function QuietBit(dt: DataType): nat
    requires IsFloat(dt)
  {
    if dt == Float16 then 0x200 else if dt == Float32 then 0x40_0000 else 0x8_0000_0000_0000
  }

  /** The bit pattern `struct` packs a float into: the codec's for a finite
      value, and the fixed IEEE-754 patterns of negative zero (the sign bit
      alone), the infinities (every exponent bit, with the sign bit when
      negative) and NaN (every exponent bit and the quiet bit). */
  function Bits(dt: DataType, f: Float, codecs: Codecs): (r: Result<nat, string>)
    requires IsFloat(dt)
    ensures !f.Finite? ==> r.Ok?
  {
    match f
    case Finite(x) => codecs.ieee(dt, x)
    case NegativeZero => Ok(SignBit(dt))
    case Infinite(negative) => Ok((if negative then SignBit(dt) else 0) + ExponentBits(dt))
    case NaN => Ok(ExponentBits(dt) + QuietBit(dt))
  }

  /** `add_8bit_int` … `add_64bit_uint`. */
  function EncodeInteger(dt: DataType, o: Order, v: Json): (r: Result<seq<Word>, PyError>)
    requires IsInteger(dt)
    ensures r.Err? ==> r.error.kind == StructError
    ensures r.Ok? <==> IntegerOf(v).Some? && Lo(dt) <= IntegerOf(v).value <= Hi(dt)
    ensures r.Ok? ==> |r.value| == WordCount(dt) && Decode(dt, o, r.value) == IntegerOf(v).value
  {
    match IntegerOf(v)
    case None => Err(PyError(StructError, "required argument is not an integer"))
    case Some(i) =>
      if i < Lo(dt) || i > Hi(dt) then Err(PyError(StructError, RangeText(dt)))
      else
        TwosComplement(dt, i);
        PackRoundTrip(o, ToUnsigned(i, Width(dt)), Width(dt));
        Ok(PackUnsigned(o, ToUnsigned(i, Width(dt)), Width(dt)))
  }

  /** `add_16bit_float` … `add_64bit_float`: the bit pattern, laid out like an integer. */
  function EncodeFloat(dt: DataType, o: Order, v: Json, codecs: Codecs): (r: Result<seq<Word>, PyError>)
    requires IsFloat(dt)
    ensures r.Err? ==> r.error.kind == StructError || r.error.kind == OverflowError
    ensures r.Ok? <==> FloatOf(v).Some? && Bits(dt, FloatOf(v).value, codecs).Ok?
    ensures r.Ok? ==> |r.value| == WordCount(dt)
                      && UnpackUnsigned(o, r.value, Width(dt)) == Bits(dt, FloatOf(v).value, codecs).value % Pow256(Width(dt))
  {
    match FloatOf(v)
    case None => Err(PyError(StructError, "required argument is not a float"))
    case Some(x) =>
      match Bits(dt, x, codecs)
      case Err(text) => Err(PyError(OverflowError, text))
      case Ok(bits) =>
        PackRoundTrip(o, bits % Pow256(Width(dt)), Width(dt));
        Ok(PackUnsigned(o, bits % Pow256(Width(dt)), Width(dt)))
  }

  /** struct's `<n>s` format: the first n bytes, padded with zero bytes when
      there are fewer. */
  function FixedLength(bs: seq<Byte>, n: nat): (r: seq<Byte>)
    ensures |r| == n
    ensures forall i :: 0 <= i < n && i < |bs| ==> r[i] == bs[i]
    ensures forall i :: |bs| <= i < n ==> r[i] == 0
  {
    if n <= |bs| then bs[..n]
    else
      var zeros: seq<Byte> := seq(n - |bs|, _ => 0);
      bs + zeros
  }

  /** `add_string` (pymodbus 3.0 to 3.4): `len(value)` first, then
      `value.encode()`, then struct's `<len(value)>s` format, so the UTF-8
      bytes are cut or zero-padded to the number of characters; memory order
      plays no part. */
  function EncodeString(v: Json, codecs: Codecs): (r: Result<seq<Word>, PyError>)
    ensures r.Err? ==> r.error.kind == AttributeError || r.error.kind == TypeError
    ensures r.Err? <==> !v.JString?
    ensures r.Err? && r.error.kind == AttributeError <==> v.JArray? || v.JObject?
    ensures r.Ok? ==> |r.value| == (|v.s| + 1) / 2
                      && Split(r.value)[..|v.s|] == FixedLength(codecs.utf8(v.s), |v.s|)
                      && forall i :: |v.s| <= i < |Split(r.value)| ==> Split(r.value)[i] == 0
  {
    match v
    case JString(s) => Ok(PairUp(PadEven(FixedLength(codecs.utf8(s), |s|))))
    case JArray(_) | JObject(_) => Err(PyError(AttributeError, "'" + TypeName(v) + "' object has no attribute 'encode'"))
    case _ => Err(PyError(TypeError, "object of type '" + TypeName(v) + "' has no len()"))
  }

  /** The encoder a data type selects. */
  function Encode(dt: DataType, o: Order, v: Json, codecs: Codecs): Result<seq<Word>, PyError> {
    if IsInteger(dt) then EncodeInteger(dt, o, v)
    else if IsFloat(dt) then EncodeFloat(dt, o, v, codecs)
    else EncodeString(v, codecs)
  }

  /** A PayloadBuilder's three settings; JNull and None stand for "not set". */
  datatype Builder = Builder(dataType: Json, value: Json, memoryOrder: Option<MemoryOrder>)

  const Fresh: Builder := Builder(JNull, JNull, None)

  function SetDataType(b: Builder, dataType: Json): (b': Builder)
    ensures b'.dataType == dataType && b'.value == b.value && b'.memoryOrder == b.memoryOrder
  {
    b.(dataType := dataType)
  }

  function SetValue(b: Builder, value: Json): (b': Builder)
    ensures b'.value == value && b'.dataType == b.dataType && b'.memoryOrder == b.memoryOrder
  {
    b.(value := value)
  }

  function SetMemoryOrder(b: Builder, m: Option<MemoryOrder>): (b': Builder)
    ensures b'.memoryOrder == m && b'.dataType == b.dataType && b'.value == b.value
  {
    b.(memoryOrder := m)
  }

  /** All three settings are present. */
  predicate AllSet(b: Builder) {
    b.memoryOrder.Some? && !b.dataType.JNull? && !b.value.JNull?
  }

  /** The exceptions `build` can raise: a missing setting or a list or dict
      given as a string, an unknown tag, a value `struct` cannot pack, a float
      too large, a string operation on a value without a length. */
  predicate BuildFailure(k: Kind) {
    k == AttributeError || k == RuntimeError || k == StructError || k == OverflowError || k == TypeError
  }

  /** `build`: report the first missing setting (memory order, then data type,
      then value), reject an unknown tag, else encode. */
  function Build(b: Builder, codecs: Codecs): (r: Result<seq<Word>, PyError>)
    ensures b.memoryOrder.None? ==> r == Err(PyError(AttributeError, "set memory order"))
    ensures b.memoryOrder.Some? && b.dataType.JNull? ==> r == Err(PyError(AttributeError, "set data type"))
    ensures b.memoryOrder.Some? && !b.dataType.JNull? && b.value.JNull? ==> r == Err(PyError(AttributeError, "set value"))
    ensures r.Err? && r.error.kind == AttributeError <==>
              !AllSet(b) || (b.dataType == JString("STRING") && (b.value.JArray? || b.value.JObject?))
    ensures AllSet(b) && !(b.dataType.JString? && b.dataType.s in AcceptedTags) ==>
              r == Err(PyError(RuntimeError, "unknown data type " + Str(b.dataType)))
    ensures r.Ok? ==> AllSet(b) && b.dataType.JString? && b.dataType.s in AcceptedTags
    ensures r.Err? ==> BuildFailure(r.error.kind)
  {
    if b.memoryOrder.None? then Err(PyError(AttributeError, "set memory order"))
    else if b.dataType.JNull? then Err(PyError(AttributeError, "set data type"))
    else if b.value.JNull? then Err(PyError(AttributeError, "set value"))
    else
      var dt := if b.dataType.JString? then ParseTag(b.dataType.s) else None;
      match dt
      case None => Err(PyError(RuntimeError, "unknown data type " + Str(b.dataType)))
      case Some(t) => Encode(t, b.memoryOrder.value.order, b.value, codecs)
  }

  /** A builder with all three settings made, in the order `_build_register_payload` makes them. */
  function Configured(dataType: Json, value: Json, m: MemoryOrder): Builder {
    SetMemoryOrder(SetValue(SetDataType(Fresh, dataType), value), Some(m))
  }

  /** Reading an integer of type dt back from its registers (the decoder the
      receiving device applies). */
  function Decode(dt: DataType, o: Order, ws: seq<Word>): int
    requires IsInteger(dt)
    requires |ws| == WordCount(dt)
  {
    var u := UnpackUnsigned(o, ws, Width(dt));
    if Signed(dt) then ToSigned(u, Width(dt)) else u
  }

  // ---------------------------------------------------------------------------
  // Properties

  /** With all settings made and a recognised tag, `build` runs that tag's encoder. */
  lemma BuildSelects(dt: DataType, v: Json, m: MemoryOrder, codecs: Codecs)
    requires !v.JNull?
    ensures Build(Configured(JString(TagName(dt)), v, m), codecs) == Encode(dt, m.order, v, codecs)
  {
    var b := Configured(JString(TagName(dt)), v, m);
    assert b == Builder(JString(TagName(dt)), v, Some(m));
  }

  /** Packing then unpacking an unsigned number of any width and order gives it back. */
  lemma PackRoundTrip(o: Order, u: nat, n: nat)
    requires n in {1, 2, 4, 8}
    requires u < Pow256(n)
    ensures UnpackUnsigned(o, PackUnsigned(o, u, n), n) == u
  {
    var bs := NatToBytes(u, n);
    BytesRoundTrip(u, n);
    var ps := Place(o, bs);
    assert Split(PairUp(ps)) == ps;
    if n == 1 {
      assert ps[..1] == bs;
    } else {
      ArrangeRoundTrip(o, bs);
    }
  }

  /** The byte widths' value counts: 2^8, 2^16, 2^32, 2^64. */
  lemma Pow256Values()
    ensures Pow256(1) == 0x100
    ensures Pow256(2) == 0x1_0000
    ensures Pow256(4) == 0x1_0000_0000
    ensures Pow256(8) == 0x1_0000_0000_0000_0000
  {
    assert Pow256(3) == 0x100_0000;
    assert Pow256(5) == 0x100_0000_0000;
    assert Pow256(6) == 0x1_0000_0000_0000;
    assert Pow256(7) == 0x100_0000_0000_0000;
  }

  /** The ranges the struct formats enforce. */
  lemma IntegerRanges()
    ensures Lo(Int8) == -128 && Hi(Int8) == 127
    ensures Lo(UInt8) == 0 && Hi(UInt8) == 255
    ensures Lo(Int16) == -32768 && Hi(Int16) == 32767
    ensures Lo(UInt16) == 0 && Hi(UInt16) == 65535
    ensures Lo(Int32) == -2147483648 && Hi(Int32) == 2147483647
    ensures Lo(UInt32) == 0 && Hi(UInt32) == 4294967295
    ensures Lo(Int64) == -9223372036854775808 && Hi(Int64) == 9223372036854775807
    ensures Lo(UInt64) == 0 && Hi(UInt64) == 18446744073709551615
  {
    Pow256Values();
  }

  /** Every integer in range encodes into WordCount(dt) registers that decode
      back to it, whatever the memory order. */
  lemma IntegerRoundTrip(dt: DataType, m: MemoryOrder, v: int, codecs: Codecs)
    requires IsInteger(dt)
    requires Lo(dt) <= v <= Hi(dt)
    ensures var r := Build(Configured(JString(TagName(dt)), JInt(v), m), codecs);
            r.Ok? && |r.value| == WordCount(dt) && Decode(dt, m.order, r.value) == v
  {
    BuildSelects(dt, JInt(v), m, codecs);
    var n := Width(dt);
    var u := ToUnsigned(v, n);
    TwosComplement(dt, v);
    PackRoundTrip(m.order, u, n);
  }

  /** An integer value encodes exactly when it lies in the declared range;
      outside it, packing fails with struct.error naming the range. */
  lemma IntegerRange(dt: DataType, m: MemoryOrder, v: int, codecs: Codecs)
    requires IsInteger(dt)
    ensures var r := Build(Configured(JString(TagName(dt)), JInt(v), m), codecs);
            (r.Ok? <==> Lo(dt) <= v <= Hi(dt))
            && (r.Err? ==> r.error == PyError(StructError, RangeText(dt)))
  {
    BuildSelects(dt, JInt(v), m, codecs);
  }

  /** A float's registers hold its IEEE bit pattern, in the memory order,
      whenever packing does not overflow. */
  lemma FloatBits(dt: DataType, m: MemoryOrder, v: Json, codecs: Codecs)
    requires IsFloat(dt)
    requires !v.JNull?
    ensures var r := Build(Configured(JString(TagName(dt)), v, m), codecs);
            match FloatOf(v)
            case None => r == Err(PyError(StructError, "required argument is not a float"))
            case Some(x) =>
              (r.Ok? <==> Bits(dt, x, codecs).Ok?)
              && (!x.Finite? ==> r.Ok?)
              && (r.Ok? ==> |r.value| == WordCount(dt)
                            && UnpackUnsigned(m.order, r.value, Width(dt)) == Bits(dt, x, codecs).value % Pow256(Width(dt)))
  {
    BuildSelects(dt, v, m, codecs);
    match FloatOf(v) {
      case None =>
      case Some(x) =>
        if Bits(dt, x, codecs).Ok? {
          PackRoundTrip(m.order, Bits(dt, x, codecs).value % Pow256(Width(dt)), Width(dt));
        }
    }
  }

  /** The fixed patterns fit the type's width, and carry the sign bit exactly
      for negative zero and negative infinity. */
  lemma SpecialPattern(dt: DataType, f: Float, codecs: Codecs)
    requires IsFloat(dt)
    requires !f.Finite?
    ensures Bits(dt, f, codecs).value < Pow256(Width(dt))
    ensures Bits(dt, f, codecs).value >= SignBit(dt) <==> f == NegativeZero || f == Infinite(true)
    ensures SignBit(dt) == Pow256(Width(dt)) / 2
  {
    Pow256Values();
  }

  /** A non-finite value or negative zero always packs, as its fixed pattern. */
  lemma EncodeSpecial(dt: DataType, o: Order, f: Float, codecs: Codecs)
    requires IsFloat(dt)
    requires !f.Finite?
    ensures Bits(dt, f, codecs).value < Pow256(Width(dt))
    ensures EncodeFloat(dt, o, JFloat(f), codecs) == Ok(PackUnsigned(o, Bits(dt, f, codecs).value, Width(dt)))
  {
    var bits := Bits(dt, f, codecs).value;
    var n := Width(dt);
    SpecialPattern(dt, f, codecs);
    EncodeFloatPattern(dt, o, JFloat(f), f, bits, codecs);
    BelowModulus(bits, Pow256(n));
  }

  /** EncodeFloat packs the pattern Bits gives, reduced to the type's width. */
  lemma EncodeFloatPattern(dt: DataType, o: Order, v: Json, x: Float, bits: nat, codecs: Codecs)
    requires IsFloat(dt)
    requires FloatOf(v) == Some(x) && Bits(dt, x, codecs) == Ok(bits)
    ensures EncodeFloat(dt, o, v, codecs) == Ok(PackUnsigned(o, bits % Pow256(Width(dt)), Width(dt)))
  {
  }

  /** Reducing a number below the modulus leaves it as it is. */
  lemma BelowModulus(a: nat, b: nat)
    requires a < b
    ensures a % b == a
  {
  }

  /** Negative zero is sent with its sign: whenever +0.0 packs to all zero
      bits, -0.0 and 0.0 give different registers, in every memory order. */
  lemma SignedZerosDiffer(dt: DataType, m: MemoryOrder, codecs: Codecs)
    requires IsFloat(dt)
    requires codecs.ieee(dt, 0.0) == Ok(0)
    ensures var negative := Build(Configured(JString(TagName(dt)), JFloat(NegativeZero), m), codecs);
            var positive := Build(Configured(JString(TagName(dt)), JFloat(Finite(0.0)), m), codecs);
            negative.Ok? && positive.Ok? && negative.value != positive.value
  {
    var n := Width(dt);
    BuildSelects(dt, JFloat(NegativeZero), m, codecs);
    BuildSelects(dt, JFloat(Finite(0.0)), m, codecs);
    var negative := EncodeFloat(dt, m.order, JFloat(NegativeZero), codecs);
    var positive := EncodeFloat(dt, m.order, JFloat(Finite(0.0)), codecs);
    assert FloatOf(JFloat(Finite(0.0))) == Some(Finite(0.0));
    assert Bits(dt, Finite(0.0), codecs) == Ok(0);
    assert positive.Ok?;
    assert 0 % Pow256(n) == 0;
    assert UnpackUnsigned(m.order, positive.value, n) == 0;
    assert UnpackUnsigned(m.order, negative.value, n) == Bits(dt, NegativeZero, codecs).value by {
      EncodeSpecial(dt, m.order, NegativeZero, codecs);
      PackRoundTrip(m.order, Bits(dt, NegativeZero, codecs).value, n);
    }
    assert Bits(dt, NegativeZero, codecs).value != 0 by { SpecialPattern(dt, NegativeZero, codecs); }
  }

  /** The four big-endian bytes of a 32-bit pattern, read as two registers. */
  lemma PackFourBigEndian(u: nat)
    requires u < 0x1_0000_0000
    ensures u < Pow256(4)
    ensures PackUnsigned(Order(Big, Big), u, 4) == [u / 0x1_0000, u % 0x1_0000]
  {
    Pow256Values();
    var b0, b1, b2, b3 := u / 0x100_0000, u / 0x1_0000 % 256, u / 256 % 256, u % 256;
    assert NatToBytes(u / 0x100_0000, 1) == [b0] by {
      assert NatToBytes(u / 0x100_0000 / 256, 0) == [];
    }
    assert NatToBytes(u / 0x1_0000, 2) == [b0, b1] by {
      assert u / 0x1_0000 / 256 == u / 0x100_0000;
    }
    assert NatToBytes(u / 256, 3) == [b0, b1, b2] by {
      assert u / 256 / 256 == u / 0x1_0000;
    }
    var bs := NatToBytes(u, 4);
    assert bs == [b0, b1, b2, b3];
    assert Place(Order(Big, Big), bs) == bs;
    var w0: int := b0 * 256 + b1;
    var w1: int := b2 * 256 + b3;
    assert w0 == u / 0x1_0000 && w1 == u % 0x1_0000;
    assert PairUp(bs[2..]) == [w1 as Word] + PairUp(bs[4..]);
    assert PairUp(bs) == [w0 as Word] + PairUp(bs[2..]);
  }

  /** FLOAT32 under AB: a non-finite value or negative zero is sent as its
      fixed pattern, high half first. */
  lemma Float32UnderAB(f: Float, codecs: Codecs)
    requires !f.Finite?
    ensures var bits := Bits(Float32, f, codecs).value;
            Build(Configured(JString("FLOAT32"), JFloat(f), New(Some("AB"))), codecs)
              == Ok([bits / 0x1_0000, bits % 0x1_0000])
  {
    var m := New(Some("AB"));
    var bits := Bits(Float32, f, codecs).value;
    assert m.order == Order(Big, Big);
    assert TagName(Float32) == "FLOAT32-IEEE";
    Float32Alias(Configured(JString("FLOAT32"), JFloat(f), m), codecs);
    BuildSelects(Float32, JFloat(f), m, codecs);
    EncodeSpecial(Float32, m.order, f, codecs);
    Pow256Values();
    PackFourBigEndian(bits);
  }

  /** The FLOAT32 patterns of negative zero, the infinities and NaN. */
  lemma Float32Patterns(codecs: Codecs)
    ensures Bits(Float32, NegativeZero, codecs) == Ok(0x8000_0000)
    ensures Bits(Float32, Infinite(false), codecs) == Ok(0x7f80_0000)
    ensures Bits(Float32, Infinite(true), codecs) == Ok(0xff80_0000)
    ensures Bits(Float32, NaN, codecs) == Ok(0x7fc0_0000)
  {
  }

  /** FLOAT32 under AB: -0.0, as `json.loads` reads `-0.0`, keeps its sign bit. */
  lemma Float32NegativeZeroUnderAB(codecs: Codecs)
    ensures Build(Configured(JString("FLOAT32"), JFloat(NegativeZero), New(Some("AB"))), codecs) == Ok([0x8000, 0])
  {
    Float32Patterns(codecs);
    Float32UnderAB(NegativeZero, codecs);
    assert 0x8000_0000 / 0x1_0000 == 0x8000 && 0x8000_0000 % 0x1_0000 == 0;
  }

  /** FLOAT32 under AB: `NaN` is sent as the quiet NaN pattern. */
  lemma Float32NaNUnderAB(codecs: Codecs)
    ensures Build(Configured(JString("FLOAT32"), JFloat(NaN), New(Some("AB"))), codecs) == Ok([0x7fc0, 0])
  {
    Float32Patterns(codecs);
    Float32UnderAB(NaN, codecs);
    assert 0x7fc0_0000 / 0x1_0000 == 0x7fc0 && 0x7fc0_0000 % 0x1_0000 == 0;
  }

  /** FLOAT32 under AB: `Infinity`, and a literal too large such as 1e400,
      is sent as the positive infinity. */
  lemma Float32InfinityUnderAB(codecs: Codecs)
    ensures Build(Configured(JString("FLOAT32"), JFloat(Infinite(false)), New(Some("AB"))), codecs) == Ok([0x7f80, 0])
  {
    Float32Patterns(codecs);
    Float32UnderAB(Infinite(false), codecs);
    assert 0x7f80_0000 / 0x1_0000 == 0x7f80 && 0x7f80_0000 % 0x1_0000 == 0;
  }

  /** FLOAT32 under AB: `-Infinity` differs from `Infinity` only in the sign bit. */
  lemma Float32NegativeInfinityUnderAB(codecs: Codecs)
    ensures Build(Configured(JString("FLOAT32"), JFloat(Infinite(true)), New(Some("AB"))), codecs) == Ok([0xff80, 0])
  {
    Float32Patterns(codecs);
    Float32UnderAB(Infinite(true), codecs);
    assert 0xff80_0000 / 0x1_0000 == 0xff80 && 0xff80_0000 % 0x1_0000 == 0;
  }

  /** A str of n characters fills (n + 1) / 2 registers with the first n of
      its UTF-8 bytes (zero bytes after them when there are fewer), whatever
      the memory order. */
  lemma StringLayout(m: MemoryOrder, s: string, codecs: Codecs)
    ensures var r := Build(Configured(JString("STRING"), JString(s), m), codecs);
            r.Ok? && |r.value| == (|s| + 1) / 2 && Split(r.value)[..|s|] == FixedLength(codecs.utf8(s), |s|)
  {
    BuildSelects(String, JString(s), m, codecs);
  }

  /** When every character takes one UTF-8 byte, all the bytes are sent,
      padded to a whole register. */
  lemma StringWhole(m: MemoryOrder, s: string, codecs: Codecs)
    requires |codecs.utf8(s)| == |s|
    ensures Build(Configured(JString("STRING"), JString(s), m), codecs) == Ok(PairUp(PadEven(codecs.utf8(s))))
  {
    BuildSelects(String, JString(s), m, codecs);
    assert FixedLength(codecs.utf8(s), |s|) == codecs.utf8(s);
  }

  /** A character of two UTF-8 bytes loses its second byte: "é" is sent as
      0xC3 and a zero byte. */
  lemma ExampleTwoByteCharacter(m: MemoryOrder, codecs: Codecs)
    requires codecs.utf8("é") == [0xC3, 0xA9]
    ensures Build(Configured(JString("STRING"), JString("é"), m), codecs) == Ok([0xC300])
  {
    BuildSelects(String, JString("é"), m, codecs);
    assert FixedLength([0xC3, 0xA9], 1) == [0xC3];
    assert PadEven([0xC3]) == [0xC3, 0];
    assert PairUp([0xC3, 0]) == [0xC300];
  }

  /** A list or a dict given as a string has no `encode`. */
  lemma StringOfContainer(m: MemoryOrder, v: Json, codecs: Codecs)
    requires v.JArray? || v.JObject?
    ensures var r := Build(Configured(JString("STRING"), v, m), codecs);
            r.Err? && r.error.kind == AttributeError
            && r.error.text == "'" + TypeName(v) + "' object has no attribute 'encode'"
  {
    BuildSelects(String, v, m, codecs);
  }

  /** FLOAT32 and FLOAT32-IEEE select the same encoder. */
  lemma Float32Alias(b: Builder, codecs: Codecs)
    ensures Build(SetDataType(b, JString("FLOAT32")), codecs) == Build(SetDataType(b, JString("FLOAT32-IEEE")), codecs)
  {
  }

  /** The setters touch only their own setting, so the order they are called in
      does not matter. */
  lemma SettersCommute(b: Builder, t: Json, v: Json, m: Option<MemoryOrder>)
    ensures SetDataType(SetValue(b, v), t) == SetValue(SetDataType(b, t), v)
    ensures SetDataType(SetMemoryOrder(b, m), t) == SetMemoryOrder(SetDataType(b, t), m)
    ensures SetValue(SetMemoryOrder(b, m), v) == SetMemoryOrder(SetValue(b, v), m)
  {
  }

  /** An integer in range packs its two's complement. */
  lemma EncodeInRange(dt: DataType, o: Order, i: int)
    requires IsInteger(dt)
    requires Lo(dt) <= i <= Hi(dt)
    ensures 0 <= ToUnsigned(i, Width(dt)) < Pow256(Width(dt))
    ensures EncodeInteger(dt, o, JInt(i)) == Ok(PackUnsigned(o, ToUnsigned(i, Width(dt)), Width(dt)))
  {
    TwosComplement(dt, i);
  }

  /** The two's complement of an in-range integer fits its width and reads back
      as the integer. */
  lemma TwosComplement(dt: DataType, i: int)
    requires IsInteger(dt)
    requires Lo(dt) <= i <= Hi(dt)
    ensures 0 <= ToUnsigned(i, Width(dt)) < Pow256(Width(dt))
    ensures Signed(dt) ==> ToSigned(ToUnsigned(i, Width(dt)), Width(dt)) == i
  {
    var n := Width(dt);
    assert Pow256(n) == 256 * Pow256(n - 1);
  }

  /** A byte sits in the high half of its register, whatever the order. */
  lemma PackByte(o: Order, u: nat)
    requires u < 256
    ensures PackUnsigned(o, u, 1) == [u * 256]
  {
    assert NatToBytes(u, 1) == [u] by { assert NatToBytes(u / 256, 0) == []; }
    assert Place(o, [u]) == [u, 0];
  }

  /** Under (Big, Big) a number below 2^16 fills the last register of a wider value. */
  lemma PackSmallBigEndian(u: nat, n: nat)
    requires n in {2, 4, 8}
    requires u < 0x1_0000
    ensures u < Pow256(n)
    ensures PackUnsigned(Order(Big, Big), u, n) == ZeroWords(n / 2 - 1) + [u]
  {
    assert u < Pow256(2);
    LeadingZeros(u, 2, n);
    var hi, lo := u / 256, u % 256;
    assert NatToBytes(u, 2) == [hi, lo] by {
      assert NatToBytes(hi, 1) == [hi] by { assert NatToBytes(hi / 256, 0) == []; }
    }
    var bs := NatToBytes(u, n);
    assert Place(Order(Big, Big), bs) == bs;
    assert n - 2 == 2 * (n / 2 - 1);
    PairUpZeros(n / 2 - 1, hi, lo);
  }

  /** Under AB order a small non-negative integer of a 16-, 32- or 64-bit type
      fills the last register and zeroes the others; an 8-bit one lands in the
      high byte of its single register. */
  lemma SmallValuesUnderAB(dt: DataType, v: nat, codecs: Codecs)
    requires IsInteger(dt)
    requires v <= Hi(dt) && v < 0x1_0000
    ensures var r := Build(Configured(JString(TagName(dt)), JInt(v), New(Some("AB"))), codecs);
            r.Ok? &&
            (if Width(dt) == 1 then r.value == [v * 256]
             else r.value == ZeroWords(WordCount(dt) - 1) + [v])
  {
    var n := Width(dt);
    var r := Build(Configured(JString(TagName(dt)), JInt(v), New(Some("AB"))), codecs);
    assert r == Ok(PackUnsigned(Order(Big, Big), v, n)) by {
      BuildNonNegative(dt, v, codecs);
    }
    if n == 1 {
      PackByte(Order(Big, Big), v);
    } else {
      PackSmallBigEndian(v, n);
    }
  }

  /** Under AB order a non-negative integer in range packs as its plain binary value. */
  lemma BuildNonNegative(dt: DataType, v: nat, codecs: Codecs)
    requires IsInteger(dt)
    requires v <= Hi(dt)
    ensures v < Pow256(Width(dt))
    ensures Build(Configured(JString(TagName(dt)), JInt(v), New(Some("AB"))), codecs)
            == Ok(PackUnsigned(Order(Big, Big), v, Width(dt)))
  {
    BuildSelects(dt, JInt(v), New(Some("AB")), codecs);
    EncodeInRange(dt, Order(Big, Big), v);
  }

  /** Example under AB: INT16 5 is the single register 5. */
  lemma ExampleInt16UnderAB(codecs: Codecs)
    ensures Build(Configured(JString("INT16"), JInt(5), New(Some("AB"))), codecs) == Ok([5])
  {
    IntegerRanges();
    SmallValuesUnderAB(Int16, 5, codecs);
    var r := Build(Configured(JString(TagName(Int16)), JInt(5), New(Some("AB"))), codecs);
    assert r.Ok? && r.value == [5];
  }

  /** Example under AB: INT16 0 is the single register 0. */
  lemma ExampleInt16Zero(codecs: Codecs)
    ensures Build(Configured(JString("INT16"), JInt(0), New(Some("AB"))), codecs) == Ok([0])
  {
    IntegerRanges();
    SmallValuesUnderAB(Int16, 0, codecs);
    var r := Build(Configured(JString(TagName(Int16)), JInt(0), New(Some("AB"))), codecs);
    assert r.Ok? && r.value == [0];
  }

  /** Examples under AB: an 8-bit zero is one zero register. */
  lemma ExamplesUnderAB8(codecs: Codecs)
    ensures Build(Configured(JString(TagName(UInt8)), JInt(0), New(Some("AB"))), codecs) == Ok([0])
    ensures Build(Configured(JString(TagName(Int8)), JInt(0), New(Some("AB"))), codecs) == Ok([0])
  {
    IntegerRanges();
    SmallValuesUnderAB(UInt8, 0, codecs);
    var r0 := Build(Configured(JString(TagName(UInt8)), JInt(0), New(Some("AB"))), codecs);
    assert r0.Ok? && r0.value == [0];
    SmallValuesUnderAB(Int8, 0, codecs);
    var r1 := Build(Configured(JString(TagName(Int8)), JInt(0), New(Some("AB"))), codecs);
    assert r1.Ok? && r1.value == [0];
  }

  /** A tag outside the accepted set, such as FOO, raises RuntimeError naming it. */
  lemma UnknownTag(v: Json, m: MemoryOrder, codecs: Codecs)
    requires !v.JNull?
    ensures Build(Configured(JString("FOO"), v, m), codecs) == Err(PyError(RuntimeError, "unknown data type FOO"))
  {
    assert ParseTag("FOO") == None;
    assert "unknown data type " + Str(JString("FOO")) == "unknown data type FOO";
    assert Configured(JString("FOO"), v, m) == Builder(JString("FOO"), v, Some(m));
  }
}
