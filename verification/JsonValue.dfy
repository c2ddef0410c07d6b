/** rapidjson's value: a word of flags and a payload that the flags say how to read. */
module JsonValue {
  datatype Value = Value(flags: bv16, data: Data)

  datatype Data =
    | Zero
    | Num(bits: bv64)
    | Str(chars: seq<bv8>)
    | Arr(arrayCapacity: nat, elements: seq<Value>)
    | Obj(objectCapacity: nat, members: seq<Member>)

  datatype Member = Member(name: Value, value: Value)

  // ---------- Flags ----------

  const NULL_TYPE: bv16 := 0
  const FALSE_TYPE: bv16 := 1
  const TRUE_TYPE: bv16 := 2
  const OBJECT_TYPE: bv16 := 3
  const ARRAY_TYPE: bv16 := 4
  const STRING_TYPE: bv16 := 5
  const NUMBER_TYPE: bv16 := 6
  const TYPE_MASK: bv16 := 0x7

  const BOOL_FLAG: bv16 := 0x0008
  const NUMBER_FLAG: bv16 := 0x0010
  const INT_FLAG: bv16 := 0x0020
  const UINT_FLAG: bv16 := 0x0040
  const INT64_FLAG: bv16 := 0x0080
  const UINT64_FLAG: bv16 := 0x0100
  const DOUBLE_FLAG: bv16 := 0x0200
  const STRING_FLAG: bv16 := 0x0400
  const COPY_FLAG: bv16 := 0x0800
  const INLINE_STR_FLAG: bv16 := 0x1000

  const TRUE_FLAG: bv16 := TRUE_TYPE | BOOL_FLAG
  const FALSE_FLAG: bv16 := FALSE_TYPE | BOOL_FLAG
  const NUMBER_INT_FLAG: bv16 := NUMBER_TYPE | NUMBER_FLAG | INT_FLAG | INT64_FLAG
  const NUMBER_UINT_FLAG: bv16 := NUMBER_TYPE | NUMBER_FLAG | UINT_FLAG | UINT64_FLAG | INT64_FLAG
  const NUMBER_INT64_FLAG: bv16 := NUMBER_TYPE | NUMBER_FLAG | INT64_FLAG
  const NUMBER_UINT64_FLAG: bv16 := NUMBER_TYPE | NUMBER_FLAG | UINT64_FLAG
  const NUMBER_DOUBLE_FLAG: bv16 := NUMBER_TYPE | NUMBER_FLAG | DOUBLE_FLAG
  const NUMBER_ANY_FLAG: bv16 :=
    NUMBER_TYPE | NUMBER_FLAG | INT_FLAG | INT64_FLAG | UINT_FLAG | UINT64_FLAG | DOUBLE_FLAG
  const CONST_STRING_FLAG: bv16 := STRING_TYPE | STRING_FLAG
  const COPY_STRING_FLAG: bv16 := STRING_TYPE | STRING_FLAG | COPY_FLAG
  const SHORT_STRING_FLAG: bv16 := STRING_TYPE | STRING_FLAG | COPY_FLAG | INLINE_STR_FLAG

  /** The longest string kept inside a value, on a 64-bit machine without packed pointers. */
  const MAX_SHORT := 21

  predicate Has(v: Value, flag: bv16) {
    v.flags & flag != 0
  }

  function Type(v: Value): bv16 {
    v.flags & TYPE_MASK
  }

  // ---------- Constructors ----------

  function Null(): Value {
    Value(NULL_TYPE, Zero)
  }

  function OfBool(b: bool): Value {
    Value(if b then TRUE_FLAG else FALSE_FLAG, Zero)
  }

  function SignExtend(i: bv32): bv64 {
    if i & 0x8000_0000 == 0 then i as bv64 else i as bv64 | 0xFFFF_FFFF_0000_0000
  }

  function OfInt(i: bv32): Value {
    Value(if i & 0x8000_0000 == 0 then NUMBER_INT_FLAG | UINT_FLAG | UINT64_FLAG else NUMBER_INT_FLAG,
          Num(SignExtend(i)))
  }

  function OfUint(u: bv32): Value {
    Value(if u & 0x8000_0000 != 0 then NUMBER_UINT_FLAG else NUMBER_UINT_FLAG | INT_FLAG | INT64_FLAG,
          Num(u as bv64))
  }

  function FlagIf(claimed: bool, flag: bv16): bv16 {
    if claimed then flag else 0
  }

  /** The last test is `i64 >= -0x80000000`, for a negative `i64`. */
  function OfInt64(i: bv64): Value {
    var flags :=
      if i & 0x8000_0000_0000_0000 == 0 then
        NUMBER_INT64_FLAG | NUMBER_UINT64_FLAG
        | FlagIf(i & 0xFFFF_FFFF_0000_0000 == 0, UINT_FLAG)
        | FlagIf(i & 0xFFFF_FFFF_8000_0000 == 0, INT_FLAG)
      else NUMBER_INT64_FLAG | FlagIf(i >= 0xFFFF_FFFF_8000_0000, INT_FLAG);
    Value(flags, Num(i))
  }

  function Uint64Flags(isInt64: bool, isUint: bool, isInt: bool): bv16 {
    NUMBER_UINT64_FLAG | FlagIf(isInt64, INT64_FLAG) | FlagIf(isUint, UINT_FLAG) | FlagIf(isInt, INT_FLAG)
  }

  function OfUint64(u: bv64): Value {
    var flags := Uint64Flags(u & 0x8000_0000_0000_0000 == 0,
                             u & 0xFFFF_FFFF_0000_0000 == 0,
                             u & 0xFFFF_FFFF_8000_0000 == 0);
    Value(flags, Num(u))
  }

  /** A double is its bit pattern. */
  function OfDouble(bits: bv64): Value {
    Value(NUMBER_DOUBLE_FLAG, Num(bits))
  }

  function ConstString(chars: seq<bv8>): Value {
    Value(CONST_STRING_FLAG, Str(chars))
  }

  function CopyString(chars: seq<bv8>): Value {
    Value(if |chars| <= MAX_SHORT then SHORT_STRING_FLAG else COPY_STRING_FLAG, Str(chars))
  }

  /** `GenericValue(kArrayType)` and `GenericValue(kObjectType)` */
  function EmptyArray(): Value {
    Value(ARRAY_TYPE, Arr(0, []))
  }

  function EmptyObject(): Value {
    Value(OBJECT_TYPE, Obj(0, []))
  }

  /** `GenericValue(kNumberType)`: the zero that claims every kind of number. */
  function AnyNumber(): Value {
    Value(NUMBER_ANY_FLAG, Num(0))
  }

  /** `SetArrayRaw` and `SetObjectRaw` */
  function OfArray(elements: seq<Value>): Value {
    Value(ARRAY_TYPE, Arr(|elements|, elements))
  }

  function OfObject(members: seq<Member>): Value {
    Value(OBJECT_TYPE, Obj(|members|, members))
  }

  // ---------- One number, one value ----------

  /** Every integer constructor gives a number the same flags and payload. */
  lemma IntIsInt64(i: bv32)
    ensures OfInt(i) == OfInt64(SignExtend(i))
  {
  }

  lemma UintIsUint64(u: bv32)
    ensures OfUint(u) == OfUint64(u as bv64)
  {
  }

  lemma Int64IsUint64(x: bv64)
    ensures OfInt64(x) == OfUint64(x) <==> x & 0x8000_0000_0000_0000 == 0
  {
  }

  // ---------- Queries ----------

  predicate IsNull(v: Value) {
    v.flags == NULL_TYPE
  }

  predicate IsFalse(v: Value) {
    v.flags == FALSE_FLAG
  }

  predicate IsTrue(v: Value) {
    v.flags == TRUE_FLAG
  }

  predicate IsBool(v: Value) {
    Has(v, BOOL_FLAG)
  }

  predicate IsObject(v: Value) {
    v.flags == OBJECT_TYPE
  }

  predicate IsArray(v: Value) {
    v.flags == ARRAY_TYPE
  }

  predicate IsNumber(v: Value) {
    Has(v, NUMBER_FLAG)
  }

  predicate HoldsString(v: Value) {
    Has(v, STRING_FLAG)
  }

  /** The answers to the six questions about the kind of a value. */
  function Kinds(v: Value): seq<bool> {
    [IsNull(v), IsBool(v), IsObject(v), IsArray(v), IsNumber(v), HoldsString(v)]
  }

  /** The answers about a number: `int`, `unsigned`, `int64_t`, `uint64_t`, `double`. */
  function NumberKinds(v: Value): seq<bool> {
    [Has(v, INT_FLAG), Has(v, UINT_FLAG), Has(v, INT64_FLAG), Has(v, UINT64_FLAG), Has(v, DOUBLE_FLAG)]
  }

  lemma OthersKind(b: bool, elements: seq<Value>, members: seq<Member>)
    ensures Kinds(Null()) == [true, false, false, false, false, false]
    ensures Kinds(OfBool(b)) == [false, true, false, false, false, false]
    ensures IsTrue(OfBool(b)) == b && IsFalse(OfBool(b)) == !b
    ensures Kinds(OfObject(members)) == Kinds(EmptyObject()) == [false, false, true, false, false, false]
    ensures Kinds(OfArray(elements)) == Kinds(EmptyArray()) == [false, false, false, true, false, false]
  {
  }

  lemma StringKind(chars: seq<bv8>)
    ensures Kinds(ConstString(chars)) == Kinds(CopyString(chars)) == [false, false, false, false, false, true]
    ensures Has(CopyString(chars), COPY_FLAG) && !Has(ConstString(chars), COPY_FLAG)
    ensures Has(CopyString(chars), INLINE_STR_FLAG) <==> |chars| <= 21
  {
  }

  /** A signed number claims each type that holds it. */
  lemma Int64Kinds(i: bv64)
    ensures Kinds(OfInt64(i)) == [false, false, false, false, true, false]
    ensures var negative := i >= 0x8000_0000_0000_0000;
            NumberKinds(OfInt64(i)) == [i < 0x8000_0000 || i >= 0xFFFF_FFFF_8000_0000, i < 0x1_0000_0000, true, !negative, false]
  {
  }

  lemma FlagsClaim(isInt64: bool, isUint: bool, isInt: bool, data: Data)
    ensures var v := Value(Uint64Flags(isInt64, isUint, isInt), data);
            && Kinds(v) == [false, false, false, false, true, false]
            && NumberKinds(v) == [isInt, isUint, isInt64, true, false]
  {
  }

  lemma HighBits(u: bv64)
    ensures u & 0x8000_0000_0000_0000 == 0 <==> u < 0x8000_0000_0000_0000
    ensures u & 0xFFFF_FFFF_0000_0000 == 0 <==> u < 0x1_0000_0000
    ensures u & 0xFFFF_FFFF_8000_0000 == 0 <==> u < 0x8000_0000
  {
  }

  /** So does an unsigned one. */
  lemma Uint64Kinds(u: bv64)
    ensures Kinds(OfUint64(u)) == [false, false, false, false, true, false]
    ensures NumberKinds(OfUint64(u)) == [u < 0x8000_0000, u < 0x1_0000_0000, u < 0x8000_0000_0000_0000, true, false]
  {
    HighBits(u);
    FlagsClaim(u & 0x8000_0000_0000_0000 == 0, u & 0xFFFF_FFFF_0000_0000 == 0, u & 0xFFFF_FFFF_8000_0000 == 0, Num(u));
    hide Uint64Flags, Kinds, NumberKinds;
  }

  lemma DoubleKinds(bits: bv64)
    ensures Kinds(OfDouble(bits)) == [false, false, false, false, true, false]
    ensures NumberKinds(OfDouble(bits)) == [false, false, false, false, true]
  {
  }

  // ---------- Well-formed and built values ----------

  /** The payload is what the flags say, and member names are strings; without this the
    * library's own assertions fail. */
  predicate Shaped(v: Value) {
    && (Type(v) == OBJECT_TYPE ==>
          && v.data.Obj?
          && forall i | 0 <= i < |v.data.members| ::
               && Shaped(v.data.members[i].value)
               && IsString(v.data.members[i].name))
    && (Type(v) == ARRAY_TYPE ==>
          && v.data.Arr?
          && forall i | 0 <= i < |v.data.elements| :: Shaped(v.data.elements[i]))
    && (Type(v) == STRING_TYPE ==> IsString(v))
    && (Type(v) == NUMBER_TYPE ==> v.data.Num?)
    && Type(v) != 7
  }

  predicate IsString(v: Value) {
    Has(v, STRING_FLAG) && v.data.Str?
  }

  predicate IsBuiltString(v: Value) {
    v.data.Str? && (v == ConstString(v.data.chars) || v == CopyString(v.data.chars))
  }

  predicate IsBuiltNumber(v: Value) {
    && v.data.Num?
    && (v == OfInt64(v.data.bits) || v == OfUint64(v.data.bits) || v == OfDouble(v.data.bits))
  }

  /** Made by the typed constructors. Arrays and objects may have room to spare. */
  predicate Built(v: Value) {
    match v.data
    case Zero => v == Null() || v == OfBool(true) || v == OfBool(false)
    case Num(_) => IsBuiltNumber(v)
    case Str(_) => IsBuiltString(v)
    case Arr(_, elements) =>
      v.flags == ARRAY_TYPE && forall i | 0 <= i < |elements| :: Built(elements[i])
    case Obj(_, members) =>
      v.flags == OBJECT_TYPE
      && forall i | 0 <= i < |members| :: IsBuiltString(members[i].name) && Built(members[i].value)
  }

  lemma FlagsOverType(isInt64: bool, isUint: bool, isInt: bool)
    ensures Uint64Flags(isInt64, isUint, isInt) & TYPE_MASK == NUMBER_TYPE
  {
  }

  lemma Int64IsNumber(i: bv64)
    ensures Type(OfInt64(i)) == NUMBER_TYPE
  {
  }

  lemma Uint64IsNumber(u: bv64)
    ensures Type(OfUint64(u)) == NUMBER_TYPE
  {
    FlagsOverType(u & 0x8000_0000_0000_0000 == 0, u & 0xFFFF_FFFF_0000_0000 == 0, u & 0xFFFF_FFFF_8000_0000 == 0);
    hide Uint64Flags;
  }

  lemma DoubleIsNumber(bits: bv64)
    ensures Type(OfDouble(bits)) == NUMBER_TYPE
  {
  }

  lemma BuiltNumberIsNumber(v: Value)
    requires IsBuiltNumber(v)
    ensures Type(v) == NUMBER_TYPE
  {
    Int64IsNumber(v.data.bits);
    Uint64IsNumber(v.data.bits);
    DoubleIsNumber(v.data.bits);
    hide OfInt64, OfUint64, OfDouble, Type;
  }

  lemma BuiltStringIsString(v: Value)
    requires IsBuiltString(v)
    ensures Type(v) == STRING_TYPE && IsString(v)
  {
  }

  lemma BuiltLeafIsShaped(v: Value)
    requires v.data.Num? || v.data.Str?
    requires Built(v)
    ensures Shaped(v)
    ensures Type(v) == NUMBER_TYPE || Type(v) == STRING_TYPE
  {
    hide IsBuiltNumber, IsBuiltString, IsString, Type, Has, OfBool, Null;
    if v.data.Num? {
      BuiltNumberIsNumber(v);
    } else {
      BuiltStringIsString(v);
    }
  }

  lemma {:induction false} BuiltIsShaped(v: Value)
    requires Built(v)
    ensures Shaped(v)
  {
    match v.data {
      case Zero =>
      case Num(_) => BuiltLeafIsShaped(v);
      case Str(_) => BuiltLeafIsShaped(v);
      case Arr(_, elements) =>
        forall i | 0 <= i < |elements| ensures Shaped(elements[i]) {
          BuiltIsShaped(elements[i]);
        }
      case Obj(_, members) =>
        forall i | 0 <= i < |members|
          ensures Shaped(members[i].value) && IsString(members[i].name)
        {
          BuiltIsShaped(members[i].value);
        }
    }
  }
}
