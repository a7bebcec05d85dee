/** Datatype descriptors of the wrapper: the class and endianness enums,
    the translation of libhdf5's type classes, the printable type name,
    the variable-length-string rules of isTypeEqual / isFixedLenStr, the
    size check of create_and_check_datatype and the AtomicType table. */
module DataTypes {
  import opened Wrappers

  datatype DataTypeClass =
    | Time | Integer | Float | String | BitField | Opaque
    | Compound | Reference | Enum | VarLen | Array | Invalid

  datatype Endian = Native | Little | Big

  // ---------------------------------------------------------------------
  // convert_type_class: libhdf5's H5T_class_t codes
  // ---------------------------------------------------------------------

  const H5T_NO_CLASS: int := -1
  const H5T_INTEGER: int := 0
  const H5T_FLOAT: int := 1
  const H5T_TIME: int := 2
  const H5T_STRING: int := 3
  const H5T_BITFIELD: int := 4
  const H5T_OPAQUE: int := 5
  const H5T_COMPOUND: int := 6
  const H5T_REFERENCE: int := 7
  const H5T_ENUM: int := 8
  const H5T_VLEN: int := 9
  const H5T_ARRAY: int := 10
  const H5T_NCLASSES: int := 11

  /** convert_type_class: every code of a real class maps to its class;
      H5T_NO_CLASS, H5T_NCLASSES and anything else map to Invalid. */
  function ConvertTypeClass(tclass: int): (c: DataTypeClass)
    ensures c == Invalid <==> !(H5T_INTEGER <= tclass <= H5T_ARRAY)
  {
    if tclass == H5T_TIME then Time
    else if tclass == H5T_INTEGER then Integer
    else if tclass == H5T_FLOAT then Float
    else if tclass == H5T_STRING then String
    else if tclass == H5T_BITFIELD then BitField
    else if tclass == H5T_OPAQUE then Opaque
    else if tclass == H5T_COMPOUND then Compound
    else if tclass == H5T_REFERENCE then Reference
    else if tclass == H5T_ENUM then Enum
    else if tclass == H5T_VLEN then VarLen
    else if tclass == H5T_ARRAY then Array
    else Invalid
  }

  /** The library code of a class: the inverse of convert_type_class. */
  function ClassCode(c: DataTypeClass): (code: int)
    requires c != Invalid
    ensures H5T_INTEGER <= code <= H5T_ARRAY
    ensures ConvertTypeClass(code) == c
  {
    match c
    case Time => H5T_TIME
    case Integer => H5T_INTEGER
    case Float => H5T_FLOAT
    case String => H5T_STRING
    case BitField => H5T_BITFIELD
    case Opaque => H5T_OPAQUE
    case Compound => H5T_COMPOUND
    case Reference => H5T_REFERENCE
    case Enum => H5T_ENUM
    case VarLen => H5T_VLEN
    case Array => H5T_ARRAY
  }

  /** convert_type_class is one-to-one on the codes of real classes. */
  lemma ConvertTypeClassInjective(a: int, b: int)
    requires H5T_INTEGER <= a <= H5T_ARRAY && H5T_INTEGER <= b <= H5T_ARRAY
    requires ConvertTypeClass(a) == ConvertTypeClass(b)
    ensures a == b
  {
    var c := ConvertTypeClass(a);
    assert ClassCode(c) == a;
  }

  // ---------------------------------------------------------------------
  // type_class_string and DataType::string()
  // ---------------------------------------------------------------------

  /** Reads a class name back, the reference against which
      type_class_string is checked. */
  function ClassOfName(s: string): Option<DataTypeClass> {
    if s == "Time" then Some(Time)
    else if s == "Integer" then Some(Integer)
    else if s == "Float" then Some(Float)
    else if s == "String" then Some(String)
    else if s == "BitField" then Some(BitField)
    else if s == "Opaque" then Some(Opaque)
    else if s == "Compound" then Some(Compound)
    else if s == "Reference" then Some(Reference)
    else if s == "Enum" then Some(Enum)
    else if s == "Varlen" then Some(VarLen)
    else if s == "Array" then Some(Array)
    else if s == "(Invalid)" then Some(Invalid)
    else None
  }

  predicate IsDigit(c: char) { '0' <= c <= '9' }

  predicate NoDigit(s: string) {
    forall i :: 0 <= i < |s| ==> !IsDigit(s[i])
  }

  /** type_class_string: the names are pairwise distinct (each reads back
      as its own class) and contain no digit. */
  function TypeClassString(c: DataTypeClass): (s: string)
    ensures ClassOfName(s) == Some(c)
    ensures |s| > 0 && NoDigit(s)
  {
    match c
    case Time => "Time"
    case Integer => "Integer"
    case Float => "Float"
    case String => "String"
    case BitField => "BitField"
    case Opaque => "Opaque"
    case Compound => "Compound"
    case Reference => "Reference"
    case Enum => "Enum"
    case VarLen => "Varlen"
    case Array => "Array"
    case Invalid => "(Invalid)"
  }

  /** DataType::string(): the class name of H5Tget_class's code followed by
      the decimal number of bits, 8 * H5Tget_size (a size_t product). */
  function TypeString(tclass: int, size: u64): string {
    TypeClassString(ConvertTypeClass(tclass)) + Decimal(MulU64(size, 8))
  }

  /** Index of the first digit, or |s|. */
  function FirstDigit(s: string): (k: nat)
    ensures k <= |s|
    ensures k < |s| ==> IsDigit(s[k])
    ensures forall i :: 0 <= i < k ==> !IsDigit(s[i])
    decreases |s|
  {
    if s == [] then 0 else if IsDigit(s[0]) then 0 else 1 + FirstDigit(s[1..])
  }

  lemma FirstDigitSplit(name: string, digits: string)
    requires NoDigit(name) && digits != [] && IsDigit(digits[0])
    ensures FirstDigit(name + digits) == |name|
  {
    var s := name + digits;
    var k := FirstDigit(s);
    assert s[|name|] == digits[0];
    forall i | 0 <= i < |name| ensures !IsDigit(s[i]) {
      assert s[i] == name[i];
    }
  }

  /** The printed name determines the class and the bit count: the name
      part is digit-free and the number part is all digits. */
  lemma TypeStringInjective(c1: int, s1: u64, c2: int, s2: u64)
    requires TypeString(c1, s1) == TypeString(c2, s2)
    ensures ConvertTypeClass(c1) == ConvertTypeClass(c2)
    ensures MulU64(s1, 8) == MulU64(s2, 8)
  {
    var n1, d1 := TypeClassString(ConvertTypeClass(c1)), Decimal(MulU64(s1, 8));
    var n2, d2 := TypeClassString(ConvertTypeClass(c2)), Decimal(MulU64(s2, 8));
    FirstDigitSplit(n1, d1);
    FirstDigitSplit(n2, d2);
    var s := n1 + d1;
    assert s == n2 + d2;
    assert |n1| == |n2|;
    assert n1 == s[..|n1|] && n2 == s[..|n2|];
    assert d1 == s[|n1|..] && d2 == s[|n2|..];
    DecimalInjective(MulU64(s1, 8), MulU64(s2, 8));
  }

  lemma TypeStringExamples()
    ensures TypeString(H5T_FLOAT, 8) == "Float64"
    ensures TypeString(H5T_INTEGER, 4) == "Integer32"
    ensures TypeString(H5T_NO_CLASS, 1) == "(Invalid)8"
  {
    assert Decimal(64) == "64";
    assert Decimal(32) == "32";
    assert Decimal(8) == "8";
  }

  // ---------------------------------------------------------------------
  // isVariableStr, isFixedLenStr, isTypeEqual
  // ---------------------------------------------------------------------

  /** isVariableStr over H5Tis_variable_str's htri_t answer `v`. */
  function IsVariableStr(v: int): (r: Result<bool>)
    ensures v < 0 <==> Raises(r, DataTypeException)
    ensures r.Ok? ==> r.value == (v > 0)
  {
    if v < 0 then Throw(DataTypeException, "Unable to define datatype size to variable")
    else Ok(v != 0)
  }

  /** isFixedLenStr: a String type that is not variable length; the class
      is tested first, so a non-string type never reaches the library's
      variable-string query and never throws. */
  function IsFixedLenStr(tclass: int, v: int): (r: Result<bool>)
    ensures r == Ok(true) <==> ConvertTypeClass(tclass) == String && v == 0
    ensures r.Err? <==> ConvertTypeClass(tclass) == String && v < 0
    ensures r.Err? ==> Raises(r, DataTypeException)
  {
    if ConvertTypeClass(tclass) != String then Ok(false)
    else
      var isVar :- IsVariableStr(v);
      Ok(!isVar)
  }

  /** isTypeEqual, over the two H5Tis_variable_str answers and the
      H5Tequal answer: two variable-length strings are always equal; in
      every other case the answer is H5Tequal's, because the second test
      compares the first type with itself and can never hold. */
  function IsTypeEqual(varLen1: int, varLen2: int, tequal: int): (r: bool)
    ensures r == ((varLen1 > 0 && varLen2 > 0) || tequal > 0)
  {
    if varLen1 > 0 && varLen2 > 0 then true
    else if (varLen1 > 0 && varLen1 <= 0) || (varLen1 <= 0 && varLen1 > 0) then false
    else tequal > 0
  }

  /** create_and_check_datatype<T>: `empty` is t.empty(), `varStr` the
      variable-string answer, `isRef` whether H5Tequal matches the object
      reference type, `sizeofT` is sizeof(T) and `size` is H5Tget_size. */
  function CreateAndCheck(empty: bool, varStr: int, isRef: bool, sizeofT: nat, size: u64): (r: Outcome)
    ensures r.Pass? <==> !empty && varStr >= 0 && (varStr > 0 || isRef || sizeofT == size)
    ensures r.Fail? ==> r.error.kind == DataTypeException
  {
    if empty then Fail(Error(DataTypeException, "Type given to create_and_check_datatype is not valid"))
    else
      match IsVariableStr(varStr)
      case Err(e) => Fail(e)
      case Ok(isVar) =>
        if isVar then Pass
        else if !isRef && sizeofT != size then
          Fail(Error(DataTypeException, "Size of array type != that of memory datatype"))
        else Pass
  }

  // ---------------------------------------------------------------------
  // AtomicType<T>(Endian): which predefined type is copied
  // ---------------------------------------------------------------------

  /** The C++ element types with an AtomicType specialisation. */
  datatype CType =
    | Char | SChar | UChar | Short | UShort | Int | UInt
    | Long | ULong | LLong | ULLong | CFloat | CDouble | Bool
    | StdString | ConstCharPtr | CharArray(strLen: nat) | FixedLenStrings(n: nat)
    | ObjectReference

  /** The predefined libhdf5 types (H5T_STD_*, H5T_IEEE_*, H5T_NATIVE_*) and
      the string types create_string builds; StdRefObj is H5T_STD_REF_OBJ. */
  datatype Predefined =
    | StdInt(signed: bool, bits: nat, little: bool)
    | Ieee(bits: nat, little: bool)
    | NativeOf(t: CType)
    | VarString
    | FixedString(len: nat)
    | StdRefObj

  function StdFor(signed: bool, bits: nat, e: Endian, t: CType): Predefined {
    if e == Little then StdInt(signed, bits, true)
    else if e == Big then StdInt(signed, bits, false)
    else NativeOf(t)
  }

  /** AtomicType<T>(endian); Native is the default argument. `bool` is
      stored as a signed 8-bit integer or the native hbool type; `long`
      and `unsigned long` map to 32-bit standard types. */
  function AtomicTypeFor(t: CType, e: Endian): Predefined {
    match t
    case Char => StdFor(true, 8, e, Char)
    case SChar => StdFor(true, 8, e, Char)
    case UChar => StdFor(false, 8, e, UChar)
    case Short => StdFor(true, 16, e, Short)
    case UShort => StdFor(false, 16, e, UShort)
    case Int => StdFor(true, 32, e, Int)
    case UInt => StdFor(false, 32, e, UInt)
    case Long => StdFor(true, 32, e, Long)
    case ULong => StdFor(false, 32, e, ULong)
    case LLong => StdFor(true, 64, e, LLong)
    case ULLong => StdFor(false, 64, e, ULLong)
    case CFloat =>
      if e == Little then Ieee(32, true) else if e == Big then Ieee(32, false) else NativeOf(CFloat)
    case CDouble =>
      if e == Little then Ieee(64, true) else if e == Big then Ieee(64, false) else NativeOf(CDouble)
    case Bool => StdFor(true, 8, e, Bool)
    case StdString => VarString
    case ConstCharPtr => VarString
    case CharArray(n) => FixedString(n)
    case FixedLenStrings(n) => FixedString(n)
    case ObjectReference => StdRefObj
  }

  /** Same type with the other byte order. */
  function Swapped(p: Predefined): Predefined {
    match p
    case StdInt(s, b, l) => StdInt(s, b, !l)
    case Ieee(b, l) => Ieee(b, !l)
    case _ => p
  }

  /** The string types and object references, whose AtomicType does not
      look at the endianness. */
  predicate IgnoresEndian(t: CType) {
    t.StdString? || t.ConstCharPtr? || t.CharArray? || t.FixedLenStrings? || t.ObjectReference?
  }

  /** Little and Big pick the same numeric type with opposite byte order,
      Native picks a native type, and strings and references ignore the
      endianness. */
  lemma AtomicTypeEndianSpec(t: CType)
    ensures AtomicTypeFor(t, Big) == Swapped(AtomicTypeFor(t, Little))
    ensures IgnoresEndian(t) ==>
      AtomicTypeFor(t, Little) == AtomicTypeFor(t, Native) == AtomicTypeFor(t, Big)
    ensures !IgnoresEndian(t) ==>
      AtomicTypeFor(t, Native).NativeOf? && AtomicTypeFor(t, Little) != AtomicTypeFor(t, Big)
  {
  }
}
