/** The normalised in-memory form of a dex file that the writer consumes:
    access-flag predicates, fields, methods, protos and classes, and the
    encoded values (DexValue) with their type inference and their
    encoded_value byte layout from the Dalvik Executable format. */
module Normalize {
  import opened Wrappers
  import opened Bytes
  import opened Seqs
  import opened Pools

  const NoIndex: int := -1
  const NoOffset: nat := 0

  /** A type descriptor such as "I" or "Ljava/lang/String;". The code reads the
      first character of every parameter descriptor, so they are never empty. */
  type Descriptor = s: string | |s| > 0 witness "V"

  /** Python's & on non-negative integers, bit by bit from the lowest. */
  function BitAnd(a: nat, b: nat): nat
  {
    if a == 0 || b == 0 then 0
    else 2 * BitAnd(a / 2, b / 2) + (if a % 2 == 1 && b % 2 == 1 then 1 else 0)
  }

  /** flags & mask, used for its truth value. */
  predicate HasFlag(flags: nat, mask: nat)
  {
    BitAnd(flags, mask) != 0
  }

  const AccPrivate: nat := 0x2
  const AccStatic: nat := 0x8
  const AccConstructor: nat := 0x1_0000

  function Pow2(k: nat): (r: nat)
    ensures r > 0
  {
    if k == 0 then 1 else 2 * Pow2(k - 1)
  }

  /** Bit k of n, counted from the lowest. */
  predicate TestBit(n: nat, k: nat)
  {
    if k == 0 then n % 2 == 1 else TestBit(n / 2, k - 1)
  }

  /** Masking with a single-bit mask tests that one bit. */
  lemma {:induction false} HasFlagIsTestBit(flags: nat, k: nat)
    ensures HasFlag(flags, Pow2(k)) <==> TestBit(flags, k)
  {
    if k == 0 {
      assert flags > 0 ==> BitAnd(flags, 1) == 2 * BitAnd(flags / 2, 0) + flags % 2;
    } else {
      var m := Pow2(k - 1);
      assert (2 * m) / 2 == m && (2 * m) % 2 == 0;
      HasFlagIsTestBit(flags / 2, k - 1);
      assert BitAnd(flags, 2 * m) == 2 * BitAnd(flags / 2, m);
    }
  }

  /** The access flags the method predicates test are bits 1 (ACC_PRIVATE),
      3 (ACC_STATIC) and 16 (ACC_CONSTRUCTOR). */
  lemma AccessFlagBits(flags: nat)
    ensures HasFlag(flags, AccPrivate) <==> TestBit(flags, 1)
    ensures HasFlag(flags, AccStatic) <==> TestBit(flags, 3)
    ensures HasFlag(flags, AccConstructor) <==> TestBit(flags, 16)
  {
    assert Pow2(1) == AccPrivate && Pow2(3) == AccStatic && Pow2(16) == AccConstructor;
    HasFlagIsTestBit(flags, 1);
    HasFlagIsTestBit(flags, 3);
    HasFlagIsTestBit(flags, 16);
  }

  datatype DexField = DexField(className: string, name: string, fieldType: Descriptor, accessFlags: nat)
  {
    /** is_static returns access_flags & 0x8, used for its truth value. */
    predicate IsStatic()
      ensures IsStatic() <==> TestBit(accessFlags, 3)
    {
      AccessFlagBits(accessFlags);
      HasFlag(accessFlags, AccStatic)
    }

    /** __hash__, which __eq__ compares: name + clazz.name. */
    function Key(): string
    {
      name + className
    }
  }

  datatype DexProto = DexProto(shorty: string, returnType: Descriptor, parameters: seq<Descriptor>)
  {
    /** __hash__, which __eq__ compares: return_type + ''.join(parameters). */
    function Key(): string
    {
      returnType + Concat(parameters)
    }
  }

  /** The signature string of make_signature and of the converter's
      '{}({})' format: the return type, then the parameter types run
      together between brackets. */
  function MethodSignature(returnType: string, params: seq<string>): string
  {
    returnType + "(" + Concat(params) + ")"
  }

  class DexMethod {
    const className: string
    const classType: Descriptor
    const name: string
    const accessFlags: nat
    const shorty: string
    const params: seq<Descriptor>
    const returnType: Descriptor
    var registerCount: nat
    var codeItemOffset: nat

    constructor (className: string, classType: Descriptor, name: string, accessFlags: nat,
                 shorty: string, params: seq<Descriptor>, returnType: Descriptor)
      ensures this.className == className && this.classType == classType && this.name == name
      ensures this.accessFlags == accessFlags && this.shorty == shorty
      ensures this.params == params && this.returnType == returnType
      ensures registerCount == 0 && codeItemOffset == NoOffset
    {
      this.className := className;
      this.classType := classType;
      this.name := name;
      this.accessFlags := accessFlags;
      this.shorty := shorty;
      this.params := params;
      this.returnType := returnType;
      registerCount := 0;
      codeItemOffset := NoOffset;
    }

    /** make_signature. */
    function Signature(): string
    {
      MethodSignature(returnType, params)
    }

    predicate IsPrivate()
      ensures IsPrivate() <==> TestBit(accessFlags, 1)
    {
      AccessFlagBits(accessFlags);
      HasFlag(accessFlags, AccPrivate)
    }

    predicate IsStatic()
      ensures IsStatic() <==> TestBit(accessFlags, 3)
    {
      AccessFlagBits(accessFlags);
      HasFlag(accessFlags, AccStatic)
    }

    predicate IsConstructor()
      ensures IsConstructor() <==> TestBit(accessFlags, 16)
    {
      AccessFlagBits(accessFlags);
      HasFlag(accessFlags, AccConstructor)
    }

    /** is_direct_method: True when static, private or a constructor; it
        falls off its end (None, which is falsy) otherwise. */
    predicate IsDirectMethod()
      ensures IsDirectMethod() <==> TestBit(accessFlags, 1) || TestBit(accessFlags, 3) || TestBit(accessFlags, 16)
    {
      IsStatic() || IsPrivate() || IsConstructor()
    }

    /** __hash__, which __eq__ compares: clazz.name + name + ','.join(parameters). */
    function Key(): string
    {
      className + name + Join(params, ",")
    }

    function Proto(): DexProto
    {
      DexProto(shorty, returnType, params)
    }
  }

  /** What a class's superclass or interface entry holds: nothing, the type
      name of a class outside the dex, or a class of the dex itself. */
  datatype ClassRef = NoClass | External(typeName: string) | Internal(item: DexClassItem)

  predicate IsDirect(m: DexMethod)
  {
    m.IsDirectMethod()
  }

  predicate IsVirtual(m: DexMethod)
  {
    !m.IsDirectMethod()
  }

  predicate IsStaticField(f: DexField)
  {
    f.IsStatic()
  }

  predicate IsInstanceField(f: DexField)
  {
    !f.IsStatic()
  }

  /** The key list.sort sorts by: the item's index in its pool section. */
  function MethodIndexIn(pool: map<string, nat>): DexMethod -> nat
  {
    (m: DexMethod) => if m.Key() in pool then pool[m.Key()] else 0
  }

  function FieldIndexIn(pool: map<string, nat>): DexField -> nat
  {
    (f: DexField) => if f.Key() in pool then pool[f.Key()] else 0
  }

  predicate AllMethodsIn(s: seq<DexMethod>, pool: map<string, nat>)
  {
    forall i | 0 <= i < |s| :: s[i].Key() in pool
  }

  predicate AllFieldsIn(s: seq<DexField>, pool: map<string, nat>)
  {
    forall i | 0 <= i < |s| :: s[i].Key() in pool
  }

  /** l.sort(key = section.get_item_index): a missing item makes the key
      function raise before the list is touched. */
  function SortMethods(s: seq<DexMethod>, pool: map<string, nat>): (r: Result<seq<DexMethod>>)
    ensures r.Ok? <==> AllMethodsIn(s, pool)
    ensures r.Ok? ==> SortedBy(r.value, MethodIndexIn(pool)) && multiset(r.value) == multiset(s)
  {
    if AllMethodsIn(s, pool) then Ok(SortBy(s, MethodIndexIn(pool))) else Err(DanglingReference)
  }

  function SortFields(s: seq<DexField>, pool: map<string, nat>): (r: Result<seq<DexField>>)
    ensures r.Ok? <==> AllFieldsIn(s, pool)
    ensures r.Ok? ==> SortedBy(r.value, FieldIndexIn(pool)) && multiset(r.value) == multiset(s)
  {
    if AllFieldsIn(s, pool) then Ok(SortBy(s, FieldIndexIn(pool))) else Err(DanglingReference)
  }

  class DexClassItem {
    var index: int
    const classType: Descriptor
    const name: string
    const accessFlags: nat
    const superclass: ClassRef
    const interfaces: seq<ClassRef>
    const sourceFileName: Option<string>
    const staticInitializers: seq<DexValue>
    const annotationDirOffset: nat
    var methods: seq<DexMethod>
    var fields: seq<DexField>

    constructor (classType: Descriptor, name: string, accessFlags: nat, superclass: ClassRef,
                 interfaces: seq<ClassRef>, sourceFileName: Option<string>,
                 staticInitializers: seq<DexValue>, annotationDirOffset: nat,
                 methods: seq<DexMethod>, fields: seq<DexField>)
      ensures index == NoIndex
      ensures this.classType == classType && this.name == name && this.accessFlags == accessFlags
      ensures this.superclass == superclass && this.interfaces == interfaces
      ensures this.sourceFileName == sourceFileName && this.staticInitializers == staticInitializers
      ensures this.annotationDirOffset == annotationDirOffset
      ensures this.methods == methods && this.fields == fields
    {
      index := NoIndex;
      this.classType := classType;
      this.name := name;
      this.accessFlags := accessFlags;
      this.superclass := superclass;
      this.interfaces := interfaces;
      this.sourceFileName := sourceFileName;
      this.staticInitializers := staticInitializers;
      this.annotationDirOffset := annotationDirOffset;
      this.methods := methods;
      this.fields := fields;
    }

    /** get_direct_methods: the direct methods, in list order. */
    function GetDirectMethods(): (r: seq<DexMethod>)
      reads this`methods, this`fields
      ensures forall x | x in r :: x in methods && x.IsDirectMethod()
      ensures forall i | 0 <= i < |methods| && methods[i].IsDirectMethod() :: methods[i] in r
    {
      FilterIn(methods, IsDirect);
      FilterMembers(methods, IsDirect);
      Filter(methods, IsDirect)
    }

    /** get_virtual_methods: the remaining methods, in list order. */
    function GetVirtualMethods(): (r: seq<DexMethod>)
      reads this`methods, this`fields
      ensures forall x | x in r :: x in methods && !x.IsDirectMethod()
      ensures forall i | 0 <= i < |methods| && !methods[i].IsDirectMethod() :: methods[i] in r
    {
      FilterIn(methods, IsVirtual);
      FilterMembers(methods, IsVirtual);
      Filter(methods, IsVirtual)
    }

    /** get_sorted_methods: sorts the class's own method list in place. */
    method GetSortedMethods(pool: map<string, nat>) returns (r: Result<seq<DexMethod>>)
      modifies this
      ensures r == SortMethods(old(methods), pool)
      ensures r.Ok? ==> methods == r.value
      ensures r.Err? ==> methods == old(methods)
      ensures fields == old(fields) && index == old(index)
    {
      r := SortMethods(methods, pool);
      if r.Ok? {
        methods := r.value;
      }
    }

    /** get_sorted_fields: sorts the class's own field list in place. */
    method GetSortedFields(pool: map<string, nat>) returns (r: Result<seq<DexField>>)
      modifies this
      ensures r == SortFields(old(fields), pool)
      ensures r.Ok? ==> fields == r.value
      ensures r.Err? ==> fields == old(fields)
      ensures methods == old(methods) && index == old(index)
    {
      r := SortFields(fields, pool);
      if r.Ok? {
        fields := r.value;
      }
    }

    /** get_sorted_static_fields and the three like it sort a filtered copy,
        leaving the class's lists alone: the static fields, ordered by their
        field-pool index; KeyError when one of them is not in the pool. */
    function GetSortedStaticFields(pool: map<string, nat>): (r: Result<seq<DexField>>)
      reads this`methods, this`fields
      ensures r.Ok? <==> AllFieldsIn(Filter(fields, IsStaticField), pool)
      ensures r.Ok? ==> SortedBy(r.value, FieldIndexIn(pool))
      ensures r.Ok? ==> multiset(r.value) == multiset(Filter(fields, IsStaticField))
      ensures r.Ok? ==> forall x | x in r.value :: x in fields && x.IsStatic()
    {
      FilterIn(fields, IsStaticField);
      var r := SortFields(Filter(fields, IsStaticField), pool);
      if r.Ok? then SameMembers(r.value, Filter(fields, IsStaticField)); r else r
    }

    function GetSortedInstanceFields(pool: map<string, nat>): (r: Result<seq<DexField>>)
      reads this`methods, this`fields
      ensures r.Ok? <==> AllFieldsIn(Filter(fields, IsInstanceField), pool)
      ensures r.Ok? ==> SortedBy(r.value, FieldIndexIn(pool))
      ensures r.Ok? ==> multiset(r.value) == multiset(Filter(fields, IsInstanceField))
      ensures r.Ok? ==> forall x | x in r.value :: x in fields && !x.IsStatic()
    {
      FilterIn(fields, IsInstanceField);
      var r := SortFields(Filter(fields, IsInstanceField), pool);
      if r.Ok? then SameMembers(r.value, Filter(fields, IsInstanceField)); r else r
    }

    function GetSortedDirectMethods(pool: map<string, nat>): (r: Result<seq<DexMethod>>)
      reads this`methods, this`fields
      ensures r.Ok? <==> AllMethodsIn(GetDirectMethods(), pool)
      ensures r.Ok? ==> SortedBy(r.value, MethodIndexIn(pool))
      ensures r.Ok? ==> multiset(r.value) == multiset(GetDirectMethods())
      ensures r.Ok? ==> forall x | x in r.value :: x in methods && x.IsDirectMethod()
    {
      var r := SortMethods(GetDirectMethods(), pool);
      if r.Ok? then SameMembers(r.value, GetDirectMethods()); r else r
    }

    function GetSortedVirtualMethods(pool: map<string, nat>): (r: Result<seq<DexMethod>>)
      reads this`methods, this`fields
      ensures r.Ok? <==> AllMethodsIn(GetVirtualMethods(), pool)
      ensures r.Ok? ==> SortedBy(r.value, MethodIndexIn(pool))
      ensures r.Ok? ==> multiset(r.value) == multiset(GetVirtualMethods())
      ensures r.Ok? ==> forall x | x in r.value :: x in methods && !x.IsDirectMethod()
    {
      var r := SortMethods(GetVirtualMethods(), pool);
      if r.Ok? then SameMembers(r.value, GetVirtualMethods()); r else r
    }
  }

  /** get_direct_methods and get_virtual_methods split the method list: each
      method lands in exactly one of them, by is_direct_method, in list order. */
  lemma DirectVirtualPartition(c: DexClassItem)
    ensures multiset(c.GetDirectMethods()) + multiset(c.GetVirtualMethods()) == multiset(c.methods)
    ensures |c.GetDirectMethods()| + |c.GetVirtualMethods()| == |c.methods|
    ensures forall i | 0 <= i < |c.GetDirectMethods()| :: c.GetDirectMethods()[i].IsDirectMethod()
    ensures forall i | 0 <= i < |c.GetVirtualMethods()| :: !c.GetVirtualMethods()[i].IsDirectMethod()
  {
    FilterPartition(c.methods, IsDirect, IsVirtual);
    FilterMembers(c.methods, IsDirect);
    FilterMembers(c.methods, IsVirtual);
  }

  lemma StaticInstancePartition(c: DexClassItem)
    ensures multiset(Filter(c.fields, IsStaticField)) + multiset(Filter(c.fields, IsInstanceField)) == multiset(c.fields)
    ensures |Filter(c.fields, IsStaticField)| + |Filter(c.fields, IsInstanceField)| == |c.fields|
  {
    FilterPartition(c.fields, IsStaticField, IsInstanceField);
  }

  // ---------------------------------------------------------------------
  // Encoded values

  const ValueByte: int := 0x00
  const ValueShort: int := 0x02
  const ValueChar: int := 0x03
  const ValueInt: int := 0x04
  const ValueLong: int := 0x06
  const ValueFloat: int := 0x10
  const ValueDouble: int := 0x11
  const ValueMethodType: int := 0x15
  const ValueMethodHandle: int := 0x16
  const ValueString: int := 0x17
  const ValueType: int := 0x18
  const ValueField: int := 0x19
  const ValueMethod: int := 0x1a
  const ValueEnum: int := 0x1b
  const ValueArray: int := 0x1c
  const ValueAnnotation: int := 0x1d
  const ValueNull: int := 0x1e
  const ValueBoolean: int := 0x1f
  const ValueAuto: int := 0xff

  /** The Python object a DexValue wraps, by the classes get_inferenced_type
      tells apart. A float's bits are not modelled, only whether it is zero. */
  datatype Host =
    | Wrapped(inner: DexValue)
    | NoneHost
    | BoolHost(b: bool)
    | ListHost(items: seq<DexValue>)
    | IntHost(i: int)
    | StrHost(s: string)
    | FloatHost(isZero: bool)
    | MethodHost(m: DexMethod)
    | FieldHost(f: DexField)
    | AnnotationHost(a: DexAnnotation)
    | OtherHost

  /** A DexValue: the wrapped object and its value type code (ValueAuto until inferred). */
  datatype DexValue = DexValue(value: Host, valueType: int)

  datatype DexAnnotation = DexAnnotation(annotationType: string, elements: seq<Element>)

  /** An annotation element (name, value); the value is a DexValue or a list of them. */
  datatype Element = Element(name: string, val: ElementValue)
  datatype ElementValue = One(v: DexValue) | Many(vs: seq<DexValue>)

  /** get_inferenced_type, with the cache get_type leaves in a wrapped inner value. */
  function InferType(h: Host): (r: Result<(int, Host)>)
    decreases h, 1
    ensures r.Ok? ==> r.value.0 != ValueAuto
    ensures r.Ok? ==> (r.value.1.Wrapped? <==> h.Wrapped?)
    ensures r.Ok? && !h.Wrapped? ==> r.value.1 == h
  {
    match h
    case Wrapped(inner) =>
      var (t, inner') :- GetType(inner);
      Ok((t, Wrapped(inner')))
    case NoneHost => Ok((ValueNull, h))
    case BoolHost(_) => Ok((ValueBoolean, h))
    case ListHost(_) => Ok((ValueArray, h))
    case IntHost(i) =>
      if i <= 0xff then Ok((ValueByte, h))
      else if -32768 <= i <= 32767 then Ok((ValueShort, h))
      else if i <= 0xffff_ffff then Ok((ValueInt, h))
      else if i <= 0xffff_ffff_ffff_ffff then Ok((ValueLong, h))
      else Err(UnsupportedValue)
    case StrHost(_) =>
      // the one-character CHAR return is commented out in the source, so
      // every str is a STRING
      Ok((ValueString, h))
    case FloatHost(_) => Ok((ValueDouble, h))
    case MethodHost(_) => Ok((ValueMethod, h))
    case FieldHost(_) => Ok((ValueField, h))
    case AnnotationHost(_) => Ok((ValueAnnotation, h))
    case OtherHost => Err(UnsupportedValue)
  }

  /** get_type: an explicit type as it is; AUTO is replaced by the inferred
      type, which is stored in the value (the second component). */
  function GetType(v: DexValue): (r: Result<(int, DexValue)>)
    decreases v, 0
    ensures r.Ok? ==> r.value.0 != ValueAuto && r.value.1.valueType == r.value.0
    ensures r.Ok? ==> (r.value.1.value.Wrapped? <==> v.value.Wrapped?)
    ensures r.Ok? && !v.value.Wrapped? ==> r.value.1.value == v.value
  {
    if v.valueType == ValueAuto then
      var (t, h) :- InferType(v.value);
      Ok((t, DexValue(h, t)))
    else
      Ok((v.valueType, v))
  }

  /** An explicit type is returned unchanged and nothing is stored. */
  lemma GetTypeExplicit(v: DexValue)
    requires v.valueType != ValueAuto
    ensures GetType(v) == Ok((v.valueType, v))
  {
  }

  /** get_type caches: a second call on the updated value gives the same type
      and changes nothing more. */
  lemma GetTypeIdempotent(v: DexValue)
    requires GetType(v).Ok?
    ensures var (t, v') := GetType(v).value; GetType(v') == Ok((t, v'))
  {
  }

  /** The precedence of get_inferenced_type: a wrapped DexValue gives its own
      type, None is NULL, a bool is BOOLEAN although bool is a subclass of int,
      and a list is ARRAY. */
  lemma InferencePrecedence(h: Host)
    ensures h.Wrapped? ==> InferType(h).Ok? == GetType(h.inner).Ok?
    ensures h.Wrapped? && GetType(h.inner).Ok? ==> InferType(h).value.0 == GetType(h.inner).value.0
    ensures h.NoneHost? ==> InferType(h) == Ok((ValueNull, h))
    ensures h.BoolHost? ==> InferType(h) == Ok((ValueBoolean, h))
    ensures h.ListHost? ==> InferType(h) == Ok((ValueArray, h))
  {
  }

  /** Integers by range: every int up to 0xff, negatives included, is BYTE;
      256..32767 is SHORT; up to 0xffffffff INT; up to 2^64 - 1 LONG; larger
      ints raise. */
  lemma InferIntRanges(i: int)
    ensures InferType(IntHost(i)).Ok? <==> i <= 0xffff_ffff_ffff_ffff
    ensures InferType(IntHost(i)).Ok? ==> var t := InferType(IntHost(i)).value.0;
      (t == ValueByte <==> i <= 0xff) &&
      (t == ValueShort <==> 0x100 <= i <= 32767) &&
      (t == ValueInt <==> 32768 <= i <= 0xffff_ffff) &&
      (t == ValueLong <==> 0x1_0000_0000 <= i)
  {
  }

  /** Strings infer STRING whatever their length, floats DOUBLE. */
  lemma InferStringsAndFloats(s: string, z: bool)
    ensures InferType(StrHost(s)) == Ok((ValueString, StrHost(s)))
    ensures InferType(FloatHost(z)) == Ok((ValueDouble, FloatHost(z)))
  {
  }

  // Payload packing -------------------------------------------------------

  /** The host as a Python int, when it is one (a bool is 0 or 1). */
  function AsInt(h: Host): Option<int>
  {
    match h
    case IntHost(i) => Some(i)
    case BoolHost(b) => Some(if b then 1 else 0)
    case _ => None
  }

  /** Python truth value. */
  predicate Truthy(h: Host)
  {
    match h
    case NoneHost => false
    case BoolHost(b) => b
    case IntHost(i) => i != 0
    case StrHost(s) => |s| > 0
    case ListHost(items) => |items| > 0
    case FloatHost(z) => !z
    case _ => true
  }

  /** write_1: struct.pack('<B', value). */
  function Write1(h: Host): (r: Result<seq<byte>>)
    ensures r.Ok? <==> AsInt(h).Some? && 0 <= AsInt(h).value < 256
    ensures r.Ok? ==> r.value == [AsInt(h).value]
    ensures r.Err? ==> r.error == StructError
  {
    match AsInt(h)
    case Some(i) => PackUByte(i)
    case None => Err(StructError)
  }

  /** swrite_2: struct.pack('<h', value). */
  function SWrite2(h: Host): (r: Result<seq<byte>>)
    ensures r.Ok? <==> AsInt(h).Some? && -32768 <= AsInt(h).value < 32768
    ensures r.Ok? ==> |r.value| == 2 && FromLittleEndianSigned(r.value) == AsInt(h).value
    ensures r.Err? ==> r.error == StructError
  {
    match AsInt(h)
    case Some(i) => PackShort(i)
    case None => Err(StructError)
  }

  /** write_2: a one-character string becomes its code point (ord raises on
      any other length), then struct.pack('<H', value). */
  function Write2(h: Host): (r: Result<seq<byte>>)
    ensures h.StrHost? && |h.s| != 1 ==> r == Err(TypeError)
    ensures h.StrHost? && |h.s| == 1 ==> (r.Ok? <==> (h.s[0] as int) < 65536)
    ensures !h.StrHost? ==> (r.Ok? <==> AsInt(h).Some? && 0 <= AsInt(h).value < 65536)
    ensures r.Ok? ==> |r.value| == 2
    ensures r.Ok? ==> FromLittleEndian(r.value) == if h.StrHost? then h.s[0] as int else AsInt(h).value
  {
    match h
    case StrHost(s) => if |s| == 1 then PackUShort(s[0] as int) else Err(TypeError)
    case _ =>
      match AsInt(h)
      case Some(i) => PackUShort(i)
      case None => Err(StructError)
  }

  /** write_4: struct.pack('<I', value), falling back to '<f' for anything
      '<I' refuses. */
  function Write4(h: Host): (r: Result<seq<byte>>)
    ensures r.Ok? <==> AsInt(h).Some? && 0 <= AsInt(h).value < 0x1_0000_0000
    ensures r.Ok? ==> |r.value| == 4 && FromLittleEndian(r.value) == AsInt(h).value
    ensures r.Err? ==> r.error == if AsInt(h).Some? || h.FloatHost? then FloatEncoding else StructError
  {
    match AsInt(h)
    case Some(i) => if 0 <= i < 0x1_0000_0000 then PackUInt(i) else Err(FloatEncoding)
    case None => if h.FloatHost? then Err(FloatEncoding) else Err(StructError)
  }

  /** write_8: struct.pack('<Q', value), falling back to '<d'. */
  function Write8(h: Host): (r: Result<seq<byte>>)
    ensures r.Ok? <==> AsInt(h).Some? && 0 <= AsInt(h).value < 0x1_0000_0000_0000_0000
    ensures r.Ok? ==> |r.value| == 8 && FromLittleEndian(r.value) == AsInt(h).value
    ensures r.Err? ==> r.error == if AsInt(h).Some? || h.FloatHost? then FloatEncoding else StructError
  {
    match AsInt(h)
    case Some(i) => if 0 <= i < 0x1_0000_0000_0000_0000 then PackULongLong(i) else Err(FloatEncoding)
    case None => if h.FloatHost? then Err(FloatEncoding) else Err(StructError)
  }

  function StringIndex(p: Pools, h: Host): Result<nat>
  {
    if h.StrHost? then Find(p.strings, h.s) else Err(DanglingReference)
  }

  function TypeIndex(p: Pools, h: Host): Result<nat>
  {
    if h.StrHost? then Find(p.types, h.s) else Err(DanglingReference)
  }

  function MethodIndex(p: Pools, h: Host): Result<nat>
  {
    if h.MethodHost? then Find(p.methods, h.m.Key()) else Err(DanglingReference)
  }

  function FieldIndex(p: Pools, h: Host): Result<nat>
  {
    if h.FieldHost? then Find(p.fields, h.f.Key()) else Err(DanglingReference)
  }

  /** The type codes that value_as_byte handles. */
  predicate Handled(t: int)
  {
    t in {ValueByte, ValueShort, ValueChar, ValueInt, ValueFloat, ValueDouble, ValueLong,
          ValueString, ValueMethod, ValueType, ValueEnum, ValueField,
          ValueBoolean, ValueNull, ValueArray, ValueAnnotation}
  }

  /** The fixed payload width of a scalar type code. */
  function PayloadWidth(t: int): nat
  {
    if t == ValueByte then 1
    else if t == ValueShort || t == ValueChar then 2
    else if t in {ValueInt, ValueFloat, ValueString, ValueMethod, ValueType, ValueEnum, ValueField} then 4
    else if t == ValueLong || t == ValueDouble then 8
    else 0
  }

  predicate Scalar(t: int)
  {
    Handled(t) && t !in {ValueBoolean, ValueNull, ValueArray, ValueAnnotation}
  }

  /** value_as_byte: the payload bytes of a value under type code t. An
      array's payload is its items' payloads under their stored type codes. */
  function ValueAsBytes(p: Pools, v: DexValue, t: int): (r: Result<seq<byte>>)
    decreases v, 0
    ensures r.Ok? ==> Handled(t)
    ensures r.Ok? && Scalar(t) ==> |r.value| == PayloadWidth(t)
    ensures r.Ok? && t in {ValueBoolean, ValueNull, ValueAnnotation} ==> r.value == []
    ensures r.Ok? && t == ValueArray ==> v.value.ListHost? || v.value == StrHost("")
    ensures t == ValueArray && v.value.StrHost? && v.value.s != "" ==> r == Err(AttributeError)
    ensures t == ValueArray && !v.value.ListHost? && !v.value.StrHost? ==> r == Err(TypeError)
    ensures !Handled(t) ==> r == Err(NotImplemented)
  {
    if t == ValueByte then Write1(v.value)
    else if t == ValueShort then SWrite2(v.value)
    else if t == ValueChar then Write2(v.value)
    else if t == ValueInt || t == ValueFloat then Write4(v.value)
    else if t == ValueDouble || t == ValueLong then Write8(v.value)
    else if t == ValueString then var i :- StringIndex(p, v.value); Write4(IntHost(i))
    else if t == ValueMethod then var i :- MethodIndex(p, v.value); Write4(IntHost(i))
    else if t == ValueType then var i :- TypeIndex(p, v.value); Write4(IntHost(i))
    else if t == ValueEnum || t == ValueField then var i :- FieldIndex(p, v.value); Write4(IntHost(i))
    else if t == ValueBoolean || t == ValueNull then Ok([])
    else if t == ValueArray then
      // the loop iterates the host: a str yields its characters, which
      // have no value_as_byte; an int, None or bool cannot be iterated
      if v.value.ListHost? then ItemsAsBytes(p, v.value.items)
      else if v.value.StrHost? then (if v.value.s == "" then Ok([]) else Err(AttributeError))
      else Err(TypeError)
    else if t == ValueAnnotation then Ok([])
    else Err(NotImplemented)
  }

  function ItemsAsBytes(p: Pools, items: seq<DexValue>): Result<seq<byte>>
    decreases items
  {
    if |items| == 0 then Ok([])
    else
      var first :- ValueAsBytes(p, items[0], items[0].valueType);
      var rest :- ItemsAsBytes(p, items[1..]);
      Ok(first + rest)
  }

  /** The value_arg of the header: the payload length less one, but 0 for
      BYTE, ARRAY, ANNOTATION and NULL, and the truth value for BOOLEAN. */
  function ValueArg(t: int, h: Host, payloadLength: nat): (r: int)
    ensures 1 <= payloadLength <= 8 ==> 0 <= r < 8
    ensures t == ValueBoolean ==> (r == 1 <==> Truthy(h)) && 0 <= r <= 1
  {
    if t in {ValueByte, ValueArray, ValueAnnotation, ValueNull} then 0
    else if t == ValueBoolean then (if Truthy(h) then 1 else 0)
    else payloadLength - 1
  }

  /** The header byte ((value_arg & 0xffffffff) << 5) | type. Below 32 the
      type occupies only the low five bits, so the | is a sum here. */
  function Header(arg: nat, t: nat): nat
    requires t < 32
  {
    (arg % 0x1_0000_0000) * 32 + t
  }

  /** Splits a header byte into (type, value_arg). */
  function DecodeHeader(b: byte): (int, int)
  {
    (b % 32, b / 32)
  }

  lemma HeaderRoundTrip(arg: nat, t: nat)
    requires arg < 8 && t < 32
    ensures Header(arg, t) < 256
    ensures DecodeHeader(Header(arg, t)) == (t, arg)
  {
  }

  lemma HandledBelow32(t: int)
    requires Handled(t)
    ensures 0 <= t < 32
  {
  }

  /** DexValue.encode: the header byte, then nothing for BOOLEAN and NULL,
      uleb(length) and the items' encodings for ARRAY, the annotation body for
      ANNOTATION and the payload otherwise. */
  function Encode(p: Pools, v: DexValue): (r: Result<seq<byte>>)
    decreases v, 2
    ensures r.Ok? ==> |r.value| >= 1 && GetType(v).Ok? && r.value[0] % 32 == GetType(v).value.0
  {
    var (t, w) :- GetType(v);
    var payload :- ValueAsBytes(p, w, t);
    HandledBelow32(t);
    var arg := ValueArg(t, w.value, |payload|);
    assert 0 <= arg < 8;
    HeaderRoundTrip(arg, t);
    var header: byte := Header(arg, t);
    if t == ValueBoolean || t == ValueNull then Ok([header])
    else if t == ValueArray then
      assert w.value == v.value;
      if v.value.StrHost? then
        // only the empty str has a payload; it has no items to encode
        Ok([header] + ULeb128(|v.value.s|))
      else
        var items :- EncodeAll(p, v.value.items);
        Ok([header] + ULeb128(|v.value.items|) + items)
    else if t == ValueAnnotation then
      if w.value.FieldHost? then
        // a DexField has a type, which is looked up; it has no elements
        var _ :- Find(p.types, w.value.f.fieldType);
        Err(AttributeError)
      else if !w.value.AnnotationHost? then Err(AttributeError)
      else
        assert w.value == v.value;
        var a := v.value.a;
        var typeIndex :- Find(p.types, a.annotationType);
        var body :- EncodeElements(p, a.elements);
        Ok([header] + ULeb128(typeIndex) + ULeb128(|a.elements|) + body)
    else
      Ok([header] + payload)
  }

  /** x.encode for each x of a list, concatenated. */
  function EncodeAll(p: Pools, items: seq<DexValue>): Result<seq<byte>>
    decreases items
  {
    if |items| == 0 then Ok([])
    else
      var first :- Encode(p, items[0]);
      var rest :- EncodeAll(p, items[1..]);
      Ok(first + rest)
  }

  /** The element loop of the ANNOTATION branch: uleb(name index), then the
      value. After a list-valued element the loop returns, so the elements
      behind it are not written. */
  function EncodeElements(p: Pools, elements: seq<Element>): Result<seq<byte>>
    decreases elements
  {
    if |elements| == 0 then Ok([])
    else
      var e := elements[0];
      var nameIndex :- Find(p.strings, e.name);
      match e.val
      case Many(vs) =>
        var vals :- EncodeAll(p, vs);
        Ok(ULeb128(nameIndex) + vals)
      case One(x) =>
        var val :- Encode(p, x);
        var rest :- EncodeElements(p, elements[1..]);
        Ok(ULeb128(nameIndex) + val + rest)
  }

  // What the encoded bytes mean -------------------------------------------

  /** An array's payload is its items' payloads one after the other: it
      exists exactly when both halves have one, and is their concatenation. */
  lemma {:induction false} ItemsAsBytesAppend(p: Pools, a: seq<DexValue>, b: seq<DexValue>)
    ensures ItemsAsBytes(p, a + b).Ok? <==> ItemsAsBytes(p, a).Ok? && ItemsAsBytes(p, b).Ok?
    ensures ItemsAsBytes(p, a + b).Ok? ==>
      ItemsAsBytes(p, a + b).value == ItemsAsBytes(p, a).value + ItemsAsBytes(p, b).value
    decreases |a|
  {
    if |a| == 0 {
      assert a + b == b;
    } else {
      assert (a + b)[0] == a[0];
      assert (a + b)[1..] == a[1..] + b;
      ItemsAsBytesAppend(p, a[1..], b);
    }
  }

  /** What a payload reads back to: the host int (a bool as 0 or 1) for the
      numeric types, SHORT in two's complement and CHAR as the character's
      code point; the pool index of the string, type, method or field for the
      reference types; the items' payloads for an array. */
  lemma PayloadValue(p: Pools, v: DexValue, t: int)
    requires ValueAsBytes(p, v, t).Ok?
    ensures var r := ValueAsBytes(p, v, t).value;
      (t in {ValueByte, ValueInt, ValueFloat, ValueLong, ValueDouble} ==>
        AsInt(v.value).Some? && FromLittleEndian(r) == AsInt(v.value).value) &&
      (t == ValueShort ==> AsInt(v.value).Some? && FromLittleEndianSigned(r) == AsInt(v.value).value) &&
      (t == ValueChar && v.value.StrHost? ==> |v.value.s| == 1 && FromLittleEndian(r) == v.value.s[0] as int) &&
      (t == ValueChar && !v.value.StrHost? ==> AsInt(v.value).Some? && FromLittleEndian(r) == AsInt(v.value).value) &&
      (t == ValueString ==> v.value.StrHost? && v.value.s in p.strings && FromLittleEndian(r) == p.strings[v.value.s]) &&
      (t == ValueType ==> v.value.StrHost? && v.value.s in p.types && FromLittleEndian(r) == p.types[v.value.s]) &&
      (t == ValueMethod ==>
         v.value.MethodHost? && v.value.m.Key() in p.methods &&
         FromLittleEndian(r) == p.methods[v.value.m.Key()]) &&
      (t in {ValueEnum, ValueField} ==>
         v.value.FieldHost? && v.value.f.Key() in p.fields &&
         FromLittleEndian(r) == p.fields[v.value.f.Key()]) &&
      (t == ValueArray ==>
         (v.value.ListHost? && ItemsAsBytes(p, v.value.items) == Ok(r)) || (v.value == StrHost("") && r == []))
  {
  }

  /** A scalar's encoding is its header and then its payload; the header's
      value_arg is the payload length less one, so a reader learns the
      payload's length from the first byte. */
  lemma EncodeScalarLayout(p: Pools, v: DexValue)
    requires Encode(p, v).Ok? && Scalar(GetType(v).value.0)
    ensures var r := Encode(p, v).value; var (t, w) := GetType(v).value;
      |r| == PayloadWidth(t) + 1 &&
      DecodeHeader(r[0]) == (t, |r| - 2) &&
      ValueAsBytes(p, w, t) == Ok(r[1..])
  {
    var (t, w) := GetType(v).value;
    var payload := ValueAsBytes(p, w, t).value;
    HandledBelow32(t);
    var arg := ValueArg(t, w.value, |payload|);
    HeaderRoundTrip(arg, t);
  }

  /** BOOLEAN and NULL are the header byte alone; a BOOLEAN carries its truth
      value in value_arg and NULL carries 0. */
  lemma EncodeBooleanNullLayout(p: Pools, v: DexValue)
    requires Encode(p, v).Ok? && GetType(v).value.0 in {ValueBoolean, ValueNull}
    ensures var r := Encode(p, v).value; var t := GetType(v).value.0;
      |r| == 1 &&
      DecodeHeader(r[0]) == (t, if t == ValueBoolean && Truthy(v.value) then 1 else 0)
  {
    var (t, w) := GetType(v).value;
    var arg := ValueArg(t, w.value, 0);
    assert Truthy(w.value) == Truthy(v.value);
    HeaderRoundTrip(arg, t);
  }

  /** An ARRAY is the header with value_arg 0, then uleb(item count), which
      reads back as the count, then each item's own encoding in order. The
      one str that encodes as an ARRAY is the empty one, as `1c 00`. */
  lemma EncodeArrayLayout(p: Pools, v: DexValue)
    requires Encode(p, v).Ok? && GetType(v).value.0 == ValueArray
    ensures v.value.ListHost? || v.value == StrHost("")
    ensures v.value == StrHost("") ==> Encode(p, v).value == [0x1c, 0x00]
    ensures v.value.ListHost? ==> EncodeAll(p, v.value.items).Ok?
    ensures v.value.ListHost? ==> var r := Encode(p, v).value; var n := |v.value.items|;
      DecodeHeader(r[0]) == (ValueArray, 0) &&
      r == [r[0]] + ULeb128(n) + EncodeAll(p, v.value.items).value &&
      ReadULeb128(r, 1) == Some((n, |ULeb128(n)|))
  {
    if v.value.StrHost? {
      assert v.valueType == ValueArray;
      EncodeStrArray(p, v.value.s);
    } else {
      var r := Encode(p, v).value;
      var n := |v.value.items|;
      HeaderRoundTrip(0, ValueArray);
      var rest := EncodeAll(p, v.value.items).value;
      assert r == [r[0]] + ULeb128(n) + rest;
      AtShift([r[0]], ULeb128(n), rest);
      ULeb128RoundTrip(n, r, 1);
    }
  }

  /** An ANNOTATION is the header with value_arg 0, uleb(type index of the
      annotation's type), uleb(element count), then the elements. */
  lemma EncodeAnnotationLayout(p: Pools, v: DexValue)
    requires Encode(p, v).Ok? && GetType(v).value.0 == ValueAnnotation
    ensures v.value.AnnotationHost? && v.value.a.annotationType in p.types
    ensures EncodeElements(p, v.value.a.elements).Ok?
    ensures var r := Encode(p, v).value; var a := v.value.a;
      DecodeHeader(r[0]) == (ValueAnnotation, 0) &&
      r == [r[0]] + ULeb128(p.types[a.annotationType]) + ULeb128(|a.elements|)
             + EncodeElements(p, a.elements).value
  {
    HeaderRoundTrip(0, ValueAnnotation);
  }

  /** A value typed ANNOTATION whose host is not an annotation: reading
      `.type` raises AttributeError, except on a DexField, whose type is
      looked up before reading `.elements` raises. */
  lemma EncodeAnnotationMismatch(p: Pools, v: DexValue)
    requires GetType(v).Ok? && GetType(v).value.0 == ValueAnnotation && !v.value.AnnotationHost?
    ensures v.value.FieldHost? && v.value.f.fieldType !in p.types ==> Encode(p, v) == Err(DanglingReference)
    ensures !(v.value.FieldHost? && v.value.f.fieldType !in p.types) ==> Encode(p, v) == Err(AttributeError)
  {
    var (t, w) := GetType(v).value;
    assert ValueAsBytes(p, w, t) == Ok([]);
    assert v.value.FieldHost? <==> w.value.FieldHost?;
    assert w.value.FieldHost? ==> w.value == v.value;
  }

  /** The int payload reader: SHORT is signed, the other types unsigned. */
  function DecodeIntPayload(t: int, payload: seq<byte>): int
  {
    if t == ValueShort then FromLittleEndianSigned(payload) else FromLittleEndian(payload)
  }

  /** An untyped int round-trips through encode: every int in 0..2^64 - 1
      encodes to a header naming its inferred type and its payload length,
      and a payload that reads back as the int. Every negative int is
      inferred BYTE and fails in struct.pack('<B'). */
  lemma EncodeIntRoundTrip(p: Pools, i: int)
    requires i <= 0xffff_ffff_ffff_ffff
    ensures var r := Encode(p, DexValue(IntHost(i), ValueAuto));
      (r.Ok? <==> 0 <= i) &&
      (i < 0 ==> r == Err(StructError)) &&
      (r.Ok? ==>
        var t := InferType(IntHost(i)).value.0;
        |r.value| >= 2 &&
        DecodeHeader(r.value[0]) == (t, |r.value| - 2) &&
        DecodeIntPayload(t, r.value[1..]) == i)
  {
    var v := DexValue(IntHost(i), ValueAuto);
    var t := InferType(IntHost(i)).value.0;
    if 0 <= i {
      var w := GetType(v).value.1;
      assert w == DexValue(IntHost(i), t);
      var payload := ValueAsBytes(p, w, t);
      assert Pow256(1) == 256 && Pow256(2) == 65536;
      assert Pow256(4) == 0x1_0000_0000 && Pow256(8) == 0x1_0000_0000_0000_0000;
      assert payload.Ok?;
      PayloadValue(p, w, t);
      EncodeScalarLayout(p, v);
    }
  }

  /** An untyped int in 0..255 encodes to the BYTE header 0x00 and itself. */
  lemma EncodeUnsignedByte(p: Pools, i: int)
    requires 0 <= i < 256
    ensures Encode(p, DexValue(IntHost(i), ValueAuto)) == Ok([0x00, i])
  {
    var v := DexValue(IntHost(i), ValueAuto);
    var w := DexValue(IntHost(i), ValueByte);
    assert GetType(v) == Ok((ValueByte, w));
    EncodeIntRoundTrip(p, i);
    EncodeScalarLayout(p, v);
    var r := Encode(p, v).value;
    assert r[1..] == [i];
    assert r[0] == 0 by { assert DecodeHeader(r[0]) == (0, 0); }
    assert r == [r[0]] + r[1..];
    var e: seq<byte> := [0x00, i];
    assert r == e;
  }

  /** A str given the ARRAY type: the empty str encodes as an empty array,
      the header 0x1c and the count 0; any other str fails, since its
      characters have no value_as_byte. */
  lemma EncodeStrArray(p: Pools, s: string)
    ensures Encode(p, DexValue(StrHost(s), ValueArray)) == if s == "" then Ok([0x1c, 0x00]) else Err(AttributeError)
  {
    var v := DexValue(StrHost(s), ValueArray);
    assert GetType(v) == Ok((ValueArray, v));
    if s == "" {
      assert ValueAsBytes(p, v, ValueArray) == Ok([]);
      assert ValueArg(ValueArray, v.value, 0) == 0;
      assert Header(0, ValueArray) == 0x1c;
      assert ULeb128(0) == [0x00];
      var e: seq<byte> := [0x1c] + [0x00];
      assert Encode(p, v) == Ok(e);
      assert e == [0x1c, 0x00];
    } else {
      assert ValueAsBytes(p, v, ValueArray) == Err(AttributeError);
    }
  }
}
