/** The older copy of the normalised value model (the top-level normalize.py):
    its type inference, uncached get_type, header rule, write_1 and proto
    equality, with lemmas that set it beside the dexassist copy. Values are
    the same hosts as in the dexassist model. */
module LegacyNormalize {
  import opened Wrappers
  import opened Bytes
  import N = Normalize

  /** get_inferenced_type. There is no case for a wrapped DexValue, and an int
      above 2^64 - 1 or an unknown object falls off the end: None. */
  function InferType(h: N.Host): (r: Option<int>)
    ensures r.Some? ==> r.value != N.ValueAuto && 0 <= r.value < 32
    ensures r.None? <==> (h.Wrapped? || h.OtherHost? || (h.IntHost? && h.i > 0xffff_ffff_ffff_ffff))
  {
    match h
    case NoneHost => Some(N.ValueNull)
    case BoolHost(_) => Some(N.ValueBoolean)
    case ListHost(_) => Some(N.ValueArray)
    case IntHost(i) =>
      if i <= 0xff then Some(N.ValueByte)
      else if i <= 0xffff then Some(N.ValueShort)
      else if i <= 0xffff_ffff then Some(N.ValueInt)
      else if i <= 0xffff_ffff_ffff_ffff then Some(N.ValueLong)
      else None
    case StrHost(s) => if |s| == 1 then Some(N.ValueChar) else Some(N.ValueString)
    case FloatHost(_) => Some(N.ValueDouble)
    case MethodHost(_) => Some(N.ValueMethod)
    case FieldHost(_) => Some(N.ValueField)
    case AnnotationHost(_) => Some(N.ValueAnnotation)
    case Wrapped(_) => None
    case OtherHost => None
  }

  /** get_type: an explicit type, or the inferred one, which is not stored. */
  function GetType(v: N.DexValue): (r: Option<int>)
    ensures v.valueType != N.ValueAuto ==> r == Some(v.valueType)
    ensures v.valueType == N.ValueAuto ==> r == InferType(v.value)
  {
    if v.valueType == N.ValueAuto then InferType(v.value) else Some(v.valueType)
  }

  /** Without a cache, get_type answers the same on every call and the value
      keeps its AUTO type code. */
  lemma GetTypeUncached(v: N.DexValue)
    requires v.valueType == N.ValueAuto
    ensures GetType(v) == InferType(v.value)
    ensures GetType(v) != Some(N.ValueAuto)
  {
  }

  /** Precedence: None is NULL, bool is BOOLEAN before int, list is ARRAY. */
  lemma InferencePrecedence(h: N.Host)
    ensures h.NoneHost? ==> InferType(h) == Some(N.ValueNull)
    ensures h.BoolHost? ==> InferType(h) == Some(N.ValueBoolean)
    ensures h.ListHost? ==> InferType(h) == Some(N.ValueArray)
  {
  }

  lemma InferIntRanges(i: int)
    ensures InferType(N.IntHost(i)).Some? <==> i <= 0xffff_ffff_ffff_ffff
    ensures InferType(N.IntHost(i)).Some? ==> var t := InferType(N.IntHost(i)).value;
      (t == N.ValueByte <==> i <= 0xff) &&
      (t == N.ValueShort <==> 0x100 <= i <= 0xffff) &&
      (t == N.ValueInt <==> 0x1_0000 <= i <= 0xffff_ffff) &&
      (t == N.ValueLong <==> 0x1_0000_0000 <= i)
  {
  }

  /** A one-character string is CHAR, any other string STRING. */
  lemma InferStrings(s: string)
    ensures InferType(N.StrHost(s)) == Some(if |s| == 1 then N.ValueChar else N.ValueString)
  {
  }

  /** The value_arg of the legacy header: 0 for BYTE, ARRAY, ANNOTATION, NULL
      and BOOLEAN, the payload length less one otherwise. */
  function ValueArg(t: int, payloadLength: nat): (r: int)
    ensures 1 <= payloadLength <= 8 ==> 0 <= r < 8
    ensures t == N.ValueBoolean ==> r == 0
  {
    if t in {N.ValueByte, N.ValueArray, N.ValueAnnotation, N.ValueNull, N.ValueBoolean} then 0
    else payloadLength - 1
  }

  /** ((value_arg & 0xffffffff) << 5) | type, for a type code below 32. */
  function HeaderByte(t: nat, payloadLength: nat): (r: nat)
    requires t < 32
    ensures r % 32 == t
  {
    (ValueArg(t, payloadLength) % 0x1_0000_0000) * 32 + t
  }

  /** The legacy header of a BOOLEAN is 0x1f whatever its truth value; the
      dexassist header carries the truth in value_arg. */
  lemma BooleanHeaderDiffers(h: N.Host)
    ensures HeaderByte(N.ValueBoolean, 0) == 0x1f
    ensures N.Header(N.ValueArg(N.ValueBoolean, h, 0), N.ValueBoolean) == (if N.Truthy(h) then 0x3f else 0x1f)
  {
    assert ValueArg(N.ValueBoolean, 0) == 0;
    var arg := N.ValueArg(N.ValueBoolean, h, 0);
    assert arg == (if N.Truthy(h) then 1 else 0);
    assert arg % 0x1_0000_0000 == arg;
  }

  /** The two header rules agree on every other forced type and on every
      type whose payload is not empty. */
  lemma HeaderRulesAgree(t: nat, h: N.Host, payloadLength: nat)
    requires t < 32 && t != N.ValueBoolean
    ensures N.ValueArg(t, h, payloadLength) == ValueArg(t, payloadLength)
  {
  }

  /** write_1: bytes([value & 0xff]); & 0xff on a Python int is the floor
      remainder, so a negative value wraps instead of raising. */
  function Write1(value: int): (r: seq<byte>)
    ensures |r| == 1 && 0 <= r[0] < 256
    ensures (r[0] - value) % 256 == 0
  {
    [value % 256]
  }

  /** On 0..255 both write_1 functions give the same byte; below 0 the
      dexassist one raises where the legacy one wraps. */
  lemma Write1Compared(value: int)
    ensures 0 <= value < 256 ==> N.Write1(N.IntHost(value)) == Ok(Write1(value))
    ensures value < 0 ==> N.Write1(N.IntHost(value)).Err? && Write1(value) == [value + 256 * ((-value + 255) / 256)]
  {
    if 0 <= value < 256 {
      assert LittleEndian(value, 1) == [value % 256] + LittleEndian(value / 256, 0);
      assert N.Write1(N.IntHost(value)) == PackUnsigned(value, 1) == Ok(LittleEndian(value, 1));
      assert Write1(value) == LittleEndian(value, 1);
    } else if value < 0 {
      var k := (-value + 255) / 256;
      assert 0 <= value + 256 * k < 256;
      assert value % 256 == value + 256 * k;
    }
  }

  /** A proto: equal to another, and hashed, by its shorty alone. The caller
      supplies the shorty; nothing in either copy computes it. */
  datatype DexProto = DexProto(shorty: string, returnType: N.Descriptor, parameters: seq<N.Descriptor>)
  {
    predicate Equals(other: DexProto)
    {
      shorty == other.shorty
    }
  }

  /** The shorty character of a type descriptor in the Dalvik Executable
      format: a reference type ('L' or '[') is 'L', a primitive keeps its letter. */
  function ShortyChar(d: N.Descriptor): char
  {
    if d[0] == '[' then 'L' else d[0]
  }

  /** The shorty descriptor of a return type and its parameters. */
  function ShortyOf(returnType: N.Descriptor, parameters: seq<N.Descriptor>): (r: string)
    ensures |r| == |parameters| + 1
  {
    [ShortyChar(returnType)] + seq(|parameters|, i requires 0 <= i < |parameters| => ShortyChar(parameters[i]))
  }

  /** A proto whose shorty is the one its types determine. */
  predicate ShortyConsistent(p: DexProto)
  {
    p.shorty == ShortyOf(p.returnType, p.parameters)
  }

  /** For protos with consistent shorties, legacy equality holds exactly when
      the return types and the parameters have the same shorty characters,
      position by position: the reference types are not compared. */
  lemma ProtoEqualsIffSameShape(a: DexProto, b: DexProto)
    requires ShortyConsistent(a) && ShortyConsistent(b)
    ensures a.Equals(b) <==>
      ShortyChar(a.returnType) == ShortyChar(b.returnType) &&
      |a.parameters| == |b.parameters| &&
      forall i | 0 <= i < |a.parameters| :: ShortyChar(a.parameters[i]) == ShortyChar(b.parameters[i])
  {
    if a.Equals(b) {
      assert |a.parameters| == |b.parameters|;
      forall i | 0 <= i < |a.parameters|
        ensures ShortyChar(a.parameters[i]) == ShortyChar(b.parameters[i])
      {
        assert a.shorty[i + 1] == ShortyChar(a.parameters[i]);
        assert b.shorty[i + 1] == ShortyChar(b.parameters[i]);
      }
      assert a.shorty[0] == ShortyChar(a.returnType);
    }
  }

  /** Protos the dexassist copy calls equal because they have the same return
      type and parameters are legacy-equal too, once their shorties are
      consistent. */
  lemma DexassistEqualIsLegacyEqual(a: DexProto, b: DexProto)
    requires ShortyConsistent(a) && ShortyConsistent(b)
    requires a.returnType == b.returnType && a.parameters == b.parameters
    ensures N.DexProto(a.shorty, a.returnType, a.parameters).Key() == N.DexProto(b.shorty, b.returnType, b.parameters).Key()
    ensures a.Equals(b)
  {
  }

  /** Two protos with the shorty "LL" but different reference types are one
      proto to the legacy copy and two to the dexassist copy, which keys
      return type and parameters. */
  lemma ProtoEqualityCoarser()
    ensures var a := DexProto("LL", "Ljava/lang/Object;", ["Ljava/lang/String;"]);
            var b := DexProto("LL", "Ljava/lang/String;", ["Ljava/lang/Object;"]);
            a.Equals(b) &&
            N.DexProto(a.shorty, "Ljava/lang/Object;", ["Ljava/lang/String;"]).Key() !=
            N.DexProto(b.shorty, "Ljava/lang/String;", ["Ljava/lang/Object;"]).Key()
  {
    var k1 := N.DexProto("LL", "Ljava/lang/Object;", ["Ljava/lang/String;"]).Key();
    var k2 := N.DexProto("LL", "Ljava/lang/String;", ["Ljava/lang/Object;"]).Key();
    assert k1[11] == 'O' && k2[11] == 'S';
  }

  /** Where the two inference functions part: a single character, an int in
      32768..65535 and a wrapped value. */
  lemma InferenceDifferences(s: string, i: int, inner: N.DexValue)
    ensures |s| == 1 ==>
      InferType(N.StrHost(s)) == Some(N.ValueChar) &&
      N.InferType(N.StrHost(s)).Ok? && N.InferType(N.StrHost(s)).value.0 == N.ValueString
    ensures 32768 <= i <= 0xffff ==>
      InferType(N.IntHost(i)) == Some(N.ValueShort) &&
      N.InferType(N.IntHost(i)).Ok? && N.InferType(N.IntHost(i)).value.0 == N.ValueInt
    ensures InferType(N.Wrapped(inner)) == None
  {
  }

  /** Everywhere else, the two copies infer the same type. */
  lemma InferenceAgreement(h: N.Host)
    requires !h.Wrapped? && !(h.StrHost? && |h.s| == 1) && !(h.IntHost? && 32768 <= h.i <= 0xffff)
    requires N.InferType(h).Ok?
    ensures InferType(h) == Some(N.InferType(h).value.0)
  {
  }
}
