/** Byte-level helpers of the item layer: the Adler-32 checksum of section 2.2
    of RFC 1950, the length and the bytes of the Dalvik "modified UTF-8"
    string encoding, the field and method partition of a class_data_item,
    and the instruction count of a try_item. */
module Item {
  import opened Wrappers
  import opened Bytes
  import opened Seqs
  import N = Normalize
  import Editor

  // ---------------------------------------------------------------------
  // Adler-32

  const ModAdler: nat := 65521

  function Sum(s: seq<nat>): nat
  {
    if |s| == 0 then 0 else Sum(s[..|s| - 1]) + s[|s| - 1]
  }

  /** The sum over every non-empty prefix of s of 1 plus the prefix's sum:
      B of section 2.2 of RFC 1950 before the reduction modulo 65521. */
  function PrefixSums(s: seq<nat>): nat
  {
    if |s| == 0 then 0 else PrefixSums(s[..|s| - 1]) + 1 + Sum(s)
  }

  /** The Adler-32 checksum by its definition: A = 1 + D1 + ... + Dn and
      B = (1 + D1) + (1 + D1 + D2) + ... + (1 + D1 + ... + Dn), both modulo
      65521, stored as B * 65536 + A. */
  function Adler32(s: seq<nat>): (r: nat)
    ensures r < 0x1_0000_0000
    ensures r % 65536 == (1 + Sum(s)) % ModAdler
    ensures r / 65536 == PrefixSums(s) % ModAdler
  {
    PrefixSums(s) % ModAdler * 65536 + (1 + Sum(s)) % ModAdler
  }

  lemma ModAddBoth(x: int, y: int)
    ensures (x % ModAdler + y % ModAdler) % ModAdler == (x + y) % ModAdler
  {
  }

  /** calc_adler32(data, length). data is the sequence of the ord values of
      its items; range(length) is empty for a negative length, and a length
      beyond the data raises IndexError. */
  method CalcAdler32(data: seq<nat>, length: int) returns (r: Result<nat>)
    ensures r.Ok? <==> length <= |data|
    ensures r.Ok? ==> r.value == Adler32(data[..if length < 0 then 0 else length])
    ensures r.Err? ==> r.error == IndexError
  {
    if length > |data| {
      return Err(IndexError);
    }
    var n := if length < 0 then 0 else length;
    var a: nat := 1;
    var b: nat := 0;
    var i := 0;
    while i < n
      invariant 0 <= i <= n
      invariant a == (1 + Sum(data[..i])) % ModAdler
      invariant b == PrefixSums(data[..i]) % ModAdler
    {
      AdlerStep(data, i);
      a := (a + data[i]) % ModAdler;
      b := (b + a) % ModAdler;
      i := i + 1;
    }
    return Ok(b * 65536 + a);
  }

  /** One turn of the loop of calc_adler32, on the running sums reduced
      modulo 65521. */
  lemma AdlerStep(data: seq<nat>, i: nat)
    requires i < |data|
    ensures (1 + Sum(data[..i + 1])) % ModAdler == ((1 + Sum(data[..i])) % ModAdler + data[i]) % ModAdler
    ensures PrefixSums(data[..i + 1]) % ModAdler
         == (PrefixSums(data[..i]) % ModAdler + (1 + Sum(data[..i + 1])) % ModAdler) % ModAdler
  {
    var p := data[..i + 1];
    assert p[..i] == data[..i];
    assert Sum(p) == Sum(data[..i]) + data[i];
    ModAddBoth(1 + Sum(data[..i]), data[i]);
    ModAddBoth(PrefixSums(data[..i]), 1 + Sum(p));
  }

  // ---------------------------------------------------------------------
  // Modified UTF-8

  /** The bytes one character takes: 1 for 1..127, 2 for 0 and 128..2047,
      3 otherwise. */
  function CharLength(ch: nat): (n: nat)
    ensures 1 <= n <= 3
  {
    if ch != 0 && ch <= 127 then 1 else if ch <= 2047 then 2 else 3
  }

  function Mutf8Length(s: seq<nat>): nat
  {
    if |s| == 0 then 0 else Mutf8Length(s[..|s| - 1]) + CharLength(s[|s| - 1])
  }

  lemma {:induction false} Mutf8LengthMonotone(s: seq<nat>, i: nat)
    requires i <= |s|
    ensures Mutf8Length(s[..i]) <= Mutf8Length(s)
    decreases |s|
  {
    if i < |s| {
      assert s[..|s| - 1][..i] == s[..i];
      Mutf8LengthMonotone(s[..|s| - 1], i);
    } else {
      assert s[..i] == s;
    }
  }

  /** The encoding of one character: a 1-byte form, the 2-byte form
      110xxxxx 10xxxxxx (which NUL takes too), and the 3-byte form
      1110xxxx 10xxxxxx 10xxxxxx. Bits above the 16th are dropped, as the
      source's (ch >> 12) & 15 does. */
  function CharBytes(ch: nat): (r: seq<byte>)
    ensures |r| == CharLength(ch)
  {
    if ch != 0 && ch <= 127 then [ch]
    else if ch <= 2047 then [ch / 64 % 32 + 192, ch % 64 + 128]
    else [ch / 4096 % 16 + 224, ch / 64 % 64 + 128, ch % 64 + 128]
  }

  /** The modified UTF-8 form of a sequence of characters. */
  function Mutf8(s: seq<nat>): (r: seq<byte>)
    ensures |r| == Mutf8Length(s)
  {
    if |s| == 0 then [] else Mutf8(s[..|s| - 1]) + CharBytes(s[|s| - 1])
  }

  /** NUL is written as the two bytes C0 80, so no encoded string holds a 0 byte. */
  lemma {:induction false} Mutf8HasNoZeroByte(s: seq<nat>)
    ensures CharBytes(0) == [0xC0, 0x80]
    ensures forall i | 0 <= i < |Mutf8(s)| :: Mutf8(s)[i] != 0
  {
    if |s| > 0 {
      Mutf8HasNoZeroByte(s[..|s| - 1]);
    }
  }

  /** count_bytes(value, is_short_length). With is_short_length set the
      counter stops advancing once the total passes 65535 and the loop never
      ends, so that case requires a total within 65535. */
  method CountBytes(value: seq<nat>, isShortLength: bool) returns (result: nat)
    requires isShortLength ==> Mutf8Length(value) <= 65535
    ensures result == Mutf8Length(value)
  {
    result := 0;
    var i := 0;
    while i < |value|
      invariant 0 <= i <= |value|
      invariant result == Mutf8Length(value[..i])
    {
      var ch := value[i];
      if ch != 0 && ch <= 127 {
        result := result + 1;
      } else if ch <= 2047 {
        result := result + 2;
      } else {
        result := result + 3;
      }
      assert value[..i + 1][..i] == value[..i];
      Mutf8LengthMonotone(value, i + 1);
      if !isShortLength || result <= 65535 {
        i := i + 1;
      }
    }
    assert value[..|value|] == value;
  }

  /** encode as its first line is written: count_bytes is called with one
      argument where it takes two, which raises TypeError on every string. */
  function EncodeAsWritten(value: seq<nat>): (r: Result<seq<byte>>)
    ensures r.Err? && r.error == TypeError
  {
    Err(TypeError)
  }

  /** The string "\0" has no encoding as written; the corrected encoder
      writes C0 80. */
  lemma EncodeAsWrittenRejectsNul()
    ensures EncodeAsWritten([0]).Err?
    ensures Mutf8([0]) == [0xC0, 0x80]
  {
    assert [0][..0] == [];
  }

  /** One iteration of encode's loop: the bytes of ch go to ret from
      offset2 on, and the new offset is returned. */
  method WriteChar(ret: array<byte>, offset2: nat, ch: nat) returns (offset: nat)
    requires offset2 + CharLength(ch) <= ret.Length
    modifies ret
    ensures offset == offset2 + CharLength(ch)
    ensures ret[..offset2] == old(ret[..offset2])
    ensures ret[offset2..offset] == CharBytes(ch)
    ensures ret[..offset] == old(ret[..offset2]) + CharBytes(ch)
  {
    var o2 := offset2;
    if ch != 0 && ch <= 127 {
      offset := o2 + 1;
      ret[o2] := ch;
    } else if ch <= 2047 {
      offset := o2 + 1;
      ret[o2] := ch / 64 % 32 + 192;
      o2 := offset + 1;
      ret[offset] := ch % 64 + 128;
      offset := o2;
    } else {
      offset := o2 + 1;
      ret[o2] := ch / 4096 % 16 + 224;
      o2 := offset + 1;
      ret[offset] := ch / 64 % 64 + 128;
      offset := o2 + 1;
      ret[o2] := ch % 64 + 128;
    }
  }

  /** The encoding grows by one character's bytes at a time. */
  lemma Mutf8Snoc(value: seq<nat>, i: nat)
    requires i < |value|
    ensures Mutf8(value[..i + 1]) == Mutf8(value[..i]) + CharBytes(value[i])
    ensures Mutf8Length(value[..i + 1]) == Mutf8Length(value[..i]) + CharLength(value[i])
  {
    assert value[..i + 1][..i] == value[..i];
  }

  /** encode with its buffer sized by count_bytes(value, False): the loop
      writes each character's bytes at the moving offset. */
  method Encode(value: seq<nat>) returns (ret: array<byte>)
    ensures ret[..] == Mutf8(value)
  {
    var size := CountBytes(value, false);
    ret := new byte[size];
    var i := 0;
    var offset2 := 0;
    while i < |value|
      invariant 0 <= i <= |value|
      invariant offset2 == Mutf8Length(value[..i]) <= ret.Length
      invariant ret.Length == Mutf8Length(value)
      invariant ret[..offset2] == Mutf8(value[..i])
    {
      var ch := value[i];
      Mutf8Snoc(value, i);
      Mutf8LengthMonotone(value, i + 1);
      var offset := WriteChar(ret, offset2, ch);
      i := i + 1;
      offset2 := offset;
    }
    assert value[..|value|] == value;
  }

  /** Reads one modified UTF-8 character from the front of b: the character
      and the bytes it took. */
  function ReadChar(b: seq<byte>): Option<(nat, nat)>
  {
    if |b| == 0 then None
    else if b[0] < 0x80 then Some((b[0], 1))
    else if 0xC0 <= b[0] < 0xE0 && |b| >= 2 && 0x80 <= b[1] < 0xC0 then
      Some(((b[0] as int - 0xC0) * 64 + (b[1] as int - 0x80), 2))
    else if 0xE0 <= b[0] < 0xF0 && |b| >= 3 && 0x80 <= b[1] < 0xC0 && 0x80 <= b[2] < 0xC0 then
      Some(((b[0] as int - 0xE0) * 4096 + (b[1] as int - 0x80) * 64 + (b[2] as int - 0x80), 3))
    else None
  }

  /** The decoder the encoding is read back with. */
  function DecodeMutf8(b: seq<byte>): (r: Option<seq<nat>>)
    ensures r.Some? ==> |r.value| <= |b|
    ensures r.Some? && |b| > 0 ==> |r.value| > 0
    decreases |b|
  {
    if |b| == 0 then Some([])
    else
      match ReadChar(b)
      case None => None
      case Some((ch, k)) =>
        if k > |b| || k == 0 then None
        else
          match DecodeMutf8(b[k..])
          case None => None
          case Some(rest) => Some([ch] + rest)
  }

  lemma ReadCharBytes(ch: nat, rest: seq<byte>)
    requires ch < 0x1_0000
    ensures ReadChar(CharBytes(ch) + rest) == Some((ch, |CharBytes(ch)|))
  {
    if ch != 0 && ch <= 127 {
    } else if ch <= 2047 {
      ReadTwoBytes(ch, rest);
    } else {
      ReadThreeBytes(ch, rest);
    }
  }

  lemma ReadTwoBytes(ch: nat, rest: seq<byte>)
    requires (ch == 0 || 128 <= ch) && ch <= 2047
    ensures ReadChar(CharBytes(ch) + rest) == Some((ch, 2))
  {
    var q, r := ch / 64, ch % 64;
    assert ch == 64 * q + r && q < 32;
    var b := CharBytes(ch) + rest;
    assert b[0] == q + 192 && b[1] == r + 128;
  }

  lemma ReadThreeBytes(ch: nat, rest: seq<byte>)
    requires 2048 <= ch < 0x1_0000
    ensures ReadChar(CharBytes(ch) + rest) == Some((ch, 3))
  {
    var h, q, r := ch / 4096, ch / 64, ch % 64;
    var m := q % 64;
    assert ch == 64 * q + r;
    assert q == 64 * (q / 64) + m;
    assert q / 64 == h;
    assert h < 16;
    var b := CharBytes(ch) + rest;
    assert b[0] == h + 224 && b[1] == m + 128 && b[2] == r + 128;
    assert ch == h * 4096 + m * 64 + r;
  }

  /** The front-first view of Mutf8 the decoder needs. */
  lemma {:induction false} Mutf8Cons(ch: nat, s: seq<nat>)
    ensures Mutf8([ch] + s) == CharBytes(ch) + Mutf8(s)
    decreases |s|
  {
    if |s| == 0 {
      assert ([ch] + s)[..0] == [];
    } else {
      var t := [ch] + s;
      assert t[..|t| - 1] == [ch] + s[..|s| - 1];
      Mutf8Cons(ch, s[..|s| - 1]);
    }
  }

  /** Every character below 0x10000 survives the encoding: decoding gives
      the string back. */
  lemma {:induction false} Mutf8RoundTrip(s: seq<nat>)
    requires forall i | 0 <= i < |s| :: s[i] < 0x1_0000
    ensures DecodeMutf8(Mutf8(s)) == Some(s)
    decreases |s|
  {
    if |s| > 0 {
      assert s == [s[0]] + s[1..];
      Mutf8Cons(s[0], s[1..]);
      ReadCharBytes(s[0], Mutf8(s[1..]));
      var b := Mutf8(s);
      assert b[|CharBytes(s[0])|..] == Mutf8(s[1..]);
      Mutf8RoundTrip(s[1..]);
    }
  }

  // ---------------------------------------------------------------------
  // class_data_item and try_item

  /** The field loop of ClassDataItem.__init__: static fields to one list,
      the rest to the other, each in list order. */
  method PartitionFields(fields: seq<N.DexField>) returns (sf: seq<N.DexField>, inf: seq<N.DexField>)
    ensures sf == Filter(fields, N.IsStaticField)
    ensures inf == Filter(fields, N.IsInstanceField)
  {
    sf, inf := [], [];
    var i := 0;
    while i < |fields|
      invariant 0 <= i <= |fields|
      invariant sf == Filter(fields[..i], N.IsStaticField)
      invariant inf == Filter(fields[..i], N.IsInstanceField)
    {
      var f := fields[i];
      ghost var sf0, inf0 := sf, inf;
      if f.IsStatic() {
        sf := sf + [f];
      } else {
        inf := inf + [f];
      }
      PartitionFieldsStep(fields, i, sf0, inf0, sf, inf);
      i := i + 1;
    }
    assert fields[..|fields|] == fields;
  }

  /** One turn of the field loop: the field goes to exactly one list. */
  lemma PartitionFieldsStep(fields: seq<N.DexField>, i: nat, sf0: seq<N.DexField>, inf0: seq<N.DexField>,
                            sf: seq<N.DexField>, inf: seq<N.DexField>)
    requires i < |fields|
    requires sf0 == Filter(fields[..i], N.IsStaticField) && inf0 == Filter(fields[..i], N.IsInstanceField)
    requires fields[i].IsStatic() ==> sf == sf0 + [fields[i]] && inf == inf0
    requires !fields[i].IsStatic() ==> sf == sf0 && inf == inf0 + [fields[i]]
    ensures sf == Filter(fields[..i + 1], N.IsStaticField)
    ensures inf == Filter(fields[..i + 1], N.IsInstanceField)
  {
    FilterSnoc(fields, i, N.IsStaticField);
    FilterSnoc(fields, i, N.IsInstanceField);
  }

  /** The four lists ClassDataItem.__init__ builds. */
  datatype ClassDataLists = ClassDataLists(
    staticFields: seq<N.DexField>, instanceFields: seq<N.DexField>,
    directMethods: seq<N.DexMethod>, virtualMethods: seq<N.DexMethod>)

  /** ClassDataItem.__init__ as written: the method loop calls m.is_virtual(),
      which DexMethod does not define, so the first method raises
      AttributeError; only a class without methods gets its lists. */
  function ClassDataAsWritten(fields: seq<N.DexField>, methods: seq<N.DexMethod>): (r: Result<ClassDataLists>)
    ensures r.Ok? <==> |methods| == 0
    ensures r.Err? ==> r.error == AttributeError
    ensures r.Ok? ==> r.value.directMethods == [] && r.value.virtualMethods == []
    ensures r.Ok? ==> r.value.staticFields == Filter(fields, N.IsStaticField)
    ensures r.Ok? ==> r.value.instanceFields == Filter(fields, N.IsInstanceField)
  {
    if |methods| > 0 then Err(AttributeError)
    else Ok(ClassDataLists(Filter(fields, N.IsStaticField), Filter(fields, N.IsInstanceField), [], []))
  }

  /** A class with a single method: as written no class_data_item is built,
      while the corrected partition puts the method in exactly one list. */
  lemma ClassDataAsWrittenRejectsMethod(fields: seq<N.DexField>, m: N.DexMethod)
    ensures ClassDataAsWritten(fields, [m]) == Err(AttributeError)
    ensures Filter([m], N.IsDirect) + Filter([m], N.IsVirtual) == [m]
  {
    FilterSingleton(m, N.IsDirect);
    FilterSingleton(m, N.IsVirtual);
  }

  /** The method loop of ClassDataItem.__init__, corrected: is_virtual, which
      DexMethod lacks, is read as the negation of is_direct_method, the
      predicate get_virtual_methods uses. */
  method PartitionMethods(methods: seq<N.DexMethod>) returns (dm: seq<N.DexMethod>, vm: seq<N.DexMethod>)
    ensures dm == Filter(methods, N.IsDirect)
    ensures vm == Filter(methods, N.IsVirtual)
  {
    dm, vm := [], [];
    var j := 0;
    while j < |methods|
      invariant 0 <= j <= |methods|
      invariant dm == Filter(methods[..j], N.IsDirect)
      invariant vm == Filter(methods[..j], N.IsVirtual)
    {
      var m := methods[j];
      ghost var dm0, vm0 := dm, vm;
      if !m.IsDirectMethod() {
        vm := vm + [m];
      } else {
        dm := dm + [m];
      }
      PartitionMethodsStep(methods, j, dm0, vm0, dm, vm);
      j := j + 1;
    }
    assert methods[..|methods|] == methods;
  }

  /** One turn of the method loop: the method goes to exactly one list. */
  lemma PartitionMethodsStep(methods: seq<N.DexMethod>, j: nat, dm0: seq<N.DexMethod>, vm0: seq<N.DexMethod>,
                             dm: seq<N.DexMethod>, vm: seq<N.DexMethod>)
    requires j < |methods|
    requires dm0 == Filter(methods[..j], N.IsDirect) && vm0 == Filter(methods[..j], N.IsVirtual)
    requires methods[j].IsDirectMethod() ==> dm == dm0 + [methods[j]] && vm == vm0
    requires !methods[j].IsDirectMethod() ==> dm == dm0 && vm == vm0 + [methods[j]]
    ensures dm == Filter(methods[..j + 1], N.IsDirect)
    ensures vm == Filter(methods[..j + 1], N.IsVirtual)
  {
    FilterSnoc(methods, j, N.IsDirect);
    FilterSnoc(methods, j, N.IsVirtual);
  }

  /** The member lists of a class_data_item and their sizes. */
  class ClassDataItem {
    var staticFields: seq<N.DexField>
    var instanceFields: seq<N.DexField>
    var directMethods: seq<N.DexMethod>
    var virtualMethods: seq<N.DexMethod>
    var staticFieldsSize: nat
    var instanceFieldsSize: nat
    var directMethodsSize: nat
    var virtualMethodsSize: nat

    constructor (clazz: N.DexClassItem)
      ensures staticFields == Filter(clazz.fields, N.IsStaticField)
      ensures instanceFields == Filter(clazz.fields, N.IsInstanceField)
      ensures directMethods == Filter(clazz.methods, N.IsDirect)
      ensures virtualMethods == Filter(clazz.methods, N.IsVirtual)
      ensures staticFieldsSize == |staticFields| && instanceFieldsSize == |instanceFields|
      ensures directMethodsSize == |directMethods| && virtualMethodsSize == |virtualMethods|
    {
      var sf, inf := PartitionFields(clazz.fields);
      var dm, vm := PartitionMethods(clazz.methods);
      staticFields := sf;
      instanceFields := inf;
      directMethods := dm;
      virtualMethods := vm;
      staticFieldsSize := |sf|;
      instanceFieldsSize := |inf|;
      directMethodsSize := |dm|;
      virtualMethodsSize := |vm|;
    }
  }

  /** The four lists of a class_data_item hold every field and every method
      of the class exactly once. */
  lemma ClassDataSizes(clazz: N.DexClassItem)
    ensures multiset(Filter(clazz.fields, N.IsStaticField)) + multiset(Filter(clazz.fields, N.IsInstanceField))
            == multiset(clazz.fields)
    ensures multiset(Filter(clazz.methods, N.IsDirect)) + multiset(Filter(clazz.methods, N.IsVirtual))
            == multiset(clazz.methods)
    ensures |Filter(clazz.fields, N.IsStaticField)| + |Filter(clazz.fields, N.IsInstanceField)| == |clazz.fields|
    ensures |Filter(clazz.methods, N.IsDirect)| + |Filter(clazz.methods, N.IsVirtual)| == |clazz.methods|
    ensures forall i | 0 <= i < |Filter(clazz.fields, N.IsStaticField)| ::
              Filter(clazz.fields, N.IsStaticField)[i].IsStatic()
    ensures forall i | 0 <= i < |Filter(clazz.fields, N.IsInstanceField)| ::
              !Filter(clazz.fields, N.IsInstanceField)[i].IsStatic()
  {
    FilterMembers(clazz.fields, N.IsStaticField);
    FilterMembers(clazz.fields, N.IsInstanceField);
    N.StaticInstancePartition(clazz);
    N.DirectVirtualPartition(clazz);
  }

  /** TryItem's ins_count: end - start + 1 instructions. */
  function InsCount(t: Editor.TryCatch<int>): (n: int)
    ensures t.start <= t.end ==> n >= 1
    ensures n == Editor.CodeCount(t)
  {
    t.end - t.start + 1
  }
}
