/** DexWriter, the part that lays out method bodies and classes: the
    code_item of a method (register counts, instructions, try items and the
    interned handler lists), the encoded_field and encoded_method lists of a
    class_data_item, and the class_def items in dependency order. Streams
    are byte sequences whose position is their length; pool sections are
    maps from an item's key to its index or offset. */
module Writer {
  import opened Wrappers
  import opened Bytes
  import opened Pools
  import opened Seqs
  import opened Normalize
  import opened Editor
  import opened Registers
  import opened Handlers
  import opened ClassData
  import opened ClassDefs

  /** The 16-byte head of a code_item: registers_size, ins_size, outs_size and
      tries_size as ushorts, debug_info_off and insns_size as uints, each
      packed in turn. */
  function CodeItemHeader(registers: int, ins: int, outs: int, tries: int, debug: int, insns: int): (r: Result<seq<byte>>)
    ensures r.Ok? <==> 0 <= registers < 0x1_0000 && 0 <= ins < 0x1_0000 && 0 <= outs < 0x1_0000
                       && 0 <= tries < 0x1_0000 && 0 <= debug < 0x1_0000_0000 && 0 <= insns < 0x1_0000_0000
    ensures r.Ok? ==> (|r.value| == 16
      && FromLittleEndian(r.value[0..2]) == registers && FromLittleEndian(r.value[2..4]) == ins
      && FromLittleEndian(r.value[4..6]) == outs && FromLittleEndian(r.value[6..8]) == tries
      && FromLittleEndian(r.value[8..12]) == debug && FromLittleEndian(r.value[12..16]) == insns)
  {
    assert Pow256(2) == 0x1_0000 && Pow256(4) == 0x1_0000_0000;
    var a :- PackUShort(registers);
    var b :- PackUShort(ins);
    var c :- PackUShort(outs);
    var d :- PackUShort(tries);
    var e :- PackUInt(debug);
    var f :- PackUInt(insns);
    var h := a + b + c + d + e + f;
    assert h[0..2] == a && h[2..4] == b && h[4..6] == c && h[6..8] == d && h[8..12] == e && h[12..16] == f;
    Ok(h)
  }

  /** A try_item: start_addr as a uint, insn_count and handler_off as ushorts. */
  function TryItemBytes(t: TryItem): (r: seq<byte>)
    ensures |r| == 8
    ensures t.startAddr < Pow256(4) && t.insnCount < Pow256(2) && t.handlerOff < Pow256(2) ==>
      FromLittleEndian(r[0..4]) == t.startAddr && FromLittleEndian(r[4..6]) == t.insnCount
      && FromLittleEndian(r[6..8]) == t.handlerOff
  {
    var a, b, c := LittleEndian(t.startAddr, 4), LittleEndian(t.insnCount, 2), LittleEndian(t.handlerOff, 2);
    assert (a + b + c)[0..4] == a && (a + b + c)[4..6] == b && (a + b + c)[6..8] == c;
    if t.startAddr < Pow256(4) && t.insnCount < Pow256(2) && t.handlerOff < Pow256(2) then
      LittleEndianRoundTrip(t.startAddr, 4);
      LittleEndianRoundTrip(t.insnCount, 2);
      LittleEndianRoundTrip(t.handlerOff, 2);
      a + b + c
    else a + b + c
  }

  /** The try part of a code_item: the try_items of the try pass, then its
      handler buffer. */
  function TriesBytes(tries: seq<TryCatch<int>>, codeUnits: nat, types: map<string, nat>): Result<seq<byte>>
  {
    var st :- TryFold(tries, |tries|, codeUnits, types);
    Ok(ConcatMap(st.items, TryItemBytes) + st.eh)
  }

  /** The bytes write_code_item appends to a code stream holding prefix: the
      stream is aligned, the header and the instructions follow, and when the
      method has try blocks the stream is aligned again for the try_items,
      after which the handler buffer is copied in. */
  function CodeItem(prefix: seq<byte>, registers: nat, ins: nat, outs: nat, tries: seq<TryCatch<int>>,
                    debug: nat, codeUnits: nat, insnBytes: seq<byte>, types: map<string, nat>): (r: Result<seq<byte>>)
    ensures r.Ok? <==> CodeItemHeader(registers, ins, outs, |tries|, debug, codeUnits).Ok?
                       && (|tries| > 0 ==> TriesBytes(tries, codeUnits, types).Ok?)
    ensures r.Ok? ==> var a := Align4(prefix);
      && |a| % 4 == 0 && |r.value| >= |a| + 16 + |insnBytes|
      && r.value[..|a|] == a
      && r.value[|a|..|a| + 16] == CodeItemHeader(registers, ins, outs, |tries|, debug, codeUnits).value
      && r.value[|a| + 16..|a| + 16 + |insnBytes|] == insnBytes
    ensures r.Ok? && |tries| > 0 ==> var body := Align4(prefix) + r.value[|Align4(prefix)|..|Align4(prefix)| + 16] + insnBytes;
      r.value == Align4(body) + TriesBytes(tries, codeUnits, types).value
  {
    var header :- CodeItemHeader(registers, ins, outs, |tries|, debug, codeUnits);
    var a := Align4(prefix);
    var body := a + header + insnBytes;
    if |tries| == 0 then
      ThreeParts(a, header, insnBytes, body);
      Ok(body)
    else
      var t :- TriesBytes(tries, codeUnits, types);
      var item := Align4(body) + t;
      assert body <= item by { assert Align4(body)[..|body|] == body; }
      ThreeParts(a, header, insnBytes, item);
      Ok(item)
  }

  /** CodeItem case by case: the header's error, the body alone, the try
      pass's error, or the body with the try_items and handler buffer. */
  lemma CodeItemCases(prefix: seq<byte>, registers: nat, ins: nat, outs: nat, tries: seq<TryCatch<int>>,
                      debug: nat, codeUnits: nat, insnBytes: seq<byte>, types: map<string, nat>, header: Result<seq<byte>>)
    requires header == CodeItemHeader(registers, ins, outs, |tries|, debug, codeUnits)
    ensures var item := CodeItem(prefix, registers, ins, outs, tries, debug, codeUnits, insnBytes, types);
      && (header.Err? ==> item == Err(header.error))
      && (header.Ok? && |tries| == 0 ==> item == Ok(Align4(prefix) + header.value + insnBytes))
      && (header.Ok? && |tries| > 0 ==>
            var t := TriesBytes(tries, codeUnits, types);
            && (t.Err? ==> item == Err(t.error))
            && (t.Ok? ==> item == Ok(Align4(Align4(prefix) + header.value + insnBytes) + t.value)))
  {
  }

  /** One turn of the encoded-list loop: the entry for member i joins the
      finished ones, and their bytes grow by its bytes. */
  lemma EncodeLoopStep(prev: int, ms: seq<Member>, i: nat, pool: map<string, nat>, done: seq<Entry>, index: nat)
    requires i < |ms| && ms[i].key in pool && index == pool[ms[i].key] && index - prev >= 0
    ensures var e := Entry(index - prev, ms[i].accessFlags, ms[i].code);
      && Prepend(done, EncodeFrom(prev, ms[i..], pool)) == Prepend(done + [e], EncodeFrom(index, ms[i + 1..], pool))
      && EntriesBytes(done + [e]) == EntriesBytes(done) + EntryBytes(e)
  {
    EncodeStep(prev, ms, i, pool, done, index);
    ConcatMapAppend(done, Entry(index - prev, ms[i].accessFlags, ms[i].code), EntryBytes);
  }

  /** EncodedMembers list by list: the first list that fails decides. */
  lemma EncodedMembersSteps(l: Lists, p: Pools, sfm: seq<Member>, ifm: seq<Member>, dmm: seq<Member>, vmm: seq<Member>)
    ensures var a := EncodeFrom(0, sfm, p.fields);
      var b := EncodeFrom(0, ifm, p.fields);
      var c := EncodeFrom(0, dmm, p.methods);
      var d := EncodeFrom(0, vmm, p.methods);
      EncodedMembers(l, p, sfm, ifm, dmm, vmm) ==
        if a.Err? then Err(a.error) else if b.Err? then Err(b.error)
        else if c.Err? then Err(c.error) else if d.Err? then Err(d.error)
        else Ok(ClassDataBytes(l, a.value, b.value, c.value, d.value))
  {
  }

  /** The class_data_item appended piece by piece is appended whole. */
  lemma ClassDataAppend(s: seq<byte>, l: Lists, sf: seq<Entry>, inf: seq<Entry>, dm: seq<Entry>, vm: seq<Entry>)
    ensures s + (ULeb128(|l.staticFields|) + ULeb128(|l.instanceFields|) + ULeb128(|l.directMethods|) + ULeb128(|l.virtualMethods|))
            + EntriesBytes(sf) + EntriesBytes(inf) + EntriesBytes(dm) + EntriesBytes(vm)
            == s + ClassDataBytes(l, sf, inf, dm, vm)
  {
    var h := ULeb128(|l.staticFields|) + ULeb128(|l.instanceFields|) + ULeb128(|l.directMethods|) + ULeb128(|l.virtualMethods|);
    var x1, x2, x3, x4 := EntriesBytes(sf), EntriesBytes(inf), EntriesBytes(dm), EntriesBytes(vm);
    AppendAssoc(s, h, x1);
    AppendAssoc(s, h + x1, x2);
    AppendAssoc(s, h + x1 + x2, x3);
    AppendAssoc(s, h + x1 + x2 + x3, x4);
  }

  /** A member missing from the pool, or with a negative delta, stops the list. */
  lemma EncodeFails(prev: int, ms: seq<Member>, i: nat, pool: map<string, nat>, done: seq<Entry>)
    requires i < |ms| && (ms[i].key in pool ==> pool[ms[i].key] - prev < 0)
    ensures Prepend(done, EncodeFrom(prev, ms[i..], pool))
         == Err(if ms[i].key in pool then NegativeLeb128 else DanglingReference)
  {
    assert ms[i..][0] == ms[i];
  }

  lemma EncodeStep(prev: int, ms: seq<Member>, i: nat, pool: map<string, nat>, done: seq<Entry>, index: nat)
    requires i < |ms| && ms[i].key in pool && index == pool[ms[i].key] && index - prev >= 0
    ensures Prepend(done, EncodeFrom(prev, ms[i..], pool)) ==
            Prepend(done + [Entry(index - prev, ms[i].accessFlags, ms[i].code)], EncodeFrom(index, ms[i + 1..], pool))
  {
    var e := Entry(index - prev, ms[i].accessFlags, ms[i].code);
    assert ms[i..][1..] == ms[i + 1..];
    var rest := EncodeFrom(index, ms[i + 1..], pool);
    assert EncodeFrom(prev, ms[i..], pool) == Prepend([e], rest);
    if rest.Ok? {
      assert done + ([e] + rest.value) == done + [e] + rest.value;
    }
  }

  /** The handler_map loop: every try block's key mapped to 0. */
  method BuildHandlerMap(tryBlocks: seq<TryCatch<int>>) returns (handlerMap: map<TryKey, nat>)
    ensures handlerMap == Initial(tryBlocks).handlerMap
  {
    handlerMap := map[];
    var i := 0;
    while i < |tryBlocks|
      invariant 0 <= i <= |tryBlocks|
      invariant handlerMap.Keys == set j | 0 <= j < i :: tryBlocks[j].Key()
      invariant forall k | k in handlerMap :: handlerMap[k] == 0
    {
      var key := tryBlocks[i].Key();
      handlerMap := handlerMap[key := 0];
      i := i + 1;
    }
    assert handlerMap.Keys == KeySet(tryBlocks);
  }

  class DexWriter {
    /** The string, type, proto, field and method sections. */
    const pools: Pools
    /** The type-list section: a list of type names to its offset. */
    const typeListOffsets: map<seq<string>, nat>
    /** The encoded-array section: a static-value list to its offset. */
    const encodedArrayOffsets: map<seq<DexValue>, nat>

    /** The code stream of write_code_item. */
    var code: seq<byte>
    var numCodeItemItems: nat
    /** index_writer and offset_writer of build_dex, over the file so far. */
    var indexStream: seq<byte>
    var offsetStream: seq<byte>
    var numClassDataItems: nat
    var classIndexSectionOffset: nat
    var classDataSectionOffset: nat
    /** The classes given an index by write_class, in index order. */
    ghost var written: seq<DexClassItem>
    /** The classes whose write_class call is still running. */
    ghost var visiting: set<DexClassItem>
    /** What write_class appended for each class written, in index order. */
    ghost var log: seq<ClassWrite>

    constructor (pools: Pools, typeListOffsets: map<seq<string>, nat>, encodedArrayOffsets: map<seq<DexValue>, nat>,
                 indexStream: seq<byte>, offsetStream: seq<byte>)
      ensures this.pools == pools && this.typeListOffsets == typeListOffsets
      ensures this.encodedArrayOffsets == encodedArrayOffsets
      ensures this.indexStream == indexStream && this.offsetStream == offsetStream
      ensures code == [] && numCodeItemItems == 0 && numClassDataItems == 0
      ensures classIndexSectionOffset == 0 && classDataSectionOffset == 0
      ensures written == [] && visiting == {} && log == []
    {
      this.pools := pools;
      this.typeListOffsets := typeListOffsets;
      this.encodedArrayOffsets := encodedArrayOffsets;
      this.indexStream := indexStream;
      this.offsetStream := offsetStream;
      code := [];
      numCodeItemItems := 0;
      numClassDataItems := 0;
      classIndexSectionOffset := 0;
      classDataSectionOffset := 0;
      written := [];
      visiting := {};
      log := [];
    }

    /** write_code_item. A method without instructions and without debug
        info gets no code_item (-1); otherwise the register count is raised
        to the parameter registers and, past five, to the outgoing ones, and
        the code_item is appended at the next 4-aligned position, which is
        returned. The count and the register count change before any check
        can fail, so they change on the error paths too. The handler buffer
        starts empty for each method. */
    method WriteCodeItem(m: DexMethod, tryBlocks: seq<TryCatch<int>>, instructions: Option<seq<Insn>>,
                         debugItemOffset: nat, insnBytes: seq<byte>) returns (r: Result<int>)
      modifies this, m
      ensures debugItemOffset == 0 && (instructions.None? || |instructions.value| == 0) ==>
        r == Ok(-1) && code == old(code) && numCodeItemItems == old(numCodeItemItems) && m.registerCount == old(m.registerCount)
      ensures instructions.None? && debugItemOffset != 0 ==>
        r == Err(TypeError) && numCodeItemItems == old(numCodeItemItems) && m.registerCount == old(m.registerCount)
      ensures instructions.Some? && (|instructions.value| > 0 || debugItemOffset != 0) ==>
        var ins := instructions.value;
        var paramRegs := ParameterRegisters(m.params, m.IsStatic());
        var registers := FinalRegisterCount(old(m.registerCount), paramRegs, Outs(ins));
        var item := CodeItem(old(code), registers, paramRegs, Outs(ins), tryBlocks, debugItemOffset,
                             TotalWidth(ins), insnBytes, pools.types);
        numCodeItemItems == old(numCodeItemItems) + 1 && m.registerCount == registers &&
        (r.Ok? <==> item.Ok?) &&
        (r.Ok? ==> r.value == |Align4(old(code))| && code == item.value)
      ensures r.Err? ==> old(code) <= code
      ensures m.codeItemOffset == old(m.codeItemOffset)
      ensures indexStream == old(indexStream) && offsetStream == old(offsetStream)
      ensures numClassDataItems == old(numClassDataItems)
      ensures classIndexSectionOffset == old(classIndexSectionOffset) && classDataSectionOffset == old(classDataSectionOffset)
      ensures written == old(written) && visiting == old(visiting) && log == old(log)
    {
      if instructions.None? && debugItemOffset == 0 {
        return Ok(-1);
      }
      if instructions.None? {
        // len(None)
        return Err(TypeError);
      }
      var ins := instructions.value;
      if |ins| == 0 && debugItemOffset == 0 {
        return Ok(-1);
      }
      var registers, paramRegs, codeUnitCount, outParamCount := CountRegisters(m.params, m.IsStatic(), m.registerCount, ins);
      var offset := |Align4(code)|;
      var buf := EncodeCodeItem(code, registers, paramRegs, outParamCount, tryBlocks, debugItemOffset,
                                codeUnitCount, insnBytes, pools.types);
      numCodeItemItems := numCodeItemItems + 1;
      m.registerCount := registers;
      if buf.Err? {
        return Err(buf.error);
      }
      code := buf.value;
      r := Ok(offset);
    }

    /** The classes of u whose index is still NO_INDEX. */
    ghost function Unvisited(u: set<DexClassItem>): set<DexClassItem>
      reads u`index
    {
      set c | c in u && c.index == NoIndex
    }

    /** What write_class keeps between calls: a class has an index exactly
        when its call is running or it was written; the i-th class written
        has index i; and each dependency of a written class was written too
        or has its call still running. */
    ghost predicate Consistent(u: set<DexClassItem>)
      reads this`written, this`visiting, u`index
    {
      && visiting <= u
      && (forall i | 0 <= i < |written| :: written[i] in u && written[i].index == i && written[i] !in visiting)
      && (forall c | c in u :: c.index != NoIndex <==> (c in visiting || c in written))
      && Covered(written, visiting)
    }

    /** Every class written comes after the classes of the dex it depends on. */
    ghost predicate Ordered()
      reads this`written
    {
      OrderedSeq(written)
    }

    /** The log has one entry per class written, in the same order. */
    ghost predicate Logged()
      reads this`written, this`log
    {
      Classes(log) == written
    }

    /** What the interface loop keeps from its start, when the running
        calls were v0, w0 had been written with log l0, the streams and the
        class data count stood at i0, o0 and n0, and u0 had no index: the
        bookkeeping stays consistent, the running calls are the same, the
        classes written and the log only grow, and the streams grew by
        exactly the logged items. */
    ghost predicate Kept(u: set<DexClassItem>, rank: map<DexClassItem, nat>, w0: seq<DexClassItem>, v0: set<DexClassItem>,
                         l0: seq<ClassWrite>, i0: seq<byte>, o0: seq<byte>, n0: nat, u0: set<DexClassItem>)
      reads this`written, this`visiting, this`log, this`indexStream, this`offsetStream, this`numClassDataItems, u`index
    {
      && Consistent(u) && visiting == v0 && (Ranked(u, rank) ==> Ordered())
      && w0 <= written && Logged() && l0 <= log
      && Appended(log[|l0|..], i0, indexStream, o0, offsetStream, n0, numClassDataItems)
      && Unvisited(u) <= u0
    }

    /** An entry of the log holds the class_def_item and class_data_item that
        ClassDef builds for its class with the class data at its position. */
    ghost predicate Faithful(e: ClassWrite)
      reads e.cls`methods, e.cls`fields, (set m | m in e.cls.methods)`codeItemOffset
    {
      ClassDef(e.cls, pools, typeListOffsets, encodedArrayOffsets, e.dataPos) == Ok((e.def, e.data))
    }

    /** Each class is written at most once. */
    lemma WrittenOnce(u: set<DexClassItem>)
      requires Consistent(u)
      ensures forall i, j | 0 <= i < j < |written| :: written[i] != written[j]
    {
    }

    /** In an ordered list, a class's superclass and interfaces of the dex
        precede it. */
    lemma DependenciesFirst(u: set<DexClassItem>)
      requires Consistent(u) && Ordered()
      ensures forall i, j | 0 <= i < |written| && 0 <= j < |written| && written[j] in Deps(written[i]) :: j < i
    {
      forall i, j | 0 <= i < |written| && 0 <= j < |written| && written[j] in Deps(written[i])
        ensures j < i
      {
        assert written[j] in written[..i];
        var k :| 0 <= k < i && written[..i][k] == written[j];
        assert written[k].index == k;
      }
    }

    /** write_class: a class of the dex not yet written gets a provisional
        index, its superclass and then each interface are written, and it
        takes the next index and writes its class_def_item. None (a class
        outside the dex), a type name and a class that already has an index
        leave everything as it is. With a rank that drops towards
        dependencies, the classes written stay in dependency order. */
    method WriteClass(index: nat, ref: ClassRef, ghost u: set<DexClassItem>, ghost rank: map<DexClassItem, nat>)
      returns (r: Result<nat>)
      requires Closed(u) && Consistent(u) && Logged() && index == |written|
      requires ref.Internal? ==> ref.item in u
      requires Ranked(u, rank) && ref.Internal? ==> forall v | v in visiting :: rank[ref.item] < rank[v]
      requires Ranked(u, rank) ==> Ordered()
      modifies this`indexStream, this`offsetStream, this`numClassDataItems, this`written, this`visiting, this`log, u`index
      decreases Unvisited(u), 4
      ensures r.Ok? ==> Consistent(u) && visiting == old(visiting) && (Ranked(u, rank) ==> Ordered())
      ensures r.Ok? ==> old(written) <= written && r.value == |written|
      ensures r.Ok? ==> Logged() && old(log) <= log
      ensures r.Ok? ==> Appended(log[|old(log)|..], old(indexStream), indexStream, old(offsetStream), offsetStream,
                                 old(numClassDataItems), numClassDataItems)
      ensures r.Ok? && ref.Internal? ==> ref.item in written || ref.item in visiting
      ensures r.Ok? ==> Unvisited(u) <= old(Unvisited(u))
      ensures !ref.Internal? || old(ref.item.index) != NoIndex ==>
        r == Ok(index) && written == old(written) && log == old(log) &&
        indexStream == old(indexStream) && offsetStream == old(offsetStream) && numClassDataItems == old(numClassDataItems)
      ensures r.Ok? && ref.Internal? && old(ref.item.index) == NoIndex ==>
        |written| > |old(written)| && written[|written| - 1] == ref.item
    {
      if !ref.Internal? || ref.item.index != NoIndex {
        // None is a class outside the dex; a type name has an index method,
        // never NO_INDEX
        assert log[|log|..] == [];
        AppendedNil(indexStream, offsetStream, numClassDataItems);
        return Ok(index);
      }
      var c := ref.item;
      r := WriteFreshClass(c, index, u, rank);
    }

    /** write_class for a class of the dex that has no index yet. */
    method WriteFreshClass(c: DexClassItem, index: nat, ghost u: set<DexClassItem>, ghost rank: map<DexClassItem, nat>)
      returns (r: Result<nat>)
      requires Closed(u) && Consistent(u) && Logged() && index == |written| && c in u && c.index == NoIndex
      requires Ranked(u, rank) ==> Ordered() && forall v | v in visiting :: rank[c] < rank[v]
      modifies this`indexStream, this`offsetStream, this`numClassDataItems, this`written, this`visiting, this`log, u`index
      decreases Unvisited(u), 3
      ensures r.Ok? ==> Consistent(u) && visiting == old(visiting) && (Ranked(u, rank) ==> Ordered())
      ensures r.Ok? ==> old(written) <= written && r.value == |written|
      ensures r.Ok? ==> Logged() && old(log) <= log
      ensures r.Ok? ==> Appended(log[|old(log)|..], old(indexStream), indexStream, old(offsetStream), offsetStream,
                                 old(numClassDataItems), numClassDataItems)
      ensures r.Ok? ==> Unvisited(u) <= old(Unvisited(u))
      ensures r.Ok? ==> |written| > |old(written)| && written[|written| - 1] == c
    {
      ghost var before := visiting;
      Enter(c, u);
      var i :- VisitDependencies(c, index, u, rank);
      r := Complete(c, i, u, rank, old(log), old(indexStream), old(offsetStream), old(numClassDataItems));
      assert visiting == before by {
        assert before + {c} - {c} == before;
      }
    }

    /** The end of write_class once the superclass and interfaces of c are
        settled, with l0, i0, o0 and n0 the log, the streams and the class
        data count at the start of its call. */
    method Complete(c: DexClassItem, i: nat, ghost u: set<DexClassItem>, ghost rank: map<DexClassItem, nat>,
                    ghost l0: seq<ClassWrite>, ghost i0: seq<byte>, ghost o0: seq<byte>, ghost n0: nat)
      returns (r: Result<nat>)
      requires Consistent(u) && Logged() && c in u && c in visiting && i == |written| && l0 <= log
      requires Appended(log[|l0|..], i0, indexStream, o0, offsetStream, n0, numClassDataItems)
      requires c.superclass.Internal? ==> c.superclass.item in written || c.superclass.item in visiting
      requires Settled(c.interfaces, written, visiting)
      requires Ranked(u, rank) ==> Ordered() && forall v | v in visiting - {c} :: rank[c] < rank[v]
      modifies this`indexStream, this`offsetStream, this`numClassDataItems, this`written, this`visiting, this`log, c`index
      ensures written == old(written) + [c] && visiting == old(visiting) - {c} && c.index == i
      ensures r.Ok? ==> r.value == |written| && Consistent(u) && (Ranked(u, rank) ==> Ordered())
      ensures r.Ok? ==> Logged() && l0 <= log
      ensures r.Ok? ==> Appended(log[|l0|..], i0, indexStream, o0, offsetStream, n0, numClassDataItems)
    {
      ghost var l1, i1, o1, n1 := log, indexStream, offsetStream, numClassDataItems;
      ghost var deps := l1[|l0|..];
      DependenciesSettled(u, rank, c);
      r := FinishClass(c, i, u, rank);
      if r.Ok? {
        ExtendSplit(l1, log, |l0|);
        AppendedTrans(deps, log[|l1|..], i0, i1, indexStream, o0, o1, offsetStream, n0, n1, numClassDataItems);
      }
    }

    /** The start of write_class for a class of the dex without an index:
        index 0 marks its call as running. */
    method Enter(c: DexClassItem, ghost u: set<DexClassItem>)
      requires Consistent(u) && c in u && c.index == NoIndex
      modifies c`index, this`visiting
      ensures c.index == 0 && visiting == old(visiting) + {c} && c !in old(visiting)
      ensures Consistent(u) && Unvisited(u) + {c} == old(Unvisited(u))
    {
      c.index := 0;
      visiting := visiting + {c};
      assert Unvisited(u) + {c} == old(Unvisited(u));
    }

    /** The middle of write_class: the superclass of c, then each of its
        interfaces in order, through write_class. */
    method VisitDependencies(c: DexClassItem, index: nat, ghost u: set<DexClassItem>, ghost rank: map<DexClassItem, nat>)
      returns (r: Result<nat>)
      requires Closed(u) && Consistent(u) && Logged() && index == |written| && c in u && c in visiting
      requires Ranked(u, rank) ==> Ordered() && forall v | v in visiting - {c} :: rank[c] < rank[v]
      modifies this`indexStream, this`offsetStream, this`numClassDataItems, this`written, this`visiting, this`log, u`index
      decreases Unvisited(u) + {c}, 2
      ensures r.Ok? ==> Consistent(u) && visiting == old(visiting) && (Ranked(u, rank) ==> Ordered())
      ensures r.Ok? ==> old(written) <= written && r.value == |written|
      ensures r.Ok? ==> Logged() && old(log) <= log
      ensures r.Ok? ==> Appended(log[|old(log)|..], old(indexStream), indexStream, old(offsetStream), offsetStream,
                                 old(numClassDataItems), numClassDataItems)
      ensures r.Ok? ==> Unvisited(u) <= old(Unvisited(u))
      ensures r.Ok? ==> c.superclass.Internal? ==> c.superclass.item in written || c.superclass.item in visiting
      ensures r.Ok? ==> Settled(c.interfaces, written, visiting)
    {
      var i :- WriteClass(index, c.superclass, u, rank);
      ghost var w := written;
      ghost var l1, i1, o1, n1 := log, indexStream, offsetStream, numClassDataItems;
      ghost var sup := l1[|old(log)|..];
      r := VisitInterfaces(c, i, u, rank);
      if r.Ok? {
        assert c.superclass.Internal? && c.superclass.item in w ==> c.superclass.item in written;
        ExtendSplit(l1, log, |old(log)|);
        AppendedTrans(sup, log[|l1|..], old(indexStream), i1, indexStream,
                      old(offsetStream), o1, offsetStream, old(numClassDataItems), n1, numClassDataItems);
      }
    }

    /** The interfaces of c in order, through write_class. */
    method VisitInterfaces(c: DexClassItem, index: nat, ghost u: set<DexClassItem>, ghost rank: map<DexClassItem, nat>)
      returns (r: Result<nat>)
      requires Closed(u) && Consistent(u) && Logged() && index == |written| && c in u && c in visiting
      requires Ranked(u, rank) ==> Ordered() && forall v | v in visiting - {c} :: rank[c] < rank[v]
      modifies this`indexStream, this`offsetStream, this`numClassDataItems, this`written, this`visiting, this`log, u`index
      decreases Unvisited(u) + {c}, 1
      ensures r.Ok? ==> Consistent(u) && visiting == old(visiting) && (Ranked(u, rank) ==> Ordered())
      ensures r.Ok? ==> old(written) <= written && r.value == |written|
      ensures r.Ok? ==> Logged() && old(log) <= log
      ensures r.Ok? ==> Appended(log[|old(log)|..], old(indexStream), indexStream, old(offsetStream), offsetStream,
                                 old(numClassDataItems), numClassDataItems)
      ensures r.Ok? ==> Unvisited(u) <= old(Unvisited(u))
      ensures r.Ok? ==> Settled(c.interfaces, written, visiting)
    {
      var i := index;
      var k := 0;
      assert log[|log|..] == [];
      AppendedNil(indexStream, offsetStream, numClassDataItems);
      while k < |c.interfaces|
        invariant 0 <= k <= |c.interfaces|
        invariant Kept(u, rank, old(written), old(visiting), old(log), old(indexStream), old(offsetStream),
                       old(numClassDataItems), old(Unvisited(u)))
        invariant i == |written| && Settled(c.interfaces[..k], written, visiting)
      {
        i :- VisitInterface(c, k, i, u, rank, old(written), old(visiting), old(log), old(indexStream),
                            old(offsetStream), old(numClassDataItems), old(Unvisited(u)));
        k := k + 1;
      }
      assert c.interfaces[..k] == c.interfaces;
      r := Ok(i);
    }

    /** One turn of the interface loop: interface k of c through
        write_class, with w0, v0, l0, i0, o0, n0 and u0 the state at the
        start of the loop. */
    method VisitInterface(c: DexClassItem, k: nat, i: nat, ghost u: set<DexClassItem>, ghost rank: map<DexClassItem, nat>,
                          ghost w0: seq<DexClassItem>, ghost v0: set<DexClassItem>, ghost l0: seq<ClassWrite>,
                          ghost i0: seq<byte>, ghost o0: seq<byte>, ghost n0: nat, ghost u0: set<DexClassItem>)
      returns (r: Result<nat>)
      requires Closed(u) && c in u && c in visiting && k < |c.interfaces|
      requires Kept(u, rank, w0, v0, l0, i0, o0, n0, u0) && i == |written|
      requires Ranked(u, rank) ==> forall v | v in visiting - {c} :: rank[c] < rank[v]
      requires Settled(c.interfaces[..k], written, visiting)
      modifies this`indexStream, this`offsetStream, this`numClassDataItems, this`written, this`visiting, this`log, u`index
      decreases Unvisited(u) + {c}, 0
      ensures r.Ok? ==> Kept(u, rank, w0, v0, l0, i0, o0, n0, u0) && r.value == |written|
      ensures r.Ok? ==> Settled(c.interfaces[..k + 1], written, visiting)
    {
      ghost var w := written;
      ghost var l1, i1, o1, n1 := log, indexStream, offsetStream, numClassDataItems;
      ghost var done := l1[|l0|..];
      assert c.interfaces[k].Internal? ==> c.interfaces[k].item in Deps(c);
      r := WriteClass(i, c.interfaces[k], u, rank);
      if r.Ok? {
        SettledStep(c.interfaces, k, w, written, visiting);
        ExtendSplit(l1, log, |l0|);
        AppendedTrans(done, log[|l1|..], i0, i1, indexStream, o0, o1, offsetStream, n0, n1, numClassDataItems);
      }
    }

    /** The end of write_class for a class whose superclass and interfaces
        are settled: it takes index i, leaves the running calls, and its
        class_def_item and class_data_item are written. */
    method FinishClass(c: DexClassItem, i: nat, ghost u: set<DexClassItem>, ghost rank: map<DexClassItem, nat>)
      returns (r: Result<nat>)
      requires Consistent(u) && Logged() && c in visiting && i == |written|
      requires forall d | d in Deps(c) :: d in written || d in visiting
      requires Ranked(u, rank) ==> Ordered() && forall d | d in Deps(c) :: d in written
      modifies this`indexStream, this`offsetStream, this`numClassDataItems, this`written, this`visiting, this`log, c`index
      ensures written == old(written) + [c] && visiting == old(visiting) - {c} && c.index == i
      ensures r.Ok? ==> r.value == i + 1 && Consistent(u) && (Ranked(u, rank) ==> Ordered())
      ensures r.Ok? ==> |log| == |old(log)| + 1 && log[..|old(log)|] == old(log) && Logged()
      ensures r.Ok? ==> Appended(log[|old(log)|..], old(indexStream), indexStream, old(offsetStream), offsetStream,
                                 old(numClassDataItems), numClassDataItems)
      ensures r.Ok? ==> var e := log[|log| - 1];
        && e.cls == c && e.dataPos == |old(offsetStream)| && Faithful(e) && |e.def| == 32
        && indexStream == old(indexStream) + e.def && offsetStream == old(offsetStream) + e.data
        && numClassDataItems == old(numClassDataItems) + (if |e.data| > 0 then 1 else 0)
    {
      TakeIndex(c, i, u, rank);
      ghost var ok := Consistent(u) && (Ranked(u, rank) ==> Ordered());
      var d := WriteLogged(c);
      assert ok == (Consistent(u) && (Ranked(u, rank) ==> Ordered()));
      if d.Err? {
        return Err(d.error);
      }
      r := Ok(i + 1);
    }

    /** The class_def_item and class_data_item of c written, and logged. */
    method WriteLogged(c: DexClassItem) returns (r: Result<(seq<byte>, seq<byte>)>)
      requires Classes(log) + [c] == written
      modifies this`indexStream, this`offsetStream, this`numClassDataItems, this`log
      ensures r == old(ClassDef(c, pools, typeListOffsets, encodedArrayOffsets, |offsetStream|))
      ensures r.Ok? ==> indexStream == old(indexStream) + r.value.0 && offsetStream == old(offsetStream) + r.value.1
      ensures r.Ok? ==> numClassDataItems == old(numClassDataItems) + (if |r.value.1| > 0 then 1 else 0)
      ensures r.Ok? ==> log == old(log) + [ClassWrite(c, |old(offsetStream)|, r.value.0, r.value.1)]
      ensures r.Ok? ==> |log| == |old(log)| + 1 && log[..|old(log)|] == old(log) && Logged()
      ensures r.Ok? ==> Appended(log[|old(log)|..], old(indexStream), indexStream, old(offsetStream), offsetStream,
                                 old(numClassDataItems), numClassDataItems)
      ensures r.Ok? ==> var e := log[|log| - 1];
        && e.cls == c && e.dataPos == |old(offsetStream)| && Faithful(e) && |e.def| == 32
        && indexStream == old(indexStream) + e.def && offsetStream == old(offsetStream) + e.data
        && numClassDataItems == old(numClassDataItems) + (if |e.data| > 0 then 1 else 0)
    {
      ghost var pos := |offsetStream|;
      AppendedNil(indexStream, offsetStream, numClassDataItems);
      r := WriteClassDef(c);
      if r.Ok? {
        ghost var e := ClassWrite(c, pos, r.value.0, r.value.1);
        ClassesSnoc(log, e);
        AppendedSnoc([], old(indexStream), old(indexStream), old(offsetStream), old(offsetStream),
                     old(numClassDataItems), old(numClassDataItems), e);
        log := log + [e];
        assert log[|old(log)|..] == [] + [e];
      }
    }

    /** c takes index i and leaves the running calls; the bookkeeping stays
        consistent and, under a rank, ordered. */
    method TakeIndex(c: DexClassItem, i: nat, ghost u: set<DexClassItem>, ghost rank: map<DexClassItem, nat>)
      requires Consistent(u) && c in visiting && i == |written|
      requires forall d | d in Deps(c) :: d in written || d in visiting
      requires Ranked(u, rank) ==> Ordered() && forall d | d in Deps(c) :: d in written
      modifies this`written, this`visiting, c`index
      ensures written == old(written) + [c] && visiting == old(visiting) - {c} && c.index == i
      ensures Consistent(u) && (Ranked(u, rank) ==> Ordered())
    {
      CoveredStep(written, visiting, c);
      if Ranked(u, rank) {
        OrderedStep(written, c);
      }
      ghost var w0 := written;
      c.index := i;
      visiting := visiting - {c};
      written := written + [c];
      forall j | 0 <= j < |written|
        ensures written[j] in u && written[j].index == j && written[j] !in visiting
      {
        if j < |w0| {
          assert written[j] == w0[j] && w0[j] != c;
        }
      }
      forall d | d in u
        ensures d.index != NoIndex <==> (d in visiting || d in written)
      {
        if d != c {
          assert d.index == old(d.index) && (d in written <==> d in w0);
        }
      }
    }

    /** Once the superclass and interfaces were visited, each dependency is
        written or still running; with a rank, none can still be running. */
    lemma DependenciesSettled(u: set<DexClassItem>, rank: map<DexClassItem, nat>, c: DexClassItem)
      requires c in u && c in visiting && visiting <= u
      requires c.superclass.Internal? ==> c.superclass.item in written || c.superclass.item in visiting
      requires Settled(c.interfaces, written, visiting)
      requires Ranked(u, rank) ==> forall v | v in visiting - {c} :: rank[c] < rank[v]
      ensures forall d | d in Deps(c) :: d in written || d in visiting
      ensures Ranked(u, rank) ==> forall d | d in Deps(c) :: d in written
    {
      if Ranked(u, rank) {
        forall d | d in Deps(c) ensures d in written {
          assert rank[d] < rank[c];
        }
      }
    }

    /** write_classes: every class of the section through write_class, the
        running index threaded through. Every class ends up written once,
        with each dependency it has in the dex, and with a rank that drops
        towards dependencies, in dependency order. */
    method WriteClasses(classes: seq<DexClassItem>, ghost u: set<DexClassItem>, ghost rank: map<DexClassItem, nat>)
      returns (r: Result<nat>)
      requires Closed(u) && (forall c | c in classes :: c in u) && (forall c | c in u :: c.index == NoIndex)
      modifies this`indexStream, this`offsetStream, this`numClassDataItems, this`written, this`visiting, this`log, u`index
      modifies this`classIndexSectionOffset, this`classDataSectionOffset
      ensures classIndexSectionOffset == |old(indexStream)| && classDataSectionOffset == |old(offsetStream)|
      ensures r.Ok? ==> Consistent(u) && visiting == {} && r.value == |written|
      ensures r.Ok? ==> forall c | c in classes :: c in written
      ensures r.Ok? ==> forall i, d | 0 <= i < |written| && d in Deps(written[i]) :: d in written
      ensures r.Ok? && Ranked(u, rank) ==> Ordered()
      ensures r.Ok? ==> Logged()
      ensures r.Ok? ==> Appended(log, old(indexStream), indexStream, old(offsetStream), offsetStream,
                                 old(numClassDataItems), numClassDataItems)
      ensures r.Ok? ==> |indexStream| == classIndexSectionOffset + 32 * |written|
    {
      BeginClasses(u);
      AppendedNil(indexStream, offsetStream, numClassDataItems);
      r := WriteEach(classes, u, rank, old(indexStream), old(offsetStream), old(numClassDataItems));
      if r.Ok? {
        DefsLength(log, |old(offsetStream)|);
      }
    }

    /** The loop of write_classes: each class of the list in turn, through
        write_class at the top level. */
    method WriteEach(classes: seq<DexClassItem>, ghost u: set<DexClassItem>, ghost rank: map<DexClassItem, nat>,
                     ghost i0: seq<byte>, ghost o0: seq<byte>, ghost n0: nat)
      returns (r: Result<nat>)
      requires Closed(u) && (forall c | c in classes :: c in u)
      requires Consistent(u) && visiting == {} && written == [] && Ordered() && Logged()
      requires Appended(log, i0, indexStream, o0, offsetStream, n0, numClassDataItems)
      modifies this`indexStream, this`offsetStream, this`numClassDataItems, this`written, this`visiting, this`log, u`index
      ensures r.Ok? ==> Consistent(u) && visiting == {} && r.value == |written| && (Ranked(u, rank) ==> Ordered())
      ensures r.Ok? ==> Logged() && Appended(log, i0, indexStream, o0, offsetStream, n0, numClassDataItems)
      ensures r.Ok? ==> forall c | c in classes :: c in written
    {
      var index := 0;
      var k := 0;
      while k < |classes|
        invariant 0 <= k <= |classes|
        invariant Consistent(u) && visiting == {} && index == |written| && (Ranked(u, rank) ==> Ordered())
        invariant Logged() && Appended(log, i0, indexStream, o0, offsetStream, n0, numClassDataItems)
        invariant forall j | 0 <= j < k :: classes[j] in written
      {
        ghost var w := written;
        index :- WriteNext(index, classes[k], u, rank, i0, o0, n0);
        ExtendHolds(w, written);
        forall j | 0 <= j <= k
          ensures classes[j] in written
        {
          if j < k {
            assert classes[j] in w;
          }
        }
        k := k + 1;
      }
      r := Ok(index);
    }

    /** The start of write_classes: the two section offsets are where the
        streams stand, and no class has been written yet. */
    method BeginClasses(ghost u: set<DexClassItem>)
      requires forall c | c in u :: c.index == NoIndex
      modifies this`written, this`visiting, this`log, this`classIndexSectionOffset, this`classDataSectionOffset
      ensures classIndexSectionOffset == |indexStream| && classDataSectionOffset == |offsetStream|
      ensures written == [] && visiting == {} && log == []
      ensures Consistent(u) && Ordered() && Logged()
    {
      classIndexSectionOffset := |indexStream|;
      classDataSectionOffset := |offsetStream|;
      written := [];
      visiting := {};
      log := [];
    }

    /** One class of the section through write_class, at the top level:
        the classes written so far stay written, the class is written, and
        the streams still hold the whole log after where they began. */
    method WriteNext(index: nat, c: DexClassItem, ghost u: set<DexClassItem>, ghost rank: map<DexClassItem, nat>,
                     ghost i0: seq<byte>, ghost o0: seq<byte>, ghost n0: nat)
      returns (r: Result<nat>)
      requires Closed(u) && Consistent(u) && Logged() && visiting == {} && index == |written| && c in u
      requires Ranked(u, rank) ==> Ordered()
      requires Appended(log, i0, indexStream, o0, offsetStream, n0, numClassDataItems)
      modifies this`indexStream, this`offsetStream, this`numClassDataItems, this`written, this`visiting, this`log, u`index
      ensures r.Ok? ==> Consistent(u) && visiting == {} && r.value == |written| && (Ranked(u, rank) ==> Ordered())
      ensures r.Ok? ==> Logged() && Appended(log, i0, indexStream, o0, offsetStream, n0, numClassDataItems)
      ensures r.Ok? ==> old(written) <= written && c in written
    {
      ghost var l1 := log;
      r := WriteClass(index, Internal(c), u, rank);
      if r.Ok? {
        ExtendSplit(l1, log, 0);
        AppendedTrans(l1, log[|l1|..], i0, old(indexStream), indexStream,
                      o0, old(offsetStream), offsetStream, n0, old(numClassDataItems), numClassDataItems);
      }
    }

    /** The part of write_class after the class got its index: the
        class_def_item into the index stream and, when the class has fields
        or methods, one more class_data_item into the offset stream. Returns
        both as written. */
    method WriteClassDef(c: DexClassItem) returns (r: Result<(seq<byte>, seq<byte>)>)
      modifies this`indexStream, this`offsetStream, this`numClassDataItems
      ensures r == old(ClassDef(c, pools, typeListOffsets, encodedArrayOffsets, |offsetStream|))
      ensures r.Ok? ==> indexStream == old(indexStream) + r.value.0 && offsetStream == old(offsetStream) + r.value.1
      ensures r.Ok? ==> numClassDataItems == old(numClassDataItems) + (if |r.value.1| > 0 then 1 else 0)
      ensures r.Ok? ==> |r.value.0| == 32
    {
      ClassDefSteps(c, pools, typeListOffsets, encodedArrayOffsets, |offsetStream|);
      ghost var w := ClassDefWords(c, pools, typeListOffsets, encodedArrayOffsets, |offsetStream|);
      ghost var e := if w.Ok? && w.value.1.HasData() then EncodedLists(w.value.1, pools) else Ok([]);
      var words := WriteClassDefWords(c);
      assert words == w;
      if words.Err? {
        return Err(words.error);
      }
      var data := WriteClassDataIfAny(words.value.1);
      assert data == e;
      if data.Err? {
        return Err(data.error);
      }
      r := Ok((words.value.0, data.value));
    }

    /** The class_data_item of the sorted lists, written only when the class
        has fields or methods. */
    method WriteClassDataIfAny(lists: Lists) returns (r: Result<seq<byte>>)
      modifies this`offsetStream, this`numClassDataItems
      ensures r == old(if lists.HasData() then EncodedLists(lists, pools) else Ok([]))
      ensures r.Ok? ==> offsetStream == old(offsetStream) + r.value
      ensures r.Ok? ==> numClassDataItems == old(numClassDataItems) + (if |r.value| > 0 then 1 else 0)
    {
      if !lists.HasData() {
        return Ok([]);
      }
      r := WriteClassData(lists, FieldMembers(lists.staticFields), FieldMembers(lists.instanceFields),
                          MethodMembers(lists.directMethods), MethodMembers(lists.virtualMethods));
    }

    /** The eight uints of the class_def_item, looked up in turn and then
        written; a failed lookup writes nothing. */
    method WriteClassDefWords(c: DexClassItem) returns (r: Result<(seq<byte>, Lists)>)
      modifies this`indexStream
      ensures r == old(ClassDefWords(c, pools, typeListOffsets, encodedArrayOffsets, |offsetStream|))
      ensures r.Ok? ==> indexStream == old(indexStream) + r.value.0
      ensures r.Err? ==> indexStream == old(indexStream)
    {
      var head :- ClassDefHead(c, pools, typeListOffsets);
      var lists :- SortedLists(c, pools);
      var offset := if lists.HasData() then |offsetStream| else NoOffset;
      var w6 :- PackUInt(offset);
      var staticValues :- if |c.staticInitializers| > 0 then Find(encodedArrayOffsets, c.staticInitializers) else Ok(NoOffset);
      var w7 :- PackUInt(staticValues);
      r := Ok((head + w6 + w7, lists));
      assert r == ClassDefWords(c, pools, typeListOffsets, encodedArrayOffsets, |offsetStream|);
      indexStream := indexStream + r.value.0;
    }

    /** A class_data_item: the four sizes, then the static and instance
        fields and the direct and virtual methods, each list delta-encoded. */
    method WriteClassData(lists: Lists, sfm: seq<Member>, ifm: seq<Member>, dmm: seq<Member>, vmm: seq<Member>)
      returns (r: Result<seq<byte>>)
      modifies this`offsetStream, this`numClassDataItems
      ensures r == EncodedMembers(lists, pools, sfm, ifm, dmm, vmm)
      ensures r.Ok? ==> offsetStream == old(offsetStream) + r.value
      ensures r.Ok? ==> numClassDataItems == old(numClassDataItems) + 1
    {
      ghost var start := offsetStream;
      numClassDataItems := numClassDataItems + 1;
      var sizes := ULeb128(|lists.staticFields|) + ULeb128(|lists.instanceFields|)
                   + ULeb128(|lists.directMethods|) + ULeb128(|lists.virtualMethods|);
      offsetStream := offsetStream + sizes;
      EncodedMembersSteps(lists, pools, sfm, ifm, dmm, vmm);
      var sf := WriteEncoded(sfm, pools.fields);
      if sf.Err? {
        return Err(sf.error);
      }
      var inf := WriteEncoded(ifm, pools.fields);
      if inf.Err? {
        return Err(inf.error);
      }
      var dm := WriteEncoded(dmm, pools.methods);
      if dm.Err? {
        return Err(dm.error);
      }
      var vm := WriteEncoded(vmm, pools.methods);
      if vm.Err? {
        return Err(vm.error);
      }
      ClassDataAppend(start, lists, sf.value, inf.value, dm.value, vm.value);
      r := Ok(ClassDataBytes(lists, sf.value, inf.value, dm.value, vm.value));
    }

    /** write_encoded_fields and write_encoded_methods: for each member its
        pool index less the previous one (prev_index starting at 0), its
        access flags and, for a method, its code_item_offset, each as a uleb. */
    method WriteEncoded(ms: seq<Member>, pool: map<string, nat>) returns (r: Result<seq<Entry>>)
      modifies this`offsetStream
      ensures r == EncodeFrom(0, ms, pool)
      ensures r.Ok? ==> offsetStream == old(offsetStream) + EntriesBytes(r.value)
    {
      var prevIndex: int := 0;
      var done: seq<Entry> := [];
      var i := 0;
      PrependNothing(EncodeFrom(0, ms, pool));
      assert ms[0..] == ms;
      while i < |ms|
        invariant 0 <= i <= |ms|
        invariant EncodeFrom(0, ms, pool) == Prepend(done, EncodeFrom(prevIndex, ms[i..], pool))
        invariant offsetStream == old(offsetStream) + EntriesBytes(done)
      {
        var x := ms[i];
        if x.key !in pool || pool[x.key] - prevIndex < 0 {
          EncodeFails(prevIndex, ms, i, pool, done);
          return Err(if x.key in pool then NegativeLeb128 else DanglingReference);
        }
        var index := pool[x.key];
        var e := Entry(index - prevIndex, x.accessFlags, x.code);
        EncodeLoopStep(prevIndex, ms, i, pool, done, index);
        // uleb(index - prev_index), uleb(access_flags) and, for a method, uleb(code_item_offset)
        offsetStream := offsetStream + EntryBytes(e);
        done := done + [e];
        prevIndex := index;
        i := i + 1;
      }
      assert ms[i..] == [];
      assert done + [] == done;
      r := Ok(done);
    }
  }

  /** The register pass of write_code_item: the parameter registers, the
      code units and outgoing registers of the body, and the register count
      raised from the stored one. */
  method CountRegisters(params: seq<Descriptor>, isStatic: bool, stored: nat, ins: seq<Insn>)
    returns (registers: nat, paramRegs: nat, codeUnitCount: nat, outParamCount: nat)
    ensures paramRegs == ParameterRegisters(params, isStatic)
    ensures codeUnitCount == TotalWidth(ins) && outParamCount == Outs(ins)
    ensures registers == FinalRegisterCount(stored, paramRegs, outParamCount)
  {
    paramRegs := GetParameterRegisterCount(params, isStatic);
    registers := if stored > paramRegs then stored else paramRegs;
    codeUnitCount, outParamCount := ScanInstructions(ins);
    if outParamCount > 5 {
      registers := if outParamCount > registers then outParamCount else registers;
    }
  }

  /** The bytes of write_code_item: the stream aligned, the header, the
      instructions, and for a method with try blocks the stream aligned
      again, the try_items and the handler buffer. */
  method EncodeCodeItem(prefix: seq<byte>, registers: nat, ins: nat, outs: nat, tryBlocks: seq<TryCatch<int>>,
                        debug: nat, codeUnits: nat, insnBytes: seq<byte>, types: map<string, nat>)
    returns (r: Result<seq<byte>>)
    ensures r == CodeItem(prefix, registers, ins, outs, tryBlocks, debug, codeUnits, insnBytes, types)
  {
    var header := CodeItemHeader(registers, ins, outs, |tryBlocks|, debug, codeUnits);
    CodeItemCases(prefix, registers, ins, outs, tryBlocks, debug, codeUnits, insnBytes, types, header);
    if header.Err? {
      return Err(header.error);
    }
    var buf := Align4(prefix) + header.value + insnBytes;
    if |tryBlocks| > 0 {
      var tries := WriteTries(tryBlocks, codeUnits, types);
      if tries.Err? {
        return Err(tries.error);
      }
      buf := Align4(buf) + tries.value;
    }
    r := Ok(buf);
  }

  /** The try part of write_code_item: the handler_map, the count at the
      head of the handler buffer, then one try_item per try block, each
      validated and given its interned handler offset; the buffer follows
      the items. */
  method WriteTries(tryBlocks: seq<TryCatch<int>>, codeUnitCount: nat, types: map<string, nat>) returns (r: Result<seq<byte>>)
    requires |tryBlocks| > 0
    ensures r == TriesBytes(tryBlocks, codeUnitCount, types)
  {
    var handlerMap := BuildHandlerMap(tryBlocks);
    var st := TryState(handlerMap, [], ULeb128(|handlerMap|));
    assert st == Initial(tryBlocks);
    var buf := [];
    var i := 0;
    while i < |tryBlocks|
      invariant 0 <= i <= |tryBlocks|
      invariant TryFold(tryBlocks, i, codeUnitCount, types) == Ok(st)
      invariant buf == ConcatMap(st.items, TryItemBytes)
    {
      var next := NextTry(tryBlocks, i, codeUnitCount, types, st, buf);
      if next.Err? {
        return Err(next.error);
      }
      st, buf := next.value.0, next.value.1;
      i := i + 1;
    }
    r := Ok(buf + st.eh);
  }

  /** One turn of the try loop: the next try block's step, and its
      try_item added to the bytes so far. */
  method NextTry(tryBlocks: seq<TryCatch<int>>, i: nat, codeUnitCount: nat, types: map<string, nat>,
                 st: TryState, buf: seq<byte>) returns (r: Result<(TryState, seq<byte>)>)
    requires i < |tryBlocks| && TryFold(tryBlocks, i, codeUnitCount, types) == Ok(st)
    requires buf == ConcatMap(st.items, TryItemBytes)
    ensures r.Err? ==> TriesBytes(tryBlocks, codeUnitCount, types) == Err(r.error)
    ensures r.Ok? ==> TryFold(tryBlocks, i + 1, codeUnitCount, types) == Ok(r.value.0)
                      && r.value.1 == ConcatMap(r.value.0.items, TryItemBytes)
  {
    TryLoopStep(tryBlocks, i, codeUnitCount, types, st, buf);
    var next := TryStep(st, tryBlocks[i], codeUnitCount, types);
    if next.Err? {
      return Err(next.error);
    }
    r := Ok((next.value, buf + TryItemBytes(next.value.items[i])));
  }

  /** One turn of the try loop: the pass over one more block is one more
      step, a failing step fails the whole pass, and a successful one adds
      the new block's try_item to the bytes so far. */
  lemma TryLoopStep(all: seq<TryCatch<int>>, i: nat, codeUnits: nat, types: map<string, nat>, st: TryState, buf: seq<byte>)
    requires i < |all| && TryFold(all, i, codeUnits, types) == Ok(st) && buf == ConcatMap(st.items, TryItemBytes)
    ensures all[i].Key() in st.handlerMap
    ensures TryStep(st, all[i], codeUnits, types).Err? ==>
      TriesBytes(all, codeUnits, types) == Err(TryStep(st, all[i], codeUnits, types).error)
    ensures TryStep(st, all[i], codeUnits, types).Ok? ==>
      var next := TryStep(st, all[i], codeUnits, types).value;
      && TryFold(all, i + 1, codeUnits, types) == Ok(next)
      && |next.items| == i + 1 && buf + TryItemBytes(next.items[i]) == ConcatMap(next.items, TryItemBytes)
  {
    TryFoldNext(all, i, codeUnits, types, st);
    var next := TryStep(st, all[i], codeUnits, types);
    if next.Err? {
      TryFoldStopsAt(all, i + 1, codeUnits, types);
    } else {
      ConcatMapAppend(st.items, next.value.items[i], TryItemBytes);
    }
  }

  /** Once the pass fails at a try block, it fails for the whole list. */
  lemma {:induction false} TryFoldStopsAt(all: seq<TryCatch<int>>, n: nat, codeUnits: nat, types: map<string, nat>)
    requires n <= |all| && TryFold(all, n, codeUnits, types).Err?
    ensures TryFold(all, |all|, codeUnits, types) == TryFold(all, n, codeUnits, types)
    decreases |all| - n
  {
    if n < |all| {
      TryFoldStopsAt(all, n + 1, codeUnits, types);
    }
  }
}
