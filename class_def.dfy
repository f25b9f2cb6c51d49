/** What write_class emits for one class: the 32-byte class_def_item of the
    Dalvik Executable format (eight uints) and, when the class has fields or
    methods, its class_data_item (four uleb sizes, then the delta-encoded
    field and method lists). Also the dependency relation the class_def
    order follows. */
module ClassDefs {
  import opened Wrappers
  import opened Bytes
  import opened Pools
  import opened Seqs
  import opened Normalize
  import opened ClassData

  /** The type name a superclass or interface entry is looked up by. An
      entry holding nothing has no type index. */
  function RefName(r: ClassRef): (n: Result<string>)
    ensures n.Ok? <==> !r.NoClass?
    ensures r.External? ==> n == Ok(r.typeName)
    ensures r.Internal? ==> n == Ok(r.item.classType)
  {
    match r
    case NoClass => Err(DanglingReference)
    case External(t) => Ok(t)
    case Internal(c) => Ok(c.classType)
  }

  /** The type list an interface list is looked up by in the type-list section. */
  function RefNames(rs: seq<ClassRef>): (r: Result<seq<string>>)
    ensures r.Ok? <==> forall i | 0 <= i < |rs| :: !rs[i].NoClass?
    ensures r.Ok? ==> |r.value| == |rs| && forall i | 0 <= i < |rs| :: Ok(r.value[i]) == RefName(rs[i])
  {
    if |rs| == 0 then Ok([])
    else
      var head :- RefName(rs[0]);
      var tail :- RefNames(rs[1..]);
      assert forall i | 0 < i < |rs| :: rs[i] == rs[1..][i - 1];
      Ok([head] + tail)
  }

  /** A source file name of None has no string index. */
  function SourceName(s: Option<string>): (r: Result<string>)
    ensures r.Ok? <==> s.Some?
    ensures r.Ok? ==> r.value == s.value
  {
    match s
    case None => Err(DanglingReference)
    case Some(n) => Ok(n)
  }

  // ---------------------------------------------------------------------
  // Dependencies

  /** The classes of the dex a class names as its superclass or interfaces. */
  function Deps(c: DexClassItem): set<DexClassItem>
  {
    (if c.superclass.Internal? then {c.superclass.item} else {})
    + set i | 0 <= i < |c.interfaces| && c.interfaces[i].Internal? :: c.interfaces[i].item
  }

  /** Every dependency of a class in u is in u. */
  predicate Closed(u: set<DexClassItem>)
  {
    forall c | c in u :: Deps(c) <= u
  }

  /** Each dependency of a class written is written too, or in vis. */
  predicate Covered(w: seq<DexClassItem>, vis: set<DexClassItem>)
  {
    forall i, d | 0 <= i < |w| && d in Deps(w[i]) :: d in w || d in vis
  }

  /** Each class written comes after its dependencies. */
  predicate OrderedSeq(w: seq<DexClassItem>)
  {
    forall i, d | 0 <= i < |w| && d in Deps(w[i]) :: d in w[..i]
  }

  /** Each class of the dex the references name is written, or in vis. */
  predicate Settled(rs: seq<ClassRef>, w: seq<DexClassItem>, vis: set<DexClassItem>)
  {
    forall j | 0 <= j < |rs| && rs[j].Internal? :: rs[j].item in w || rs[j].item in vis
  }

  /** A class leaving vis for the end of w keeps every dependency covered. */
  lemma CoveredStep(w: seq<DexClassItem>, vis: set<DexClassItem>, c: DexClassItem)
    requires Covered(w, vis) && forall d | d in Deps(c) :: d in w || d in vis
    ensures Covered(w + [c], vis - {c})
  {
    var w' := w + [c];
    forall i, d | 0 <= i < |w'| && d in Deps(w'[i]) ensures d in w' || d in vis - {c} {
      if i < |w| {
        assert w'[i] == w[i];
      }
    }
  }

  /** A class whose dependencies are all written may follow them. */
  lemma OrderedStep(w: seq<DexClassItem>, c: DexClassItem)
    requires OrderedSeq(w) && forall d | d in Deps(c) :: d in w
    ensures OrderedSeq(w + [c])
  {
    var w' := w + [c];
    forall i, d | 0 <= i < |w'| && d in Deps(w'[i]) ensures d in w'[..i] {
      if i < |w| {
        assert w'[i] == w[i] && w'[..i] == w[..i];
      } else {
        assert w'[..i] == w;
      }
    }
  }

  /** One more reference settled, with the written list grown meanwhile. */
  lemma SettledStep(rs: seq<ClassRef>, k: nat, w: seq<DexClassItem>, w': seq<DexClassItem>, vis: set<DexClassItem>)
    requires k < |rs| && Settled(rs[..k], w, vis) && w <= w'
    requires rs[k].Internal? ==> rs[k].item in w' || rs[k].item in vis
    ensures Settled(rs[..k + 1], w', vis)
  {
    var rs' := rs[..k + 1];
    forall j | 0 <= j < |rs'| && rs'[j].Internal?
      ensures rs'[j].item in w' || rs'[j].item in vis
    {
      if j < k {
        assert rs'[j] == rs[..k][j];
      }
    }
  }

  /** A rank that drops from every class to each of its dependencies: the
      class hierarchy of u has no cycle. */
  predicate Ranked(u: set<DexClassItem>, rank: map<DexClassItem, nat>)
  {
    && u <= rank.Keys
    && forall c, d | c in u && d in Deps(c) :: d in rank && rank[d] < rank[c]
  }

  // ---------------------------------------------------------------------
  // class_data_item

  /** The four sorted member lists of a class. */
  datatype Lists = Lists(staticFields: seq<DexField>, instanceFields: seq<DexField>,
                         directMethods: seq<DexMethod>, virtualMethods: seq<DexMethod>)
  {
    /** clazz_has_data */
    predicate HasData()
    {
      |staticFields| > 0 || |instanceFields| > 0 || |directMethods| > 0 || |virtualMethods| > 0
    }

    ghost function MethodObjects(): set<DexMethod>
    {
      (set m | m in directMethods) + (set m | m in virtualMethods)
    }
  }

  /** get_sorted_static_fields, get_sorted_instance_fields,
      get_sorted_direct_methods and get_sorted_virtual_methods, in that order. */
  function SortedLists(c: DexClassItem, p: Pools): (r: Result<Lists>)
    reads c`methods, c`fields
    ensures r.Ok? ==> r.value.MethodObjects() <= set m | m in c.methods
  {
    var sf :- c.GetSortedStaticFields(p.fields);
    var inf :- c.GetSortedInstanceFields(p.fields);
    var dm :- c.GetSortedDirectMethods(p.methods);
    var vm :- c.GetSortedVirtualMethods(p.methods);
    FilterMembers(c.methods, IsDirect);
    FilterMembers(c.methods, IsVirtual);
    SortedFrom(c.GetDirectMethods(), dm, c.methods);
    SortedFrom(c.GetVirtualMethods(), vm, c.methods);
    Ok(Lists(sf, inf, dm, vm))
  }

  /** A sorted copy of a filtered list holds only elements of the list. */
  lemma SortedFrom<T>(filtered: seq<T>, sorted: seq<T>, all: seq<T>)
    requires multiset(sorted) == multiset(filtered)
    requires forall i | 0 <= i < |filtered| :: filtered[i] in all
    ensures forall x | x in sorted :: x in all
  {
    forall x | x in sorted ensures x in all {
      assert x in multiset(filtered);
    }
  }

  /** The four encoded lists, each with prev_index starting at 0. */
  function EncodedLists(l: Lists, p: Pools): (r: Result<seq<byte>>)
    reads l.MethodObjects()`codeItemOffset
    ensures r.Ok? ==> |r.value| >= 4
  {
    EncodedMembers(l, p, FieldMembers(l.staticFields), FieldMembers(l.instanceFields),
                   MethodMembers(l.directMethods), MethodMembers(l.virtualMethods))
  }

  /** The same, once the members of the four lists have been read. */
  function EncodedMembers(l: Lists, p: Pools, sfm: seq<Member>, ifm: seq<Member>, dmm: seq<Member>, vmm: seq<Member>)
    : (r: Result<seq<byte>>)
    ensures r.Ok? ==> |r.value| >= 4
  {
    var sf :- EncodeFrom(0, sfm, p.fields);
    var inf :- EncodeFrom(0, ifm, p.fields);
    var dm :- EncodeFrom(0, dmm, p.methods);
    var vm :- EncodeFrom(0, vmm, p.methods);
    Ok(ClassDataBytes(l, sf, inf, dm, vm))
  }

  /** A class_data_item: the four sizes, then the four entry lists. */
  function ClassDataBytes(l: Lists, sf: seq<Entry>, inf: seq<Entry>, dm: seq<Entry>, vm: seq<Entry>): (r: seq<byte>)
    ensures |r| >= 4
  {
    ULeb128(|l.staticFields|) + ULeb128(|l.instanceFields|) + ULeb128(|l.directMethods|) + ULeb128(|l.virtualMethods|)
    + EntriesBytes(sf) + EntriesBytes(inf) + EntriesBytes(dm) + EntriesBytes(vm)
  }

  /** A field as write_encoded_fields sees it. */
  function FieldMember(f: DexField): Member
  {
    Member(f.Key(), f.accessFlags, None)
  }

  function FieldMembers(fs: seq<DexField>): (r: seq<Member>)
    ensures |r| == |fs| && forall i | 0 <= i < |fs| :: r[i] == FieldMember(fs[i])
  {
    if |fs| == 0 then [] else [FieldMember(fs[0])] + FieldMembers(fs[1..])
  }

  /** A method as write_encoded_methods sees it, with its code_item_offset. */
  function MethodMember(m: DexMethod): Member
    reads m`codeItemOffset
  {
    Member(m.Key(), m.accessFlags, Some(m.codeItemOffset))
  }

  function MethodMembers(ms: seq<DexMethod>): (r: seq<Member>)
    reads (set m | m in ms)`codeItemOffset
    ensures |r| == |ms| && forall i | 0 <= i < |ms| :: r[i] == MethodMember(ms[i])
  {
    if |ms| == 0 then [] else [MethodMember(ms[0])] + MethodMembers(ms[1..])
  }

  /** The class_data_item of a class, empty when it has no fields or methods. */
  function ClassDataOf(c: DexClassItem, p: Pools): (r: Result<seq<byte>>)
    reads c`methods, c`fields, (set m | m in c.methods)`codeItemOffset
    ensures r.Ok? ==> (|r.value| > 0 <==> SortedLists(c, p).Ok? && SortedLists(c, p).value.HasData())
  {
    var l :- SortedLists(c, p);
    if l.HasData() then EncodedLists(l, p) else Ok([])
  }

  // ---------------------------------------------------------------------
  // class_def_item

  /** The first six uints of a class_def_item, each looked up and packed in
      turn: class_idx, access_flags, superclass_idx, interfaces_off,
      source_file_idx and annotations_off. */
  function ClassDefHead(c: DexClassItem, p: Pools, typeLists: map<seq<string>, nat>): (r: Result<seq<byte>>)
    ensures r.Ok? ==> |r.value| == 24
  {
    var t :- Find(p.types, c.classType);
    var w0 :- PackUInt(t);
    var w1 :- PackUInt(c.accessFlags);
    var sn :- RefName(c.superclass);
    var s :- Find(p.types, sn);
    var w2 :- PackUInt(s);
    var ns :- RefNames(c.interfaces);
    var io :- Find(typeLists, ns);
    var w3 :- PackUInt(io);
    var src :- SourceName(c.sourceFileName);
    var si :- Find(p.strings, src);
    var w4 :- PackUInt(si);
    var w5 :- PackUInt(c.annotationDirOffset);
    Ok(w0 + w1 + w2 + w3 + w4 + w5)
  }

  /** A whole class_def_item: the head, then class_data_off (dataPos, or 0
      when the class has no data) and static_values_off (0 when there are
      no static initializers); with the sorted lists the data is made of. */
  function ClassDefWords(c: DexClassItem, p: Pools, typeLists: map<seq<string>, nat>,
                         arrays: map<seq<DexValue>, nat>, dataPos: nat): (r: Result<(seq<byte>, Lists)>)
    reads c`methods, c`fields
    ensures r.Ok? ==> |r.value.0| == 32 && SortedLists(c, p) == Ok(r.value.1)
  {
    var head :- ClassDefHead(c, p, typeLists);
    var l :- SortedLists(c, p);
    var w6 :- PackUInt(if l.HasData() then dataPos else NoOffset);
    var so :- if |c.staticInitializers| > 0 then Find(arrays, c.staticInitializers) else Ok(NoOffset);
    var w7 :- PackUInt(so);
    Ok((head + w6 + w7, l))
  }

  /** ClassDef, one lookup at a time: the words, then the class data when
      there is any. */
  lemma ClassDefSteps(c: DexClassItem, p: Pools, typeLists: map<seq<string>, nat>,
                      arrays: map<seq<DexValue>, nat>, dataPos: nat)
    ensures var w := ClassDefWords(c, p, typeLists, arrays, dataPos);
      ClassDef(c, p, typeLists, arrays, dataPos) ==
        if w.Err? then Err(w.error)
        else
          var e := if w.value.1.HasData() then EncodedLists(w.value.1, p) else Ok([]);
          if e.Err? then Err(e.error) else Ok((w.value.0, e.value))
  {
  }

  /** The class_def_item with the class's class_data_item, empty when the
      class has no fields or methods. */
  function ClassDef(c: DexClassItem, p: Pools, typeLists: map<seq<string>, nat>,
                    arrays: map<seq<DexValue>, nat>, dataPos: nat): (r: Result<(seq<byte>, seq<byte>)>)
    reads c`methods, c`fields, (set m | m in c.methods)`codeItemOffset
    ensures r.Ok? ==> |r.value.0| == 32 && SortedLists(c, p).Ok?
    ensures r.Ok? ==> (|r.value.1| > 0 <==> SortedLists(c, p).value.HasData())
  {
    var (def, l) :- ClassDefWords(c, p, typeLists, arrays, dataPos);
    var data :- if l.HasData() then EncodedLists(l, p) else Ok([]);
    Ok((def, data))
  }

  // ---------------------------------------------------------------------
  // Properties

  /** Members whose pool indices never drop encode without a negative delta. */
  lemma SortedMembersEncode(ms: seq<Member>, pool: map<string, nat>)
    requires AllIn(ms, pool)
    requires forall i, j | 0 <= i < j < |ms| :: pool[ms[i].key] <= pool[ms[j].key]
    ensures EncodeFrom(0, ms, pool).Ok?
  {
    EncodeFromCorrect(0, ms, pool);
  }

  lemma SortedFieldsEncode(fs: seq<DexField>, pool: map<string, nat>)
    requires AllFieldsIn(fs, pool) && SortedBy(fs, FieldIndexIn(pool))
    ensures EncodeFrom(0, FieldMembers(fs), pool).Ok?
  {
    var ms := FieldMembers(fs);
    assert forall i, j | 0 <= i < j < |ms| :: pool[ms[i].key] <= pool[ms[j].key] by {
      forall i, j | 0 <= i < j < |ms| ensures pool[ms[i].key] <= pool[ms[j].key] {
        assert FieldIndexIn(pool)(fs[i]) <= FieldIndexIn(pool)(fs[j]);
      }
    }
    SortedMembersEncode(ms, pool);
  }

  lemma SortedMethodsEncode(ms: seq<DexMethod>, pool: map<string, nat>)
    requires AllMethodsIn(ms, pool) && SortedBy(ms, MethodIndexIn(pool))
    ensures EncodeFrom(0, MethodMembers(ms), pool).Ok?
  {
    var xs := MethodMembers(ms);
    assert forall i, j | 0 <= i < j < |xs| :: pool[xs[i].key] <= pool[xs[j].key] by {
      forall i, j | 0 <= i < j < |xs| ensures pool[xs[i].key] <= pool[xs[j].key] {
        assert MethodIndexIn(pool)(ms[i]) <= MethodIndexIn(pool)(ms[j]);
      }
    }
    SortedMembersEncode(xs, pool);
  }

  /** A sorted copy holds only items the pool has, as the list it sorts does. */
  lemma SortedFieldsIn(s: seq<DexField>, pool: map<string, nat>)
    requires SortFields(s, pool).Ok?
    ensures AllFieldsIn(SortFields(s, pool).value, pool)
  {
    var r := SortFields(s, pool).value;
    forall i | 0 <= i < |r| ensures r[i].Key() in pool {
      assert r[i] in multiset(s);
    }
  }

  lemma SortedMethodsIn(s: seq<DexMethod>, pool: map<string, nat>)
    requires SortMethods(s, pool).Ok?
    ensures AllMethodsIn(SortMethods(s, pool).value, pool)
  {
    var r := SortMethods(s, pool).value;
    forall i | 0 <= i < |r| ensures r[i].Key() in pool {
      assert r[i] in multiset(s);
    }
  }

  /** Once the four lists are sorted, encoding them cannot fail: the sort by
      pool index leaves no negative delta for write_encoded_fields and
      write_encoded_methods. */
  lemma SortedListsEncode(c: DexClassItem, p: Pools)
    requires SortedLists(c, p).Ok?
    ensures EncodedLists(SortedLists(c, p).value, p).Ok?
  {
    var l := SortedLists(c, p).value;
    SortedFieldsIn(Filter(c.fields, IsStaticField), p.fields);
    SortedFieldsIn(Filter(c.fields, IsInstanceField), p.fields);
    SortedMethodsIn(c.GetDirectMethods(), p.methods);
    SortedMethodsIn(c.GetVirtualMethods(), p.methods);
    SortedFieldsEncode(l.staticFields, p.fields);
    SortedFieldsEncode(l.instanceFields, p.fields);
    SortedMethodsEncode(l.directMethods, p.methods);
    SortedMethodsEncode(l.virtualMethods, p.methods);
  }

  /** The head read back little-endian at its offsets: the type,
      superclass and source-file indices, the interface list offset, and the
      flags and annotations offset as stored. */
  lemma ClassDefHeadLayout(c: DexClassItem, p: Pools, typeLists: map<seq<string>, nat>)
    requires ClassDefHead(c, p, typeLists).Ok?
    ensures var head := ClassDefHead(c, p, typeLists).value;
      && |head| == 24
      && c.classType in p.types && FromLittleEndian(head[0..4]) == p.types[c.classType]
      && FromLittleEndian(head[4..8]) == c.accessFlags
      && RefName(c.superclass).Ok? && RefName(c.superclass).value in p.types
      && FromLittleEndian(head[8..12]) == p.types[RefName(c.superclass).value]
      && RefNames(c.interfaces).Ok? && RefNames(c.interfaces).value in typeLists
      && FromLittleEndian(head[12..16]) == typeLists[RefNames(c.interfaces).value]
      && c.sourceFileName.Some? && c.sourceFileName.value in p.strings
      && FromLittleEndian(head[16..20]) == p.strings[c.sourceFileName.value]
      && FromLittleEndian(head[20..24]) == c.annotationDirOffset
  {
    var head := ClassDefHead(c, p, typeLists).value;
    var w0 := PackUInt(p.types[c.classType]).value;
    var w1 := PackUInt(c.accessFlags).value;
    var w2 := PackUInt(p.types[RefName(c.superclass).value]).value;
    var w3 := PackUInt(typeLists[RefNames(c.interfaces).value]).value;
    var w4 := PackUInt(p.strings[c.sourceFileName.value]).value;
    var w5 := PackUInt(c.annotationDirOffset).value;
    assert head == w0 + w1 + w2 + w3 + w4 + w5;
    WordsAt(head, w0, w1, w2, w3, w4, w5);
  }

  lemma WordsAt(ws: seq<byte>, w0: seq<byte>, w1: seq<byte>, w2: seq<byte>, w3: seq<byte>, w4: seq<byte>, w5: seq<byte>)
    requires |w0| == 4 && |w1| == 4 && |w2| == 4 && |w3| == 4 && |w4| == 4 && |w5| == 4
    requires ws == w0 + w1 + w2 + w3 + w4 + w5
    ensures |ws| == 24
    ensures ws[0..4] == w0 && ws[4..8] == w1 && ws[8..12] == w2 && ws[12..16] == w3
    ensures ws[16..20] == w4 && ws[20..24] == w5
  {
  }

  /** The whole class_def_item: the head, then class_data_off pointing at
      the class_data_item when there is one, and static_values_off at the
      static values when there are any; the class_data_item is the class's
      own. */
  lemma ClassDefLayout(c: DexClassItem, p: Pools, typeLists: map<seq<string>, nat>,
                       arrays: map<seq<DexValue>, nat>, dataPos: nat, def: seq<byte>, data: seq<byte>)
    requires ClassDef(c, p, typeLists, arrays, dataPos) == Ok((def, data))
    ensures ClassDefHead(c, p, typeLists).Ok?
    ensures |def| == 32 && def[..24] == ClassDefHead(c, p, typeLists).value
    ensures ClassDataOf(c, p) == Ok(data)
    ensures FromLittleEndian(def[24..28]) == (if |data| > 0 then dataPos else NoOffset)
    ensures |c.staticInitializers| > 0 ==> c.staticInitializers in arrays
    ensures FromLittleEndian(def[28..32]) == (if |c.staticInitializers| > 0 then arrays[c.staticInitializers] else NoOffset)
  {
    var words := ClassDefWords(c, p, typeLists, arrays, dataPos);
    var l := words.value.1;
    ClassDataOfSorted(c, p);
    WordsLayout(c, p, typeLists, arrays, dataPos, l);
  }

  lemma WordsLayout(c: DexClassItem, p: Pools, typeLists: map<seq<string>, nat>,
                    arrays: map<seq<DexValue>, nat>, dataPos: nat, l: Lists)
    requires ClassDefWords(c, p, typeLists, arrays, dataPos).Ok? && SortedLists(c, p) == Ok(l)
    ensures var def := ClassDefWords(c, p, typeLists, arrays, dataPos).value.0;
      && ClassDefHead(c, p, typeLists).Ok?
      && |def| == 32 && def[..24] == ClassDefHead(c, p, typeLists).value
      && FromLittleEndian(def[24..28]) == (if l.HasData() then dataPos else NoOffset)
      && (|c.staticInitializers| > 0 ==> c.staticInitializers in arrays)
      && FromLittleEndian(def[28..32]) == (if |c.staticInitializers| > 0 then arrays[c.staticInitializers] else NoOffset)
  {
    var def := ClassDefWords(c, p, typeLists, arrays, dataPos).value.0;
    var head := ClassDefHead(c, p, typeLists).value;
    var w6 := PackUInt(if l.HasData() then dataPos else NoOffset).value;
    var so := if |c.staticInitializers| > 0 then arrays[c.staticInitializers] else NoOffset;
    var w7 := PackUInt(so).value;
    assert def == head + w6 + w7;
    TailAt(def, head, w6, w7);
  }

  lemma TailAt(def: seq<byte>, head: seq<byte>, w6: seq<byte>, w7: seq<byte>)
    requires |head| == 24 && |w6| == 4 && |w7| == 4 && def == head + w6 + w7
    ensures |def| == 32 && def[..24] == head && def[24..28] == w6 && def[28..32] == w7
  {
  }

  lemma ClassDataOfSorted(c: DexClassItem, p: Pools)
    requires SortedLists(c, p).Ok?
    ensures var l := SortedLists(c, p).value;
      ClassDataOf(c, p) == if l.HasData() then EncodedLists(l, p) else Ok([])
  {
  }

  // ---------------------------------------------------------------------
  // The class_def section as a log of the items write_class appended

  /** One class written by write_class: the class, the offset stream's
      position when its class_def_item was built, and the class_def_item and
      class_data_item appended for it. */
  datatype ClassWrite = ClassWrite(cls: DexClassItem, dataPos: nat, def: seq<byte>, data: seq<byte>)

  /** The classes of a log, in written order. */
  function Classes(es: seq<ClassWrite>): (r: seq<DexClassItem>)
    ensures |r| == |es|
  {
    if |es| == 0 then [] else Classes(es[..|es| - 1]) + [es[|es| - 1].cls]
  }

  lemma ClassesSnoc(es: seq<ClassWrite>, e: ClassWrite)
    ensures Classes(es + [e]) == Classes(es) + [e.cls]
  {
    assert (es + [e])[..|es|] == es;
  }

  /** The class_def_items of a log, in written order. */
  function Defs(es: seq<ClassWrite>): seq<byte>
  {
    if |es| == 0 then [] else Defs(es[..|es| - 1]) + es[|es| - 1].def
  }

  /** The class_data_items of a log, in written order. */
  function Datas(es: seq<ClassWrite>): seq<byte>
  {
    if |es| == 0 then [] else Datas(es[..|es| - 1]) + es[|es| - 1].data
  }

  /** The number of non-empty class_data_items of a log. */
  function DataCount(es: seq<ClassWrite>): nat
  {
    if |es| == 0 then 0 else DataCount(es[..|es| - 1]) + (if |es[|es| - 1].data| > 0 then 1 else 0)
  }

  /** Each class_def_item of the log is 32 bytes and was built while the
      offset stream stood where its class_data_item then went. */
  predicate Chained(es: seq<ClassWrite>, pos: nat)
  {
    |es| == 0 ||
    (&& Chained(es[..|es| - 1], pos)
     && |es[|es| - 1].def| == 32
     && es[|es| - 1].dataPos == pos + |Datas(es[..|es| - 1])|)
  }

  /** The index stream, the offset stream and the class_data_item count went
      from (i0, o0, n0) to (i1, o1, n1) by appending the log es. */
  predicate Appended(es: seq<ClassWrite>, i0: seq<byte>, i1: seq<byte>, o0: seq<byte>, o1: seq<byte>, n0: nat, n1: nat)
  {
    i1 == i0 + Defs(es) && o1 == o0 + Datas(es) && n1 == n0 + DataCount(es) && Chained(es, |o0|)
  }

  lemma AppendedNil(i: seq<byte>, o: seq<byte>, n: nat)
    ensures Appended([], i, i, o, o, n, n)
  {
    assert i + [] == i && o + [] == o;
  }

  /** One more class written at the offset stream's end. */
  lemma AppendedSnoc(es: seq<ClassWrite>, i0: seq<byte>, i1: seq<byte>, o0: seq<byte>, o1: seq<byte>, n0: nat, n1: nat, e: ClassWrite)
    requires Appended(es, i0, i1, o0, o1, n0, n1) && e.dataPos == |o1| && |e.def| == 32
    ensures Appended(es + [e], i0, i1 + e.def, o0, o1 + e.data, n0, n1 + (if |e.data| > 0 then 1 else 0))
  {
    assert (es + [e])[..|es + [e]| - 1] == es;
  }

  /** The log of two runs one after the other. */
  lemma {:induction false} LogAppend(a: seq<ClassWrite>, b: seq<ClassWrite>)
    ensures Defs(a + b) == Defs(a) + Defs(b) && Datas(a + b) == Datas(a) + Datas(b)
    ensures DataCount(a + b) == DataCount(a) + DataCount(b)
    decreases |b|
  {
    if |b| == 0 {
      assert a + b == a;
    } else {
      var b' := b[..|b| - 1];
      assert (a + b)[..|a + b| - 1] == a + b';
      LogAppend(a, b');
    }
  }

  /** Two chained logs one after the other are chained. */
  lemma {:induction false} ChainedAppend(a: seq<ClassWrite>, b: seq<ClassWrite>, pos: nat)
    requires Chained(a, pos) && Chained(b, pos + |Datas(a)|)
    ensures Chained(a + b, pos)
    decreases |b|
  {
    if |b| == 0 {
      assert a + b == a;
    } else {
      var b' := b[..|b| - 1];
      assert (a + b)[..|a + b| - 1] == a + b';
      ChainedAppend(a, b', pos);
      LogAppend(a, b');
    }
  }

  /** Two runs of write_class one after the other append their logs in turn. */
  lemma AppendedTrans(a: seq<ClassWrite>, b: seq<ClassWrite>, i0: seq<byte>, i1: seq<byte>, i2: seq<byte>,
                      o0: seq<byte>, o1: seq<byte>, o2: seq<byte>, n0: nat, n1: nat, n2: nat)
    requires Appended(a, i0, i1, o0, o1, n0, n1) && Appended(b, i1, i2, o1, o2, n1, n2)
    ensures Appended(a + b, i0, i2, o0, o2, n0, n2)
  {
    LogAppend(a, b);
    assert i2 == i0 + Defs(a) + Defs(b);
    assert o2 == o0 + Datas(a) + Datas(b);
    ChainedAppend(a, b, |o0|);
  }

  /** A log of 32-byte class_def_items is 32 bytes per class. */
  lemma {:induction false} DefsLength(es: seq<ClassWrite>, pos: nat)
    requires Chained(es, pos)
    ensures |Defs(es)| == 32 * |es|
    decreases |es|
  {
    if |es| > 0 {
      DefsLength(es[..|es| - 1], pos);
    }
  }
}
