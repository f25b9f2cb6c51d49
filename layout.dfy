/** The file-level layout of build_dex: where the data section starts, the
    string pool, the header with its section table, the map_list, and the
    signature and checksum fields filled in at the end. */
module Layout {
  import opened Wrappers
  import opened Bytes
  import Item
  import Seqs

  // ---------------------------------------------------------------------
  // Item types of the map_list and fixed sizes

  const HeaderItem: nat := 0x0000
  const StringIdItem: nat := 0x0001
  const TypeIdItem: nat := 0x0002
  const ProtoIdItem: nat := 0x0003
  const FieldIdItem: nat := 0x0004
  const MethodIdItem: nat := 0x0005
  const ClassDefItem: nat := 0x0006
  const CallSiteIdItem: nat := 0x0007
  const MethodHandleItem: nat := 0x0008
  const MapListItem: nat := 0x1000
  const TypeListItem: nat := 0x1001
  const AnnotationSetRefList: nat := 0x1002
  const AnnotationSetItem: nat := 0x1003
  const ClassDataItem: nat := 0x2000
  const CodeItem: nat := 0x2001
  const StringDataItem: nat := 0x2002
  const DebugInfoItem: nat := 0x2003
  const AnnotationItem: nat := 0x2004
  const EncodedArrayItem: nat := 0x2005
  const AnnotationDirectoryItem: nat := 0x2006

  const SizeHeaderItem: nat := 112
  const LittleEndianTag: nat := 0x12345678

  // ---------------------------------------------------------------------
  // get_data_section_offset

  /** The number of items of each id section. */
  datatype IdCounts = IdCounts(strings: nat, types: nat, protos: nat, fields: nat, methods: nat,
                               classes: nat, callSites: nat, methodHandles: nat)

  /** get_data_section_offset: the header, then each id item at its fixed
      size. The data section starts on a 4-byte boundary after the header,
      since every id item size is a multiple of 4. */
  function DataSectionOffset(c: IdCounts): (r: nat)
    ensures r % 4 == 0 && r >= SizeHeaderItem
  {
    assert 0x70 + c.strings * 4 + c.types * 4 + c.protos * (4 + 4 + 4) + c.fields * (2 + 2 + 4)
      + c.methods * (2 + 2 + 4) + c.classes * 32 + c.callSites * 4 + c.methodHandles * (2 + 2 + 2 + 2)
      == 4 * (28 + c.strings + c.types + 3 * c.protos + 2 * c.fields + 2 * c.methods
              + 8 * c.classes + c.callSites + 2 * c.methodHandles);
    0x70 + c.strings * 4 + c.types * 4 + c.protos * (4 + 4 + 4) + c.fields * (2 + 2 + 4)
    + c.methods * (2 + 2 + 4) + c.classes * 32 + c.callSites * 4 + c.methodHandles * (2 + 2 + 2 + 2)
  }

  /** The id sections in file order, each as its item count and item size. */
  function IdSections(c: IdCounts): seq<(nat, nat)>
  {
    [(c.strings, 4), (c.types, 4), (c.protos, 12), (c.fields, 8),
     (c.methods, 8), (c.classes, 32), (c.callSites, 4), (c.methodHandles, 8)]
  }

  /** The bytes the sections take when laid out one after another. */
  function Extent(secs: seq<(nat, nat)>): nat
  {
    if |secs| == 0 then 0 else Extent(secs[..|secs| - 1]) + secs[|secs| - 1].0 * secs[|secs| - 1].1
  }

  /** Where id section k starts once the header and the sections before it are laid out. */
  function SectionStart(c: IdCounts, k: nat): nat
    requires k <= 8
  {
    SizeHeaderItem + Extent(IdSections(c)[..k])
  }

  /** The data section starts right where the last id section ends. */
  lemma DataSectionOffsetIsEnd(c: IdCounts)
    ensures DataSectionOffset(c) == SectionStart(c, 8)
    ensures SectionStart(c, 8) == SectionStart(c, 7) + 8 * c.methodHandles
  {
    var s := IdSections(c);
    ExtentSteps(s);
    assert Extent(s[..1]) == Extent(s[..0]) + c.strings * 4;
    assert Extent(s[..2]) == Extent(s[..1]) + c.types * 4;
    assert Extent(s[..3]) == Extent(s[..2]) + c.protos * 12;
    assert Extent(s[..4]) == Extent(s[..3]) + c.fields * 8;
    assert Extent(s[..5]) == Extent(s[..4]) + c.methods * 8;
    assert Extent(s[..6]) == Extent(s[..5]) + c.classes * 32;
    assert Extent(s[..7]) == Extent(s[..6]) + c.callSites * 4;
    assert Extent(s[..8]) == Extent(s[..7]) + c.methodHandles * 8;
    assert s[..8] == s;
  }

  /** Each prefix extent is the one before it plus its last section. */
  lemma ExtentSteps(s: seq<(nat, nat)>)
    ensures forall k | 0 < k <= |s| :: Extent(s[..k]) == Extent(s[..k - 1]) + s[k - 1].0 * s[k - 1].1
  {
    forall k | 0 < k <= |s| ensures Extent(s[..k]) == Extent(s[..k - 1]) + s[k - 1].0 * s[k - 1].1 {
      assert s[..k][..k - 1] == s[..k - 1];
    }
  }

  /** build_dex places the call sites after the class defs and the method
      handles after the call sites, counting from the end of the method ids;
      both land on the section starts, and the method handles end at the
      data section. */
  lemma IdSectionsFill(c: IdCounts)
    ensures SectionStart(c, 5) + c.classes * 32 == SectionStart(c, 6)
    ensures SectionStart(c, 5) + c.classes * 32 + c.callSites * 4 == SectionStart(c, 7)
    ensures SectionStart(c, 7) + c.methodHandles * 8 == DataSectionOffset(c)
  {
    ExtentSteps(IdSections(c));
    DataSectionOffsetIsEnd(c);
  }

  // ---------------------------------------------------------------------
  // build_string_section

  /** Python's ordering of str: by code point, a proper prefix first. */
  predicate StrLess(a: string, b: string)
  {
    if |a| == 0 then |b| > 0
    else if |b| == 0 then false
    else if a[0] != b[0] then a[0] < b[0]
    else StrLess(a[1..], b[1..])
  }

  lemma {:induction false} StrLessTotal(a: string, b: string)
    ensures a == b || StrLess(a, b) || StrLess(b, a)
  {
    if |a| > 0 && |b| > 0 && a[0] == b[0] {
      StrLessTotal(a[1..], b[1..]);
      if a[1..] == b[1..] {
        assert a == [a[0]] + a[1..] && b == [b[0]] + b[1..];
      }
    }
  }

  lemma {:induction false} StrLessAsymmetric(a: string, b: string)
    ensures StrLess(a, b) ==> !StrLess(b, a)
  {
    if |a| > 0 && |b| > 0 && a[0] == b[0] {
      StrLessAsymmetric(a[1..], b[1..]);
    }
  }

  lemma {:induction false} StrLessTransitive(a: string, b: string, c: string)
    requires StrLess(a, b) && StrLess(b, c)
    ensures StrLess(a, c)
  {
    if |a| > 0 && a[0] == b[0] && b[0] == c[0] {
      StrLessTransitive(a[1..], b[1..], c[1..]);
    }
  }

  predicate StrictlySorted(s: seq<string>)
  {
    forall i | 0 < i < |s| :: StrLess(s[i - 1], s[i])
  }

  /** A strictly sorted list has each string once. */
  lemma {:induction false} StrictlySortedDistinct(s: seq<string>)
    requires StrictlySorted(s)
    ensures forall i, j | 0 <= i < j < |s| :: StrLess(s[i], s[j])
    ensures forall i, j | 0 <= i < j < |s| :: s[i] != s[j]
  {
    if |s| > 1 {
      StrictlySortedDistinct(s[..|s| - 1]);
      forall i | 0 <= i < |s| - 1 ensures StrLess(s[i], s[|s| - 1]) {
        assert s[..|s| - 1][i] == s[i];
        if i < |s| - 2 {
          assert StrLess(s[..|s| - 1][i], s[..|s| - 1][|s| - 2]);
          StrLessTransitive(s[i], s[|s| - 2], s[|s| - 1]);
        }
      }
      forall i, j | 0 <= i < j < |s| ensures StrLess(s[i], s[j]) && s[i] != s[j] {
        if j < |s| - 1 {
          assert s[..|s| - 1][i] == s[i] && s[..|s| - 1][j] == s[j];
        }
        StrLessAsymmetric(s[i], s[j]);
      }
    }
  }

  /** The sorted list with one more string, in its place. */
  function InsertSorted(s: seq<string>, x: string): (r: seq<string>)
    requires StrictlySorted(s) && x !in s
    ensures StrictlySorted(r) && |r| == |s| + 1
    ensures forall t :: t in r <==> t in s || t == x
    ensures |r| > 0 && (r[0] == x || (|s| > 0 && r[0] == s[0]))
  {
    if |s| == 0 then [x]
    else if StrLess(x, s[0]) then [x] + s
    else
      StrLessTotal(x, s[0]);
      [s[0]] + InsertSorted(s[1..], x)
  }

  /** The union of the string sets of the classes. */
  function Union(sets: seq<set<Option<string>>>): set<Option<string>>
  {
    if |sets| == 0 then {} else Union(sets[..|sets| - 1]) + sets[|sets| - 1]
  }

  /** build_string_section: the related strings of every class of the dex
      and the strings of the external manager go into one set, None is
      dropped, and the rest is sorted; the string section takes them in
      that order. */
  method BuildStringSection(related: seq<set<Option<string>>>, external: seq<Option<string>>)
    returns (section: seq<string>)
    ensures StrictlySorted(section)
    ensures forall t :: t in section <==> Some(t) in Union(related) || Some(t) in external
  {
    var x: set<Option<string>> := {};
    for k := 0 to |related|
      invariant x == Union(related[..k])
    {
      assert related[..k + 1][..k] == related[..k];
      x := x + related[k];
    }
    assert related[..|related|] == related;
    for k := 0 to |external|
      invariant x == Union(related) + set j | 0 <= j < k :: external[j]
    {
      x := x + {external[k]};
    }
    if None in x {
      x := x - {None};
    }
    ghost var all := x;
    section := [];
    while x != {}
      invariant x <= all && None !in all
      invariant StrictlySorted(section)
      invariant forall t :: t in section <==> Some(t) in all - x
      decreases x
    {
      var m :| m in x;
      section := InsertSorted(section, m.value);
      x := x - {m};
    }
  }

  // ---------------------------------------------------------------------
  // write_section_info and write_header

  /** write_section_info: the item count, then the offset, written as 0 for
      an empty section. A section_info is two uints that read back as the
      count and as the offset, or 0 when the section is empty. */
  function SectionInfo(numItems: int, offset: int): (r: Result<seq<byte>>)
    ensures r.Ok? <==> 0 <= numItems < 0x1_0000_0000 && (numItems == 0 || 0 <= offset < 0x1_0000_0000)
    ensures r.Ok? ==>
      && |r.value| == 8 && FromLittleEndian(r.value[..4]) == numItems
      && FromLittleEndian(r.value[4..]) == (if numItems == 0 then 0 else offset)
  {
    var n :- PackUInt(numItems);
    var o :- PackUInt(if numItems <= 0 then 0 else offset);
    assert (n + o)[..4] == n && (n + o)[4..] == o;
    Ok(n + o)
  }

  /** get_magic: "dex\n035\0". */
  const Magic: seq<byte> := [0x64, 0x65, 0x78, 0x0a, 0x30, 0x33, 0x35, 0x00]

  /** A section's item count and the offset recorded for it. */
  datatype Section = Section(size: int, offset: int)

  /** The id sections of the header, in its order. */
  datatype HeaderSections = HeaderSections(strings: Section, types: Section, protos: Section,
                                           fields: Section, methods: Section, classes: Section)

  /** The section_info of a section. */
  function Info(x: Section): Result<seq<byte>>
  {
    SectionInfo(x.size, x.offset)
  }

  /** The section_info of each id section in turn: 48 bytes, eight per
      section in header order. The first section that cannot be packed
      decides. */
  function SectionTable(h: HeaderSections): (r: Result<seq<byte>>)
    ensures r.Ok? <==> Info(h.strings).Ok? && Info(h.types).Ok? && Info(h.protos).Ok?
                       && Info(h.fields).Ok? && Info(h.methods).Ok? && Info(h.classes).Ok?
    ensures r.Ok? ==>
      && |r.value| == 48
      && r.value[0..8] == Info(h.strings).value && r.value[8..16] == Info(h.types).value
      && r.value[16..24] == Info(h.protos).value && r.value[24..32] == Info(h.fields).value
      && r.value[32..40] == Info(h.methods).value && r.value[40..48] == Info(h.classes).value
  {
    var s :- SectionInfo(h.strings.size, h.strings.offset);
    var t :- SectionInfo(h.types.size, h.types.offset);
    var p :- SectionInfo(h.protos.size, h.protos.offset);
    var f :- SectionInfo(h.fields.size, h.fields.offset);
    var m :- SectionInfo(h.methods.size, h.methods.offset);
    var c :- SectionInfo(h.classes.size, h.classes.offset);
    var r := s + t + p + f + m + c;
    Seqs.ThreeParts(s, t, p, r);
    Seqs.ThreeParts(s + t + p, f, m, r);
    Seqs.ThreeParts(s + t + p + f, m, c, r);
    Ok(r)
  }

  /** The first 56 bytes of the header: magic, a zero checksum and
      signature to be filled in later, the file size, the header size, the
      endian tag, two zero link words and the map offset. */
  function HeaderPrefix(size: seq<byte>, mapOff: seq<byte>): (r: seq<byte>)
    requires |size| == 4 && |mapOff| == 4
    ensures |r| == 56 && r[..8] == Magic && r[32..36] == size && r[52..56] == mapOff
    ensures forall i | 8 <= i < 32 :: r[i] == 0
  {
    var head := HeaderHead(size);
    var r := head + HeaderWords(mapOff);
    assert r[..36] == head && r[52..56] == HeaderWords(mapOff)[16..20];
    r
  }

  /** Magic, the zero checksum and signature, and the file size. */
  function HeaderHead(size: seq<byte>): (r: seq<byte>)
    requires |size| == 4
    ensures |r| == 36 && r[..8] == Magic && r[32..36] == size
    ensures forall i | 8 <= i < 32 :: r[i] == 0
  {
    Magic + seq(24, _ => 0) + size
  }

  /** The header size, the endian tag, two zero link words and the map offset. */
  function HeaderWords(mapOff: seq<byte>): (r: seq<byte>)
    requires |mapOff| == 4
    ensures |r| == 20 && r[16..20] == mapOff
  {
    LittleEndian(SizeHeaderItem, 4) + LittleEndian(LittleEndianTag, 4)
    + LittleEndian(0, 4) + LittleEndian(0, 4) + mapOff
  }

  /** write_header: the fixed prefix, the section table, then the data size
      and the data offset. */
  function Header(mapOffset: int, h: HeaderSections, dataOffset: int, fileSize: int): (r: Result<seq<byte>>)
    ensures r.Ok? <==> 0 <= fileSize < 0x1_0000_0000 && 0 <= mapOffset < 0x1_0000_0000 && SectionTable(h).Ok?
                       && 0 <= dataOffset <= fileSize
    ensures r.Ok? ==>
      && |r.value| == 112 && FromLittleEndian(r.value[52..56]) == mapOffset
      && r.value[56..104] == SectionTable(h).value
      && FromLittleEndian(r.value[104..108]) == fileSize - dataOffset
      && FromLittleEndian(r.value[108..112]) == dataOffset
  {
    var size :- PackUInt(fileSize);
    var mapOff :- PackUInt(mapOffset);
    var table :- SectionTable(h);
    var dataSize :- PackUInt(fileSize - dataOffset);
    var data :- PackUInt(dataOffset);
    var prefix := HeaderPrefix(size, mapOff);
    var r := prefix + table + dataSize + data;
    Seqs.ThreeParts(prefix, table, dataSize, r);
    Seqs.ThreeParts(prefix + table, dataSize, data, r);
    assert r[52..56] == prefix[52..56];
    Ok(r)
  }

  /** The header fills exactly header_size bytes, with the checksum and the
      signature zero and the file size at offset 32; it is refused when the
      data offset is beyond the file size. */
  lemma HeaderLayout(mapOffset: int, h: HeaderSections, dataOffset: int, fileSize: int)
    ensures Header(mapOffset, h, dataOffset, fileSize).Ok? ==>
      var r := Header(mapOffset, h, dataOffset, fileSize).value;
      && |r| == SizeHeaderItem && r[..8] == Magic
      && (forall i | 8 <= i < 32 :: r[i] == 0)
      && FromLittleEndian(r[32..36]) == fileSize
    ensures dataOffset > fileSize ==> Header(mapOffset, h, dataOffset, fileSize).Err?
  {
    var size, mapOff := PackUInt(fileSize), PackUInt(mapOffset);
    var table, dataSize, data := SectionTable(h), PackUInt(fileSize - dataOffset), PackUInt(dataOffset);
    if size.Ok? && mapOff.Ok? && table.Ok? && dataSize.Ok? && data.Ok? {
      var prefix := HeaderPrefix(size.value, mapOff.value);
      var r := prefix + table.value + dataSize.value + data.value;
      assert Header(mapOffset, h, dataOffset, fileSize) == Ok(r);
      assert r[..56] == prefix && r[32..36] == prefix[32..36];
    }
  }

  // ---------------------------------------------------------------------
  // The map_list

  /** One call of write_map_item_object: item type, count, offset. */
  datatype MapEntry = MapEntry(itemType: nat, size: int, offset: int)

  /** write_map_item_object: an entry of a non-empty section is the type
      as a ushort, a zero ushort, the count and the offset; an empty section
      writes nothing. */
  function MapItemObject(e: MapEntry): (r: Result<seq<byte>>)
    ensures r.Ok? ==> |r.value| == if e.size > 0 then 12 else 0
    ensures e.size <= 0 ==> r == Ok([])
    ensures e.size > 0 ==> (r.Ok? <==> e.itemType < 0x1_0000 && e.size < 0x1_0000_0000 && 0 <= e.offset < 0x1_0000_0000)
    ensures r.Ok? && e.size > 0 ==>
      FromLittleEndian(r.value[0..2]) == e.itemType && r.value[2..4] == [0, 0] &&
      FromLittleEndian(r.value[4..8]) == e.size && FromLittleEndian(r.value[8..12]) == e.offset
  {
    assert Pow256(2) == 0x1_0000 && Pow256(4) == 0x1_0000_0000;
    if e.size > 0 then
      var t :- PackUShort(e.itemType);
      var n :- PackUInt(e.size);
      var o :- PackUInt(e.offset);
      Seqs.ThreeParts(t, [0, 0], n, t + [0, 0] + n + o);
      assert (t + [0, 0] + n + o)[8..12] == o;
      Ok(t + [0, 0] + n + o)
    else Ok([])
  }

  /** The sizes of the sections write_map_item lists. */
  datatype MapSizes = MapSizes(strings: nat, types: nat, protos: nat, fields: nat, methods: nat,
                               classes: nat, callSites: nat, methodHandles: nat, typeLists: nat,
                               encodedArrays: nat, annotations: nat, annotationSets: nat,
                               annotationSetRefs: nat, annotationDirectories: nat, debugInfos: nat,
                               codeItems: nat, classDatas: nat)

  /** The section offsets write_map_item lists. */
  datatype MapOffsets = MapOffsets(stringIds: int, types: int, protos: int, fields: int, methods: int,
                                   classes: int, callSites: int, methodHandles: int, stringData: int,
                                   typeLists: int, encodedArrays: int, annotations: int,
                                   annotationSets: int, annotationSetRefs: int,
                                   annotationDirectories: int, debugInfos: int, codeItems: int,
                                   classDatas: int, mapList: int)

  /** The write_map_item_object calls of write_map_item, in order, in four
      runs of five: the header and the id sections, the string data, then
      the data sections and the map_list itself. The annotation-set entry
      counts one more set, for the empty set that is always created. */
  function IdEntries(s: MapSizes, o: MapOffsets): seq<MapEntry>
  {
    [MapEntry(HeaderItem, 1, 0),
     MapEntry(StringIdItem, s.strings, o.stringIds),
     MapEntry(TypeIdItem, s.types, o.types),
     MapEntry(ProtoIdItem, s.protos, o.protos),
     MapEntry(FieldIdItem, s.fields, o.fields)]
  }

  function IdEntriesRest(s: MapSizes, o: MapOffsets): seq<MapEntry>
  {
    [MapEntry(MethodIdItem, s.methods, o.methods),
     MapEntry(ClassDefItem, s.classes, o.classes),
     MapEntry(CallSiteIdItem, s.callSites, o.callSites),
     MapEntry(MethodHandleItem, s.methodHandles, o.methodHandles),
     MapEntry(StringDataItem, s.strings, o.stringData)]
  }

  function DataEntries(s: MapSizes, o: MapOffsets): seq<MapEntry>
  {
    [MapEntry(TypeListItem, s.typeLists, o.typeLists),
     MapEntry(EncodedArrayItem, s.encodedArrays, o.encodedArrays),
     MapEntry(AnnotationItem, s.annotations, o.annotations),
     MapEntry(AnnotationSetItem, s.annotationSets + 1, o.annotationSets),
     MapEntry(AnnotationSetRefList, s.annotationSetRefs, o.annotationSetRefs)]
  }

  function DataEntriesRest(s: MapSizes, o: MapOffsets): seq<MapEntry>
  {
    [MapEntry(AnnotationDirectoryItem, s.annotationDirectories, o.annotationDirectories),
     MapEntry(DebugInfoItem, s.debugInfos, o.debugInfos),
     MapEntry(CodeItem, s.codeItems, o.codeItems),
     MapEntry(ClassDataItem, s.classDatas, o.classDatas),
     MapEntry(MapListItem, 1, o.mapList)]
  }

  /** 1 for a section that has items, 0 for an empty one. */
  function NonEmpty(size: int): nat
  {
    if size > 0 then 1 else 0
  }

  /** calc_map_list_item_count: header and map_list, the string data when
      there are strings, every non-empty id, type-list, encoded-array and
      annotation section, the annotation sets (always, as the empty set is
      always created), and each counted item kind that is non-empty. */
  function MapListItemCount(s: MapSizes): (n: nat)
    ensures n >= 3
  {
    2 + NonEmpty(s.strings)
    + NonEmpty(s.strings) + NonEmpty(s.types) + NonEmpty(s.protos) + NonEmpty(s.fields)
    + NonEmpty(s.methods) + NonEmpty(s.callSites) + NonEmpty(s.methodHandles) + NonEmpty(s.typeLists)
    + NonEmpty(s.encodedArrays) + NonEmpty(s.annotations) + NonEmpty(s.classes)
    + 1
    + NonEmpty(s.annotationSetRefs) + NonEmpty(s.annotationDirectories) + NonEmpty(s.debugInfos)
    + NonEmpty(s.codeItems) + NonEmpty(s.classDatas)
  }

  /** The number of entries that write an item. */
  function Written(es: seq<MapEntry>): nat
  {
    if |es| == 0 then 0 else Written(es[..|es| - 1]) + NonEmpty(es[|es| - 1].size)
  }

  /** The bytes of the entries, one after another. */
  function MapItems(es: seq<MapEntry>): (r: Result<seq<byte>>)
    ensures r.Ok? ==> |r.value| == 12 * Written(es)
  {
    if |es| == 0 then Ok([])
    else
      var init :- MapItems(es[..|es| - 1]);
      var last :- MapItemObject(es[|es| - 1]);
      Ok(init + last)
  }

  /** write_map_item after the alignment: the entry count, then the entries. */
  function MapList(s: MapSizes, o: MapOffsets): (r: Result<seq<byte>>)
    ensures r.Ok? ==> |r.value| == 4 + 12 * WrittenEntries(s, o)
    ensures r.Ok? ==> FromLittleEndian(r.value[..4]) == MapListItemCount(s)
  {
    var n :- PackUInt(MapListItemCount(s));
    var ids :- MapItems(IdEntries(s, o));
    var idsRest :- MapItems(IdEntriesRest(s, o));
    var data :- MapItems(DataEntries(s, o));
    var dataRest :- MapItems(DataEntriesRest(s, o));
    assert (n + ids + idsRest + data + dataRest)[..4] == n;
    Ok(n + ids + idsRest + data + dataRest)
  }

  /** How many of the write_map_item_object calls write an entry. */
  function WrittenEntries(s: MapSizes, o: MapOffsets): nat
  {
    Written(IdEntries(s, o)) + Written(IdEntriesRest(s, o)) + Written(DataEntries(s, o))
    + Written(DataEntriesRest(s, o))
  }

  /** The count written at the head of the map_list is the number of entries
      that follow it. */
  lemma MapListCountMatches(s: MapSizes, o: MapOffsets)
    ensures MapListItemCount(s) == WrittenEntries(s, o)
  {
    WrittenFive(IdEntries(s, o));
    WrittenFive(IdEntriesRest(s, o));
    WrittenFive(DataEntries(s, o));
    WrittenFive(DataEntriesRest(s, o));
  }

  /** Five entries write those of them whose size is positive. */
  lemma WrittenFive(es: seq<MapEntry>)
    requires |es| == 5
    ensures Written(es) == NonEmpty(es[0].size) + NonEmpty(es[1].size) + NonEmpty(es[2].size)
                           + NonEmpty(es[3].size) + NonEmpty(es[4].size)
  {
    WrittenStep(es, 1);
    WrittenStep(es, 2);
    WrittenStep(es, 3);
    WrittenStep(es, 4);
    WrittenStep(es, 5);
    assert es[..5] == es;
  }

  /** A prefix count is the one before it plus its last entry. */
  lemma WrittenStep(es: seq<MapEntry>, k: nat)
    requires 0 < k <= |es|
    ensures Written(es[..k]) == Written(es[..k - 1]) + NonEmpty(es[k - 1].size)
  {
    assert es[..k][..k - 1] == es[..k - 1];
  }

  // ---------------------------------------------------------------------
  // update_signature and update_check_sum

  /** The file with the signature field set to the SHA-1 of everything after it. */
  function Signed(buf: seq<byte>, sha1: seq<byte> -> seq<byte>): (r: seq<byte>)
    requires |buf| >= 32 && |sha1(buf[32..])| == 20
    ensures |r| == |buf| && r[..12] == buf[..12] && r[32..] == buf[32..]
    ensures r[12..32] == sha1(buf[32..])
  {
    var r := buf[..12] + sha1(buf[32..]) + buf[32..];
    assert r[..12] == buf[..12] && r[12..32] == sha1(buf[32..]) && r[32..] == buf[32..];
    r
  }

  /** The file with the checksum field set to the Adler-32 of everything after it. */
  function Checksummed(buf: seq<byte>): (r: seq<byte>)
    requires |buf| >= 12
    ensures |r| == |buf| && r[..8] == buf[..8] && r[12..] == buf[12..]
    ensures FromLittleEndian(r[8..12]) == Item.Adler32(buf[12..])
  {
    var sum := LittleEndian(Item.Adler32(buf[12..]), 4);
    var r := buf[..8] + sum + buf[12..];
    assert r[..8] == buf[..8] && r[8..12] == sum && r[12..] == buf[12..];
    LittleEndianRoundTrip(Item.Adler32(buf[12..]), 4);
    r
  }

  /** update_signature: buf[12:32] = sha1(buf[32:]). */
  method UpdateSignature(buf: array<byte>, sha1: seq<byte> -> seq<byte>)
    requires buf.Length >= 32 && |sha1(buf[32..])| == 20
    modifies buf
    ensures buf[..] == Signed(old(buf[..]), sha1)
  {
    var sig := sha1(buf[32..]);
    ghost var before := buf[..];
    for k := 0 to 20
      invariant buf[..12] == before[..12] && buf[32..] == before[32..]
      invariant forall j | 0 <= j < k :: buf[12 + j] == sig[j]
      invariant forall j | 12 + k <= j < 32 :: buf[j] == before[j]
    {
      buf[12 + k] := sig[k];
    }
    assert buf[..] == buf[..12] + buf[12..32] + buf[32..];
    assert buf[12..32] == sig;
  }

  /** update_check_sum: buf[8:12] = pack('<I', adler32(buf[12:])). */
  method UpdateCheckSum(buf: array<byte>)
    requires buf.Length >= 12
    modifies buf
    ensures buf[..] == Checksummed(old(buf[..]))
  {
    var sum := LittleEndian(Item.Adler32(buf[12..]), 4);
    ghost var before := buf[..];
    for k := 0 to 4
      invariant buf[..8] == before[..8] && buf[12..] == before[12..]
      invariant forall j | 0 <= j < k :: buf[8 + j] == sum[j]
      invariant forall j | 8 + k <= j < 12 :: buf[j] == before[j]
    {
      buf[8 + k] := sum[k];
    }
    assert buf[..] == buf[..8] + buf[8..12] + buf[12..];
    assert buf[8..12] == sum;
  }

  /** With the signature computed first and the checksum second, the
      finished file carries a signature of its own tail and a checksum of
      its own tail, signature included; nothing else changes. */
  lemma SignatureThenChecksum(buf: seq<byte>, sha1: seq<byte> -> seq<byte>)
    requires |buf| >= 32 && |sha1(buf[32..])| == 20
    ensures var f := Checksummed(Signed(buf, sha1));
      && |f| == |buf| && f[..8] == buf[..8] && f[32..] == buf[32..]
      && f[12..32] == sha1(f[32..])
      && FromLittleEndian(f[8..12]) == Item.Adler32(f[12..])
  {
    var s := Signed(buf, sha1);
    var f := Checksummed(s);
    assert f[12..32] == s[12..32] && f[32..] == s[32..] by {
      assert f[12..] == s[12..];
    }
  }
}
