# dexassist in Dafny

A model of the core of dexassist, a Python library that reads an Android
Dalvik Executable (DEX) file into a normalised in-memory form
(`DexClassItem`, `DexMethod`, `DexField`, `DexValue`). Its bytecode editor
rewrites method bodies, and its writer serialises the result back into a DEX
file. The model covers these parts:

- **Bytes**: the byte-level building blocks of the writer's streams:
  - fixed-width little-endian packing with the range checks of Python's `struct`;
  - unsigned and signed LEB128;
  - 4-byte alignment.
- **OpcodeTable**: the opcode table: for each opcode byte, its instruction format, mnemonic and reference kinds.
- **Editor**: the method editor: its instruction list, code offsets, try ranges and labels, and `remove`, which replaces an instruction by nops.
- **Normalize**:
  - the access-flag predicates and the direct/virtual and static/instance partitions;
  - the type inference of encoded values and their `encoded_value` bytes (header byte, payload widths, arrays).
- **LegacyNormalize**: the older top-level copy of `normalize.py`, with lemmas that compare it with the dexassist copy.
- **Item**:
  - `calc_adler32` (the Adler-32 checksum of section 2.2 of RFC 1950);
  - the modified UTF-8 string encoding (`count_bytes`/`encode`), in which NUL becomes `C0 80`;
  - the partition in `ClassDataItem`;
  - `TryItem`'s instruction count.
- **Registers**: the parameter-register count, the outgoing-register scan and the register count written into a `code_item`.
- **Handlers**: the try-block pass of `write_code_item`. Equal try blocks share one `encoded_catch_handler`; the handler-list encoding has a decoder and a round trip.
- **ClassData**:
  - the index-delta encoding of the `encoded_field`/`encoded_method` lists, its inverse (running sums) and the LEB128 form of the entries;
  - the writer's `write_encoded_fields`/`write_encoded_methods` loop.
- **ClassDefs**: the 32-byte `class_def_item` and the `class_data_item` of one class, and the dependency relation the class order follows.
- **Writer**:
  - the `DexWriter` object, with its streams, counters and section offsets;
  - `write_code_item`, `write_class` (each class written once, with its superclass and interfaces of the dex before it) and `write_classes`.
- **Layout**:
  - where the data section starts, and that it is aligned;
  - `build_string_section` (a sorted, duplicate-free string list);
  - `write_section_info`, the header, `write_map_item_object` and the map list, whose count matches the entries written;
  - `update_signature` and `update_check_sum` over the finished buffer.
- **Converter**:
  - `create_dex_class`: the running sums of the index deltas of each encoded list, resolved through the id lists;
  - the method signature string and its inverse;
  - `create_dex_method`;
  - the `CodeStream` reader.

In Dafny:
- A Python exception is an `Err` of the `Result` type in `wrappers.dfy`. It names the exception's cause.
- Python's unbounded ints are `int`/`nat`. The explicit range checks of `struct.pack` are modelled where the source packs.
- Objects whose fields the source updates in place are classes: `DexWriter`, `DexMethod`, `DexClassItem`, `Editor`, `ClassDataItem` and `CodeStream`. Their methods carry `modifies` clauses.
- Loops in the source are `while` loops with invariants, proved against functions that state what the loop computes.

## Model

| member | source | states |
|---|---|---|
| Bytes.LittleEndianRoundTrip | dexassist/writer/dex/writer.py:1163-1167 | reading back the n little-endian bytes of x, for x below 256^n, gives x |
| Bytes.FromLittleEndianBound | dexassist/writer/dex/writer.py:1163-1167 | n little-endian bytes read back to a number below 256^n |
| Bytes.PackUnsigned | dexassist/writer/dex/writer.py:1163-1167 | unsigned `struct.pack` succeeds exactly when 0 <= x < 256^n; then it gives n bytes that read back to x, and otherwise it raises `struct.error` |
| Bytes.PackShort | dexassist/normalize.py:453-454 | `pack('<h')` succeeds exactly on -32768..32767, giving 2 bytes whose two's-complement reading is x |
| Bytes.ULeb128RoundTrip | dexassist/writer/dex/writer.py:929-941 | the LEB128 reader takes back every unsigned value written, stopping right after it |
| Bytes.SLeb128RoundTrip | dexassist/writer/dex/writer.py:703 | the signed LEB128 reader takes back every int written, negative ones included |
| Bytes.Align4 | dexassist/writer/dex/writer.py:603 | `align()` gives a multiple of 4, keeps the stream as a prefix and adds fewer than 4 zero bytes |
| Bytes.Align4Aligned | dexassist/writer/dex/writer.py:669 | aligning a stream that is already aligned adds nothing |
| Pools.Find | dexassist/writer/dex/writer.py:926 | a pool lookup gives the key's index, and `DanglingReference` exactly when the key is missing |
| Seqs.FilterAppend | dexassist/normalize.py:126-130 | filtering distributes over concatenation |
| Seqs.FilterPartition | dexassist/normalize.py:126-130 | two complementary filters keep, between them, every element exactly once |
| Seqs.SortBy | dexassist/normalize.py:98-124 | `list.sort(key=…)` gives a list sorted by key that is a permutation of the input |
| Seqs.Insert | dexassist/normalize.py:98-124 | inserting into a sorted list keeps it sorted and adds exactly one element |
| OpcodeTable.RefKind.Code | dexassist/writer/dex/writer.py:94-106 | the `INSTRUCT_TYPE_*` constants lie in 0..10 |
| OpcodeTable.RefKindCodeInjective | dexassist/writer/dex/writer.py:94-106 | two reference kinds share a constant exactly when they are the same kind |
| OpcodeTable.Format.Width | bytecodes/table.py:3-243 | every instruction format is 1 to 5 code units wide |
| OpcodeTable.Lookup | bytecodes/table.py:3-243 | the table has an entry exactly for 0x00–0xe2 and 0xfa–0xff, and no entry carries more than two reference kinds |
| OpcodeTable.UnusedSlotsAreNops | bytecodes/table.py:66-129 | 0x3e–0x43, 0x73, 0x79 and 0x7a are 10x "nop" with no reference |
| OpcodeTable.StringAndTypeReferences | bytecodes/table.py:30-41 | 0x1a/0x1b reference a STRING (21c/31c); 0x1c, 0x1f, 0x20 and 0x22–0x25 reference a TYPE |
| OpcodeTable.FieldReferences | bytecodes/table.py:87-114 | 0x52–0x5f are 22c FIELD instructions and 0x60–0x6d are 21c FIELD instructions |
| OpcodeTable.MethodReferences | bytecodes/table.py:115-126 | 0x6e–0x72 are 35c METHOD instructions and 0x74–0x78 are 3rc METHOD instructions |
| OpcodeTable.OdexReferences | bytecodes/table.py:237-242 | 0xfa and 0xfb carry CALL_METHOD then CALL_PROTO; 0xfe is METHOD_HANDLE and 0xff is PROTO |
| OpcodeTable.ArithmeticHasNoReferences | bytecodes/table.py:130-233 | every opcode 0x7b–0xe2 has an entry with no reference kind |
| OpcodeTable.MethodReferenceOpcodes | bytecodes/table.py:115-126 | an opcode carries a method reference exactly when it is in 0x6e–0x78 and is not 0x73 |
| OpcodeTable.InvokeStaticOpcodes | bytecodes/table.py:118-125 | the table's mnemonic is invoke-static or invoke-static/range exactly at 0x71 and 0x77, the opcodes the writer's invoke-static test takes |
| OpcodeTable.InvokePolymorphicOpcodes | bytecodes/table.py:237-239 | the table's mnemonic is invoke-polymorphic or invoke-polymorphic/range exactly at 0xfa and 0xfc, the opcodes the writer's invoke-polymorphic test takes |
| Editor.TotalWidthAppend | dexassist/bytecodes/editor.py:84-94 | the width of a concatenation is the sum of the widths |
| Editor.KeyIndex | dexassist/bytecodes/editor.py:84-94 | the first index whose unique key matches, or -1 exactly when none does |
| Editor.IndexOf | dexassist/bytecodes/editor.py:22-30 | `list.index`: the first position holding the element |
| Editor.NopsWidth | dexassist/bytecodes/editor.py:22-30 | n inserted nops are n code units wide |
| Editor.RemovePreservesTotalWidth | dexassist/bytecodes/editor.py:22-30 | `remove` leaves the method's total width unchanged |
| Editor.RemovePreservesEarlierOffset | dexassist/bytecodes/editor.py:22-94 | an instruction found before the removed one keeps its offset |
| Editor.RemovePreservesLaterOffset | dexassist/bytecodes/editor.py:22-94 | an instruction after the removed one keeps its offset, because the nops make up the removed width |
| Editor.RemovePreservesOffsets | dexassist/bytecodes/editor.py:22-94 | every keyed instruction other than the removed one keeps its offset |
| Editor.Editor.constructor | dexassist/bytecodes/editor.py:37-46 | a new editor has no instructions, tries or labels, and a zero key counter |
| Editor.Editor.NextUniqueKey | dexassist/bytecodes/editor.py:33-36 | `unique_key` increments the counter, returns the new value and changes nothing else |
| Editor.Editor.FindLabel | dexassist/bytecodes/editor.py:17-20 | the first label with the name, and None exactly when no label has it |
| Editor.Editor.GetOpcodeOffset | dexassist/bytecodes/editor.py:84-94 | the sum of the widths before the first instruction with the opcode's key, or -1 when none has it |
| Editor.Editor.IsInTry | dexassist/bytecodes/editor.py:78-117 | the first try block, in list order, whose inclusive range holds the opcode's offset, else None |
| Editor.IsInCodeCount | dexassist/bytecodes/editor.py:109-126 | `is_in(offset)` holds exactly for the `get_code_count()` code units that start at the offset of the try's start instruction |
| Editor.CodeCount | dexassist/bytecodes/editor.py:125-126 | `get_code_count()` is positive exactly when the try ends at or after its start |
| Editor.RemovePreservesIsIn | dexassist/bytecodes/editor.py:22-30 | after `remove`, a try block whose start and end are other instructions covers exactly the offsets it covered before |
| Editor.Editor.Remove | dexassist/bytecodes/editor.py:22-30 | raises `ValueError` when the opcode is absent; otherwise it puts `get_code_unit_count()` nops at its position and changes nothing else |
| Normalize.DexMethod.constructor | dexassist/normalize.py:226-242 | a new method keeps its arguments, with register count 0 and no code offset |
| Normalize.SortMethods | dexassist/normalize.py:98-101 | sorting by pool index raises when a method is missing from the pool; otherwise it gives a sorted permutation |
| Normalize.SortFields | dexassist/normalize.py:102-105 | the same for fields |
| Normalize.DexClassItem.constructor | dexassist/normalize.py:77-92 | a new class has `index` NO_INDEX and keeps its other arguments |
| Normalize.DexClassItem.GetSortedMethods | dexassist/normalize.py:98-101 | sorts the class's own method list in place: a sorted permutation of the old list |
| Normalize.DexClassItem.GetSortedFields | dexassist/normalize.py:102-105 | sorts the class's own field list in place: a sorted permutation of the old list |
| Normalize.DirectVirtualPartition | dexassist/normalize.py:126-265 | `get_direct_methods` and `get_virtual_methods` split `methods` by `is_direct_method`, each method in exactly one of them, in list order |
| Normalize.StaticInstancePartition | dexassist/normalize.py:106-114 | the static and instance field filters split `fields` in list order |
| Normalize.HasFlagIsTestBit | dexassist/normalize.py:266-271 | for every flags and k, `flags & 2**k != 0` holds exactly when bit k of flags is set |
| Normalize.AccessFlagBits | dexassist/normalize.py:266-271 | ACC_PRIVATE, ACC_STATIC and ACC_CONSTRUCTOR test bits 1, 3 and 16 |
| Normalize.DexField.IsStatic | dexassist/normalize.py:202-203 | `access_flags & 0x8`, read for its truth value, holds exactly when bit 3 is set |
| Normalize.DexMethod.IsPrivate | dexassist/normalize.py:266-267 | holds exactly when bit 1 (ACC_PRIVATE) of the access flags is set |
| Normalize.DexMethod.IsStatic | dexassist/normalize.py:268-269 | holds exactly when bit 3 (ACC_STATIC) is set |
| Normalize.DexMethod.IsConstructor | dexassist/normalize.py:270-271 | holds exactly when bit 16 (ACC_CONSTRUCTOR) is set |
| Normalize.DexMethod.IsDirectMethod | dexassist/normalize.py:262-265 | true exactly when bit 1, 3 or 16 is set; otherwise the method falls off its end and returns None, which is false |
| Normalize.DexClassItem.GetDirectMethods | dexassist/normalize.py:126-127 | every element is a direct method of the class, and every direct method of the class is in it |
| Normalize.DexClassItem.GetVirtualMethods | dexassist/normalize.py:129-130 | every element is a method of the class that is not direct, and every such method is in it |
| Normalize.DexClassItem.GetSortedStaticFields | dexassist/normalize.py:106-109 | it fails exactly when a static field is missing from the pool; otherwise the result is sorted by pool index and is a permutation of the static fields, each a static field of the class |
| Normalize.DexClassItem.GetSortedInstanceFields | dexassist/normalize.py:110-113 | the same for the instance fields |
| Normalize.DexClassItem.GetSortedDirectMethods | dexassist/normalize.py:115-118 | the same for the direct methods |
| Normalize.DexClassItem.GetSortedVirtualMethods | dexassist/normalize.py:121-124 | the same for the virtual methods |
| Normalize.InferType | dexassist/normalize.py:472-503 | one type per kind of value, or an error for what inference cannot classify |
| Normalize.GetType | dexassist/normalize.py:467-470 | an explicit type is returned as it is; AUTO is replaced by the inferred type, which is stored |
| Normalize.GetTypeExplicit | dexassist/normalize.py:467-470 | an explicit type is returned unchanged and the value is unchanged |
| Normalize.GetTypeIdempotent | dexassist/normalize.py:467-470 | a second `get_type` on the updated value gives the same type and stores nothing new |
| Normalize.InferencePrecedence | dexassist/normalize.py:473-479 | a wrapped DexValue gives its inner type, None gives NULL, a bool gives BOOLEAN before the int test, and a list gives ARRAY |
| Normalize.InferIntRanges | dexassist/normalize.py:480-503 | an int ≤ 0xff (every negative included) is BYTE, 256..32767 SHORT, ≤ 0xffffffff INT, ≤ 2^64−1 LONG, and a larger one raises |
| Normalize.InferStringsAndFloats | dexassist/normalize.py:489-495 | strings of any length infer STRING and floats infer DOUBLE |
| Normalize.ValueAsBytes | dexassist/normalize.py:406-445 | payload widths: BYTE 1, SHORT/CHAR 2, INT and the pool indices 4, LONG 8; BOOLEAN, NULL and ANNOTATION give no bytes; an ARRAY payload exists only for a list or the empty str; a non-empty str raises `AttributeError` and any other host `TypeError`; an unhandled type raises a plain `Exception` ("… is not implemented"), which the model labels `NotImplemented` |
| Normalize.Write1 | dexassist/normalize.py:446-447 | `struct.pack('<B')`: it succeeds exactly on an int in 0..255 and gives that one byte; anything else is `struct.error` |
| Normalize.SWrite2 | dexassist/normalize.py:453-454 | `'<h'`: it succeeds exactly on -32768..32767, with two bytes whose two's-complement reading is the value |
| Normalize.Write2 | dexassist/normalize.py:448-452 | a one-character string is replaced by its code point, and any other string raises `TypeError`; it succeeds exactly on 0..65535, with two bytes that read back as the value |
| Normalize.Write4 | dexassist/normalize.py:455-460 | `'<I'` succeeds exactly on 0..2**32-1, with four bytes that read back as the value; the `'<f'` fallback is `FloatEncoding` for numbers and `struct.error` for anything else |
| Normalize.Write8 | dexassist/normalize.py:461-465 | `'<Q'` succeeds exactly on 0..2**64-1, with eight bytes that read back as the value; the `'<d'` fallback is as for write_4 |
| Normalize.PayloadValue | dexassist/normalize.py:406-445 | a payload reads back as the value: unsigned little-endian for BYTE, CHAR, INT and LONG, signed for SHORT, the pool index for STRING, TYPE, METHOD, FIELD and ENUM; an ARRAY payload is its items' payloads concatenated, or nothing for the empty str |
| Normalize.ItemsAsBytesAppend | dexassist/normalize.py:436-440 | the array payload of two item lists together succeeds exactly when both do, and is the concatenation of the two |
| Normalize.HeaderRoundTrip | dexassist/normalize.py:363-372 | the header byte `(value_arg << 5) \| type` decodes to its two parts |
| Normalize.ValueArg | dexassist/normalize.py:366-370 | for a payload of 1 to 8 bytes value_arg fits the header's three bits; for BOOLEAN it is 1 exactly when the value is truthy, and 0 otherwise |
| Normalize.Encode | dexassist/normalize.py:363-379 | the header byte with value_arg = payload length − 1 (forced to 0 for BYTE/ARRAY/ANNOTATION/NULL and the truth value for BOOLEAN), then nothing for BOOLEAN/NULL, uleb(length) and the items for ARRAY, the payload otherwise |
| Normalize.EncodeScalarLayout | dexassist/normalize.py:363-397 | a scalar is its header and then its payload; the header names the type and, as value_arg, the payload length minus one |
| Normalize.EncodeBooleanNullLayout | dexassist/normalize.py:366-373 | BOOLEAN and NULL are the header byte alone, carrying the truth value, or 0 for NULL |
| Normalize.EncodeArrayLayout | dexassist/normalize.py:375-379 | an ARRAY that encodes is a list or the empty str; a list is the header with value_arg 0, uleb(item count), which reads back as the count, and then every item's encoding; the empty str is `1C 00` |
| Normalize.EncodeStrArray | dexassist/normalize.py:375-379 | a str typed as ARRAY encodes to `1C 00` when empty, and raises `AttributeError` otherwise, because its characters have no `value_as_byte` |
| Normalize.EncodeAnnotationLayout | dexassist/normalize.py:381-394 | an ANNOTATION is the header with value_arg 0, uleb(type index), uleb(element count) and then the elements |
| Normalize.EncodeAnnotationMismatch | dexassist/normalize.py:381-385 | a value typed ANNOTATION whose host is not an annotation raises `AttributeError` on `.type`; a DexField has a type, so its type is looked up first (a missing one fails the lookup) and `.elements` then raises `AttributeError` |
| Normalize.EncodeIntRoundTrip | dexassist/normalize.py:363-397 | an untyped int up to 2**64-1 encodes exactly when it is not negative; the header decodes to its inferred type and payload length, and the payload reads back as the int; a negative int is `struct.error` |
| Normalize.EncodeUnsignedByte | dexassist/normalize.py:363-410 | an untyped int in 0..255 encodes to the BYTE header 0x00 and itself |
| LegacyNormalize.InferType | normalize.py:220-239 | the legacy inference: no wrapped-value case, and an unclassified value falls through to None |
| LegacyNormalize.GetType | normalize.py:215-218 | an explicit type, or the inferred one, which is not stored |
| LegacyNormalize.GetTypeUncached | normalize.py:215-218 | repeated calls give the same answer and keep the AUTO type code |
| LegacyNormalize.InferencePrecedence | normalize.py:221-226 | None gives NULL, a bool gives BOOLEAN before int, and a list gives ARRAY |
| LegacyNormalize.InferIntRanges | normalize.py:227-235 | ≤ 0xff gives BYTE, ≤ 0xffff SHORT, ≤ 0xffffffff INT, ≤ 2^64−1 LONG, and larger falls through to None |
| LegacyNormalize.InferStrings | normalize.py:236-239 | a one-character string gives CHAR and any other string STRING |
| LegacyNormalize.HeaderByte | normalize.py:194-197 | the legacy header forces value_arg 0 for BYTE/ARRAY/ANNOTATION/NULL and BOOLEAN |
| LegacyNormalize.ValueArg | normalize.py:193-196 | for a payload of 1 to 8 bytes value_arg fits three bits, and a BOOLEAN always gets 0 |
| LegacyNormalize.BooleanHeaderDiffers | normalize.py:194-197 | a legacy BOOLEAN header is 0x1f whatever its truth value, where the dexassist header carries the truth value |
| LegacyNormalize.HeaderRulesAgree | normalize.py:194-197 | both header rules agree on every other type |
| LegacyNormalize.Write1 | normalize.py:209-210 | `write_1` is the single byte `value & 0xff`, which wraps negatives |
| LegacyNormalize.Write1Compared | normalize.py:209-210 | both `write_1` versions agree on 0..255; below 0 the dexassist one raises |
| LegacyNormalize.ProtoEqualsIffSameShape | normalize.py:133-138 | for protos whose shorty matches their types, legacy equality holds exactly when the return types and the parameters have the same shorty characters position by position; reference types are not compared |
| LegacyNormalize.DexassistEqualIsLegacyEqual | normalize.py:133-138 | protos equal in the dexassist sense (same return type and parameters) have the same dexassist key and are equal in the legacy sense |
| LegacyNormalize.ProtoEqualityCoarser | normalize.py:133-138 | two protos that share a shorty but differ in reference types are equal in the legacy copy and different in the dexassist copy |
| LegacyNormalize.InferenceDifferences | normalize.py:220-239 | the two inferences differ on a single character, on 32768..65535 and on a wrapped value |
| LegacyNormalize.InferenceAgreement | normalize.py:220-239 | everywhere else the two inferences agree |
| Item.Adler32 | writer/dex/item.py:41-47 | Adler-32 by its definition (section 2.2 of RFC 1950): a value below 2^32 |
| Item.CalcAdler32 | writer/dex/item.py:41-47 | the loop of `calc_adler32` gives exactly Adler-32 of the first `length` items; a length past the data raises `IndexError` |
| Item.CharLength | writer/dex/item.py:57-73 | a character takes 1 byte for 1..127, 2 for 0 and 128..2047, and 3 otherwise |
| Item.CountBytes | writer/dex/item.py:57-73 | `count_bytes(value, False)` is the sum of the character lengths, which is the length of the encoding |
| Item.CharBytes | writer/dex/item.py:81-100 | the 1-, 2- and 3-byte forms, with NUL as C0 80 |
| Item.Mutf8HasNoZeroByte | writer/dex/item.py:81-100 | no encoded string contains a 0 byte |
| Item.EncodeAsWritten | writer/dex/item.py:75-76 | `encode` as written raises `TypeError` on every string |
| Item.EncodeAsWrittenRejectsNul | writer/dex/item.py:75-76 | "\0" fails as written, where the corrected encoder writes C0 80 |
| Item.WriteChar | writer/dex/item.py:81-100 | one turn of the loop writes the character's bytes at the moving offset |
| Item.Encode | writer/dex/item.py:75-100 | the corrected `encode` fills a buffer of `count_bytes(value, False)` bytes with the modified UTF-8 form of the string |
| Item.Mutf8RoundTrip | writer/dex/item.py:81-100 | decoding the encoding gives back every string of characters below 0x10000 |
| Item.Mutf8 | writer/dex/item.py:81-100 | the encoding has exactly the length that `count_bytes(value, False)` computes |
| Item.DecodeMutf8 | writer/dex/item.py:81-100 | the decoder the round trip reads with yields at most one character per byte, and at least one for a non-empty input |
| Item.PartitionFields | writer/dex/item.py:372-377 | static fields go to one list and the rest to the other, each in list order |
| Item.ClassDataAsWritten | writer/dex/item.py:366-382 | as written, `__init__` raises `AttributeError` exactly when the class has a method, because `DexMethod` defines no `is_virtual`; a class without methods gets its fields split into static and instance fields |
| Item.ClassDataAsWrittenRejectsMethod | writer/dex/item.py:378 | a class with one method is rejected as written, while the corrected partition puts that method in exactly one list |
| Item.PartitionMethods | writer/dex/item.py:378-382 | the corrected method loop, reading `is_virtual` as "not `is_direct_method`": the direct methods go to one list and the others to the other, each in list order |
| Item.ClassDataItem.constructor | writer/dex/item.py:366-386 | with the corrected method loop (PartitionMethods) in place of the `is_virtual` call that raises as written (item.py:378): the four lists partition the fields and methods, and each `*_size` equals its list's length |
| Item.ClassDataSizes | writer/dex/item.py:372-386 | the static and instance lists are a permutation of the fields, every static-list field static and every instance-list field not; the direct and virtual lists of the corrected loop are a permutation of the methods; each pair of lengths adds up to the whole |
| Item.InsCount | writer/dex/item.py:508 | `ins_count` = end − start + 1 |
| Registers.GetParameterRegisterCount | dexassist/writer/dex/writer.py:111-122 | the loop gives ParameterRegisters: one per parameter, one more for each `J`/`D` parameter, and one for `this` unless static |
| Registers.ParameterRegisters | dexassist/writer/dex/writer.py:111-122 | between one and two registers per parameter, plus one for the receiver unless static |
| Registers.ParameterRegistersAppend | dexassist/writer/dex/writer.py:111-122 | the count adds up over a split parameter list, with the receiver counted once |
| Registers.OutsIsMaximum | dexassist/writer/dex/writer.py:619-647 | outs, unless 0, equals the register count of one of the body's method references, so it is their maximum |
| Registers.Outs | dexassist/writer/dex/writer.py:619-647 | outs is at least the register count of every method reference of the body, and 0 when the body has none |
| Registers.CallRegisters | dexassist/writer/dex/writer.py:625-641 | defined exactly for method references; outside invoke-polymorphic it lies between one register per parameter and two, plus one for the receiver unless the call is invoke-static |
| Registers.ScanInstructions | dexassist/writer/dex/writer.py:618-647 | the instruction loop sums the widths and keeps the running maximum of outgoing registers (polymorphic invokes use their own register count; invoke-static has no `this`) |
| Registers.FinalRegisterCount | dexassist/writer/dex/writer.py:606-650 | the register count written is max(stored, parameter registers), raised to max(outs, count) when outs > 5 |
| Handlers.HandlerSize | dexassist/writer/dex/writer.py:698-702 | the size written is n, or −(n−1) when the last handler has no exception type |
| Handlers.HandlerEntry | dexassist/writer/dex/writer.py:704-713 | a typed handler writes uleb(type index) then uleb(addr); the catch-all writes uleb(addr) alone |
| Handlers.HandlerPairsOk | dexassist/writer/dex/writer.py:704-713 | the handler entries encode exactly when every typed handler's type is in the type pool |
| Handlers.HandlerBlock | dexassist/writer/dex/writer.py:698-713 | a handler list is written exactly when every typed handler's type is in the type pool (otherwise a failed lookup), and it starts with sleb(size) |
| Handlers.HandlerBlockRoundTrip | dexassist/writer/dex/writer.py:698-713 | decoding a written handler list gives back its handlers in order, with their type indices |
| Handlers.ReadHandlerBlock | dexassist/writer/dex/writer.py:698-713 | a list read back holds size handlers when size > 0 and 1 - size otherwise; all but the last are typed, and the last is a catch-all exactly when size <= 0 |
| Handlers.Initial | dexassist/writer/dex/writer.py:672-676 | `handler_map` maps every key to 0 and the buffer starts with uleb(number of distinct keys) |
| Handlers.TryStep | dexassist/writer/dex/writer.py:678-713 | one loop turn keeps the map's keys and appends exactly one try_item |
| Handlers.TryFold | dexassist/writer/dex/writer.py:672-696 | after the loop the handler map has exactly the keys of the try blocks, and there is one try_item per block |
| Handlers.TryFoldValidates | dexassist/writer/dex/writer.py:679-685 | the pass fails whenever a try block starts past the code or has no handlers, and succeeds only when every block is valid |
| Handlers.TryStepEffect | dexassist/writer/dex/writer.py:687-696 | a key seen before reuses its offset; a new key gets the buffer's current end, where its handler list goes |
| Handlers.TryFoldSharing | dexassist/writer/dex/writer.py:672-696 | two try blocks share a handler offset exactly when their `str()` keys are equal |
| Handlers.TryFoldCount | dexassist/writer/dex/writer.py:672-696 | the count at the head of the handler buffer is the number of distinct keys, and as many distinct offsets are written |
| Handlers.TryFoldItems | dexassist/writer/dex/writer.py:680-683 | each try_item carries its block's start address and code count, in range for uint/ushort |
| Handlers.TryFoldNext | dexassist/writer/dex/writer.py:678-713 | the pass over one more block is one more step, which appends one item |
| ClassData.PrefixSumsOfDeltas | dexassist/writer/dex/writer.py:922-942 | the running sums of the written deltas give back the indices |
| ClassData.DeltasOfPrefixSums | dex/converter.py:84-85 | the deltas of the running sums give back the diffs |
| ClassData.DeltasNonNegative | dexassist/writer/dex/writer.py:922-942 | ascending indices have non-negative deltas |
| ClassData.ReadEntryRoundTrip | dexassist/writer/dex/writer.py:929-941 | an encoded entry reads back whole |
| ClassData.ReadEntriesRoundTrip | dexassist/writer/dex/writer.py:922-942 | an encoded list reads back whole and stops right after itself |
| ClassData.EncodeFromCorrect | dexassist/writer/dex/writer.py:922-942 | the encoding succeeds exactly when every member is in the pool and the indices ascend; then it writes the index deltas (prev starting at 0), the flags and the code offsets, and the running sums give back the pool indices |
| ClassData.EncodeFrom | dexassist/writer/dex/writer.py:922-942 | a list that encodes has one entry per member; the only failures are a member missing from the pool and a negative delta |
| ClassDefs.RefName | dexassist/writer/dex/writer.py:880 | the type a superclass entry is looked up by; an empty entry has no type index |
| ClassDefs.SourceName | dexassist/writer/dex/writer.py:882 | a source file name of None has no string index |
| ClassDefs.SortedLists | dexassist/normalize.py:106-124 | the four sorted lists are the filtered lists sorted by pool index |
| ClassDefs.SortedListsEncode | dexassist/writer/dex/writer.py:887-920 | once sorted by pool index, the four lists encode without a negative delta |
| ClassDefs.ClassDefHeadLayout | dexassist/writer/dex/writer.py:878-883 | the first six uints of the class_def_item read back at their offsets as the looked-up indices and the stored flags |
| ClassDefs.ClassDefHead | dexassist/writer/dex/writer.py:880-885 | the six head words take 24 bytes; ClassDefHeadLayout states what each reads back as |
| ClassDefs.ClassDefWords | dexassist/writer/dex/writer.py:878-904 | the class_def_item is 32 bytes, and the lists it is built from are the class's sorted static, instance, direct and virtual lists |
| ClassDefs.ClassDefLayout | dexassist/writer/dex/writer.py:878-920 | `class_data_off` points at the class_data_item when the class has data and is 0 otherwise; `static_values_off` is 0 without static initializers |
| ClassDefs.ClassDef | dexassist/writer/dex/writer.py:878-918 | the class_def_item is 32 bytes, and the class_data_item is non-empty exactly when one of the sorted lists is |
| Writer.BuildHandlerMap | dexassist/writer/dex/writer.py:672-675 | the loop gives the map of every try block's key to 0 |
| Writer.CodeItemHeader | dexassist/writer/dex/writer.py:650-661 | it succeeds exactly when registers, ins, outs and tries fit a ushort and debug_info_off and insns_size fit a uint; the 16 bytes read back as the six values at their offsets |
| Writer.TryItemBytes | dexassist/writer/dex/writer.py:681-692 | 8 bytes, from which start_addr, insn_count and handler_off read back at offsets 0, 4 and 6 when they are in range |
| Writer.CodeItem | dexassist/writer/dex/writer.py:603-717 | it succeeds exactly when the header packs and, with try blocks, the try pass succeeds; the stream is aligned, then holds the header and the instructions; with try blocks it is aligned again and followed by the try_items and the handler lists |
| Writer.CountRegisters | dexassist/writer/dex/writer.py:606-650 | the register pass computes the parameter registers, the code units, the outs and the final register count |
| Writer.EncodeCodeItem | dexassist/writer/dex/writer.py:603-717 | the code_item bytes: alignment, the 16-byte header, the instructions, then the try_items and handler buffer when there are try blocks |
| Writer.WriteTries | dexassist/writer/dex/writer.py:668-713 | the try loop writes exactly the bytes of the try pass, failing as it fails |
| Writer.NextTry | dexassist/writer/dex/writer.py:678-713 | one turn of the try loop is one step of the try pass: it fails as the pass fails, and otherwise the buffer holds the try_items so far |
| Writer.TryFoldStopsAt | dexassist/writer/dex/writer.py:679-685 | once the pass fails at a block it fails for the whole list |
| Writer.DexWriter.WriteCodeItem | dexassist/writer/dex/writer.py:594-717 | returns -1 with nothing written for an empty body without debug info; otherwise it counts the code_item and raises the register count first, even when a later step fails; on success it appends the code_item at the aligned offset, and on an error the code stream at most grows |
| Writer.DexWriter.WrittenOnce | dexassist/writer/dex/writer.py:865-867 | no class appears twice among the written classes |
| Writer.DexWriter.WriteClass | dexassist/writer/dex/writer.py:865-920 | a class outside the dex or already indexed is skipped with nothing written; otherwise the class is written last, after its dependencies, the bookkeeping stays consistent, and the index and offset streams grow by exactly the class_def_items and class_data_items of the logged classes, in order, each class_data_item at its running offset |
| Writer.DexWriter.WriteFreshClass | dexassist/writer/dex/writer.py:869-920 | a class without an index is written, once and last, after its superclass and interfaces; the streams grow by exactly the logged items, in order |
| Writer.DexWriter.Complete | dexassist/writer/dex/writer.py:874-920 | once the dependencies are settled the class takes the next index and leaves the running calls; the streams still hold exactly the items logged since the call began |
| Writer.DexWriter.VisitDependencies | dexassist/writer/dex/writer.py:871-873 | after the superclass and then each interface went through `write_class`, each of them is written or still being written, the bookkeeping stays consistent, and the streams grow by exactly the logged items |
| Writer.DexWriter.VisitInterfaces | dexassist/writer/dex/writer.py:872-873 | after each interface went through `write_class` in order, each is written or still being written; classes only get appended to the written list, and the streams grow by exactly the logged items |
| Writer.DexWriter.VisitInterface | dexassist/writer/dex/writer.py:872-873 | one more interface settled, with the loop's bookkeeping and the logged stream growth kept |
| Writer.DexWriter.FinishClass | dexassist/writer/dex/writer.py:874-920 | the class takes the next index and leaves the running calls, the bookkeeping stays consistent (and in dependency order under a rank); the index stream grows by the 32-byte class_def_item and the offset stream by the class_data_item that ClassDef builds for the class at the offset stream's end |
| Writer.DexWriter.TakeIndex | dexassist/writer/dex/writer.py:874-875 | the class becomes the last written, with index equal to its position; every class of the dex has an index exactly when it is written or being written |
| Writer.DexWriter.WriteLogged | dexassist/writer/dex/writer.py:878-920 | the streams grow by exactly the ClassDef bytes of the class, which are logged with it, and fail as ClassDef fails |
| Writer.DexWriter.WriteClasses | dexassist/writer/dex/writer.py:856-863 | every class ends up written once, each dependency of the dex is written too (before it, under an acyclic rank), the section offsets are recorded, and the streams hold exactly the logged items in written order, 32 bytes of class_def_item per class |
| Writer.DexWriter.WriteEach | dexassist/writer/dex/writer.py:859-863 | the loop over the class list leaves every listed class written, no call running, and the streams grown by exactly the logged items |
| Writer.DexWriter.WriteClassDef | dexassist/writer/dex/writer.py:878-920 | the class_def_item goes to the index stream and the class_data_item, if any, to the offset stream; `num_class_data_items` counts it; the class_def_item is 32 bytes |
| Writer.DexWriter.WriteClassDefWords | dexassist/writer/dex/writer.py:878-904 | appends the 32 bytes of ClassDefWords to the index stream, and nothing when a lookup fails |
| Writer.DexWriter.WriteClassDataIfAny | dexassist/writer/dex/writer.py:898-918 | writes nothing for a class without data; otherwise it appends the class_data_item to the offset stream and counts it |
| Writer.DexWriter.WriteClassData | dexassist/writer/dex/writer.py:908-918 | appends the four sizes and the four delta-encoded lists to the offset stream, and counts one class_data_item |
| Writer.DexWriter.WriteEncoded | dexassist/writer/dex/writer.py:922-942 | the loop writes exactly the entries of the delta encoding |
| Layout.DataSectionOffsetIsEnd | dexassist/writer/dex/writer.py:303-313 | the data section starts where the last id section ends |
| Layout.IdSectionsFill | dexassist/writer/dex/writer.py:487-502 | the call-site and method-handle writers start at their section starts, and the method handles end at the data section |
| Layout.DataSectionOffset | dexassist/writer/dex/writer.py:303-313 | the data section offset is a multiple of 4 and at least 0x70 |
| Layout.StrLessTotal | dexassist/writer/dex/writer.py:207-208 | Python string order is total |
| Layout.StrLessTransitive | dexassist/writer/dex/writer.py:207-208 | Python string order is transitive |
| Layout.StrictlySortedDistinct | dexassist/writer/dex/writer.py:197-210 | a strictly sorted list holds each string once |
| Layout.InsertSorted | dexassist/writer/dex/writer.py:207-208 | inserting a new string keeps the list strictly sorted and adds exactly that string |
| Layout.BuildStringSection | dexassist/writer/dex/writer.py:197-210 | the string section is strictly sorted and holds exactly the non-None related and external strings |
| Layout.SectionInfo | dexassist/writer/dex/writer.py:1163-1167 | two uints: the count, then the offset, or 0 when the count is 0; it fails exactly when one of them is out of range |
| Layout.SectionTable | dexassist/writer/dex/writer.py:1153-1158 | 48 bytes: the section_info of strings, types, protos, fields, methods and classes, eight bytes each in that order; it fails exactly when one of them fails |
| Layout.HeaderPrefix | dexassist/writer/dex/writer.py:1133-1149 | 56 bytes: the magic `dex\n035\0`, zero checksum and signature, the file size at offset 32 |
| Layout.HeaderLayout | dexassist/writer/dex/writer.py:1136-1161 | the header fills 0x70 bytes with the magic, zero checksum and signature and the file size; a data offset beyond the file size is refused |
| Layout.Header | dexassist/writer/dex/writer.py:1136-1161 | it succeeds exactly when the file size and map offset fit a uint, the section table packs and the data offset lies between 0 and the file size; the 112 bytes hold the map offset at 52, the section table at 56, and the data size and data offset at 104 and 108 |
| Layout.MapItemObject | dexassist/writer/dex/writer.py:774-780 | a non-empty section writes 12 bytes, and does so exactly when the type fits a ushort and the count and offset fit a uint; they read back as the type, a zero ushort, the count and the offset; an empty section writes nothing |
| Layout.MapItems | dexassist/writer/dex/writer.py:743-772 | the entries take 12 bytes each for the non-empty ones |
| Layout.MapListCountMatches | dexassist/writer/dex/writer.py:719-772 | `calc_map_list_item_count` equals the number of entries `write_map_item` writes |
| Layout.MapListItemCount | dexassist/writer/dex/writer.py:719-741 | the header, the map list and the annotation set, which is always written, are always counted, so the count is at least 3; MapListCountMatches ties it to the entries written |
| Layout.MapList | dexassist/writer/dex/writer.py:743-772 | the map_list is a uint that reads back as `calc_map_list_item_count`, followed by 12 bytes for each entry written |
| Layout.WrittenFive | dexassist/writer/dex/writer.py:774-780 | five entries write exactly those whose size is positive |
| Layout.UpdateSignature | dexassist/writer/dex/writer.py:1177-1184 | buf[12:32] becomes sha1(buf[32:]) and nothing else changes |
| Layout.UpdateCheckSum | dexassist/writer/dex/writer.py:1169-1173 | buf[8:12] becomes the little-endian Adler-32 of buf[12:] and nothing else changes |
| Layout.Signed | dexassist/writer/dex/writer.py:1177-1184 | only bytes 12 to 32 change, and they become the SHA-1 of bytes 32 onward |
| Layout.Checksummed | dexassist/writer/dex/writer.py:1169-1173 | only bytes 8 to 12 change, and they read back as the Adler-32 of bytes 12 onward |
| Layout.SignatureThenChecksum | dexassist/writer/dex/writer.py:531-532 | the finished file carries the signature of its own tail and the checksum of its own tail (signature included); the rest is unchanged |
| Converter.At | dex/converter.py:87 | Python list indexing: Ok exactly for −len ≤ i < len, and `IndexError` otherwise |
| Converter.TypeNames | dex/converter.py:48-124 | the type names of a list of indices, and `IndexError` exactly when one index is out of range |
| Converter.ResolveField | dex/converter.py:87-91 | the field record at an index: the field_id, its name and type name, or `IndexError` |
| Converter.ResolveMethodOk | dex/converter.py:108-125 | a method resolves exactly when its parameters and return type resolve, to the name, flags, signature and code |
| Converter.Parameters | dex/converter.py:119-124 | one type name per entry of the proto's type list, none without a list; a failed lookup is an `IndexError` |
| Converter.ResolveMethod | dex/converter.py:108-125 | every failure of a method lookup is an `IndexError`; a resolved method keeps the entry's access flags and code |
| Converter.CreateDexMethod | dex/converter.py:168-172 | the corrected `create_dex_method` builds the method with the given name, flags, signature and code |
| Converter.CreateDexMethodAlwaysFails | dex/converter.py:168-172 | as written it raises on every method: `UnboundLocalError` without code and `TypeError` with code |
| Converter.CreateDexMethodAsWritten | dex/converter.py:168-172 | `create_dex_method` as written fails on every input: `UnboundLocalError` without code, `TypeError` with code |
| Converter.AsWrittenDirectMethodFails | dex/converter.py:106-172 | a class with any resolvable direct method fails as written, although the corrected conversion converts it |
| Converter.IndexOf | dex/converter.py:125 | the first position of a character, or None when it is absent |
| Converter.SplitSignatureInverse | dex/converter.py:125-153 | for a return type without '(', the signature splits back into the return type and the joined parameter types |
| Converter.SplitSignature | dex/converter.py:125-153 | a string that splits is its return type, which holds no '(', then '(', the parameter string and ')' |
| Converter.AccumulateAt | dex/converter.py:84-93 | a list converts exactly when every entry resolves at the running sum of the diffs to it; entry i becomes that resolution |
| Converter.AccumulateFirstError | dex/converter.py:84-93 | a failing list fails with the error of its first entry that does not resolve |
| Converter.AccumulateList | dex/converter.py:84-93 | the loop (index from 0, `+= diff`, resolve, append) computes exactly the list conversion |
| Converter.Accumulate | dex/converter.py:84-93 | a converted list has one record per entry |
| Converter.SourceFileName | dex/converter.py:50-55 | the source file name exactly when the index is nonzero and in the string list; otherwise it stays None |
| Converter.CreateDexClass | dex/converter.py:43-160 | the method computes exactly the class conversion |
| Converter.ConvertClassHeader | dex/converter.py:43-82 | type, superclass and interfaces come from the type list (`IndexError` when out of range); a class without data has no fields or methods |
| Converter.ConvertClass | dex/converter.py:43-160 | every failure of the conversion is an `IndexError`; the class keeps its access flags; with class data it has as many fields as static and instance entries and as many methods as direct and virtual entries |
| Converter.ConvertClassLists | dex/converter.py:84-157 | fields are the static then the instance list; methods are the direct then the virtual list |
| Converter.ConvertClassFields | dex/converter.py:81-104 | static field i is resolved at the i-th running sum from 0, and instance field i at the i-th running sum restarted from 0 |
| Converter.ConvertClassMethods | dex/converter.py:105-157 | direct method i is resolved at the i-th running sum from 0, and virtual method i at the i-th running sum restarted from 0 |
| Converter.ReadsBackWrittenIndices | dex/converter.py:84-85 | for every member list the writer can encode, the running sums over the written entries land on the pool indices the writer looked up, with the flags and code offsets |
| Converter.CodeStream.constructor | dex/converter.py:205-208 | a new stream is at index 0 over the given code units |
| Converter.CodeStream.Peek | dex/converter.py:209-210 | the code unit at index, or `IndexError` past the end; reading it changes nothing |
| Converter.CodeStream.Read | dex/converter.py:211-214 | returns what `peek` gave and advances by exactly 1 when it succeeded, and not at all when it raised |

## Left out

- Output streams (`OutputStream`, `TempOutputStream`, `InstructionWriter` in stream.py) are not part of this model. A stream is a byte sequence, with LEB128 and zero padding as written at the call sites.
- The pool `Section` classes (section.py) are not part of this model. A pool is a map from an item's key to its index.
- SHA-1 (`hashlib`) is a function parameter of `UpdateSignature`. `zlib.adler32` is modelled by `Item.Adler32`.
- Float and double payloads (`struct '<f'`/`'<d'`): floating-point encoding is out of scope, and the model returns `FloatEncoding` there.
- The `DexWriteItem` base class, `Offset` and the descriptor machinery in item.py are not modelled, because the writer does not use them. Of its subclasses, `ClassDataItem` (`Item.ClassDataItem`) and the string encoder (`Item.Encode`) are modelled; the try_item bytes are written as in writer.py (`Writer.TryItemBytes`).
- Writer.DexWriter.WriteCodeItem: writer.py:565 creates one handler buffer (`ehbuf`) for every code_item and passes it to each call (584). The model assumes that `write_to` (715-716) empties it, so each method's handler list starts at offset 0 (`Handlers.Initial`). stream.py, which decides this, is not part of this model.
- Item.Encode / Item.CountBytes: `value` is read as the code points `ord(value[i])`. In the source `value` is a `str`, so the comparison `ch <= 127` would raise `TypeError` as written.
- The `NegativeLeb128` error for a negative uleb value is an assumption about `write_uleb` in stream.py, which is not part of this model. Sorted lists never produce a negative delta (`SortedListsEncode`), so this error cannot occur.
- Normalize.Write4 / Normalize.Write8: for an int outside the unsigned range, the source falls back to `'<f'`/`'<d'`, which Python packs as a float. The model reports `FloatEncoding` there instead.
- `write_uleb`, `write_sleb` and `count_bytes(value, True)` in item.py never terminate on some inputs. `Item.CountBytes` requires a total within 65535 when `is_short_length` holds.
- The instruction loop of `CodeItemReader`: it depends on `base.OpcodeFactory`, which is not part of this model. The try conversion there is dead code (`and False`).
- `code_to_editor`: the model keeps the code_item in place of the editor built from it.
- Annotation and static-value tables in `create_dex_class`, and `translate_encoded_value`: they read attributes of parser objects (dex.py is not part of this model).
- `create_dex_class`'s print on a missing source-file string: the model keeps only the outcome, which is that the name stays None.
- `Label.__init__` and `Editor.__init__`'s key assignment are not modelled: one calls a method that does not exist, and the other iterates an empty list.
- The legacy `DexValue.encode`/`value_as_byte`/`write_2`/`write_4`: they call undefined names.
- `__eq__`/`__hash__` are modelled as explicit structural keys (`Key()`), not Python hashes.
- Multidex, `DexWriter.write`, the debug-info/call-site/method-handle writers, `verify_dex`/`check_intra_section`, logging, and test.py.
- Writer.DexWriter.WriteClass: the order "dependencies before the class" is proved only under an acyclic rank of the class graph. On a cycle, write_class terminates through its provisional index and the model promises only that every class is written once.
- Writer.DexWriter.FinishClass: when a lookup fails halfway, the model leaves the streams as they were; the source may already have written part of the class_def_item. An error ends the whole write either way.
- Writer.DexWriter.WriteClass: the streams are stated to grow by exactly the class_def_items and class_data_items of the logged classes, in order, each class_data_item at its running offset. That each logged item is the bytes ClassDef builds for its class is stated where the item is appended (FinishClass, WriteLogged) and is not carried through the recursion, because ClassDef reads the methods' code_item offsets from the heap.
- Writer.DexWriter.WriteFreshClass: the same as WriteClass: the logged items are tied to ClassDef only where FinishClass appends them.
- Writer.DexWriter.VisitDependencies: the same as WriteClass.
- Writer.DexWriter.VisitInterfaces: the same as WriteClass.
- Writer.DexWriter.WriteClasses: the same as WriteClass: the streams are the logged items in written order, but the model does not state again that each is the ClassDef of its class.
- Writer.DexWriter.WriteCodeItem: on an error the source has already aligned the code stream (writer.py:603) and may have written part of the header (650-661) or some try_items (681-685) before it raises. The model leaves the stream as it was and promises only that it does not shrink; an error ends the whole write.
- Normalize.ValueAsBytes / Normalize.Encode: a `list` given to `write_encoded_value` whose items are not `DexValue`s (writer.py:1125-1131) cannot be represented, because the model's array items are `DexValue`s. The source raises `AttributeError` on such a list when it calls `value_as_byte` on a plain item (normalize.py:438).
- OpcodeTable.Lookup: bytecodes/table.py is modelled as its dictionary literal. As written the file does not load: it imports only `base` (table.py:1) and uses the `INSTRUCT_TYPE_*` names without defining them, so importing it raises `NameError`. The model takes their values from writer.py:94-106.
- Normalize.Encode: a host the model does not classify (`OtherHost`) that is typed ANNOTATION is taken to have no `.type` attribute, so it raises `AttributeError`.
- OpcodeTable.IsInvokeStatic / OpcodeTable.IsInvokePolymorphic: they stand for `InstructionUtil.is_invoke_static` and `is_invoke_polymorphic` (called at writer.py:628 and 637). util.py, which defines them, is not part of this model. The model takes invoke-static to be 0x71 and 0x77 and invoke-polymorphic to be 0xfa and 0xfc. table.py:236-239 labels 0xfb invoke-custom and 0xfc invoke-polymorphic/range.
- Editor.TotalWidth / Editor.Nops: one instruction width stands for both `len(x)` (editor.py:93) and `get_code_unit_count()` (editor.py:29), and the nop `remove` inserts is taken to be one code unit wide. base.py, which defines the instruction classes, is not part of this model.
- Editor.IndexOf / Editor.Editor.Remove: `list.index` and `list.remove` (editor.py:23-25) compare with `==`, which is object identity unless base.py defines `__eq__`. The model compares instructions structurally (key, opcode, width, operand, register count), so two distinct instruction objects with the same fields count as one element here.
- Normalize.GetType: `DexValue` is a value, so the cache that `get_type` stores arrives as a returned updated value, not as a mutation that other references would see.
- Converter.CreateDexClass: the `DexClassItem` it fills is returned as a value (`ClassRecord`); no other reference to it exists while it is built.

## Findings

| source | as written | input that shows it | evidently intended | confidence | as-written member | corrected member |
|---|---|---|---|---|---|---|
| writer/dex/item.py:76 | `bytearray(self.count_bytes(True))` calls `count_bytes` with one argument where it takes two | any string, e.g. "\0" | a buffer sized by `count_bytes(value, False)`, which equals `count_bytes(value, True)` for totals up to 65535; the characters must also be read as `ord(value[i])` | high (not executed) | Item.EncodeAsWritten | Item.Encode |
| writer/dex/item.py:378 | `m.is_virtual()` is called, but `DexMethod` defines no `is_virtual` | any class with at least one method | a method is virtual exactly when it is not `is_direct_method()` | high (not executed) | Item.ClassDataAsWritten | Item.PartitionMethods |
| dex/converter.py:168-172 | `x` is assigned only when the method has code, and `DexMethod` is called with five of its seven arguments | any class whose data holds a direct or virtual method | a method built from its name, flags, signature and code | high (not executed) | Converter.CreateDexMethodAsWritten | Converter.CreateDexMethod |
