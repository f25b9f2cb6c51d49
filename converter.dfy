/** The reading side of dexassist. create_dex_class turns a parsed
    class_def_item and its class_data_item into a normalised class: each of
    the four encoded lists carries index deltas, which the converter sums
    from 0 and resolves through the id lists of the file. create_dex_method
    builds a method from the resolved name, flags and signature string, and
    CodeStream walks the code units of a code_item. */
module Converter {
  import opened Wrappers
  import opened Seqs
  import opened ClassData
  import opened Normalize

  // ---------------------------------------------------------------------
  // The parsed file

  /** A field_id_item: the defining class, the field's type and its name. */
  datatype FieldId = FieldId(classIdx: nat, typeIdx: nat, nameIdx: nat)

  /** A method_id_item: the defining class, the prototype and the name. */
  datatype MethodId = MethodId(classIdx: nat, protoIdx: nat, nameIdx: nat)

  /** A proto_id_item: the return type and the parameter type list, which is
      absent for a method without parameters. */
  datatype ProtoId = ProtoId(returnTypeIdx: nat, typeList: Option<seq<nat>>)

  /** The id lists of the parsed file, the `manager` of the converter. */
  datatype Manager = Manager(stringList: seq<string>, typeList: seq<string>, fieldList: seq<FieldId>,
                             methodList: seq<MethodId>, protoList: seq<ProtoId>)

  /** The four encoded lists of a class_data_item. */
  datatype ClassDataLists = ClassDataLists(staticFields: seq<Entry>, instanceFields: seq<Entry>,
                                           directMethods: seq<Entry>, virtualMethods: seq<Entry>)

  /** The parts of a class_def_item the converter reads; data is None for a
      class without a class_data_item. */
  datatype ClassDefItem = ClassDefItem(classIdx: nat, accessFlags: nat, superclassIdx: nat,
                                       interfaces: seq<nat>, sourceFileIdx: nat, data: Option<ClassDataLists>)

  // ---------------------------------------------------------------------
  // What the converter builds

  /** A DexField as create_dex_field makes it. */
  datatype FieldRecord = FieldRecord(name: string, fieldType: string, accessFlags: nat)

  /** A method as create_dex_method is meant to make it; code stands for the
      code_item the method's editor is built from. */
  datatype MethodRecord = MethodRecord(name: string, accessFlags: nat, signature: string, code: Option<nat>)

  /** A DexClassItem as create_dex_class fills it; its name is its type. */
  datatype ClassRecord = ClassRecord(classType: string, accessFlags: nat, superclass: string,
                                     interfaces: seq<string>, sourceFileName: Option<string>,
                                     fields: seq<FieldRecord>, methods: seq<MethodRecord>)

  // ---------------------------------------------------------------------
  // Lookups

  /** Python list indexing: a negative index counts from the end, and
      anything outside the list raises IndexError. */
  function At<T>(s: seq<T>, i: int): (r: Result<T>)
    ensures r.Ok? <==> -|s| <= i < |s|
    ensures r.Err? ==> r.error == IndexError
    ensures r.Ok? && 0 <= i ==> r.value == s[i]
  {
    if 0 <= i < |s| then Ok(s[i])
    else if -|s| <= i < 0 then Ok(s[|s| + i])
    else Err(IndexError)
  }

  /** The type names of a list of type indices, as the interface list and
      the parameter loop look them up one by one. */
  function TypeNames(m: Manager, idxs: seq<nat>): (r: Result<seq<string>>)
    ensures r.Ok? <==> forall i | 0 <= i < |idxs| :: idxs[i] < |m.typeList|
    ensures r.Err? ==> r.error == IndexError
    ensures r.Ok? ==> |r.value| == |idxs| && forall i | 0 <= i < |idxs| :: r.value[i] == m.typeList[idxs[i]]
    decreases |idxs|
  {
    if |idxs| == 0 then Ok([])
    else
      var t :- At(m.typeList, idxs[0]);
      var rest :- TypeNames(m, idxs[1..]);
      assert forall i | 0 < i < |idxs| :: idxs[i] == idxs[1..][i - 1];
      Ok([t] + rest)
  }

  /** The field at index idx: its field_id, then its name and type name. */
  function ResolveField(m: Manager, idx: int, accessFlags: nat): (r: Result<FieldRecord>)
    ensures r.Ok? <==> (-|m.fieldList| <= idx < |m.fieldList| &&
                        var f := At(m.fieldList, idx).value;
                        f.nameIdx < |m.stringList| && f.typeIdx < |m.typeList|)
    ensures r.Err? ==> r.error == IndexError
    ensures r.Ok? && 0 <= idx ==>
      var f := m.fieldList[idx];
      r.value == FieldRecord(m.stringList[f.nameIdx], m.typeList[f.typeIdx], accessFlags)
  {
    var field :- At(m.fieldList, idx);
    var name :- At(m.stringList, field.nameIdx);
    var typeName :- At(m.typeList, field.typeIdx);
    Ok(FieldRecord(name, typeName, accessFlags))
  }

  /** The parameter type names of a prototype, none when it has no list. */
  function Parameters(m: Manager, proto: ProtoId): (r: Result<seq<string>>)
    ensures r.Err? ==> r.error == IndexError
    ensures r.Ok? ==> |r.value| == (if proto.typeList.None? then 0 else |proto.typeList.value|)
  {
    if proto.typeList.None? then Ok([]) else TypeNames(m, proto.typeList.value)
  }

  /** The method at index idx: its method_id, its name, its prototype, the
      parameter types and then the return type, and from them the method. */
  function ResolveMethod(m: Manager, idx: int, e: Entry): (r: Result<MethodRecord>)
    ensures r.Err? ==> r.error == IndexError
    ensures r.Ok? ==> r.value.accessFlags == e.accessFlags && r.value.code == e.code
  {
    var mid :- At(m.methodList, idx);
    var name :- At(m.stringList, mid.nameIdx);
    var proto :- At(m.protoList, mid.protoIdx);
    var params :- Parameters(m, proto);
    var returnType :- At(m.typeList, proto.returnTypeIdx);
    CreateDexMethod(name, e.accessFlags, MethodSignature(returnType, params), e.code)
  }

  /** A method the converter resolves at an index it can read: its name and
      its signature, made of the prototype's return type and parameters. */
  lemma ResolveMethodOk(m: Manager, idx: nat, e: Entry)
    requires idx < |m.methodList|
    requires m.methodList[idx].nameIdx < |m.stringList| && m.methodList[idx].protoIdx < |m.protoList|
    ensures var proto := m.protoList[m.methodList[idx].protoIdx];
      var params := Parameters(m, proto);
      && (ResolveMethod(m, idx, e).Ok? <==> params.Ok? && proto.returnTypeIdx < |m.typeList|)
      && (ResolveMethod(m, idx, e).Ok? ==>
           ResolveMethod(m, idx, e).value ==
             MethodRecord(m.stringList[m.methodList[idx].nameIdx], e.accessFlags,
                          MethodSignature(m.typeList[proto.returnTypeIdx], params.value), e.code))
  {
  }

  // ---------------------------------------------------------------------
  // create_dex_method

  /** create_dex_method as it is meant to work: the method with the name,
      flags and signature it was handed, and its code when it has some. */
  function CreateDexMethod(name: string, accessFlags: nat, signature: string, code: Option<nat>): (r: Result<MethodRecord>)
    ensures r.Ok? && r.value.name == name && r.value.accessFlags == accessFlags
    ensures r.value.signature == signature && r.value.code == code
  {
    Ok(MethodRecord(name, accessFlags, signature, code))
  }

  /** create_dex_method as written: x is assigned only when there is code, so
      a method without code reads it unbound; with code, DexMethod is called
      with five of the seven arguments its constructor takes. */
  function CreateDexMethodAsWritten(name: string, accessFlags: nat, signature: string, code: Option<nat>): (r: Result<MethodRecord>)
    ensures r.Err?
    ensures code.None? ==> r.error == UnboundLocal
    ensures code.Some? ==> r.error == TypeError
  {
    if code.None? then Err(UnboundLocal) else Err(TypeError)
  }

  /** Whatever the method, the code as written raises where the intended
      code builds the method. */
  lemma CreateDexMethodAlwaysFails(name: string, accessFlags: nat, signature: string, code: Option<nat>)
    ensures CreateDexMethodAsWritten(name, accessFlags, signature, code).Err?
    ensures CreateDexMethod(name, accessFlags, signature, code).Ok?
    ensures code.None? ==> CreateDexMethodAsWritten(name, accessFlags, signature, code).error == UnboundLocal
    ensures code.Some? ==> CreateDexMethodAsWritten(name, accessFlags, signature, code).error == TypeError
  {
  }

  /** So a class with even one direct method cannot be converted as
      written, whatever the method list holds. */
  lemma AsWrittenDirectMethodFails(m: Manager, e: Entry)
    requires e.diff < |m.methodList|
    requires m.methodList[e.diff].nameIdx < |m.stringList| && m.methodList[e.diff].protoIdx < |m.protoList|
    requires var proto := m.protoList[m.methodList[e.diff].protoIdx];
      Parameters(m, proto).Ok? && proto.returnTypeIdx < |m.typeList|
    ensures var mid := m.methodList[e.diff];
      var proto := m.protoList[mid.protoIdx];
      CreateDexMethodAsWritten(m.stringList[mid.nameIdx], e.accessFlags,
                               MethodSignature(m.typeList[proto.returnTypeIdx], Parameters(m, proto).value), e.code).Err?
    ensures Accumulate(0, [e], MethodResolver(m)).Ok?
  {
    ResolveMethodOk(m, e.diff, e);
    assert [e][1..] == [];
  }

  // ---------------------------------------------------------------------
  // Signatures

  /** The position of the first c in s. */
  function IndexOf(s: string, c: char): (r: Option<nat>)
    ensures r.Some? ==> r.value < |s| && s[r.value] == c && c !in s[..r.value]
    ensures r.None? ==> c !in s
  {
    if |s| == 0 then None
    else if s[0] == c then Some(0)
    else
      match IndexOf(s[1..], c)
      case None => None
      case Some(k) =>
        assert s[..k + 1] == [s[0]] + s[1..][..k];
        Some(k + 1)
  }

  /** Reads a signature string back: the part before the first '(' and
      the part between it and a closing ')' at the end. A string that splits
      is the signature of its two parts. */
  function SplitSignature(sig: string): (r: Option<(string, string)>)
    ensures r.Some? ==> '(' !in r.value.0 && sig == r.value.0 + "(" + r.value.1 + ")"
  {
    match IndexOf(sig, '(')
    case None => None
    case Some(k) =>
      if k + 2 <= |sig| && sig[|sig| - 1] == ')' then
        assert sig == sig[..k] + "(" + sig[k + 1..|sig| - 1] + ")";
        Some((sig[..k], sig[k + 1..|sig| - 1]))
      else None
  }

  /** A return type written without '(' (as every type descriptor is) and
      the joined parameter types are recovered from the signature. */
  lemma {:induction false} SplitSignatureInverse(returnType: string, params: seq<string>)
    requires '(' !in returnType
    ensures SplitSignature(MethodSignature(returnType, params)) == Some((returnType, Concat(params)))
  {
    var sig := MethodSignature(returnType, params);
    var k := |returnType|;
    assert sig[..k] == returnType;
    assert sig[k] == '(';
    assert sig[..k + 1] == returnType + "(";
    assert IndexOf(sig, '(') == Some(k);
    assert sig[k + 1..|sig| - 1] == Concat(params);
  }

  // ---------------------------------------------------------------------
  // The encoded lists

  function FieldResolver(m: Manager): (int, Entry) -> Result<FieldRecord>
  {
    (idx: int, e: Entry) => ResolveField(m, idx, e.accessFlags)
  }

  function MethodResolver(m: Manager): (int, Entry) -> Result<MethodRecord>
  {
    (idx: int, e: Entry) => ResolveMethod(m, idx, e)
  }

  /** One encoded list: idx += diff for each entry, idx starting at acc, and
      the entry resolved at each idx, the first failure stopping the list. */
  function Accumulate<R>(acc: int, es: seq<Entry>, resolve: (int, Entry) -> Result<R>): (r: Result<seq<R>>)
    ensures r.Ok? ==> |r.value| == |es|
    decreases |es|
  {
    if |es| == 0 then Ok([])
    else
      var idx := acc + es[0].diff;
      var x :- resolve(idx, es[0]);
      Prepend([x], Accumulate(idx, es[1..], resolve))
  }

  /** The running sums of a non-empty list: the first entry's index, then
      the sums of the rest from there. */
  lemma PrefixSumsCons(acc: int, es: seq<Entry>)
    requires |es| > 0
    ensures PrefixSums(acc, Diffs(es)) == [acc + es[0].diff] + PrefixSums(acc + es[0].diff, Diffs(es[1..]))
  {
    assert Diffs(es) == [es[0].diff as int] + Diffs(es[1..]);
  }

  /** A list converts exactly when every entry resolves at the running sum
      of the deltas up to it, and then entry i becomes what it resolves to
      there. */
  lemma {:induction false} AccumulateAt<R>(acc: int, es: seq<Entry>, resolve: (int, Entry) -> Result<R>)
    ensures var ix := PrefixSums(acc, Diffs(es));
      var r := Accumulate(acc, es, resolve);
      && (r.Ok? <==> forall i | 0 <= i < |es| :: resolve(ix[i], es[i]).Ok?)
      && (r.Ok? ==> |r.value| == |es| && forall i | 0 <= i < |es| :: r.value[i] == resolve(ix[i], es[i]).value)
    decreases |es|
  {
    if |es| > 0 {
      var idx := acc + es[0].diff;
      var ix := PrefixSums(acc, Diffs(es));
      var tail := PrefixSums(idx, Diffs(es[1..]));
      PrefixSumsCons(acc, es);
      assert forall i | 0 < i < |es| :: ix[i] == tail[i - 1] && es[i] == es[1..][i - 1];
      AccumulateAt(idx, es[1..], resolve);
    }
  }

  /** A list that does not convert fails with the error of its first entry
      that does not resolve. */
  lemma {:induction false} AccumulateFirstError<R>(acc: int, es: seq<Entry>, resolve: (int, Entry) -> Result<R>)
    ensures var ix := PrefixSums(acc, Diffs(es));
      var r := Accumulate(acc, es, resolve);
      r.Err? ==> exists i | 0 <= i < |es| :: && resolve(ix[i], es[i]).Err? && r.error == resolve(ix[i], es[i]).error
                                            && forall j | 0 <= j < i :: resolve(ix[j], es[j]).Ok?
    decreases |es|
  {
    var r := Accumulate(acc, es, resolve);
    if |es| > 0 && r.Err? {
      var idx := acc + es[0].diff;
      var ix := PrefixSums(acc, Diffs(es));
      PrefixSumsCons(acc, es);
      if resolve(idx, es[0]).Ok? {
        AccumulateFirstError(idx, es[1..], resolve);
        assert ix[1..] == PrefixSums(idx, Diffs(es[1..]));
        FirstErrorCons(ix, es, resolve, r.error);
      } else {
        assert ix[0] == idx;
      }
    }
  }

  /** An entry that resolves in front of a list whose first failure is e
      leaves e the first failure. */
  lemma FirstErrorCons<R>(ix: seq<int>, es: seq<Entry>, resolve: (int, Entry) -> Result<R>, e: Error)
    requires |ix| == |es| > 0 && resolve(ix[0], es[0]).Ok?
    requires exists k | 0 <= k < |es| - 1 :: && resolve(ix[1..][k], es[1..][k]).Err? && e == resolve(ix[1..][k], es[1..][k]).error
                                             && forall j | 0 <= j < k :: resolve(ix[1..][j], es[1..][j]).Ok?
    ensures exists i | 0 <= i < |es| :: && resolve(ix[i], es[i]).Err? && e == resolve(ix[i], es[i]).error
                                        && forall j | 0 <= j < i :: resolve(ix[j], es[j]).Ok?
  {
    var k :| 0 <= k < |es| - 1 && resolve(ix[1..][k], es[1..][k]).Err? && e == resolve(ix[1..][k], es[1..][k]).error
             && forall j | 0 <= j < k :: resolve(ix[1..][j], es[1..][j]).Ok?;
    assert ix[k + 1] == ix[1..][k] && es[k + 1] == es[1..][k];
    forall j | 0 <= j < k + 1
      ensures resolve(ix[j], es[j]).Ok?
    {
      if j > 0 {
        assert ix[j] == ix[1..][j - 1] && es[j] == es[1..][j - 1];
      }
    }
  }

  /** One turn of the list loop: the entry at idx + diff resolves and joins
      the finished ones, or its error is the whole list's. */
  lemma AccumulateStep<R>(items: seq<R>, idx: int, es: seq<Entry>, i: nat, resolve: (int, Entry) -> Result<R>)
    requires i < |es|
    ensures var x := resolve(idx + es[i].diff, es[i]);
      Prepend(items, Accumulate(idx, es[i..], resolve)) ==
        if x.Err? then Err(x.error) else Prepend(items + [x.value], Accumulate(idx + es[i].diff, es[i + 1..], resolve))
  {
    assert es[i..][0] == es[i] && es[i..][1..] == es[i + 1..];
    var x := resolve(idx + es[i].diff, es[i]);
    if x.Ok? {
      var rest := Accumulate(idx + es[i].diff, es[i + 1..], resolve);
      if rest.Ok? {
        assert items + ([x.value] + rest.value) == items + [x.value] + rest.value;
      }
    }
  }

  /** The loop of create_dex_class over one encoded list, idx reset to 0
      before it, each resolved entry appended in stream order. */
  method AccumulateList<R>(es: seq<Entry>, resolve: (int, Entry) -> Result<R>) returns (r: Result<seq<R>>)
    ensures r == Accumulate(0, es, resolve)
  {
    var idx := 0;
    var items: seq<R> := [];
    var i := 0;
    PrependNothing(Accumulate(0, es, resolve));
    while i < |es|
      invariant 0 <= i <= |es|
      invariant Prepend(items, Accumulate(idx, es[i..], resolve)) == Accumulate(0, es, resolve)
    {
      AccumulateStep(items, idx, es, i, resolve);
      idx := idx + es[i].diff;
      var x := resolve(idx, es[i]);
      if x.Err? {
        return Err(x.error);
      }
      items := items + [x.value];
      i := i + 1;
    }
    assert es[i..] == [];
    assert items + [] == items;
    r := Ok(items);
  }

  // ---------------------------------------------------------------------
  // create_dex_class

  /** The source file name when source_file_idx is set and names a string;
      a missing string is reported and leaves the name unset. */
  function SourceFileName(m: Manager, idx: nat): (r: Option<string>)
    ensures r.Some? <==> idx != 0 && idx < |m.stringList|
    ensures r.Some? ==> r.value == m.stringList[idx]
  {
    if idx != 0 && idx < |m.stringList| then Some(m.stringList[idx]) else None
  }

  /** create_dex_class: the class's type, superclass and interfaces, its
      source file, and then its fields (static then instance) and methods
      (direct then virtual), each list's index summed from 0. */
  function ConvertClass(m: Manager, cdi: ClassDefItem): (r: Result<ClassRecord>)
    ensures r.Err? ==> r.error == IndexError
    ensures r.Ok? ==> r.value.accessFlags == cdi.accessFlags
    ensures r.Ok? && cdi.data.Some? ==>
      |r.value.fields| == |cdi.data.value.staticFields| + |cdi.data.value.instanceFields| &&
      |r.value.methods| == |cdi.data.value.directMethods| + |cdi.data.value.virtualMethods|
  {
    var classType :- At(m.typeList, cdi.classIdx);
    var superclass :- At(m.typeList, cdi.superclassIdx);
    var interfaces :- TypeNames(m, cdi.interfaces);
    var source := SourceFileName(m, cdi.sourceFileIdx);
    match cdi.data
    case None => Ok(ClassRecord(classType, cdi.accessFlags, superclass, interfaces, source, [], []))
    case Some(d) =>
      FieldListErrors(m, d.staticFields);
      FieldListErrors(m, d.instanceFields);
      MethodListErrors(m, d.directMethods);
      MethodListErrors(m, d.virtualMethods);
      var sf :- Accumulate(0, d.staticFields, FieldResolver(m));
      var inf :- Accumulate(0, d.instanceFields, FieldResolver(m));
      var dm :- Accumulate(0, d.directMethods, MethodResolver(m));
      var vm :- Accumulate(0, d.virtualMethods, MethodResolver(m));
      Ok(ClassRecord(classType, cdi.accessFlags, superclass, interfaces, source, sf + inf, dm + vm))
  }

  /** The method form of create_dex_class, with its four loops. */
  method CreateDexClass(m: Manager, cdi: ClassDefItem) returns (r: Result<ClassRecord>)
    ensures r == ConvertClass(m, cdi)
  {
    var classType :- At(m.typeList, cdi.classIdx);
    var superclass :- At(m.typeList, cdi.superclassIdx);
    var interfaces :- TypeNames(m, cdi.interfaces);
    var source := SourceFileName(m, cdi.sourceFileIdx);
    if cdi.data.None? {
      return Ok(ClassRecord(classType, cdi.accessFlags, superclass, interfaces, source, [], []));
    }
    var d := cdi.data.value;
    var sf :- AccumulateList(d.staticFields, FieldResolver(m));
    var inf :- AccumulateList(d.instanceFields, FieldResolver(m));
    var dm :- AccumulateList(d.directMethods, MethodResolver(m));
    var vm :- AccumulateList(d.virtualMethods, MethodResolver(m));
    r := Ok(ClassRecord(classType, cdi.accessFlags, superclass, interfaces, source, sf + inf, dm + vm));
  }

  /** The class header: type, superclass and interfaces looked up in the
      type list, the name taken from the string list when there is one, and
      a class without class data has no fields and no methods. */
  lemma ConvertClassHeader(m: Manager, cdi: ClassDefItem)
    ensures var r := ConvertClass(m, cdi);
      && (cdi.classIdx >= |m.typeList| || cdi.superclassIdx >= |m.typeList| ==> r == Err(IndexError))
      && (r.Ok? ==>
            && r.value.classType == m.typeList[cdi.classIdx]
            && r.value.superclass == m.typeList[cdi.superclassIdx]
            && r.value.interfaces == TypeNames(m, cdi.interfaces).value
            && r.value.accessFlags == cdi.accessFlags
            && r.value.sourceFileName == SourceFileName(m, cdi.sourceFileIdx))
      && ((cdi.data.None? && cdi.classIdx < |m.typeList| && cdi.superclassIdx < |m.typeList|
           && TypeNames(m, cdi.interfaces).Ok?) ==> r.Ok? && r.value.fields == [] && r.value.methods == [])
  {
  }

  lemma FieldListErrors(m: Manager, es: seq<Entry>)
    ensures Accumulate(0, es, FieldResolver(m)).Err? ==> Accumulate(0, es, FieldResolver(m)).error == IndexError
  {
    AccumulateFirstError(0, es, FieldResolver(m));
    var r := Accumulate(0, es, FieldResolver(m));
    if r.Err? {
      var ix := PrefixSums(0, Diffs(es));
      var i :| 0 <= i < |es| && FieldResolver(m)(ix[i], es[i]).Err? && r.error == FieldResolver(m)(ix[i], es[i]).error;
      assert FieldResolver(m)(ix[i], es[i]) == ResolveField(m, ix[i], es[i].accessFlags);
    }
  }

  lemma MethodListErrors(m: Manager, es: seq<Entry>)
    ensures Accumulate(0, es, MethodResolver(m)).Err? ==> Accumulate(0, es, MethodResolver(m)).error == IndexError
  {
    AccumulateFirstError(0, es, MethodResolver(m));
    var ix := PrefixSums(0, Diffs(es));
    var r := Accumulate(0, es, MethodResolver(m));
    if r.Err? {
      var i :| 0 <= i < |es| && MethodResolver(m)(ix[i], es[i]).Err? && r.error == MethodResolver(m)(ix[i], es[i]).error;
      assert MethodResolver(m)(ix[i], es[i]) == ResolveMethod(m, ix[i], es[i]);
    }
  }

  /** A converted class with class data holds the four converted lists,
      fields static then instance and methods direct then virtual. */
  lemma ConvertClassLists(m: Manager, cdi: ClassDefItem)
    requires cdi.data.Some? && ConvertClass(m, cdi).Ok?
    ensures var d := cdi.data.value;
      var sf := Accumulate(0, d.staticFields, FieldResolver(m));
      var inf := Accumulate(0, d.instanceFields, FieldResolver(m));
      var dm := Accumulate(0, d.directMethods, MethodResolver(m));
      var vm := Accumulate(0, d.virtualMethods, MethodResolver(m));
      && sf.Ok? && inf.Ok? && dm.Ok? && vm.Ok?
      && ConvertClass(m, cdi).value.fields == sf.value + inf.value
      && ConvertClass(m, cdi).value.methods == dm.value + vm.value
  {
  }

  /** The fields of a converted class are the static fields, at the running
      sums of their deltas from 0, followed by the instance fields, whose sum
      starts again from 0. */
  lemma ConvertClassFields(m: Manager, cdi: ClassDefItem)
    requires cdi.data.Some? && ConvertClass(m, cdi).Ok?
    ensures var d := cdi.data.value;
      var sx := PrefixSums(0, Diffs(d.staticFields));
      var ix := PrefixSums(0, Diffs(d.instanceFields));
      var fs := ConvertClass(m, cdi).value.fields;
      && |fs| == |d.staticFields| + |d.instanceFields|
      && (forall i | 0 <= i < |d.staticFields| ::
            ResolveField(m, sx[i], d.staticFields[i].accessFlags) == Ok(fs[i]))
      && (forall i | 0 <= i < |d.instanceFields| ::
            ResolveField(m, ix[i], d.instanceFields[i].accessFlags) == Ok(fs[|d.staticFields| + i]))
  {
    var d := cdi.data.value;
    ConvertClassLists(m, cdi);
    ListAt(d.staticFields, FieldResolver(m));
    ListAt(d.instanceFields, FieldResolver(m));
  }

  /** The methods of a converted class are the direct methods, at the running
      sums of their deltas from 0, followed by the virtual methods, whose sum
      starts again from 0. */
  lemma ConvertClassMethods(m: Manager, cdi: ClassDefItem)
    requires cdi.data.Some? && ConvertClass(m, cdi).Ok?
    ensures var d := cdi.data.value;
      var dx := PrefixSums(0, Diffs(d.directMethods));
      var vx := PrefixSums(0, Diffs(d.virtualMethods));
      var ms := ConvertClass(m, cdi).value.methods;
      && |ms| == |d.directMethods| + |d.virtualMethods|
      && (forall i | 0 <= i < |d.directMethods| :: ResolveMethod(m, dx[i], d.directMethods[i]) == Ok(ms[i]))
      && (forall i | 0 <= i < |d.virtualMethods| ::
            ResolveMethod(m, vx[i], d.virtualMethods[i]) == Ok(ms[|d.directMethods| + i]))
  {
    var d := cdi.data.value;
    ConvertClassLists(m, cdi);
    ListAt(d.directMethods, MethodResolver(m));
    ListAt(d.virtualMethods, MethodResolver(m));
  }

  /** AccumulateAt from 0 on a list that converts, in the Ok(...) form. */
  lemma ListAt<R>(es: seq<Entry>, resolve: (int, Entry) -> Result<R>)
    requires Accumulate(0, es, resolve).Ok?
    ensures var ix := PrefixSums(0, Diffs(es));
      var r := Accumulate(0, es, resolve).value;
      |r| == |es| && forall i | 0 <= i < |es| :: resolve(ix[i], es[i]) == Ok(r[i])
  {
    AccumulateAt(0, es, resolve);
  }

  // ---------------------------------------------------------------------
  // Against the writer

  /** For any member list the writer can encode (every key in the pool,
      indices ascending), the converter's running sums over the written
      entries land on the very pool indices the writer looked up, with the
      members' flags and code offsets, whatever the lookup. */
  lemma ReadsBackWrittenIndices<R>(ms: seq<Member>, pool: map<string, nat>, resolve: (int, Entry) -> Result<R>)
    requires AllIn(ms, pool) && Ascending(0, Indices(ms, pool))
    ensures EncodeFrom(0, ms, pool).Ok? &&
      var es := EncodeFrom(0, ms, pool).value;
      var r := Accumulate(0, es, resolve);
      && |es| == |ms|
      && (forall i | 0 <= i < |ms| :: es[i].accessFlags == ms[i].accessFlags && es[i].code == ms[i].code)
      && (r.Ok? <==> forall i | 0 <= i < |ms| :: resolve(pool[ms[i].key], es[i]).Ok?)
      && (r.Ok? ==> |r.value| == |ms| && forall i | 0 <= i < |ms| :: r.value[i] == resolve(pool[ms[i].key], es[i]).value)
  {
    EncodeFromCorrect(0, ms, pool);
    var es := EncodeFrom(0, ms, pool).value;
    AccumulateAt(0, es, resolve);
  }

  // ---------------------------------------------------------------------
  // CodeStream

  /** The code-unit reader over a code_item's insns. */
  class CodeStream {
    const buf: seq<nat>
    var index: nat

    constructor (insns: seq<nat>)
      ensures buf == insns && index == 0
    {
      buf := insns;
      index := 0;
    }

    /** peek: the code unit at index, or IndexError past the end. */
    function Peek(): (r: Result<nat>)
      reads this
      ensures r.Ok? <==> index < |buf|
      ensures r.Err? ==> r.error == IndexError
      ensures r.Ok? ==> r.value == buf[index]
    {
      At(buf, index)
    }

    /** read: what peek gives, and one step forward when it gave something;
        a failing peek raises before index moves. */
    method Read() returns (r: Result<nat>)
      modifies this`index
      ensures r == old(Peek())
      ensures index == if r.Ok? then old(index) + 1 else old(index)
    {
      r := Peek();
      if r.Ok? {
        index := index + 1;
      }
    }
  }
}
