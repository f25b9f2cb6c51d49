/** The method editor: a mutable list of instructions whose offsets are
    recomputed by summing widths, width-preserving removal, inclusive
    try-range membership and label lookup. */
module Editor {
  import opened Wrappers
  import opened Bytes
  import OpcodeTable
  import Normalize

  /** What an instruction's operand refers to, as far as the writer needs it. */
  datatype Operand =
    | NoOperand
    | MethodOperand(parameters: seq<Normalize.Descriptor>)    // a method reference, by its parameter type descriptors
    | PoolOperand(kind: OpcodeTable.RefKind, index: nat)

  /** An instruction: its unique key (None until the editor assigns one), its
      opcode, its width in 16-bit code units (both len(x) and
      get_code_unit_count()), its operand and its own register count. */
  datatype Insn = Insn(key: Option<nat>, op: byte, width: nat, operand: Operand, registerCount: nat)

  /** The nop remove() inserts: a fresh Instruction10x with op 0 that is never
      given a unique key. */
  const Nop: Insn := Insn(None, 0, OpcodeTable.Format.F10x.Width(), NoOperand, 0)

  datatype Label = Label(name: Option<string>, op: Insn)

  /** DexHandlerTypeAddr: an exception type (None for a catch-all) and a handler address. */
  datatype Handler = Handler(exceptionType: Option<string>, addr: nat)

  /** TryCatch. In the editor start and end are instructions; the writer and the
      converter use instruction offsets. catchAll is the text str() renders for
      the catch-all handlers, which only takes part in the key. */
  datatype TryCatch<A> = TryCatch(start: A, end: A, catchHandlers: seq<Handler>, catchAll: string)
  {
    /** str(try_block), '{start} {end} {catch_all_handlers}'. Start and end
        print without spaces, so two keys are equal exactly when the three
        parts are. */
    function Key(): (A, A, string)
    {
      (start, end, catchAll)
    }
  }

  /** TryCatch.get_code_count on offset-valued try blocks. */
  function CodeCount(t: TryCatch<int>): (n: int)
    ensures n > 0 <==> t.start <= t.end
  {
    t.end - t.start + 1
  }

  function TotalWidth(s: seq<Insn>): nat
  {
    if |s| == 0 then 0 else TotalWidth(s[..|s| - 1]) + s[|s| - 1].width
  }

  lemma {:induction false} TotalWidthAppend(a: seq<Insn>, b: seq<Insn>)
    ensures TotalWidth(a + b) == TotalWidth(a) + TotalWidth(b)
    decreases |b|
  {
    if |b| > 0 {
      assert (a + b)[..|a + b| - 1] == a + b[..|b| - 1];
      assert (a + b)[|a + b| - 1] == b[|b| - 1];
      TotalWidthAppend(a, b[..|b| - 1]);
    } else {
      assert a + b == a;
    }
  }

  /** The first index whose instruction has key k, or -1. */
  function KeyIndex(s: seq<Insn>, k: Option<nat>): (i: int)
    ensures -1 <= i < |s|
    ensures i == -1 <==> forall j | 0 <= j < |s| :: s[j].key != k
    ensures i >= 0 ==> s[i].key == k && forall j | 0 <= j < i :: s[j].key != k
  {
    if |s| == 0 then -1
    else if s[0].key == k then 0
    else
      var r := KeyIndex(s[1..], k);
      if r == -1 then -1 else r + 1
  }

  /** get_opcode_offset's answer: the total width of the instructions before
      the first one with key k, or -1 when none has it. */
  function OffsetOf(s: seq<Insn>, k: Option<nat>): int
  {
    var i := KeyIndex(s, k);
    if i < 0 then -1 else TotalWidth(s[..i])
  }

  /** The first index of x in s, as list.index finds it. */
  function IndexOf(s: seq<Insn>, x: Insn): (i: nat)
    requires x in s
    ensures i < |s| && s[i] == x && x !in s[..i]
  {
    if s[0] == x then 0 else IndexOf(s[1..], x) + 1
  }

  function Nops(n: nat): (r: seq<Insn>)
    ensures |r| == n && forall j | 0 <= j < n :: r[j] == Nop
  {
    seq(n, _ => Nop)
  }

  /** The list remove(x) leaves: x's first occurrence replaced by as many nops
      as x has code units, every other element in place. */
  function Replaced(s: seq<Insn>, x: Insn): seq<Insn>
    requires x in s
  {
    var i := IndexOf(s, x);
    s[..i] + Nops(x.width) + s[i + 1..]
  }

  lemma {:induction false} NopsWidth(n: nat)
    ensures TotalWidth(Nops(n)) == n
  {
    if n > 0 {
      assert Nops(n)[..n - 1] == Nops(n - 1);
      NopsWidth(n - 1);
    }
  }

  /** remove() leaves the total width of the method unchanged. */
  lemma RemovePreservesTotalWidth(s: seq<Insn>, x: Insn)
    requires x in s
    ensures TotalWidth(Replaced(s, x)) == TotalWidth(s)
  {
    var i := IndexOf(s, x);
    assert s == s[..i] + [x] + s[i + 1..];
    TotalWidthAppend(s[..i] + [x], s[i + 1..]);
    TotalWidthAppend(s[..i], [x]);
    SingletonWidth(x);
    TotalWidthAppend(s[..i] + Nops(x.width), s[i + 1..]);
    TotalWidthAppend(s[..i], Nops(x.width));
    NopsWidth(x.width);
  }

  lemma {:induction false} KeyIndexShift(a: seq<Insn>, b: seq<Insn>, k: Option<nat>)
    requires forall j | 0 <= j < |a| :: a[j].key != k
    ensures KeyIndex(a + b, k) == (if KeyIndex(b, k) < 0 then -1 else |a| + KeyIndex(b, k))
  {
    var i := KeyIndex(b, k);
    var c := a + b;
    if i >= 0 {
      assert c[|a| + i] == b[i];
      assert forall j | 0 <= j < |a| + i :: c[j].key != k by {
        forall j | 0 <= j < |a| + i ensures c[j].key != k {
          if j >= |a| { assert c[j] == b[j - |a|]; }
        }
      }
    } else {
      assert forall j | 0 <= j < |c| :: c[j].key != k by {
        forall j | 0 <= j < |c| ensures c[j].key != k {
          if j >= |a| { assert c[j] == b[j - |a|]; }
        }
      }
    }
  }

  /** The width of a single instruction. */
  lemma SingletonWidth(x: Insn)
    ensures TotalWidth([x]) == x.width
  {
    assert [x][..0] == [];
  }

  /** A key found before the removed position keeps its offset. */
  lemma RemovePreservesEarlierOffset(s: seq<Insn>, x: Insn, k: Option<nat>)
    requires x in s && 0 <= KeyIndex(s, k) < IndexOf(s, x)
    ensures OffsetOf(Replaced(s, x), k) == OffsetOf(s, k)
  {
    var i := IndexOf(s, x);
    var t := Replaced(s, x);
    var m := KeyIndex(s, k);
    assert t[..i] == s[..i];
    assert forall j | 0 <= j <= m :: t[j] == s[j];
    assert KeyIndex(t, k) == m;
    assert t[..m] == s[..m];
  }

  /** Offsets behind a prefix that does not carry the key move by the prefix's width. */
  lemma OffsetShift(pre: seq<Insn>, rest: seq<Insn>, k: Option<nat>)
    requires forall j | 0 <= j < |pre| :: pre[j].key != k
    ensures OffsetOf(pre + rest, k) == (if KeyIndex(rest, k) < 0 then -1 else TotalWidth(pre) + OffsetOf(rest, k))
  {
    KeyIndexShift(pre, rest, k);
    var r := KeyIndex(rest, k);
    if r >= 0 {
      assert (pre + rest)[..|pre| + r] == pre + rest[..r];
      TotalWidthAppend(pre, rest[..r]);
    }
  }

  /** A key not found before the removed position, and not the removed
      instruction's, keeps its offset: the nops make up the removed width. */
  lemma RemovePreservesLaterOffset(s: seq<Insn>, x: Insn, k: Option<nat>)
    requires x in s && k.Some? && k != x.key
    requires !(0 <= KeyIndex(s, k) < IndexOf(s, x))
    ensures OffsetOf(Replaced(s, x), k) == OffsetOf(s, k)
  {
    var i := IndexOf(s, x);
    assert forall j | 0 <= j < i :: s[j].key != k;
    ReplacedAtLater(s, i, k);
  }

  /** Nops in place of a keyless instruction leave the offset of a key
      found after it where it was. */
  lemma ReplacedAtLater(s: seq<Insn>, i: nat, k: Option<nat>)
    requires i < |s| && k.Some? && s[i].key != k
    requires forall j | 0 <= j < i :: s[j].key != k
    ensures OffsetOf(s[..i] + Nops(s[i].width) + s[i + 1..], k) == OffsetOf(s, k)
  {
    var head := s[..i];
    var rest := s[i + 1..];
    assert s == head + [s[i]] + rest;
    OffsetAround(head, [s[i]], rest, k);
    SingletonWidth(s[i]);
    OffsetAround(head, Nops(s[i].width), rest, k);
    NopsWidth(s[i].width);
  }

  /** Past a middle part without the key, the offset is the widths before the
      rest plus the offset within it. */
  lemma OffsetAround(head: seq<Insn>, mid: seq<Insn>, rest: seq<Insn>, k: Option<nat>)
    requires forall j | 0 <= j < |head| :: head[j].key != k
    requires forall j | 0 <= j < |mid| :: mid[j].key != k
    ensures OffsetOf(head + mid + rest, k) ==
      if KeyIndex(rest, k) < 0 then -1 else TotalWidth(head) + TotalWidth(mid) + OffsetOf(rest, k)
  {
    PrefixWithoutKey(head, mid, k);
    OffsetShift(head + mid, rest, k);
    TotalWidthAppend(head, mid);
  }

  lemma PrefixWithoutKey(a: seq<Insn>, b: seq<Insn>, k: Option<nat>)
    requires forall j | 0 <= j < |a| :: a[j].key != k
    requires forall j | 0 <= j < |b| :: b[j].key != k
    ensures forall j | 0 <= j < |a + b| :: (a + b)[j].key != k
  {
  }

  /** remove() leaves the offset of every keyed instruction other than the
      removed one where it was. */
  lemma RemovePreservesOffsets(s: seq<Insn>, x: Insn, k: Option<nat>)
    requires x in s && k.Some? && k != x.key
    ensures OffsetOf(Replaced(s, x), k) == OffsetOf(s, k)
  {
    if 0 <= KeyIndex(s, k) < IndexOf(s, x) {
      RemovePreservesEarlierOffset(s, x, k);
    } else {
      RemovePreservesLaterOffset(s, x, k);
    }
  }

  /** TryCatch.is_in for an integer offset, over the instruction list s:
      inclusive between the offsets of the try's start and end instructions. */
  predicate IsIn(s: seq<Insn>, t: TryCatch<Insn>, offset: int)
  {
    OffsetOf(s, t.start.key) <= offset <= OffsetOf(s, t.end.key)
  }

  /** The offsets is_in accepts are the get_code_count() code units from the
      start instruction's offset on. */
  lemma IsInCodeCount(s: seq<Insn>, t: TryCatch<Insn>, offset: int)
    ensures var lo := OffsetOf(s, t.start.key);
      IsIn(s, t, offset) <==> lo <= offset < lo + CodeCount(TryCatch(lo, OffsetOf(s, t.end.key), t.catchHandlers, t.catchAll))
  {
  }

  /** remove keeps every try block whose start and end are other instructions
      covering exactly the offsets it covered. */
  lemma RemovePreservesIsIn(s: seq<Insn>, x: Insn, t: TryCatch<Insn>, offset: int)
    requires x in s
    requires t.start.key.Some? && t.start.key != x.key
    requires t.end.key.Some? && t.end.key != x.key
    ensures IsIn(Replaced(s, x), t, offset) <==> IsIn(s, t, offset)
  {
    RemovePreservesOffsets(s, x, t.start.key);
    RemovePreservesOffsets(s, x, t.end.key);
  }

  class Editor {
    var opcodeList: seq<Insn>
    var tries: seq<TryCatch<Insn>>
    var labels: seq<Label>
    var uniqueKeyCounter: nat

    constructor ()
      ensures opcodeList == [] && tries == [] && labels == [] && uniqueKeyCounter == 0
    {
      opcodeList := [];
      tries := [];
      labels := [];
      uniqueKeyCounter := 0;
    }

    /** The unique_key property: bumps the counter and returns its new value. */
    method NextUniqueKey() returns (k: nat)
      modifies this
      ensures uniqueKeyCounter == old(uniqueKeyCounter) + 1 && k == uniqueKeyCounter
      ensures opcodeList == old(opcodeList) && tries == old(tries) && labels == old(labels)
    {
      uniqueKeyCounter := uniqueKeyCounter + 1;
      k := uniqueKeyCounter;
    }

    /** find_label: the first label with the given name. */
    method FindLabel(name: Option<string>) returns (r: Option<Label>)
      ensures r.None? <==> forall i | 0 <= i < |labels| :: labels[i].name != name
      ensures r.Some? ==> exists i | 0 <= i < |labels| ::
        labels[i] == r.value && r.value.name == name && forall j | 0 <= j < i :: labels[j].name != name
    {
      var i := 0;
      while i < |labels|
        invariant 0 <= i <= |labels|
        invariant forall j | 0 <= j < i :: labels[j].name != name
      {
        if labels[i].name == name {
          return Some(labels[i]);
        }
        i := i + 1;
      }
      return None;
    }

    /** get_opcode_offset: sums widths up to the first instruction sharing the
        opcode's unique key. */
    method GetOpcodeOffset(opcode: Insn) returns (off: int)
      ensures off == OffsetOf(opcodeList, opcode.key)
    {
      var i := 0;
      var idx := 0;
      while idx < |opcodeList|
        invariant 0 <= idx <= |opcodeList|
        invariant i == TotalWidth(opcodeList[..idx])
        invariant forall j | 0 <= j < idx :: opcodeList[j].key != opcode.key
      {
        var x := opcodeList[idx];
        if x.key == opcode.key {
          return i;
        }
        assert opcodeList[..idx + 1][..idx] == opcodeList[..idx];
        i := i + x.width;
        idx := idx + 1;
      }
      return -1;
    }

    /** is_in_try: the first try block containing the opcode's offset. */
    method IsInTry(opcode: Insn) returns (r: Option<TryCatch<Insn>>)
      ensures var off := OffsetOf(opcodeList, opcode.key);
        r.None? <==> forall i | 0 <= i < |tries| :: !IsIn(opcodeList, tries[i], off)
      ensures var off := OffsetOf(opcodeList, opcode.key);
        r.Some? ==> exists i | 0 <= i < |tries| ::
          tries[i] == r.value && IsIn(opcodeList, r.value, off) && forall j | 0 <= j < i :: !IsIn(opcodeList, tries[j], off)
    {
      var offset := GetOpcodeOffset(opcode);
      var i := 0;
      while i < |tries|
        invariant 0 <= i <= |tries|
        invariant forall j | 0 <= j < i :: !IsIn(opcodeList, tries[j], offset)
      {
        var t := tries[i];
        var startOffset := GetOpcodeOffset(t.start);
        var endOffset := GetOpcodeOffset(t.end);
        if offset >= startOffset && offset <= endOffset {
          return Some(t);
        }
        i := i + 1;
      }
      return None;
    }

    /** remove: list.index raises ValueError when the opcode is absent;
        otherwise the opcode is taken out and get_code_unit_count() nops are
        inserted one by one where it stood. */
    method Remove(opcode: Insn) returns (r: Result<()>)
      modifies this
      ensures opcode !in old(opcodeList) ==> r == Err(ValueError) && opcodeList == old(opcodeList)
      ensures opcode in old(opcodeList) ==> r == Ok(()) && opcodeList == Replaced(old(opcodeList), opcode)
      ensures tries == old(tries) && labels == old(labels) && uniqueKeyCounter == old(uniqueKeyCounter)
    {
      if opcode !in opcodeList {
        return Err(ValueError);
      }
      var index := IndexOf(opcodeList, opcode);
      ghost var before := opcodeList;
      opcodeList := opcodeList[..index] + opcodeList[index + 1..];
      var i := 0;
      while i < opcode.width
        invariant 0 <= i <= opcode.width
        invariant opcodeList == before[..index] + Nops(i) + before[index + 1..]
        invariant tries == old(tries) && labels == old(labels) && uniqueKeyCounter == old(uniqueKeyCounter)
      {
        opcodeList := opcodeList[..index + i] + [Nop] + opcodeList[index + i..];
        assert Nops(i + 1) == Nops(i) + [Nop];
        i := i + 1;
      }
      return Ok(());
    }
  }
}
