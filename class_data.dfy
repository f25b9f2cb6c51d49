/** The encoded_field and encoded_method lists of a class_data_item in the
    Dalvik Executable format: the index deltas the writer emits, the running
    sums the converter takes over them, and the LEB128 byte form of a list
    with the reader that takes it apart again. */
module ClassData {
  import opened Wrappers
  import opened Bytes
  import opened Pools

  /** index - prev_index for each entry, prev_index starting at prev. */
  function Deltas(prev: int, indices: seq<int>): (r: seq<int>)
    ensures |r| == |indices|
    decreases |indices|
  {
    if |indices| == 0 then [] else [indices[0] - prev] + Deltas(indices[0], indices[1..])
  }

  /** idx += diff over the entries, idx starting at acc, keeping each idx. */
  function PrefixSums(acc: int, diffs: seq<int>): (r: seq<int>)
    ensures |r| == |diffs|
    decreases |diffs|
  {
    if |diffs| == 0 then [] else [acc + diffs[0]] + PrefixSums(acc + diffs[0], diffs[1..])
  }

  /** Summing the deltas gives the indices back. */
  lemma {:induction false} PrefixSumsOfDeltas(prev: int, indices: seq<int>)
    ensures PrefixSums(prev, Deltas(prev, indices)) == indices
    decreases |indices|
  {
    if |indices| > 0 {
      PrefixSumsOfDeltas(indices[0], indices[1..]);
      assert indices == [indices[0]] + indices[1..];
    }
  }

  /** And taking the deltas of the sums gives the diffs back. */
  lemma {:induction false} DeltasOfPrefixSums(acc: int, diffs: seq<int>)
    ensures Deltas(acc, PrefixSums(acc, diffs)) == diffs
    decreases |diffs|
  {
    if |diffs| > 0 {
      DeltasOfPrefixSums(acc + diffs[0], diffs[1..]);
      assert diffs == [diffs[0]] + diffs[1..];
    }
  }

  /** No index below the one before it, the first not below prev. */
  predicate Ascending(prev: int, s: seq<int>)
  {
    (|s| > 0 ==> prev <= s[0]) && forall i | 0 < i < |s| :: s[i - 1] <= s[i]
  }

  predicate NonNegative(d: seq<int>)
  {
    forall i | 0 <= i < |d| :: d[i] >= 0
  }

  lemma NonNegativeCons(d: seq<int>)
    requires |d| > 0
    ensures NonNegative(d) <==> d[0] >= 0 && NonNegative(d[1..])
  {
    assert forall j | 0 <= j < |d| - 1 :: d[1..][j] == d[j + 1];
  }

  /** The deltas can all be written as unsigned LEB128 exactly when the indices
      ascend. */
  lemma {:induction false} DeltasNonNegative(prev: int, s: seq<int>)
    ensures NonNegative(Deltas(prev, s)) <==> Ascending(prev, s)
    decreases |s|
  {
    if |s| > 0 {
      DeltasNonNegative(s[0], s[1..]);
      AscendingCons(prev, s);
      var d := Deltas(prev, s);
      assert d[1..] == Deltas(s[0], s[1..]);
      NonNegativeCons(d);
    }
  }

  // ---------------------------------------------------------------------
  // Lists of LEB128 records

  /** Each item's bytes, one item after the other. */
  function ConcatMap<T>(xs: seq<T>, enc: T -> seq<byte>): seq<byte>
  {
    if |xs| == 0 then [] else enc(xs[0]) + ConcatMap(xs[1..], enc)
  }

  lemma {:induction false} ConcatMapAppend<T>(xs: seq<T>, x: T, enc: T -> seq<byte>)
    ensures ConcatMap(xs + [x], enc) == ConcatMap(xs, enc) + enc(x)
  {
    if |xs| == 0 {
      assert xs + [x] == [x];
      assert [x][1..] == [];
    } else {
      assert (xs + [x])[1..] == xs[1..] + [x];
      ConcatMapAppend(xs[1..], x, enc);
    }
  }

  /** Reads n items one after the other with read, from position p on. */
  function ReadMany<T>(s: seq<byte>, p: nat, n: nat, read: (seq<byte>, nat) -> Option<(T, nat)>): (r: Option<(seq<T>, nat)>)
    ensures r.Some? ==> |r.value.0| == n
    decreases n
  {
    if n == 0 then Some(([], 0))
    else
      match read(s, p)
      case None => None
      case Some((x, k)) =>
        match ReadMany(s, p + k, n - 1, read)
        case None => None
        case Some((xs, k2)) => Some(([x] + xs, k + k2))
  }

  lemma ReadManyOf<T>(s: seq<byte>, p: nat, xs: seq<T>, read: (seq<byte>, nat) -> Option<(T, nat)>, k: nat, k2: nat)
    requires |xs| > 0
    requires read(s, p) == Some((xs[0], k))
    requires ReadMany(s, p + k, |xs| - 1, read) == Some((xs[1..], k2))
    ensures ReadMany(s, p, |xs|, read) == Some((xs, k + k2))
  {
    assert ReadMany(s, p, |xs|, read) == Some(([xs[0]] + xs[1..], k + k2));
    assert [xs[0]] + xs[1..] == xs;
  }

  /** Whatever read takes back from each item's bytes, wherever they are
      held, it takes back from the whole list, and it stops right after it. */
  lemma {:induction false} ReadManyRoundTrip<T>(s: seq<byte>, p: nat, xs: seq<T>, read: (seq<byte>, nat) -> Option<(T, nat)>,
                                                enc: T -> seq<byte>)
    requires forall i, t, q | 0 <= i < |xs| && At(t, q, enc(xs[i])) :: read(t, q) == Some((xs[i], |enc(xs[i])|))
    requires At(s, p, ConcatMap(xs, enc))
    ensures ReadMany(s, p, |xs|, read) == Some((xs, |ConcatMap(xs, enc)|))
    decreases |xs|
  {
    if |xs| > 0 {
      var head, tail := enc(xs[0]), ConcatMap(xs[1..], enc);
      assert ConcatMap(xs, enc) == head + tail;
      AtAppend(s, p, head, tail);
      assert read(s, p) == Some((xs[0], |head|));
      assert forall i | 0 <= i < |xs| - 1 :: xs[1..][i] == xs[i + 1];
      ReadManyRoundTrip(s, p + |head|, xs[1..], read, enc);
      ReadManyOf(s, p, xs, read, |head|, |tail|);
    }
  }

  // ---------------------------------------------------------------------
  // The byte form

  /** One encoded_field (code is None) or encoded_method (code holds
      code_off): the index delta and the access flags. */
  datatype Entry = Entry(diff: nat, accessFlags: nat, code: Option<nat>)

  function EntryBytes(e: Entry): seq<byte>
  {
    ULeb128(e.diff) + ULeb128(e.accessFlags) + (if e.code.Some? then ULeb128(e.code.value) else [])
  }

  /** Reads one entry at position p, with a code_off when withCode. */
  function ReadEntry(s: seq<byte>, p: nat, withCode: bool): Option<(Entry, nat)>
  {
    match ReadULeb128(s, p)
    case None => None
    case Some((d, k1)) =>
      match ReadULeb128(s, p + k1)
      case None => None
      case Some((f, k2)) =>
        if !withCode then Some((Entry(d, f, None), k1 + k2))
        else
          match ReadULeb128(s, p + k1 + k2)
          case None => None
          case Some((c, k3)) => Some((Entry(d, f, Some(c)), k1 + k2 + k3))
  }

  lemma ReadEntryRoundTrip(s: seq<byte>, p: nat, e: Entry)
    requires At(s, p, EntryBytes(e))
    ensures ReadEntry(s, p, e.code.Some?) == Some((e, |EntryBytes(e)|))
  {
    var u1, u2 := ULeb128(e.diff), ULeb128(e.accessFlags);
    var u3 := if e.code.Some? then ULeb128(e.code.value) else [];
    AtAppend(s, p, u1 + u2, u3);
    AtAppend(s, p, u1, u2);
    ReadEntryAt(s, p, e);
  }

  /** The entry's values held one after the other read back. */
  lemma ReadEntryAt(s: seq<byte>, p: nat, e: Entry)
    requires At(s, p, ULeb128(e.diff)) && At(s, p + |ULeb128(e.diff)|, ULeb128(e.accessFlags))
    requires e.code.Some? ==> At(s, p + |ULeb128(e.diff)| + |ULeb128(e.accessFlags)|, ULeb128(e.code.value))
    ensures ReadEntry(s, p, e.code.Some?) ==
      Some((e, |ULeb128(e.diff)| + |ULeb128(e.accessFlags)| + (if e.code.Some? then |ULeb128(e.code.value)| else 0)))
  {
    var k1, k2 := |ULeb128(e.diff)|, |ULeb128(e.accessFlags)|;
    ULeb128RoundTrip(e.diff, s, p);
    ULeb128RoundTrip(e.accessFlags, s, p + k1);
    if e.code.Some? {
      var k3 := |ULeb128(e.code.value)|;
      ULeb128RoundTrip(e.code.value, s, p + k1 + k2);
      ReadEntryOf(s, p, e.diff, k1, e.accessFlags, k2, e.code, k3);
    } else {
      ReadEntryOf(s, p, e.diff, k1, e.accessFlags, k2, None, 0);
    }
  }

  lemma ReadEntryOf(s: seq<byte>, p: nat, d: nat, k1: nat, f: nat, k2: nat, c: Option<nat>, k3: nat)
    requires ReadULeb128(s, p) == Some((d, k1)) && ReadULeb128(s, p + k1) == Some((f, k2))
    requires c.Some? ==> ReadULeb128(s, p + k1 + k2) == Some((c.value, k3))
    requires c.None? ==> k3 == 0
    ensures ReadEntry(s, p, c.Some?) == Some((Entry(d, f, c), k1 + k2 + k3))
  {
  }

  predicate AllWithCode(es: seq<Entry>, withCode: bool)
  {
    forall i | 0 <= i < |es| :: es[i].code.Some? == withCode
  }

  /** The bytes of an entry list. */
  function EntriesBytes(es: seq<Entry>): seq<byte>
  {
    ConcatMap(es, EntryBytes)
  }

  /** Reads n entries from position p on. */
  function ReadEntries(s: seq<byte>, p: nat, n: nat, withCode: bool): Option<(seq<Entry>, nat)>
  {
    ReadMany(s, p, n, (t: seq<byte>, q: nat) => ReadEntry(t, q, withCode))
  }

  /** The reader takes back every list the entries were written from, and
      stops right after it. */
  lemma ReadEntriesRoundTrip(s: seq<byte>, p: nat, es: seq<Entry>, withCode: bool)
    requires AllWithCode(es, withCode) && At(s, p, EntriesBytes(es))
    ensures ReadEntries(s, p, |es|, withCode) == Some((es, |EntriesBytes(es)|))
  {
    var read := (t: seq<byte>, q: nat) => ReadEntry(t, q, withCode);
    forall i, t, q | 0 <= i < |es| && At(t, q, EntryBytes(es[i]))
      ensures read(t, q) == Some((es[i], |EntryBytes(es[i])|))
    {
      ReadEntryRoundTrip(t, q, es[i]);
    }
    ReadManyRoundTrip(s, p, es, read, EntryBytes);
  }

  // ---------------------------------------------------------------------
  // What the writer encodes

  /** A field or method as the encoded lists see it: its pool key, its access
      flags, and for a method its code_item_offset. */
  datatype Member = Member(key: string, accessFlags: nat, code: Option<nat>)

  /** Prepends finished entries to the outcome of the remaining ones. */
  function Prepend<T>(done: seq<T>, r: Result<seq<T>>): Result<seq<T>>
  {
    if r.Ok? then Ok(done + r.value) else r
  }

  lemma PrependNothing<T>(r: Result<seq<T>>)
    ensures Prepend([], r) == r
  {
    if r.Ok? {
      assert [] + r.value == r.value;
    }
  }

  /** The loop of write_encoded_fields and write_encoded_methods, prev_index
      starting at prev: the pool index of each member, a missing one
      stopping the list, and the delta to it, which must not be negative
      since it is written unsigned. */
  function EncodeFrom(prev: int, ms: seq<Member>, pool: map<string, nat>): (r: Result<seq<Entry>>)
    ensures r.Ok? ==> |r.value| == |ms|
    ensures r.Err? ==> r.error == DanglingReference || r.error == NegativeLeb128
    decreases |ms|
  {
    if |ms| == 0 then Ok([])
    else
      match Find(pool, ms[0].key)
      case Err(e) => Err(e)
      case Ok(index) =>
        if index - prev < 0 then Err(NegativeLeb128)
        else Prepend([Entry(index - prev, ms[0].accessFlags, ms[0].code)], EncodeFrom(index, ms[1..], pool))
  }

  predicate AllIn(ms: seq<Member>, pool: map<string, nat>)
  {
    forall i | 0 <= i < |ms| :: ms[i].key in pool
  }

  /** The pool indices of the members. */
  function Indices(ms: seq<Member>, pool: map<string, nat>): (r: seq<int>)
    requires AllIn(ms, pool)
    ensures |r| == |ms|
    ensures forall i | 0 <= i < |ms| :: r[i] == pool[ms[i].key]
  {
    if |ms| == 0 then [] else [pool[ms[0].key]] + Indices(ms[1..], pool)
  }

  /** The encoding succeeds exactly when every member is in the pool and the
      indices ascend; then the entries carry the deltas of the indices, the
      members' flags and code offsets, and their running sums give back the
      pool indices. */
  lemma EncodeFromCorrect(prev: int, ms: seq<Member>, pool: map<string, nat>)
    ensures EncodeFrom(prev, ms, pool).Ok? <==> AllIn(ms, pool) && Ascending(prev, Indices(ms, pool))
    ensures EncodeFrom(prev, ms, pool).Ok? ==>
      var es := EncodeFrom(prev, ms, pool).value;
      |es| == |ms| &&
      (forall i | 0 <= i < |es| :: es[i].diff == Deltas(prev, Indices(ms, pool))[i]) &&
      (forall i | 0 <= i < |es| :: es[i].accessFlags == ms[i].accessFlags && es[i].code == ms[i].code) &&
      PrefixSums(prev, Diffs(es)) == Indices(ms, pool)
  {
    EncodeFromOk(prev, ms, pool);
    if EncodeFrom(prev, ms, pool).Ok? {
      EncodeFromContents(prev, ms, pool);
      PrefixSumsOfDeltas(prev, Indices(ms, pool));
    }
  }

  /** The encoding succeeds exactly when every member is in the pool and the
      indices ascend. */
  lemma {:induction false} EncodeFromOk(prev: int, ms: seq<Member>, pool: map<string, nat>)
    ensures EncodeFrom(prev, ms, pool).Ok? <==> AllIn(ms, pool) && Ascending(prev, Indices(ms, pool))
    decreases |ms|
  {
    if |ms| > 0 {
      AllInCons(ms, pool);
      if ms[0].key in pool {
        var idx := pool[ms[0].key];
        EncodeFromOk(idx, ms[1..], pool);
        if AllIn(ms, pool) {
          var ix := Indices(ms, pool);
          assert ix[1..] == Indices(ms[1..], pool);
          AscendingCons(prev, ix);
        }
      }
    }
  }

  /** A successful encoding holds the deltas of the indices and the members'
      flags and code offsets. */
  lemma {:induction false} EncodeFromContents(prev: int, ms: seq<Member>, pool: map<string, nat>)
    requires EncodeFrom(prev, ms, pool).Ok?
    ensures AllIn(ms, pool)
    ensures var es := EncodeFrom(prev, ms, pool).value;
      |es| == |ms| && Diffs(es) == Deltas(prev, Indices(ms, pool)) &&
      (forall i | 0 <= i < |es| :: es[i].accessFlags == ms[i].accessFlags && es[i].code == ms[i].code)
    decreases |ms|
  {
    if |ms| > 0 {
      EncodeFromCons(prev, ms, pool);
      var idx := pool[ms[0].key];
      EncodeFromContents(idx, ms[1..], pool);
      AllInCons(ms, pool);
      var tail := EncodeFrom(idx, ms[1..], pool).value;
      EntriesCons(Entry(idx - prev, ms[0].accessFlags, ms[0].code), tail, ms);
      DeltasCons(prev, idx, Indices(ms[1..], pool));
      IndicesCons(ms, pool);
    }
  }

  /** One step of a successful encoding. */
  lemma EncodeFromCons(prev: int, ms: seq<Member>, pool: map<string, nat>)
    requires |ms| > 0 && EncodeFrom(prev, ms, pool).Ok?
    ensures ms[0].key in pool && pool[ms[0].key] - prev >= 0
    ensures EncodeFrom(pool[ms[0].key], ms[1..], pool).Ok?
    ensures EncodeFrom(prev, ms, pool).value ==
      [Entry(pool[ms[0].key] - prev, ms[0].accessFlags, ms[0].code)] + EncodeFrom(pool[ms[0].key], ms[1..], pool).value
  {
  }

  lemma EntriesCons(e: Entry, tail: seq<Entry>, ms: seq<Member>)
    requires |ms| == |tail| + 1
    requires e.accessFlags == ms[0].accessFlags && e.code == ms[0].code
    requires forall i | 0 <= i < |tail| :: tail[i].accessFlags == ms[1..][i].accessFlags && tail[i].code == ms[1..][i].code
    ensures Diffs([e] + tail) == [e.diff as int] + Diffs(tail)
    ensures forall i | 0 <= i < |ms| :: ([e] + tail)[i].accessFlags == ms[i].accessFlags && ([e] + tail)[i].code == ms[i].code
  {
    assert ([e] + tail)[1..] == tail;
  }

  lemma DeltasCons(prev: int, idx: int, rest: seq<int>)
    ensures Deltas(prev, [idx] + rest) == [idx - prev] + Deltas(idx, rest)
  {
    assert ([idx] + rest)[1..] == rest;
  }

  lemma IndicesCons(ms: seq<Member>, pool: map<string, nat>)
    requires |ms| > 0 && AllIn(ms, pool)
    ensures AllIn(ms[1..], pool)
    ensures Indices(ms, pool) == [pool[ms[0].key]] + Indices(ms[1..], pool)
  {
    AllInCons(ms, pool);
  }

  lemma AllInCons(ms: seq<Member>, pool: map<string, nat>)
    requires |ms| > 0
    ensures AllIn(ms, pool) <==> ms[0].key in pool && AllIn(ms[1..], pool)
  {
    assert forall i | 0 < i < |ms| :: ms[i] == ms[1..][i - 1];
  }

  lemma EncodeEmpty(prev: int, pool: map<string, nat>)
    ensures EncodeFrom(prev, [], pool) == Ok([])
    ensures PrefixSums(prev, Diffs([])) == Indices([], pool)
  {
  }

  lemma AscendingCons(prev: int, s: seq<int>)
    requires |s| > 0
    ensures Ascending(prev, s) <==> prev <= s[0] && Ascending(s[0], s[1..])
  {
    assert forall i | 0 < i < |s| :: s[i] == s[1..][i - 1];
  }

  /** The deltas an entry list holds. */
  function Diffs(es: seq<Entry>): (r: seq<int>)
    ensures |r| == |es|
    ensures forall i | 0 <= i < |es| :: r[i] == es[i].diff
  {
    if |es| == 0 then [] else [es[0].diff as int] + Diffs(es[1..])
  }
}
