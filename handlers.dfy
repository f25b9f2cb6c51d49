/** The try section of a code_item as write_code_item builds it: each try
    block is validated, and its handler list is written once into the
    encoded_catch_handler_list buffer, interned by the try block's str()
    key. The byte layout is the encoded_catch_handler of the Dalvik
    Executable format: a signed LEB128 size, (type index, address) pairs for
    typed handlers and a bare address for a catch-all. */
module Handlers {
  import opened Wrappers
  import opened Bytes
  import Pools
  import opened Editor

  /** The size written for a nonempty handler list: its length, or -(n - 1)
      when the last handler has no exception type. */
  function HandlerSize(hs: seq<Handler>): (r: int)
    requires |hs| > 0
    ensures r == |hs| || r == 1 - |hs|
    ensures r <= 0 <==> hs[|hs| - 1].exceptionType.None?
  {
    if hs[|hs| - 1].exceptionType.None? then -|hs| + 1 else |hs|
  }

  /** One handler: uleb(type index) then uleb(address) for a typed handler,
      uleb(address) alone for a catch-all, wherever it stands in the list. */
  function HandlerEntry(h: Handler, types: map<string, nat>): (r: Result<seq<byte>>)
    ensures h.exceptionType.None? ==> r == Ok(ULeb128(h.addr))
    ensures h.exceptionType.Some? ==>
      (r.Ok? <==> h.exceptionType.value in types) &&
      (r.Ok? ==> r.value == ULeb128(types[h.exceptionType.value]) + ULeb128(h.addr))
  {
    match h.exceptionType
    case Some(t) =>
      var index :- Pools.Find(types, t);
      Ok(ULeb128(index) + ULeb128(h.addr))
    case None => Ok(ULeb128(h.addr))
  }

  function HandlerPairs(hs: seq<Handler>, types: map<string, nat>): Result<seq<byte>>
  {
    if |hs| == 0 then Ok([])
    else
      var head :- HandlerEntry(hs[0], types);
      var tail :- HandlerPairs(hs[1..], types);
      Ok(head + tail)
  }

  /** The handler list of a try block: its size, then every handler. */
  function HandlerBlock(hs: seq<Handler>, types: map<string, nat>): (r: Result<seq<byte>>)
    requires |hs| > 0
    ensures r.Ok? <==> TypesKnown(hs, types)
    ensures r.Err? ==> r.error == DanglingReference
    ensures r.Ok? ==> At(r.value, 0, SLeb128(HandlerSize(hs)))
  {
    HandlerPairsOk(hs, types);
    var pairs :- HandlerPairs(hs, types);
    AtFront(SLeb128(HandlerSize(hs)), pairs);
    Ok(SLeb128(HandlerSize(hs)) + pairs)
  }

  /** A handler as a reader of the format sees it: a type index, or None for
      the catch-all, and an address. */
  datatype IndexedHandler = IndexedHandler(typeIndex: Option<nat>, addr: nat)

  /** The handler list with its types replaced by their pool indices (it is
      only looked at when every type is in the pool). */
  function Indexed(hs: seq<Handler>, types: map<string, nat>): seq<IndexedHandler>
  {
    if |hs| == 0 then []
    else
      var h := hs[0];
      [IndexedHandler(if h.exceptionType.Some? && h.exceptionType.value in types
                      then Some(types[h.exceptionType.value]) else None, h.addr)]
        + Indexed(hs[1..], types)
  }

  /** Reads one (type index, address) pair at position p. */
  function ReadPair(s: seq<byte>, p: nat): Option<(IndexedHandler, nat)>
  {
    match ReadULeb128(s, p)
    case None => None
    case Some((t, k)) =>
      match ReadULeb128(s, p + k)
      case None => None
      case Some((a, k2)) => Some((IndexedHandler(Some(t), a), k + k2))
  }

  lemma ReadPairRoundTrip(s: seq<byte>, p: nat, t: nat, a: nat)
    requires At(s, p, ULeb128(t) + ULeb128(a))
    ensures ReadPair(s, p) == Some((IndexedHandler(Some(t), a), |ULeb128(t)| + |ULeb128(a)|))
  {
    AtAppend(s, p, ULeb128(t), ULeb128(a));
    ReadPairAt(s, p, t, a);
  }

  lemma ReadPairAt(s: seq<byte>, p: nat, t: nat, a: nat)
    requires At(s, p, ULeb128(t)) && At(s, p + |ULeb128(t)|, ULeb128(a))
    ensures ReadPair(s, p) == Some((IndexedHandler(Some(t), a), |ULeb128(t)| + |ULeb128(a)|))
  {
    ULeb128RoundTrip(t, s, p);
    ULeb128RoundTrip(a, s, p + |ULeb128(t)|);
    ReadPairOf(s, p, t, |ULeb128(t)|, a, |ULeb128(a)|);
  }

  lemma ReadPairOf(s: seq<byte>, p: nat, t: nat, k: nat, a: nat, k2: nat)
    requires ReadULeb128(s, p) == Some((t, k)) && ReadULeb128(s, p + k) == Some((a, k2))
    ensures ReadPair(s, p) == Some((IndexedHandler(Some(t), a), k + k2))
  {
  }

  /** Reads n (type index, address) pairs from position p on. */
  function ReadTyped(s: seq<byte>, p: nat, n: nat): (r: Option<(seq<IndexedHandler>, nat)>)
    ensures r.Some? ==> |r.value.0| == n && forall i | 0 <= i < n :: r.value.0[i].typeIndex.Some?
    decreases n
  {
    if n == 0 then Some(([], 0))
    else
      match ReadPair(s, p)
      case None => None
      case Some((h, k)) =>
        match ReadTyped(s, p + k, n - 1)
        case None => None
        case Some((rest, k2)) => Some(([h] + rest, k + k2))
  }

  /** Reads one encoded_catch_handler at position p the way the format
      defines it: the size, then the handlers it announces. */
  function ReadHandlerBlock(s: seq<byte>, p: nat): (r: Option<(seq<IndexedHandler>, nat)>)
    ensures r.Some? ==> ReadSLeb128(s, p).Some?
    ensures r.Some? ==> var size := ReadSLeb128(s, p).value.0; var hs := r.value.0;
      && |hs| == (if size > 0 then size else 1 - size)
      && (forall i | 0 <= i < |hs| - 1 :: hs[i].typeIndex.Some?)
      && (hs[|hs| - 1].typeIndex.None? <==> size <= 0)
  {
    match ReadSLeb128(s, p)
    case None => None
    case Some((size, k)) =>
      match ReadHandlers(s, p + k, size)
      case None => None
      case Some((hs, k2)) => Some((hs, k + k2))
  }

  /** |size| typed pairs, then a catch-all address when size is not positive. */
  function ReadHandlers(s: seq<byte>, p: nat, size: int): Option<(seq<IndexedHandler>, nat)>
  {
    match ReadTyped(s, p, if size > 0 then size else -size)
    case None => None
    case Some((typed, k)) =>
      if size > 0 then Some((typed, k))
      else
        match ReadULeb128(s, p + k)
        case None => None
        case Some((a, k2)) => Some((typed + [IndexedHandler(None, a)], k + k2))
  }

  predicate AllTyped(hs: seq<Handler>)
  {
    forall i | 0 <= i < |hs| :: hs[i].exceptionType.Some?
  }

  predicate TypesKnown(hs: seq<Handler>, types: map<string, nat>)
  {
    forall i | 0 <= i < |hs| && hs[i].exceptionType.Some? :: hs[i].exceptionType.value in types
  }

  /** Handler entries succeed exactly when every typed handler's type is in
      the type pool. */
  lemma {:induction false} HandlerPairsOk(hs: seq<Handler>, types: map<string, nat>)
    ensures HandlerPairs(hs, types).Ok? <==> TypesKnown(hs, types)
    ensures HandlerPairs(hs, types).Err? ==> HandlerPairs(hs, types).error == DanglingReference
  {
    if |hs| > 0 {
      HandlerPairsOk(hs[1..], types);
      assert forall i | 1 <= i < |hs| :: hs[i] == hs[1..][i - 1];
    }
  }

  lemma HandlerPairsCons(hs: seq<Handler>, types: map<string, nat>)
    requires |hs| > 0 && hs[0].exceptionType.Some? && hs[0].exceptionType.value in types
    requires HandlerPairs(hs[1..], types).Ok?
    ensures HandlerPairs(hs, types)
         == Ok(ULeb128(types[hs[0].exceptionType.value]) + ULeb128(hs[0].addr) + HandlerPairs(hs[1..], types).value)
  {
  }

  lemma {:induction false} ReadTypedRoundTrip(s: seq<byte>, p: nat, hs: seq<Handler>, types: map<string, nat>)
    requires AllTyped(hs) && TypesKnown(hs, types)
    requires HandlerPairs(hs, types).Ok? && At(s, p, HandlerPairs(hs, types).value)
    ensures ReadTyped(s, p, |hs|) == Some((Indexed(hs, types), |HandlerPairs(hs, types).value|))
    decreases |hs|
  {
    if |hs| > 0 {
      var h := hs[0];
      var t := types[h.exceptionType.value];
      TailTyped(hs, types);
      HandlerPairsOk(hs[1..], types);
      var tail := HandlerPairs(hs[1..], types).value;
      HandlerPairsCons(hs, types);
      var pair := ULeb128(t) + ULeb128(h.addr);
      AtAppend(s, p, pair, tail);
      ReadTypedRoundTrip(s, p + |pair|, hs[1..], types);
      ReadTypedCons(s, p, hs, types);
    }
  }

  /** One more handler in front of a list that reads back. */
  lemma ReadTypedCons(s: seq<byte>, p: nat, hs: seq<Handler>, types: map<string, nat>)
    requires |hs| > 0 && AllTyped(hs) && TypesKnown(hs, types) && HandlerPairs(hs[1..], types).Ok?
    requires At(s, p, ULeb128(types[hs[0].exceptionType.value]) + ULeb128(hs[0].addr))
    requires ReadTyped(s, p + |ULeb128(types[hs[0].exceptionType.value]) + ULeb128(hs[0].addr)|, |hs| - 1)
          == Some((Indexed(hs[1..], types), |HandlerPairs(hs[1..], types).value|))
    ensures HandlerPairs(hs, types).Ok?
    ensures ReadTyped(s, p, |hs|) == Some((Indexed(hs, types), |HandlerPairs(hs, types).value|))
  {
    var t := types[hs[0].exceptionType.value];
    HandlerPairsCons(hs, types);
    ReadTypedStep(s, p, |hs|, t, hs[0].addr, Indexed(hs[1..], types), |HandlerPairs(hs[1..], types).value|);
    assert Indexed(hs, types) == [IndexedHandler(Some(t), hs[0].addr)] + Indexed(hs[1..], types);
  }

  lemma ReadTypedStep(s: seq<byte>, p: nat, n: nat, t: nat, a: nat, tail: seq<IndexedHandler>, k2: nat)
    requires n > 0 && At(s, p, ULeb128(t) + ULeb128(a))
    requires ReadTyped(s, p + |ULeb128(t) + ULeb128(a)|, n - 1) == Some((tail, k2))
    ensures ReadTyped(s, p, n) == Some(([IndexedHandler(Some(t), a)] + tail, |ULeb128(t) + ULeb128(a)| + k2))
  {
    ReadPairRoundTrip(s, p, t, a);
    ReadTypedOf(s, p, n, IndexedHandler(Some(t), a), |ULeb128(t) + ULeb128(a)|, tail, k2);
  }

  lemma TailTyped(hs: seq<Handler>, types: map<string, nat>)
    requires |hs| > 0 && AllTyped(hs) && TypesKnown(hs, types)
    ensures AllTyped(hs[1..]) && TypesKnown(hs[1..], types)
  {
    assert forall i | 0 <= i < |hs[1..]| :: hs[1..][i] == hs[i + 1];
  }

  lemma ReadTypedOf(s: seq<byte>, p: nat, n: nat, h: IndexedHandler, k: nat, tail: seq<IndexedHandler>, k2: nat)
    requires n > 0 && ReadPair(s, p) == Some((h, k)) && ReadTyped(s, p + k, n - 1) == Some((tail, k2))
    ensures ReadTyped(s, p, n) == Some(([h] + tail, k + k2))
  {
  }

  /** Decoding a written handler list gives back its handlers, in order,
      with their type indices, when only the last one may be a catch-all. */
  lemma HandlerBlockRoundTrip(s: seq<byte>, p: nat, hs: seq<Handler>, types: map<string, nat>)
    requires |hs| > 0
    requires AllTyped(hs[..|hs| - 1]) && TypesKnown(hs, types)
    requires HandlerBlock(hs, types).Ok? && At(s, p, HandlerBlock(hs, types).value)
    ensures ReadHandlerBlock(s, p) == Some((Indexed(hs, types), |HandlerBlock(hs, types).value|))
  {
    var size := SLeb128(HandlerSize(hs));
    var pairs := HandlerPairs(hs, types).value;
    assert HandlerBlock(hs, types).value == size + pairs;
    AtAppend(s, p, size, pairs);
    SLeb128RoundTrip(HandlerSize(hs), s, p);
    HandlersRoundTrip(s, p + |size|, hs, types);
    ReadHandlerBlockOf(s, p, HandlerSize(hs), |size|, Indexed(hs, types), |pairs|);
  }

  /** The handler block reader: the size, then the handlers after it. */
  lemma ReadHandlerBlockOf(s: seq<byte>, p: nat, size: int, k: nat, hs: seq<IndexedHandler>, k2: nat)
    requires ReadSLeb128(s, p) == Some((size, k)) && ReadHandlers(s, p + k, size) == Some((hs, k2))
    ensures ReadHandlerBlock(s, p) == Some((hs, k + k2))
  {
  }

  lemma HandlersRoundTrip(s: seq<byte>, p: nat, hs: seq<Handler>, types: map<string, nat>)
    requires |hs| > 0
    requires AllTyped(hs[..|hs| - 1]) && TypesKnown(hs, types)
    requires HandlerPairs(hs, types).Ok? && At(s, p, HandlerPairs(hs, types).value)
    ensures ReadHandlers(s, p, HandlerSize(hs)) == Some((Indexed(hs, types), |HandlerPairs(hs, types).value|))
  {
    if hs[|hs| - 1].exceptionType.Some? {
      assert AllTyped(hs);
      ReadTypedRoundTrip(s, p, hs, types);
    } else {
      var init := hs[..|hs| - 1];
      var last := hs[|hs| - 1];
      assert hs == init + [last];
      assert TypesKnown(init, types);
      HandlerPairsSplit(init, last, types);
      IndexedSplit(init, last, types);
      CatchAllRoundTrip(s, p, init, types, last.addr);
    }
  }

  /** Typed pairs followed by a bare address read back as the typed
      handlers and a catch-all. */
  lemma CatchAllRoundTrip(s: seq<byte>, p: nat, init: seq<Handler>, types: map<string, nat>, addr: nat)
    requires AllTyped(init) && TypesKnown(init, types) && HandlerPairs(init, types).Ok?
    requires At(s, p, HandlerPairs(init, types).value + ULeb128(addr))
    ensures ReadHandlers(s, p, -|init|)
         == Some((Indexed(init, types) + [IndexedHandler(None, addr)], |HandlerPairs(init, types).value| + |ULeb128(addr)|))
  {
    var pairs := HandlerPairs(init, types).value;
    AtAppend(s, p, pairs, ULeb128(addr));
    ReadTypedRoundTrip(s, p, init, types);
    ULeb128RoundTrip(addr, s, p + |pairs|);
  }

  lemma {:induction false} HandlerPairsSplit(init: seq<Handler>, last: Handler, types: map<string, nat>)
    requires TypesKnown(init, types) && last.exceptionType.None?
    ensures HandlerPairs(init, types).Ok? && HandlerPairs(init + [last], types).Ok?
    ensures HandlerPairs(init + [last], types).value == HandlerPairs(init, types).value + ULeb128(last.addr)
  {
    HandlerPairsOk(init, types);
    if |init| == 0 {
      assert (init + [last])[1..] == [];
      assert HandlerPairs([], types) == Ok([]);
    } else {
      assert (init + [last])[1..] == init[1..] + [last];
      assert TypesKnown(init[1..], types) by {
        assert forall i | 0 <= i < |init[1..]| :: init[1..][i] == init[i + 1];
      }
      HandlerPairsSplit(init[1..], last, types);
    }
  }

  lemma {:induction false} IndexedSplit(init: seq<Handler>, last: Handler, types: map<string, nat>)
    requires TypesKnown(init, types) && last.exceptionType.None?
    ensures TypesKnown(init + [last], types)
    ensures Indexed(init + [last], types) == Indexed(init, types) + [IndexedHandler(None, last.addr)]
  {
    var s := init + [last];
    assert forall i | 0 <= i < |init| :: s[i] == init[i];
    if |init| > 0 {
      assert s[1..] == init[1..] + [last];
      assert TypesKnown(init[1..], types) by {
        assert forall i | 0 <= i < |init[1..]| :: init[1..][i] == init[i + 1];
      }
      IndexedSplit(init[1..], last, types);
    } else {
      assert s[1..] == [];
    }
  }

  // ----- the try pass of write_code_item -----

  /** str(try_block) as a key: start, end and the catch-all text. */
  type TryKey = (int, int, string)

  /** The try_item written for one try block. */
  datatype TryItem = TryItem(startAddr: nat, insnCount: nat, handlerOff: nat)

  /** handler_map, the try_items written so far and the handler buffer. */
  datatype TryState = TryState(handlerMap: map<TryKey, nat>, items: seq<TryItem>, eh: seq<byte>)

  function KeySet(all: seq<TryCatch<int>>): set<TryKey>
  {
    set i | 0 <= i < |all| :: all[i].Key()
  }

  /** Every key mapped to 0 and the buffer holding uleb(len(handler_map)). */
  function Initial(all: seq<TryCatch<int>>): (st: TryState)
    ensures st.handlerMap.Keys == KeySet(all) && |st.handlerMap| == |KeySet(all)|
    ensures st.eh == ULeb128(|KeySet(all)|) && st.items == []
  {
    var m := map k | k in KeySet(all) :: 0;
    assert m.Keys == KeySet(all);
    TryState(m, [], ULeb128(|KeySet(all)|))
  }

  /** One iteration of the loop over try_blocks. */
  function TryStep(st: TryState, t: TryCatch<int>, codeUnits: nat, types: map<string, nat>): (r: Result<TryState>)
    requires t.Key() in st.handlerMap
    ensures r.Ok? ==> r.value.handlerMap.Keys == st.handlerMap.Keys
    ensures r.Ok? ==> |r.value.items| == |st.items| + 1 && r.value.items == st.items + [r.value.items[|st.items|]]
  {
    if t.start > codeUnits then Err(MalformedTryRange)
    else if !(0 <= t.start < Pow256(4)) || !(0 <= CodeCount(t) < Pow256(2)) then Err(StructError)
    else if |t.catchHandlers| == 0 then Err(MalformedTryRange)
    else
      var off := st.handlerMap[t.Key()];
      if off != 0 then
        if off < Pow256(2) then Ok(TryState(st.handlerMap, st.items + [TryItem(t.start, CodeCount(t), off)], st.eh))
        else Err(StructError)
      else
        var pos := |st.eh|;
        if pos >= Pow256(2) then Err(StructError)
        else
          var block :- HandlerBlock(t.catchHandlers, types);
          Ok(TryState(st.handlerMap[t.Key() := pos], st.items + [TryItem(t.start, CodeCount(t), pos)], st.eh + block))
  }

  /** The loop run over the first n try blocks. */
  function TryFold(all: seq<TryCatch<int>>, n: nat, codeUnits: nat, types: map<string, nat>): (r: Result<TryState>)
    requires n <= |all|
    ensures r.Ok? ==> r.value.handlerMap.Keys == KeySet(all) && |r.value.items| == n
  {
    if n == 0 then Ok(Initial(all))
    else
      var st :- TryFold(all, n - 1, codeUnits, types);
      assert all[n - 1].Key() in KeySet(all);
      TryStep(st, all[n - 1], codeUnits, types)
  }

  /** The try pass succeeds only on valid try blocks, and fails whenever one
      starts past the code or has no handlers. */
  lemma {:induction false} TryFoldValidates(all: seq<TryCatch<int>>, n: nat, codeUnits: nat, types: map<string, nat>)
    requires n <= |all|
    ensures TryFold(all, n, codeUnits, types).Ok? ==>
      forall i | 0 <= i < n :: 0 <= all[i].start <= codeUnits && |all[i].catchHandlers| > 0 && 0 <= CodeCount(all[i]) < 65536
    ensures (exists i | 0 <= i < n :: all[i].start > codeUnits || |all[i].catchHandlers| == 0) ==>
      TryFold(all, n, codeUnits, types).Err?
  {
    if n > 0 {
      TryFoldValidates(all, n - 1, codeUnits, types);
      var prev := TryFold(all, n - 1, codeUnits, types);
      if prev.Ok? {
        assert all[n - 1].Key() in KeySet(all);
        TryStepValidates(prev.value, all[n - 1], codeUnits, types);
        var next := TryStep(prev.value, all[n - 1], codeUnits, types);
        assert TryFold(all, n, codeUnits, types) == next;
        if next.Ok? {
          forall i | 0 <= i < n
            ensures 0 <= all[i].start <= codeUnits && |all[i].catchHandlers| > 0 && 0 <= CodeCount(all[i]) < 65536
          {
            if i < n - 1 {
              assert all[i].start >= 0;
            }
          }
        }
      }
    }
  }

  /** One step fails on a block that starts past the code or has no
      handlers, and succeeds only on a valid one. */
  lemma TryStepValidates(st: TryState, t: TryCatch<int>, codeUnits: nat, types: map<string, nat>)
    requires t.Key() in st.handlerMap
    ensures TryStep(st, t, codeUnits, types).Ok? ==>
      0 <= t.start <= codeUnits && |t.catchHandlers| > 0 && 0 <= CodeCount(t) < 65536
    ensures t.start > codeUnits || |t.catchHandlers| == 0 ==> TryStep(st, t, codeUnits, types).Err?
  {
    assert Pow256(2) == 65536;
  }

  /** What one successful step did: a key seen before reuses its offset; a
      new key gets the buffer's current end, where its handler list goes. */
  lemma TryStepEffect(st: TryState, t: TryCatch<int>, codeUnits: nat, types: map<string, nat>)
    requires t.Key() in st.handlerMap
    requires TryStep(st, t, codeUnits, types).Ok?
    ensures 0 <= t.start <= codeUnits && 0 <= CodeCount(t) && |t.catchHandlers| > 0
    ensures var st2 := TryStep(st, t, codeUnits, types).value;
      var off := st.handlerMap[t.Key()];
      off != 0 ==> st2 == TryState(st.handlerMap, st.items + [TryItem(t.start, CodeCount(t), off)], st.eh)
    ensures var st2 := TryStep(st, t, codeUnits, types).value;
      st.handlerMap[t.Key()] == 0 ==>
        HandlerBlock(t.catchHandlers, types).Ok? &&
        st2 == TryState(st.handlerMap[t.Key() := |st.eh|], st.items + [TryItem(t.start, CodeCount(t), |st.eh|)],
                        st.eh + HandlerBlock(t.catchHandlers, types).value)
  {
  }

  /** Handler list at an offset of the buffer. */
  predicate BlockAt(eh: seq<byte>, off: nat, hs: seq<Handler>, types: map<string, nat>)
  {
    |hs| > 0 && HandlerBlock(hs, types).Ok? && At(eh, off, HandlerBlock(hs, types).value)
  }

  /** The map covers every key, one item per try block so far, and the
      buffer still starts with the count. */
  predicate Shaped(all: seq<TryCatch<int>>, n: nat, st: TryState)
  {
    && st.handlerMap.Keys == KeySet(all)
    && |st.items| == n
    && |ULeb128(|KeySet(all)|)| <= |st.eh|
    && st.eh[..|ULeb128(|KeySet(all)|)|] == ULeb128(|KeySet(all)|)
  }

  /** Every offset lies inside the buffer, and no two keys share a nonzero offset. */
  predicate Distinct(st: TryState)
  {
    && (forall k | k in st.handlerMap :: st.handlerMap[k] < |st.eh|)
    && (forall k1, k2 | k1 in st.handlerMap && k2 in st.handlerMap && st.handlerMap[k1] != 0 && st.handlerMap[k1] == st.handlerMap[k2] :: k1 == k2)
  }

  /** Every try block so far has a nonzero offset, written in its try_item. */
  predicate Carried(all: seq<TryCatch<int>>, n: nat, st: TryState)
    requires n <= |all| && |st.items| == n
  {
    forall i | 0 <= i < n :: all[i].Key() in st.handlerMap && st.handlerMap[all[i].Key()] != 0
      && st.items[i].handlerOff == st.handlerMap[all[i].Key()]
  }

  /** Every nonzero offset holds the handler list of a try block with its key. */
  predicate Held(all: seq<TryCatch<int>>, n: nat, types: map<string, nat>, st: TryState)
    requires n <= |all|
  {
    forall k | k in st.handlerMap && st.handlerMap[k] != 0 ::
      exists j | 0 <= j < n :: all[j].Key() == k && BlockAt(st.eh, st.handlerMap[k], all[j].catchHandlers, types)
  }

  /** What the loop keeps. */
  predicate Interned(all: seq<TryCatch<int>>, n: nat, types: map<string, nat>, st: TryState)
    requires n <= |all|
  {
    Shaped(all, n, st) && Distinct(st) && Carried(all, n, st) && Held(all, n, types, st)
  }

  lemma {:induction false} TryFoldInterns(all: seq<TryCatch<int>>, n: nat, codeUnits: nat, types: map<string, nat>)
    requires n <= |all|
    ensures TryFold(all, n, codeUnits, types).Ok? ==> Interned(all, n, types, TryFold(all, n, codeUnits, types).value)
  {
    if n == 0 {
      InternInitial(all, types);
    } else if TryFold(all, n, codeUnits, types).Ok? {
      TryFoldInterns(all, n - 1, codeUnits, types);
      var st := TryFold(all, n - 1, codeUnits, types).value;
      assert all[n - 1].Key() in KeySet(all);
      assert TryFold(all, n, codeUnits, types) == TryStep(st, all[n - 1], codeUnits, types);
      InternStep(all, n, codeUnits, types, st);
    }
  }

  /** Before the loop: every key maps to 0 and the buffer is the count. */
  lemma InternInitial(all: seq<TryCatch<int>>, types: map<string, nat>)
    ensures Interned(all, 0, types, Initial(all))
  {
    var st := Initial(all);
    assert st.eh[..|st.eh|] == st.eh;
    assert forall k | k in st.handlerMap :: st.handlerMap[k] == 0;
  }

  /** One successful step keeps what the loop keeps. */
  lemma InternStep(all: seq<TryCatch<int>>, n: nat, codeUnits: nat, types: map<string, nat>, st: TryState)
    requires 0 < n <= |all| && Interned(all, n - 1, types, st) && all[n - 1].Key() in st.handlerMap
    requires TryStep(st, all[n - 1], codeUnits, types).Ok?
    ensures Interned(all, n, types, TryStep(st, all[n - 1], codeUnits, types).value)
  {
    var st2 := TryStep(st, all[n - 1], codeUnits, types).value;
    var t := all[n - 1];
    TryStepEffect(st, t, codeUnits, types);
    if st.handlerMap[t.Key()] != 0 {
      ReuseInterned(all, n, types, st, st2);
    } else {
      var block := HandlerBlock(t.catchHandlers, types).value;
      AppendShaped(all, n, st, st2, block);
      AppendDistinct(all[n - 1].Key(), st, st2, block);
      AppendCarried(all, n, st, st2);
      AppendHeld(all, n, types, st, st2, block);
    }
  }

  lemma ReuseInterned(all: seq<TryCatch<int>>, n: nat, types: map<string, nat>, st: TryState, st2: TryState)
    requires 0 < n <= |all|
    requires Interned(all, n - 1, types, st)
    requires all[n - 1].Key() in st.handlerMap && st.handlerMap[all[n - 1].Key()] != 0
    requires all[n - 1].start >= 0 && CodeCount(all[n - 1]) >= 0
    requires st2 == TryState(st.handlerMap, st.items + [TryItem(all[n - 1].start, CodeCount(all[n - 1]), st.handlerMap[all[n - 1].Key()])], st.eh)
    ensures Interned(all, n, types, st2)
  {
    ReuseCarried(all, n, st, st2);
    ReuseHeld(all, n, types, st, st2);
  }

  lemma ReuseCarried(all: seq<TryCatch<int>>, n: nat, st: TryState, st2: TryState)
    requires 0 < n <= |all| && |st.items| == n - 1 && Carried(all, n - 1, st)
    requires all[n - 1].Key() in st.handlerMap && st.handlerMap[all[n - 1].Key()] != 0
    requires st2.handlerMap == st.handlerMap
    requires |st2.items| == n && st2.items[..n - 1] == st.items && st2.items[n - 1].handlerOff == st.handlerMap[all[n - 1].Key()]
    ensures Carried(all, n, st2)
  {
    forall i | 0 <= i < n - 1
      ensures st2.items[i] == st.items[i]
    {
    }
  }

  lemma ReuseHeld(all: seq<TryCatch<int>>, n: nat, types: map<string, nat>, st: TryState, st2: TryState)
    requires 0 < n <= |all| && Held(all, n - 1, types, st)
    requires st2.handlerMap == st.handlerMap && st2.eh == st.eh
    ensures Held(all, n, types, st2)
  {
    forall k | k in st2.handlerMap && st2.handlerMap[k] != 0
      ensures exists j | 0 <= j < n :: all[j].Key() == k && BlockAt(st2.eh, st2.handlerMap[k], all[j].catchHandlers, types)
    {
      var j :| 0 <= j < n - 1 && all[j].Key() == k && BlockAt(st.eh, st.handlerMap[k], all[j].catchHandlers, types);
    }
  }

  lemma AppendShaped(all: seq<TryCatch<int>>, n: nat, st: TryState, st2: TryState, block: seq<byte>)
    requires n > 0 && Shaped(all, n - 1, st)
    requires st2.eh == st.eh + block && st2.handlerMap.Keys == st.handlerMap.Keys && |st2.items| == n
    ensures Shaped(all, n, st2)
  {
    var c := |ULeb128(|KeySet(all)|)|;
    assert st2.eh[..c] == st.eh[..c];
  }

  lemma AppendDistinct(key: TryKey, st: TryState, st2: TryState, block: seq<byte>)
    requires Distinct(st) && key in st.handlerMap && |block| > 0
    requires st2.eh == st.eh + block && st2.handlerMap == st.handlerMap[key := |st.eh|]
    ensures Distinct(st2)
  {
  }

  lemma AppendCarried(all: seq<TryCatch<int>>, n: nat, st: TryState, st2: TryState)
    requires 0 < n <= |all| && |st.items| == n - 1 && Carried(all, n - 1, st)
    requires all[n - 1].Key() in st.handlerMap && st.handlerMap[all[n - 1].Key()] == 0 && |st.eh| > 0
    requires st2.handlerMap == st.handlerMap[all[n - 1].Key() := |st.eh|]
    requires |st2.items| == n && st2.items[..n - 1] == st.items && st2.items[n - 1].handlerOff == |st.eh|
    ensures Carried(all, n, st2)
  {
    forall i | 0 <= i < n
      ensures all[i].Key() in st2.handlerMap && st2.handlerMap[all[i].Key()] != 0
      ensures st2.items[i].handlerOff == st2.handlerMap[all[i].Key()]
    {
      if i < n - 1 {
        assert st2.items[i] == st.items[i];
      }
    }
  }

  lemma AppendHeld(all: seq<TryCatch<int>>, n: nat, types: map<string, nat>, st: TryState, st2: TryState, block: seq<byte>)
    requires 0 < n <= |all| && Held(all, n - 1, types, st)
    requires all[n - 1].Key() in st.handlerMap
    requires |all[n - 1].catchHandlers| > 0 && HandlerBlock(all[n - 1].catchHandlers, types) == Ok(block)
    requires st2.eh == st.eh + block && st2.handlerMap == st.handlerMap[all[n - 1].Key() := |st.eh|]
    ensures Held(all, n, types, st2)
  {
    var t := all[n - 1];
    var pos := |st.eh|;
    assert st2.eh[pos..pos + |block|] == block;
    AtSlice(st2.eh, pos, block);
    forall k | k in st2.handlerMap && st2.handlerMap[k] != 0
      ensures exists j | 0 <= j < n :: all[j].Key() == k && BlockAt(st2.eh, st2.handlerMap[k], all[j].catchHandlers, types)
    {
      if k == t.Key() {
        assert BlockAt(st2.eh, st2.handlerMap[k], all[n - 1].catchHandlers, types);
      } else {
        var j :| 0 <= j < n - 1 && all[j].Key() == k && BlockAt(st.eh, st.handlerMap[k], all[j].catchHandlers, types);
        var b := HandlerBlock(all[j].catchHandlers, types).value;
        AtExtend(st.eh, st.handlerMap[k], b, block);
        assert BlockAt(st2.eh, st2.handlerMap[k], all[j].catchHandlers, types);
      }
    }
  }

  /** Try blocks share a handler offset exactly when their str() keys are
      equal, and every offset holds the handler list of a try block with
      that key. */
  lemma TryFoldSharing(all: seq<TryCatch<int>>, codeUnits: nat, types: map<string, nat>)
    requires TryFold(all, |all|, codeUnits, types).Ok?
    ensures var st := TryFold(all, |all|, codeUnits, types).value;
      forall i, j | 0 <= i < |all| && 0 <= j < |all| ::
        all[i].Key() == all[j].Key() <==> st.items[i].handlerOff == st.items[j].handlerOff
    ensures var st := TryFold(all, |all|, codeUnits, types).value;
      forall i | 0 <= i < |all| :: st.items[i].handlerOff > 0 &&
        exists j | 0 <= j < |all| :: all[j].Key() == all[i].Key() && BlockAt(st.eh, st.items[i].handlerOff, all[j].catchHandlers, types)
  {
    TryFoldInterns(all, |all|, codeUnits, types);
  }

  /** The offsets a set of keys is mapped to. */
  function Image(m: map<TryKey, nat>, s: set<TryKey>): set<nat>
    requires s <= m.Keys
  {
    set k | k in s :: m[k]
  }

  lemma {:induction false} InjectiveImage(m: map<TryKey, nat>, s: set<TryKey>)
    requires s <= m.Keys
    requires forall a, b | a in s && b in s && m[a] == m[b] :: a == b
    ensures |Image(m, s)| == |s|
    decreases s
  {
    if s != {} {
      var x :| x in s;
      var s' := s - {x};
      InjectiveImage(m, s');
      assert Image(m, s) == Image(m, s') + {m[x]};
      assert m[x] !in Image(m, s');
    }
  }

  lemma OffsetsAreImage(all: seq<TryCatch<int>>, st: TryState)
    requires st.handlerMap.Keys == KeySet(all) && |st.items| == |all| && Carried(all, |all|, st)
    ensures (set i | 0 <= i < |all| :: st.items[i].handlerOff) == Image(st.handlerMap, KeySet(all))
  {
    var m := st.handlerMap;
    var offsets := set i | 0 <= i < |all| :: st.items[i].handlerOff;
    var image := Image(m, KeySet(all));
    forall k | k in KeySet(all)
      ensures m[k] in offsets
    {
      var i :| 0 <= i < |all| && all[i].Key() == k;
      assert st.items[i].handlerOff == m[k];
    }
    forall i | 0 <= i < |all|
      ensures st.items[i].handlerOff in image
    {
      assert all[i].Key() in KeySet(all);
    }
    assert offsets <= image;
    assert image <= offsets;
  }

  lemma CountAtHead(all: seq<TryCatch<int>>, st: TryState)
    requires Shaped(all, |all|, st)
    ensures ReadULeb128(st.eh, 0) == Some((|KeySet(all)|, |ULeb128(|KeySet(all)|)|))
  {
    var c := ULeb128(|KeySet(all)|);
    assert st.eh == c + st.eh[|c|..];
    AtFront(c, st.eh[|c|..]);
    ULeb128RoundTrip(|KeySet(all)|, st.eh, 0);
  }

  lemma DistinctOffsets(all: seq<TryCatch<int>>, st: TryState)
    requires Shaped(all, |all|, st) && Distinct(st) && Carried(all, |all|, st)
    ensures |set i | 0 <= i < |all| :: st.items[i].handlerOff| == |KeySet(all)|
  {
    OffsetsAreImage(all, st);
    var m := st.handlerMap;
    forall k | k in KeySet(all)
      ensures m[k] != 0
    {
      var i :| 0 <= i < |all| && all[i].Key() == k;
    }
    InjectiveImage(m, KeySet(all));
  }

  /** The count at the head of the handler buffer is the number of distinct
      keys, and as many distinct handler offsets are written. */
  lemma TryFoldCount(all: seq<TryCatch<int>>, codeUnits: nat, types: map<string, nat>)
    requires TryFold(all, |all|, codeUnits, types).Ok?
    ensures var st := TryFold(all, |all|, codeUnits, types).value;
      ReadULeb128(st.eh, 0) == Some((|KeySet(all)|, |ULeb128(|KeySet(all)|)|))
    ensures var st := TryFold(all, |all|, codeUnits, types).value;
      |set i | 0 <= i < |all| :: st.items[i].handlerOff| == |KeySet(all)|
  {
    TryFoldInterns(all, |all|, codeUnits, types);
    var st := TryFold(all, |all|, codeUnits, types).value;
    CountAtHead(all, st);
    DistinctOffsets(all, st);
  }

  /** The try_item written for a try block: its start and instruction count,
      each in range for the uint and ushort it is written as, and a handler
      offset in range for its ushort. */
  predicate ItemFor(t: TryCatch<int>, item: TryItem)
  {
    && item.startAddr == t.start && item.insnCount == CodeCount(t)
    && t.start < 0x1_0000_0000 && CodeCount(t) < 0x1_0000 && item.handlerOff < 0x1_0000
  }

  /** Each try_item of a successful pass belongs to its try block. */
  lemma {:induction false} TryFoldItems(all: seq<TryCatch<int>>, n: nat, codeUnits: nat, types: map<string, nat>)
    requires n <= |all|
    ensures TryFold(all, n, codeUnits, types).Ok? ==>
      forall i | 0 <= i < n :: ItemFor(all[i], TryFold(all, n, codeUnits, types).value.items[i])
  {
    if n > 0 && TryFold(all, n, codeUnits, types).Ok? {
      TryFoldItems(all, n - 1, codeUnits, types);
      var st := TryFold(all, n - 1, codeUnits, types).value;
      assert all[n - 1].Key() in KeySet(all);
      assert TryFold(all, n, codeUnits, types) == TryStep(st, all[n - 1], codeUnits, types);
      ItemStep(all, n, codeUnits, types, st);
    }
  }

  /** One step keeps every try_item with its try block. */
  lemma ItemStep(all: seq<TryCatch<int>>, n: nat, codeUnits: nat, types: map<string, nat>, st: TryState)
    requires 0 < n <= |all| && all[n - 1].Key() in st.handlerMap && |st.items| == n - 1
    requires forall i | 0 <= i < n - 1 :: ItemFor(all[i], st.items[i])
    requires TryStep(st, all[n - 1], codeUnits, types).Ok?
    ensures forall i | 0 <= i < n :: ItemFor(all[i], TryStep(st, all[n - 1], codeUnits, types).value.items[i])
  {
    TryStepItem(st, all[n - 1], codeUnits, types);
    ItemsFor(all, n, st.items, TryStep(st, all[n - 1], codeUnits, types).value.items);
  }

  /** The items of n try blocks, given those of the first n - 1 and the
      last one's own. */
  lemma ItemsFor(all: seq<TryCatch<int>>, n: nat, items: seq<TryItem>, items': seq<TryItem>)
    requires 0 < n <= |all| && |items'| == n && items' == items + [items'[n - 1]]
    requires forall i | 0 <= i < n - 1 :: ItemFor(all[i], items[i])
    requires ItemFor(all[n - 1], items'[n - 1])
    ensures forall i | 0 <= i < n :: ItemFor(all[i], items'[i])
  {
    forall i | 0 <= i < n
      ensures ItemFor(all[i], items'[i])
    {
      if i < n - 1 {
        assert items'[i] == items[i];
      }
    }
  }

  /** The try_item one step appends belongs to its try block. */
  lemma TryStepItem(st: TryState, t: TryCatch<int>, codeUnits: nat, types: map<string, nat>)
    requires t.Key() in st.handlerMap && TryStep(st, t, codeUnits, types).Ok?
    ensures ItemFor(t, TryStep(st, t, codeUnits, types).value.items[|st.items|])
  {
    assert Pow256(4) == 0x1_0000_0000 && Pow256(2) == 0x1_0000;
  }

  /** One more try block: the pass so far, then one step. */
  lemma TryFoldNext(all: seq<TryCatch<int>>, n: nat, codeUnits: nat, types: map<string, nat>, st: TryState)
    requires n < |all| && TryFold(all, n, codeUnits, types) == Ok(st)
    ensures all[n].Key() in st.handlerMap
    ensures TryFold(all, n + 1, codeUnits, types) == TryStep(st, all[n], codeUnits, types)
    ensures TryStep(st, all[n], codeUnits, types).Ok? ==>
      var items := TryStep(st, all[n], codeUnits, types).value.items;
      |items| == n + 1 && items == st.items + [items[n]]
  {
    assert all[n].Key() in KeySet(all);
  }
}
