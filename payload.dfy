/** The payload store: the additional data attached to every handle and request, keyed by
    the handle's or request's identity. Each entry is a closed variant, one case per kind,
    holding that kind's optional closures. Every access goes through a kind check, so a
    Signal entry can never be read or written as a Stream entry. */
module Payload {
  import opened Crate

  /** A user closure, kept as an opaque token: the model records which closure is called,
      never what it does. */
  datatype Closure = Closure(id: nat)

  /** The stream variant's own auxiliary data (`AddlStreamData`), opaque here. */
  datatype StreamExtra = StreamExtra(id: nat)

  datatype Kind = SignalKind | IdleKind | CheckKind | StreamKind | WorkKind

  /** The callback slots, each belonging to exactly one kind. */
  datatype Slot = SignalCb | IdleCb | CheckCb | AllocCb | ConnectionCb | ReadCb | WorkCb | AfterWorkCb

  datatype Payload =
    | SignalData(signalCb: Option<Closure>)
    | IdleData(idleCb: Option<Closure>)
    | CheckData(checkCb: Option<Closure>)
    | StreamData(allocCb: Option<Closure>, connectionCb: Option<Closure>,
                 readCb: Option<Closure>, addl: StreamExtra)
    | WorkData(workCb: Option<Closure>, afterWorkCb: Option<Closure>)

  type Table = map<Ptr, Payload>

  function KindOf(p: Payload): Kind
  {
    match p
    case SignalData(_) => SignalKind
    case IdleData(_) => IdleKind
    case CheckData(_) => CheckKind
    case StreamData(_, _, _, _) => StreamKind
    case WorkData(_, _) => WorkKind
  }

  function SlotKind(s: Slot): Kind
  {
    match s
    case SignalCb => SignalKind
    case IdleCb => IdleKind
    case CheckCb => CheckKind
    case AllocCb => StreamKind
    case ConnectionCb => StreamKind
    case ReadCb => StreamKind
    case WorkCb => WorkKind
    case AfterWorkCb => WorkKind
  }

  /** Whether entry `p` is of the kind that owns slot `s`. */
  predicate Has(p: Payload, s: Slot)
  {
    KindOf(p) == SlotKind(s)
  }

  function Get(p: Payload, s: Slot): Option<Closure>
    requires Has(p, s)
  {
    match s
    case SignalCb => p.signalCb
    case IdleCb => p.idleCb
    case CheckCb => p.checkCb
    case AllocCb => p.allocCb
    case ConnectionCb => p.connectionCb
    case ReadCb => p.readCb
    case WorkCb => p.workCb
    case AfterWorkCb => p.afterWorkCb
  }

  /** Overwrite one slot of an entry in place: the kind, every other slot and the stream's
      auxiliary data stay as they were. */
  function Set(p: Payload, s: Slot, cb: Option<Closure>): (q: Payload)
    requires Has(p, s)
    ensures KindOf(q) == KindOf(p)
    ensures Get(q, s) == cb
    ensures forall s' :: Has(p, s') && s' != s ==> Get(q, s') == Get(p, s')
    ensures q.StreamData? ==> q.addl == p.addl
  {
    match s
    case SignalCb => p.(signalCb := cb)
    case IdleCb => p.(idleCb := cb)
    case CheckCb => p.(checkCb := cb)
    case AllocCb => p.(allocCb := cb)
    case ConnectionCb => p.(connectionCb := cb)
    case ReadCb => p.(readCb := cb)
    case WorkCb => p.(workCb := cb)
    case AfterWorkCb => p.(afterWorkCb := cb)
  }

  /** The variant-checked lookup (`get_data` followed by the `if let` on the variant): the
      entry of `h` when there is one and it is of kind `k`, and null (None) otherwise, whether
      the entry is missing or of another kind. */
  function GetData(t: Table, h: Ptr, k: Kind): (d: Option<Payload>)
    ensures d.Some? <==> h in t && KindOf(t[h]) == k
    ensures d.Some? ==> d.value == t[h]
    ensures h !in t ==> d == None
  {
    if h in t && KindOf(t[h]) == k then Some(t[h]) else None
  }

  /** The update every start-like operation makes: when `h` has an entry of the slot's kind,
      that slot now holds `cb`; otherwise the store is left alone. No other entry, no other
      slot and no entry's kind changes. */
  function Store(t: Table, h: Ptr, s: Slot, cb: Option<Closure>): (u: Table)
    ensures u.Keys == t.Keys
    ensures forall k :: k in t && k != h ==> u[k] == t[k]
    ensures h in t ==> KindOf(u[h]) == KindOf(t[h])
    ensures h in t && Has(t[h], s) ==> Get(u[h], s) == cb
    ensures h in t && Has(t[h], s) ==>
              forall s' :: Has(t[h], s') && s' != s ==> Get(u[h], s') == Get(t[h], s')
    ensures h in t && u[h].StreamData? ==> u[h].addl == t[h].addl
    ensures !(h in t && Has(t[h], s)) ==> u == t
  {
    match GetData(t, h, SlotKind(s))
    case None => t
    case Some(p) => t[h := Set(p, s, cb)]
  }

  /** What a trampoline calls for slot `s` of `h`: the stored closure when the entry exists,
      is of the slot's kind and holds Some; nothing in every other case. */
  function Dispatch(t: Table, h: Ptr, s: Slot): (f: Option<Closure>)
    ensures f.Some? ==> h in t && Has(t[h], s) && Get(t[h], s) == f
    ensures h in t && Has(t[h], s) ==> f == Get(t[h], s)
  {
    match GetData(t, h, SlotKind(s))
    case None => None
    case Some(p) => Get(p, s)
  }

  /** A store update is seen by the very next dispatch of that slot. */
  lemma StoreThenDispatch(t: Table, h: Ptr, s: Slot, cb: Option<Closure>)
    ensures Dispatch(Store(t, h, s, cb), h, s) == (if h in t && Has(t[h], s) then cb else None)
  {
  }

  // ---------------------------------------------------------------------------------------
  // The stream's `get_data` as written

  /** What dereferencing a payload pointer gives: a fault (the pointer was null), a null
      result, or the entry. */
  datatype Deref = Fault | Null | Fields(fields: Payload)

  /** The stream's `get_data` as written: it dereferences the pointer returned by the generic
      lookup before testing it for null, so a stream with no entry faults instead of giving
      null. */
  function StreamGetDataAsWritten(t: Table, h: Ptr): (d: Deref)
    ensures d == Fault <==> h !in t
    ensures d == Null <==> h in t && !t[h].StreamData?
    ensures d.Fields? ==> d.fields == t[h] && d.fields.StreamData?
  {
    if h !in t then Fault
    else if t[h].StreamData? then Fields(t[h])
    else Null
  }

  /** A stream handle with no entry (never initialised, or already freed): the lookup as
      written faults, the kind-checked lookup gives null. */
  lemma StreamGetDataAsWrittenFaults(t: Table, h: Ptr)
    requires h !in t
    ensures StreamGetDataAsWritten(t, h) == Fault
    ensures GetData(t, h, StreamKind) == None
  {
  }

  // ---------------------------------------------------------------------------------------
  // Histories of one entry

  /** What happens to the entry of one handle or request: a start-like store, a trampoline
      firing for a slot, the entry being freed, or a call that reaches only libuv (stop,
      accept, read_stop, a submission). */
  datatype Op = Put(slot: Slot, cb: Option<Closure>) | Fire(slot: Slot) | Release | NativeOnly

  function Step(t: Table, h: Ptr, op: Op): Table
  {
    match op
    case Put(s, cb) => Store(t, h, s, cb)
    case Fire(_) => t
    case Release => t - {h}
    case NativeOnly => t
  }

  function Replay(t: Table, h: Ptr, ops: seq<Op>): Table
    decreases |ops|
  {
    if ops == [] then t else Replay(Step(t, h, ops[0]), h, ops[1..])
  }

  function AsSeq(f: Option<Closure>): seq<Closure>
  {
    if f.Some? then [f.value] else []
  }

  /** The closures the trampolines call, in order, along a history. */
  function Fired(t: Table, h: Ptr, ops: seq<Op>): seq<Closure>
    decreases |ops|
  {
    if ops == [] then []
    else
      (if ops[0].Fire? then AsSeq(Dispatch(t, h, ops[0].slot)) else [])
      + Fired(Step(t, h, ops[0]), h, ops[1..])
  }

  /** The closures a history hands to start-like operations. */
  function Given(ops: seq<Op>): set<Closure>
    decreases |ops|
  {
    if ops == [] then {}
    else (if ops[0].Put? && ops[0].cb.Some? then {ops[0].cb.value} else {}) + Given(ops[1..])
  }

  /** A history split in two is the second half replayed after the first. */
  lemma {:induction false} ReplayAppend(t: Table, h: Ptr, a: seq<Op>, b: seq<Op>)
    ensures Replay(t, h, a + b) == Replay(Replay(t, h, a), h, b)
    ensures Fired(t, h, a + b) == Fired(t, h, a) + Fired(Replay(t, h, a), h, b)
    decreases |a|
  {
    if a == [] {
      assert a + b == b;
    } else {
      assert (a + b)[0] == a[0];
      assert (a + b)[1..] == a[1..] + b;
      ReplayAppend(Step(t, h, a[0]), h, a[1..], b);
    }
  }

  /** A history touches the entry of its own handle only. */
  lemma {:induction false} ReplayTouchesOnly(t: Table, h: Ptr, ops: seq<Op>, k: Ptr)
    requires k != h
    ensures k in Replay(t, h, ops) <==> k in t
    ensures k in t ==> Replay(t, h, ops)[k] == t[k]
    decreases |ops|
  {
    if ops != [] {
      ReplayTouchesOnly(Step(t, h, ops[0]), h, ops[1..], k);
    }
  }

  /** Without an entry nothing can be stored and no trampoline calls anything. */
  lemma {:induction false} ReleasedNeverFires(t: Table, h: Ptr, ops: seq<Op>)
    requires h !in t
    ensures h !in Replay(t, h, ops)
    ensures Fired(t, h, ops) == []
    decreases |ops|
  {
    if ops != [] {
      ReleasedNeverFires(Step(t, h, ops[0]), h, ops[1..]);
    }
  }

  /** Never used after free: once the entry is freed, whatever follows calls no closure and
      brings no entry back. */
  lemma {:induction false} NoUseAfterRelease(t: Table, h: Ptr, before: seq<Op>, after: seq<Op>)
    ensures h !in Replay(t, h, before + [Release] + after)
    ensures Fired(t, h, before + [Release] + after) == Fired(t, h, before)
  {
    ReplayAppend(t, h, before + [Release], after);
    ReplayAppend(t, h, before, [Release]);
    var u := Replay(t, h, before + [Release]);
    assert u == Replay(t, h, before) - {h};
    assert Fired(Replay(t, h, before), h, [Release]) == [];
    ReleasedNeverFires(u, h, after);
  }

  /** No cross-variant access: an entry that survives a history has the kind it started
      with. */
  lemma {:induction false} VariantNeverChanges(t: Table, h: Ptr, ops: seq<Op>)
    requires h in Replay(t, h, ops)
    ensures h in t && KindOf(Replay(t, h, ops)[h]) == KindOf(t[h])
    decreases |ops|
  {
    if ops != [] {
      VariantNeverChanges(Step(t, h, ops[0]), h, ops[1..]);
    }
  }

  /** An operation that neither frees the entry nor stores into slot `s`. */
  predicate Keeps(op: Op, s: Slot)
  {
    !op.Release? && !(op.Put? && op.slot == s)
  }

  lemma {:induction false} SlotPersists(t: Table, h: Ptr, s: Slot, ops: seq<Op>)
    requires h in t && Has(t[h], s)
    requires forall i :: 0 <= i < |ops| ==> Keeps(ops[i], s)
    ensures h in Replay(t, h, ops) && Has(Replay(t, h, ops)[h], s)
    ensures Get(Replay(t, h, ops)[h], s) == Get(t[h], s)
    decreases |ops|
  {
    if ops != [] {
      assert Keeps(ops[0], s);
      SlotPersists(Step(t, h, ops[0]), h, s, ops[1..]);
    }
  }

  /** Replacing a closure takes effect on the next dispatch and lasts: after a store into
      slot `s`, until the next store into `s` or the entry is freed, every dispatch of `s`
      calls exactly the stored closure (or nothing, when None was stored). Stops, other
      slots' stores and firings do not change it. */
  lemma {:induction false} LatestStoreIsDispatched(t: Table, h: Ptr, s: Slot, cb: Option<Closure>,
                                                   ops: seq<Op>)
    requires h in t && Has(t[h], s)
    requires forall i :: 0 <= i < |ops| ==> Keeps(ops[i], s)
    ensures Dispatch(Replay(t, h, [Put(s, cb)] + ops), h, s) == cb
  {
    ReplayAppend(t, h, [Put(s, cb)], ops);
    assert Replay(t, h, [Put(s, cb)]) == Store(t, h, s, cb);
    SlotPersists(Store(t, h, s, cb), h, s, ops);
  }

  /** Every closure held by the entry of `h` (if any) belongs to `g`. */
  ghost predicate StoredWithin(t: Table, h: Ptr, g: set<Closure>)
  {
    h in t ==> forall s :: Has(t[h], s) && Get(t[h], s).Some? ==> Get(t[h], s).value in g
  }

  lemma {:induction false} FiresOnlyGiven(t: Table, h: Ptr, ops: seq<Op>, g: set<Closure>)
    requires StoredWithin(t, h, g)
    requires Given(ops) <= g
    ensures forall f :: f in Fired(t, h, ops) ==> f in g
    decreases |ops|
  {
    if ops != [] {
      var u := Step(t, h, ops[0]);
      assert StoredWithin(u, h, g) by {
        if ops[0].Put? && h in t && Has(t[h], ops[0].slot) {
          forall s | Has(u[h], s) && Get(u[h], s).Some?
            ensures Get(u[h], s).value in g
          {
            if s == ops[0].slot {
              assert Get(u[h], s) == ops[0].cb;
            }
          }
        }
      }
      FiresOnlyGiven(u, h, ops[1..], g);
    }
  }

  /** A trampoline only ever calls a closure that was handed to a start-like operation: from
      a freshly attached entry whose slots are all None, every closure fired along any history
      is one the history itself stored. */
  lemma FreshEntryFiresOnlyGiven(t: Table, h: Ptr, p: Payload, ops: seq<Op>)
    requires forall s :: Has(p, s) ==> Get(p, s) == None
    ensures forall f :: f in Fired(t[h := p], h, ops) ==> f in Given(ops)
  {
    FiresOnlyGiven(t[h := p], h, ops, Given(ops));
  }
}
