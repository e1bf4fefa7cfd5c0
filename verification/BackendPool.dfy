/** The per-Worker backend pool: the connection index, the receive arena, connection ids, and the
    failure count that keeps the idle test exact. */
module WorkerPool {
  import opened Options
  import opened ProbeTable
  import opened ConnectionIndex
  import opened SlotChains
  import opened ArenaModel
  import opened ReceiveArena

  const MAX_CONN_ID: nat := 0xFFFF

  datatype PoolError = TooManyConnections

  /** One chunk taken from a queue, with the slot it has to be given back as. */
  datatype ReadySlot = ReadySlot(index: nat, event: Event)

  /** Nothing is queued on any connection and no slot is on loan. */
  ghost predicate AllQuiet<K>(s: Arena<K>) {
    && (forall l :: l in s.layout.queues ==> s.layout.queues[l] == [])
    && (forall i :: !Loaned(s, i))
  }

  /** Counting free slots decides it exactly. */
  lemma FreeCountDecidesIdle<K>(s: Arena<K>)
    requires Inv(s)
    ensures s.freeCount == |s.layout.slots| <==> AllQuiet(s)
  {
    AllFreeIffNothingHeld(s.layout);
    if AllQuiet(s) {
      forall i | 0 <= i < |s.layout.owner| ensures !s.layout.owner[i].Borrowed? {
        assert !Loaned(s, i);
      }
    }
  }

  /** Popped, and the chunk handed out is the oldest of the queue. */
  ghost predicate HandedOut<K>(s: Arena<K>, t: Arena<K>, l: K, r: Option<ReadySlot>) {
    match r
    case None => Popped(s, t, l, None)
    case Some(ready) => Popped(s, t, l, Some(ready.index)) && ready.event == EventAt(s.layout.slots, s.bytes, ready.index)
  }

  /** In terms of histories: the queue's next event moves to what was popped, nothing else changes. */
  lemma HandedOutHistory<K>(s: Arena<K>, t: Arena<K>, l: K, ready: ReadySlot)
    requires HandedOut(s, t, l, Some(ready)) && l in s.popped
    ensures t.accepted == s.accepted && t.popped == s.popped[l := s.popped[l] + [ready.event]]
    ensures t.layout.queues.Keys == s.layout.queues.Keys && s.layout.queues[l] != []
    ensures ready.event == EventAt(s.layout.slots, s.bytes, s.layout.queues[l][0])
    ensures Loaned(t, ready.index) && LoansKept(s, t)
  {
  }

  lemma SomethingOut<K>(s: Arena<K>, t: Arena<K>, l: K, index: Option<nat>, ready: ReadySlot)
    requires Popped(s, t, l, index) && index == Some(ready.index)
    requires ready.event == EventAt(t.layout.slots, t.bytes, ready.index)
    ensures HandedOut(s, t, l, Some(ready))
  {
    PopEvents(s, l);
    assert SameEvent(s, t, ready.index);
    hide EventAt, LoansKept, ArenaModel.Pop;
  }

  class BackendPool {
    const maxConns: nat
    const index: CnxIndex
    const arena: SlotArena
    var live: nat
    var nextConnId: nat
    var pendingFailures: nat

    ghost predicate Valid()
      reads this`live, this`nextConnId, index, index.entries
    {
      && index.Valid()
      && live == |index.Contents| <= maxConns
      && 2 * maxConns <= index.entries.Length && 2 <= index.entries.Length
      && nextConnId <= MAX_CONN_ID
    }

    constructor (maxConns: nat, recvSlots: nat, maxSlotsPerConn: nat)
      ensures Valid() && arena.Valid() && fresh(index) && fresh(index.entries) && fresh(arena)
      ensures this.maxConns == maxConns && index.Contents == map[] && pendingFailures == 0 && nextConnId == 0
    {
      this.maxConns := maxConns;
      index := new CnxIndex(if maxConns < 1 then 1 else maxConns);
      arena := new SlotArena(recvSlots, maxSlotsPerConn);
      live, nextConnId, pendingFailures := 0, 0, 0;
    }

    /** Registering is refused exactly when the connection is new and the pool is at its limit;
        the limit is what keeps the index at most half full. */
    method Register(cnx: Key, owner: Owner) returns (r: Result<(), PoolError>)
      requires Valid()
      modifies this`live, index, index.entries
      ensures Valid() && 2 * |index.Contents| <= index.entries.Length
      ensures r.Ok? <==> old(cnx in index.Contents || |index.Contents| < maxConns)
      ensures index.Contents == if r.Ok? then old(index.Contents)[cnx := owner] else old(index.Contents)
    {
      hide ProbeTable.Represents, Chained, Occupied;
      var known := index.Find(cnx);
      if known.None? {
        if live >= maxConns {
          return Err(TooManyConnections);
        }
        live := live + 1;
      }
      index.Put(cnx, owner);
      assert known.Some? ==> old(index.Contents)[cnx := owner].Keys == old(index.Contents).Keys;
      assert known.None? ==> old(index.Contents)[cnx := owner].Keys == old(index.Contents).Keys + {cnx};
      return Ok(());
    }

    method Unregister(cnx: Key)
      requires Valid()
      modifies this`live, index, index.entries
      ensures Valid() && index.Contents == old(index.Contents) - {cnx}
    {
      hide ProbeTable.Represents, Chained, Occupied;
      var known := index.Find(cnx);
      if known.None? {
        assert index.Contents - {cnx} == index.Contents;
        return;
      }
      index.Remove(cnx);
      assert index.Contents.Keys == old(index.Contents).Keys - {cnx};
      live := live - 1;
    }

    /** Connection ids are handed out once each; the last value is never handed out. */
    method AllocConnId() returns (r: Result<nat, PoolError>)
      requires Valid()
      modifies this`nextConnId
      ensures Valid()
      ensures r == if old(nextConnId) == MAX_CONN_ID then Err(TooManyConnections) else Ok(old(nextConnId))
      ensures nextConnId == if r.Ok? then r.value + 1 else old(nextConnId)
    {
      if nextConnId == MAX_CONN_ID {
        return Err(TooManyConnections);
      }
      r := Ok(nextConnId);
      nextConnId := nextConnId + 1;
    }

    /** The oldest chunk of one queue, on loan until its slot is released. */
    method Pop(list: SlotList) returns (r: Option<ReadySlot>)
      requires arena.Valid() && list in arena.model.layout.queues
      modifies arena`model, arena.slots, list
      ensures arena.Valid()
      ensures HandedOut(old(arena.model), arena.model, list, r)
    {
      ghost var s := arena.model;
      hide *;
      var index := arena.Pop(list);
      if index.None? {
        return None;
      }
      OnLoan(s, arena.model, list, index);
      var ready := Borrow(index.value);
      SomethingOut(s, arena.model, list, index, ready);
      return Some(ready);
    }

    static lemma OnLoan<K>(s: Arena<K>, t: Arena<K>, l: K, index: Option<nat>)
      requires Popped(s, t, l, index) && index.Some?
      ensures Loaned(t, index.value)
    {
    }

    /** What a slot on loan holds. */
    method Borrow(i: nat) returns (ready: ReadySlot)
      requires arena.Valid() && Loaned(arena.model, i)
      ensures arena.Valid() && ready == ReadySlot(i, EventAt(arena.model.layout.slots, arena.model.bytes, i))
    {
      PoppedFits(arena, i);
      hide *;
      var slot := arena.slots[i];
      var data := arena.buffers[i * SLOT_BYTES..i * SLOT_BYTES + slot.len];
      return ReadySlot(i, Event(slot.streamId, data, slot.isFin, slot.kind));
    }

    static lemma PoppedFits(arena: SlotArena, i: nat)
      requires arena.Valid() && Loaned(arena.model, i)
      ensures i < arena.slots.Length && i * SLOT_BYTES + arena.slots[i].len <= arena.buffers.Length
      ensures EventAt(arena.model.layout.slots, arena.model.bytes, i)
           == Event(arena.slots[i].streamId, arena.buffers[i * SLOT_BYTES..i * SLOT_BYTES + arena.slots[i].len],
                    arena.slots[i].isFin, arena.slots[i].kind)
    {
      assert Sized(arena.model.layout.slots, arena.model.bytes);
      assert arena.slots[i] == arena.model.layout.slots[i];
    }

    method SignalFailure()
      modifies this`pendingFailures
      ensures pendingFailures == old(pendingFailures) + 1
    {
      pendingFailures := pendingFailures + 1;
    }

    method AcknowledgeFailure()
      requires pendingFailures > 0
      modifies this`pendingFailures
      ensures pendingFailures == old(pendingFailures) - 1
    {
      pendingFailures := pendingFailures - 1;
    }

    /** The drain fast path asks only this, and the answer is exact. */
    method Idle() returns (idle: bool)
      requires arena.Valid()
      ensures idle <==> AllQuiet(arena.model) && pendingFailures == 0
    {
      FreeCountDecidesIdle(arena.model);
      return arena.freeCount == arena.slots.Length && pendingFailures == 0;
    }
  }
}
