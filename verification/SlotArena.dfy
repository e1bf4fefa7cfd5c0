/** The shared receive arena as the code has it: a slot array and a byte buffer changed in place,
    list headers owned by the connections, and the realm quota bumped where slots change hands. */
module ReceiveArena {
  import opened Options
  import opened RealmQuota
  import opened SlotChains
  import opened ArenaModel

  /** The header of one connection's queue. */
  class SlotList {
    var head: Option<nat>
    var tail: Option<nat>
    var count: nat
    const realm: Realm

    constructor (realm: Realm)
      ensures head == None && tail == None && count == 0 && this.realm == realm
    {
      head, tail, count := None, None, 0;
      this.realm := realm;
    }
  }

  class SlotArena {
    const slots: array<Slot>
    const buffers: array<Byte>
    const maxPerConn: nat
    const quota: Quota
    var freeHead: Option<nat>
    var freeCount: nat
    /** The arena as a value: chains, owners, histories and charges. */
    ghost var model: Arena<SlotList>

    /** The fields in memory are the ones of the model. */
    ghost predicate Represents()
      reads this, slots, buffers, quota, quota.counts, model.layout.queues.Keys
    {
      && slots[..] == model.layout.slots && buffers[..] == model.bytes
      && freeHead == model.freeHead && freeCount == model.freeCount && maxPerConn == model.perConn
      && quota.Held == model.held && quota.counts.Length == model.tracked && HeadersMatch()
    }

    ghost predicate HeadersMatch()
      reads this`model, model.layout.queues.Keys
    {
      forall l :: l in model.layout.queues ==>
        l in model.headers && model.headers[l] == Header(l.head, l.tail, l.count, l.realm)
    }

    /** Headers nobody wrote to still match. */
    twostate lemma HeadersKept()
      requires old(HeadersMatch()) && unchanged(old(model.layout.queues.Keys))
      requires model.headers == old(model.headers) && model.layout.queues.Keys == old(model.layout.queues.Keys)
      ensures HeadersMatch()
    {
      forall l | l in model.layout.queues ensures l in model.headers && model.headers[l] == Header(l.head, l.tail, l.count, l.realm) {
        assert l in old(model.layout.queues.Keys);
      }
    }

    ghost predicate Valid()
      reads this, slots, buffers, quota, quota.counts, model.layout.queues.Keys
    {
      && quota.Valid() && quota.capacity == slots.Length
      && buffers as object != quota.counts as object
      && Represents() && Inv(model)
    }

    /** One header was written, and the model follows it. */
    twostate lemma HeaderFollowed(list: SlotList)
      requires old(HeadersMatch()) && unchanged(old(model.layout.queues.Keys) - {list}) && list in old(model.layout.queues)
      requires model.headers == old(model.headers)[list := Header(list.head, list.tail, list.count, list.realm)]
      requires model.layout.queues.Keys == old(model.layout.queues.Keys)
      ensures HeadersMatch()
    {
      forall l | l in model.layout.queues ensures l in model.headers && model.headers[l] == Header(l.head, l.tail, l.count, l.realm) {
        assert l in old(model.layout.queues.Keys);
      }
    }

    constructor (count: nat, perConn: nat)
      ensures Valid() && fresh(slots) && fresh(buffers) && fresh(quota) && fresh(quota.counts)
      ensures slots.Length == Max(count, 1) && maxPerConn == Max(Min(perConn, slots.Length), 1)
      ensures model.layout.queues == map[] && freeCount == slots.Length && quota.Held == multiset{}
      ensures quota.watermark == 70 && quota.counts.Length == 1024
    {
      var n := Max(count, 1);
      slots := new Slot[n]((i: nat) => FreeSlot(i, n));
      buffers := new Byte[n * SLOT_BYTES](_ => 0);
      quota := new Quota(MAX_TRACKED_REALMS, n, DEFAULT_WATERMARK_PERCENT);
      freeHead, freeCount := Some(0), n;
      maxPerConn := Max(Min(perConn, n), 1);
      new;
      model := EmptyArena(n, buffers[..], quota.counts.Length, maxPerConn);
      InitialArena<SlotList>(n, buffers[..], quota.counts.Length, maxPerConn);
      assert slots[..] == model.layout.slots;
      hide Inv, Range, FreeSlot;
    }

    /** A new connection brings its own, empty queue. */
    method OpenList(realm: Realm) returns (list: SlotList)
      requires Valid()
      modifies this
      ensures Valid() && fresh(list) && list !in old(model.layout.queues) && list.realm == realm
      ensures model == Open(old(model), list, realm)
    {
      list := new SlotList(realm);
      hide Inv;
      OpenKeepsInv(model, list, realm);
      model := Open(model, list, realm);
    }

    /** Take one slot for `realm` and charge it in the same place. */
    method Take(realm: Realm) returns (index: nat)
      requires Valid() && 0 < freeCount
      modifies this, slots, quota, quota.counts
      ensures Valid() && TakeReady(old(model)) && index == old(model).layout.free[0]
      ensures model == ArenaModel.Take(old(model), realm)
    {
      hide Inv, ArenaModel.Take, TakeReady, WithOne, Quota.Valid;
      FreeFacts(model);
      assert TakeReady(model) && Inv(ArenaModel.Take(model, realm)) by { TakeKeepsInv(model, realm); }
      TakeFields(model, realm);
      index := freeHead.value;
      freeHead := slots[index].next;
      freeCount := freeCount - 1;
      slots[index] := slots[index].(next := None, realm := realm);
      quota.Acquire(realm);
      model := ArenaModel.Take(model, realm);
      HeadersKept();
    }

    /** Copy one chunk into a taken slot. */
    method Fill(index: nat, e: Event)
      requires Valid() && FillReady(model, index, e)
      modifies this`model, slots, buffers
      ensures Valid() && model == ArenaModel.Fill(old(model), index, e)
    {
      hide Inv;
      assert Inv(ArenaModel.Fill(model, index, e)) by { FillKeepsInv(model, index, e); }
      var start := index * SLOT_BYTES;
      forall k | 0 <= k < |e.data| {
        buffers[start + k] := e.data[k];
      }
      assert buffers[..] == Blit(model.bytes, start, e.data);
      slots[index] := slots[index].(streamId := e.streamId, len := |e.data|, isFin := e.isFin, kind := e.kind);
      model := ArenaModel.Fill(model, index, e);
      HeadersKept();
    }

    /** Link a taken slot behind the tail of a queue. */
    method LinkTail(list: SlotList, index: nat)
      requires Valid() && LinkReady(model, list, index)
      modifies this`model, slots, list
      ensures Valid() && model == Link(old(model), list, index)
    {
      hide Inv, Link, LinkReady;
      KnownTail(model, list, index);
      QueueFacts(model, list);
      assert Inv(Link(model, list, index)) by { LinkKeepsInv(model, list, index); }
      LinkFields(model, list, index);
      WriteTail(list, index);
      model := Link(model, list, index);
      HeaderFollowed(list);
    }

    method WriteTail(list: SlotList, index: nat)
      requires list.tail.Some? ==> list.tail.value < slots.Length
      modifies slots, list
      ensures slots[..] == match old(list.tail)
                           case Some(last) => old(slots[..])[last := old(slots[..])[last].(next := Some(index))]
                           case None => old(slots[..])
      ensures list.head == if old(list.tail).Some? then old(list.head) else Some(index)
      ensures list.tail == Some(index) && list.count == old(list.count) + 1
    {
      if list.tail.Some? {
        slots[list.tail.value] := slots[list.tail.value].(next := Some(index));
      } else {
        list.head := Some(index);
      }
      list.tail := Some(index);
      list.count := list.count + 1;
    }

    static lemma KnownTail(s: Arena<SlotList>, list: SlotList, index: nat)
      requires LinkReady(s, list, index)
      ensures list in s.layout.queues && list in s.headers && list in s.accepted
    {
    }

    /** One pass of the enqueue loop: take a slot, copy the chunk, link it. */
    method AppendChunk(list: SlotList, e: Event)
      requires Valid() && Room(model, list, 1) && |e.data| <= SLOT_BYTES
      modifies this, slots, buffers, quota, quota.counts, list
      ensures Valid() && model == Append(old(model), list, e)
    {
      hide Inv;
      FreeFacts(model);
      QueueFacts(model, list);
      AppendIsReady(model, list, e);
      var index := Take(list.realm);
      Fill(index, e);
      LinkTail(list, index);
    }

    /** Whether `n` more chunks may join the queue: free slots, the connection's own bound, and the
        share of its realm. */
    ghost predicate Accepts(list: SlotList, n: nat)
      reads this, quota, list
    {
      && n <= freeCount && list.count + n <= maxPerConn
      && Admits(quota.Held, quota.counts.Length, quota.capacity, quota.watermark, list.realm)
    }

    /** Accepts the whole callback or nothing of it. The realm share is checked once, before the
        first slot, so a long callback may run past it. */
    method EnqueueEvent(list: SlotList, streamId: nat, data: seq<Byte>, isFin: bool, kind: RecvKind)
      returns (ok: bool)
      requires Valid() && list in model.layout.queues
      modifies this, slots, buffers, quota, quota.counts, list
      ensures Valid()
      ensures ok <==> old(Accepts(list, ChunkCount(|data|)))
      ensures Joined(old(model), model, list, ok, Chunks(streamId, data, isFin, kind))
      ensures Verdict(old(model), model, list, Chunks(streamId, data, isFin, kind), ok, quota.watermark)
    {
      hide *;
      ghost var (before, events) := (model, Chunks(streamId, data, isFin, kind));
      var chunks := ChunkCount(|data|);
      AcceptsIs(list, streamId, data, isFin, kind);
      ok := Fits(list, chunks);
      if ok {
        CopyIn(list, streamId, data, isFin, kind, chunks);
      } else {
        NothingJoins(list, events);
      }
      TestsAreTheVerdict(before, model, list, events, ok, quota.watermark);
    }

    /** The three tests, in this order. */
    method Fits(list: SlotList, chunks: nat) returns (ok: bool)
      requires Valid() && list in model.layout.queues
      ensures ok <==> Accepts(list, chunks)
      ensures ok ==> Room(model, list, chunks)
    {
      hide Inv, Admits;
      QueueFacts(model, list);
      if chunks > freeCount {
        return false;
      }
      if list.count + chunks > maxPerConn {
        return false;
      }
      ok := quota.Allows(list.realm);
    }

    lemma NothingJoins(list: SlotList, events: seq<Event>)
      ensures Joined(model, model, list, false, events)
    {
      hide AppendAll, Appendable;
    }

    /** The three tests in terms of the model. */
    lemma AcceptsIs(list: SlotList, streamId: nat, data: seq<Byte>, isFin: bool, kind: RecvKind)
      requires Valid() && list in model.layout.queues
      ensures var events := Chunks(streamId, data, isFin, kind);
              && list in model.headers && events != []
              && (Accepts(list, ChunkCount(|data|)) <==>
                    && |events| <= model.freeCount && model.headers[list].count + |events| <= model.perConn
                    && Admits(model.held, model.tracked, |model.layout.slots|, quota.watermark, model.headers[list].realm))
    {
      hide Inv, Chunks, Admits;
      QueueFacts(model, list);
      ChunksAreTheData(streamId, data, isFin, kind);
    }

    /** The copy loop of an accepted callback. */
    method CopyIn(list: SlotList, streamId: nat, data: seq<Byte>, isFin: bool, kind: RecvKind, chunks: nat)
      requires Valid() && list in model.layout.queues && Room(model, list, chunks) && chunks == ChunkCount(|data|)
      modifies this, slots, buffers, quota, quota.counts, list
      ensures Valid() && Joined(old(model), model, list, true, Chunks(streamId, data, isFin, kind))
    {
      ghost var before := model;
      ghost var c := Callback(streamId, data, isFin, kind);
      hide *;
      ModelInv();
      CopyStarts(model, list, c);
      var offset: nat := 0;
      var remaining: nat := chunks;
      while remaining > 0
        invariant Valid() && Copying(before, model, list, c, remaining, offset)
      {
        CopyStep(before, model, list, c, remaining, offset);
        var end := if offset + SLOT_BYTES < |data| then offset + SLOT_BYTES else |data|;
        MinIs(offset + SLOT_BYTES, |data|);
        var e := Event(streamId, data[offset..end], isFin && remaining == 1, kind);
        assert e == NextChunk(c, remaining, offset) by { NextChunkIs(c, remaining, offset); }
        AppendChunk(list, e);
        offset := end;
        remaining := remaining - 1;
      }
      CopyEnds(before, model, list, c, offset);
      assert ChunksOf(c) == Chunks(streamId, data, isFin, kind) by { ChunksOfIs(c); }
    }

    lemma ChunksOfIs(c: Callback)
      ensures ChunksOf(c) == Chunks(c.streamId, c.data, c.isFin, c.kind)
    {
    }

    lemma NextChunkIs(c: Callback, remaining: nat, offset: nat)
      requires offset <= |c.data|
      ensures NextChunk(c, remaining, offset)
           == Event(c.streamId, c.data[offset..Min(offset + SLOT_BYTES, |c.data|)], c.isFin && remaining == 1, c.kind)
    {
    }

    /** Data from one stream callback. */
    method Enqueue(list: SlotList, streamId: nat, data: seq<Byte>, isFin: bool) returns (ok: bool)
      requires Valid() && list in model.layout.queues
      modifies this, slots, buffers, quota, quota.counts, list
      ensures Valid() && (ok <==> old(Accepts(list, ChunkCount(|data|))))
      ensures Joined(old(model), model, list, ok, Chunks(streamId, data, isFin, Data))
      ensures Verdict(old(model), model, list, Chunks(streamId, data, isFin, Data), ok, quota.watermark)
    {
      hide *;
      ok := EnqueueEvent(list, streamId, data, isFin, Data);
    }

    /** A control event takes one slot of its own, so it stays in order with the data before it. */
    method EnqueueControl(list: SlotList, streamId: nat, kind: RecvKind) returns (ok: bool)
      requires Valid() && list in model.layout.queues && kind != Data
      modifies this, slots, buffers, quota, quota.counts, list
      ensures Valid() && (ok <==> old(Accepts(list, 1)))
      ensures Joined(old(model), model, list, ok, [Event(streamId, [], true, kind)])
      ensures Verdict(old(model), model, list, [Event(streamId, [], true, kind)], ok, quota.watermark)
    {
      NoDataIsOneChunk(streamId, true, kind);
      hide *;
      ok := EnqueueEvent(list, streamId, [], true, kind);
    }

    /** The head of one queue, handed to the consumer on loan. */
    method Pop(list: SlotList) returns (r: Option<nat>)
      requires Valid() && list in model.layout.queues
      modifies this`model, slots, list
      ensures Valid() && Popped(old(model), model, list, r)
    {
      hide Inv;
      QueueFacts(model, list);
      PopIsPopped(model, list);
      if list.head.None? {
        return None;
      }
      PopFields(model, list);
      ghost var next := ArenaModel.Pop(model, list);
      hide ArenaModel.Pop, PopReady, Popped, First;
      var index := UnlinkHead(list);
      model := next;
      HeaderFollowed(list);
      return Some(index);
    }

    method UnlinkHead(list: SlotList) returns (index: nat)
      requires list.head.Some? && list.head.value < slots.Length && 0 < list.count
      modifies slots, list
      ensures Some(index) == old(list.head) && slots[..] == old(slots[..])[index := old(slots[..])[index].(next := None)]
      ensures list.head == old(slots[..])[index].next && list.count == old(list.count) - 1
      ensures list.tail == if list.head.None? then None else old(list.tail)
    {
      index := list.head.value;
      list.head := slots[index].next;
      if list.head.None? {
        list.tail := None;
      }
      slots[index] := slots[index].(next := None);
      list.count := list.count - 1;
    }

    method PushFree(index: nat)
      requires index < slots.Length
      modifies this`freeHead, this`freeCount, slots
      ensures slots[..] == old(slots[..][index := Cleared(freeHead)])
      ensures freeHead == Some(index) && freeCount == old(freeCount) + 1
    {
      slots[index] := Cleared(freeHead);
      freeHead := Some(index);
      freeCount := freeCount + 1;
    }

    /** Give a slot back; the realm to credit is read from the slot itself. */
    method Release(index: nat)
      requires Valid() && Loaned(model, index)
      modifies this, slots, quota, quota.counts
      ensures Valid() && model == ArenaModel.Release(old(model), index)
    {
      hide Inv;
      ghost var next := ArenaModel.Release(model, index);
      assert Inv(next) by { ReleaseKeepsInv(model, index); }
      ReleaseFields(model, index);
      assert index < slots.Length;
      hide ArenaModel.Release, Cleared, Loaned, WithoutOne;
      var realm := slots[index].realm;
      PushFree(index);
      CreditTo(realm, next);
    }

    /** The last step of giving a slot back: the realm is credited and the model follows. */
    method CreditTo(realm: Realm, ghost next: Arena<SlotList>)
      requires quota.Valid() && quota.capacity == slots.Length && buffers as object != quota.counts as object
      requires slots[..] == next.layout.slots && buffers[..] == next.bytes && maxPerConn == next.perConn
      requires freeHead == next.freeHead && freeCount == next.freeCount
      requires WithoutOne(quota.Held, realm) == next.held && quota.counts.Length == next.tracked
      requires HeadersMatch() && next.headers == model.headers && next.layout.queues.Keys == model.layout.queues.Keys
      requires Inv(next)
      modifies this`model, quota, quota.counts
      ensures Valid() && model == next
    {
      hide Inv, WithoutOne;
      quota.Release(realm);
      model := next;
      HeadersKept();
    }

    /** Empties one queue when its connection goes away: nothing of it stays charged or queued. What the
        consumer has on loan, from this queue too, stays on loan with its bytes. */
    method Drop(list: SlotList)
      requires Valid() && list in model.layout.queues
      modifies this, slots, quota, quota.counts, list
      ensures Valid() && model == Discard(old(model), list) && GaveBack(old(model), model, list)
      ensures model.freeCount == old(freeCount) + old(list.count)
    {
      hide Inv, Valid, Represents, HeadersMatch, LoansKept, Loaned, PopReady, ArenaModel.Pop, ArenaModel.Release, First, Discard, GaveBack;
      SizeIs(list);
      ghost var before := model;
      ghost var size := freeCount + list.count;
      ModelInv();
      DiscardStep(model, list);
      var index := Pop(list);
      ModelInv();
      while index.Some?
        invariant Valid() && Inv(model) && list in model.layout.queues
        invariant index.Some? ==> Loaned(model, index.value) && list in ArenaModel.Release(model, index.value).layout.queues
        invariant index.Some? ==> Inv(ArenaModel.Release(model, index.value))
        invariant index.Some? ==> Discard(before, list) == Discard(ArenaModel.Release(model, index.value), list)
        invariant index.None? ==> model == Discard(before, list) && model.layout.queues[list] == []
        invariant model.freeCount + |model.layout.queues[list]| + (if index.Some? then 1 else 0) == size
        decreases |model.layout.queues[list]|, index.Some?
      {
        ReleaseCounts(model, index.value);
        Release(index.value);
        DiscardStep(model, list);
        index := Pop(list);
        ModelInv();
      }
    }

    static lemma ReleaseCounts(s: Arena<SlotList>, x: nat)
      requires Loaned(s, x)
      ensures ArenaModel.Release(s, x).layout.queues == s.layout.queues && ArenaModel.Release(s, x).freeCount == s.freeCount + 1
    {
    }

    /** One unfolding of giving a queue back, around a pop. */
    static lemma DiscardStep(s: Arena<SlotList>, list: SlotList)
      requires Inv(s) && list in s.layout.queues
      ensures Inv(Discard(s, list)) && GaveBack(s, Discard(s, list), list)
      ensures First(s.layout.queues[list]).None? ==> Discard(s, list) == s && s.layout.queues[list] == []
      ensures First(s.layout.queues[list]).Some? ==>
                && PopReady(s, list) && s.layout.queues[list] != []
                && var (x, t) := (First(s.layout.queues[list]).value, ArenaModel.Pop(s, list));
                && Loaned(t, x) && Inv(ArenaModel.Release(t, x)) && list in ArenaModel.Release(t, x).layout.queues
                && Discard(s, list) == Discard(ArenaModel.Release(t, x), list)
                && t.layout.queues == s.layout.queues[list := s.layout.queues[list][1..]] && t.freeCount == s.freeCount
    {
      if s.layout.queues[list] != [] {
        GiveOneBack(s, list);
        QueueFacts(s, list);
        SameButSelf(s, list);
        PopBooks(s, s, list);
      }
      hide Inv, GaveBack, PopReady, ArenaModel.Pop, ArenaModel.Release, Loaned, SameBut, LoansKept;
    }

    lemma SizeIs(list: SlotList)
      requires Valid() && list in model.layout.queues
      ensures freeCount == model.freeCount && list.count == |model.layout.queues[list]| && list in model.popped
    {
      QueueFacts(model, list);
      hide Inv;
    }

    lemma ModelInv()
      requires Valid()
      ensures Inv(model)
    {
    }
  }
}
