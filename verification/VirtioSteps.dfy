/** Every step of VirtioProtocol keeps its invariant. */
module VirtioSteps {
  import opened Sequences
  import opened VirtioDriver
  import opened VirtioProtocol

  // ---------------------------------------------------------------- steps that leave the queue alone

  /** The same requests in the same places. */
  ghost predicate SameFlights(st: State, st': State) {
    && st'.q == st.q && st'.role == st.role && st'.devIdx == st.devIdx && st'.inAvail == st.inAvail
    && st'.taken == st.taken && st'.inUsed == st.inUsed && st'.log == st.log && |st'.procs| == |st.procs|
    && (forall p :: 0 <= p < |st.procs| ==> st'.procs[p].Flight? == st.procs[p].Flight?)
    && (forall p :: 0 <= p < |st.procs| && st.procs[p].Flight? ==>
          && st'.procs[p].op == st.procs[p].op && st'.procs[p].c == st.procs[p].c
          && st'.procs[p].stage == st.procs[p].stage && st'.procs[p].since == st.procs[p].since)
  }

  lemma SameRolesChains(st: State, st': State)
    requires Sized(st) && RolesOk(st) && ChainsOk(st) && Sized(st') && SameFlights(st, st')
    ensures RolesOk(st') && ChainsOk(st')
  {
    forall i | 0 <= i < NUM ensures RoleOk(st', i) { assert RoleOk(st, i); }
    forall p | 0 <= p < |st'.procs| && st'.procs[p].Flight? ensures ChainOk(st', p) { assert ChainOk(st, p); }
  }

  lemma SameRings(st: State, st': State)
    requires Sized(st) && RingsOk(st) && Sized(st') && SameFlights(st, st')
    ensures RingsOk(st')
  {
    forall h ensures HeadAt(st', h, Queued) == HeadAt(st, h, Queued) {}
    forall h ensures HeadAt(st', h, Working) == HeadAt(st, h, Working) {}
    forall h ensures HeadAt(st', h, Reported) == HeadAt(st, h, Reported) {}
  }

  lemma SameLog(st: State, st': State)
    requires Sized(st) && LogOk(st) && Sized(st') && SameFlights(st, st')
    requires |st'.data| == |st.data|
    requires forall p :: 0 <= p < |st.procs| && st.procs[p].Flight? && st.procs[p].op.b < |st.data| ==>
      st'.data[st.procs[p].op.b] == st.data[st.procs[p].op.b]
    ensures LogOk(st')
  {
    forall p | 0 <= p < |st'.procs| && st'.procs[p].Flight? ensures OnceOk(st', p) {
      assert OnceOk(st, p);
    }
  }

  lemma KeepsCall(st: State, p: nat, op: Op)
    requires Inv(st) && Enabled(st, Call(p, op))
    ensures Inv(DoCall(st, p, op))
  {
    var st' := DoCall(st, p, op);
    SameRolesChains(st, st');
    SameRings(st, st');
    SameLog(st, st');
    forall r | 0 <= r < |st'.procs| ensures BufferOk(st', r) { assert BufferOk(st, r); }
  }

  lemma KeepsFill(st: State, b: nat, v: int)
    requires Inv(st) && Enabled(st, Fill(b, v))
    ensures Inv(st.(data := st.data[b := v]))
  {
    var st' := st.(data := st.data[b := v]);
    SameRolesChains(st, st');
    SameRings(st, st');
    forall r | 0 <= r < |st'.procs| ensures BufferOk(st', r) { assert BufferOk(st, r); }
    forall r | 0 <= r < |st.procs| && st.procs[r].Flight? ensures st.procs[r].op.b != b { assert BufferOk(st, r); }
    SameLog(st, st');
  }

  lemma KeepsSleep(st: State, p: nat, asleep: bool)
    requires Inv(st) && p < |st.procs| && !st.procs[p].Out?
    requires asleep ==> BufferOk(SetAsleep(st, p, true), p)
    ensures Inv(SetAsleep(st, p, asleep))
  {
    var st' := SetAsleep(st, p, asleep);
    SameRolesChains(st, st');
    SameRings(st, st');
    SameLog(st, st');
    forall r | 0 <= r < |st'.procs| ensures BufferOk(st', r) { assert BufferOk(st, r); }
  }

  lemma KeepsNoDesc(st: State, p: nat)
    requires Inv(st) && Enabled(st, NoDesc(p))
    ensures Inv(DoNoDesc(st, p))
  {
    var st' := DoNoDesc(st, p);
    SameRolesChains(st, st');
    SameRings(st, st');
    SameLog(st, st');
    forall r | 0 <= r < |st'.procs| ensures BufferOk(st', r) { assert BufferOk(st, r); }
  }

  // ---------------------------------------------------------------- submitting

  lemma AllocRoles(st: State, p: nat, c: Chain)
    requires Inv(st) && Enabled(st, Alloc(p, c))
    ensures Sized(DoAlloc(st, p, c)) && RolesOk(DoAlloc(st, p, c))
  {
    forall i | 0 <= i < NUM ensures RoleOk(DoAlloc(st, p, c), i) { assert RoleOk(st, i); }
  }

  /** A new chain is disjoint from every other. */
  lemma AllocApart(st: State, p: nat, c: Chain, r: nat)
    requires Inv(st) && Enabled(st, Alloc(p, c)) && r < |st.procs| && st.procs[r].Flight?
    ensures r != p && ChainOk(st, r)
    ensures forall i :: InChain(c, i) ==> !InChain(st.procs[r].c, i)
  {
    assert ChainOk(st, r);
    assert RoleOk(st, c.i0) && RoleOk(st, c.i1) && RoleOk(st, c.i2);
  }

  lemma AllocChains(st: State, p: nat, c: Chain)
    requires Inv(st) && Enabled(st, Alloc(p, c))
    ensures Sized(DoAlloc(st, p, c)) && ChainsOk(DoAlloc(st, p, c))
  {
    var st' := DoAlloc(st, p, c);
    forall r | 0 <= r < |st'.procs| && st'.procs[r].Flight? ensures ChainOk(st', r) {
      if r != p {
        AllocApart(st, p, c, r);
        assert InChain(c, c.i0) && InChain(c, c.i1) && InChain(c, c.i2);
      }
    }
  }

  lemma AllocBuffers(st: State, p: nat, c: Chain)
    requires Inv(st) && Enabled(st, Alloc(p, c))
    ensures Sized(DoAlloc(st, p, c)) && BuffersOk(DoAlloc(st, p, c))
  {
    var st' := DoAlloc(st, p, c);
    assert BufferOk(st, p);
    TakeCount(st.q.free, c);
    forall r | 0 <= r < |st'.procs| ensures BufferOk(st', r) { assert BufferOk(st, r); }
  }

  lemma TakeCount(free: seq<bool>, c: Chain)
    requires AllFree(free, c)
    ensures CountFree(Taken(free, c)) == CountFree(free) - 3
  {
    CountUpdate(free, c.i0, false);
    CountUpdate(free[c.i0 := false], c.i1, false);
    CountUpdate(free[c.i0 := false][c.i1 := false], c.i2, false);
  }

  /** Distinct numbers below n leave room only while there are fewer than n of them. */
  lemma {:induction false} DistinctBound(l: seq<nat>, n: nat)
    requires Distinct(l) && forall i :: 0 <= i < |l| ==> l[i] < n
    ensures |l| <= n
    decreases n
  {
    if l != [] {
      assert 0 <= l[0] < n;
      if n - 1 in l {
        var k :| 0 <= k < |l| && l[k] == n - 1;
        var rest := l[..k] + l[k + 1..];
        forall i | 0 <= i < |rest| ensures rest[i] < n - 1 {
          assert rest[i] == if i < k then l[i] else l[i + 1];
        }
        DistinctBound(rest, n - 1);
      } else {
        DistinctBound(l, n - 1);
      }
    }
  }

  lemma RoomFor(l: seq<nat>, x: nat, n: nat)
    requires Distinct(l) && (forall i :: 0 <= i < |l| ==> l[i] < n) && x < n && x !in l
    ensures |l| < n
  {
    DistinctBound(l + [x], n);
  }

  /** Indices count in step with the numbers held. */
  lemma {:induction false} RingIdx(ring: seq<nat>, base: nat, idx: nat, l: seq<nat>)
    requires RingHolds(ring, base, idx, l)
    ensures idx == (base + |l|) % WRAP
    decreases |l|
  {
    if l != [] {
      RingIdx(ring, (base + 1) % WRAP, idx, l[1..]);
      WrapStep(base, |l| - 1);
    }
  }

  lemma WrapStep(base: nat, n: nat)
    requires base < WRAP
    ensures ((base + 1) % WRAP + n) % WRAP == (base + 1 + n) % WRAP
  {
    if base + 1 == WRAP {
      assert base + 1 + n == WRAP + n;
    }
  }

  /** Fewer than NUM further on, the slot is another one, even across the wrap. */
  lemma SlotApart(base: nat, n: nat)
    requires base < WRAP && 0 < n < NUM
    ensures (base + n) % WRAP % NUM != base % NUM && (base + n) % WRAP != base
  {
    var x := base + n;
    var y := x % WRAP;
    assert y == x || y == x - WRAP;
    var r := base % NUM;
    assert x == base / NUM * NUM + (r + n);
  }

  /** Adding to a ring with room overwrites nothing that has not been consumed. */
  lemma {:induction false} RingPush(ring: seq<nat>, base: nat, idx: nat, l: seq<nat>, x: nat)
    requires RingHolds(ring, base, idx, l) && |l| < NUM
    ensures RingHolds(ring[idx % NUM := x], base, (idx + 1) % WRAP, l + [x])
    decreases |l|
  {
    RingIdx(ring, base, idx, l);
    var ring', l' := ring[idx % NUM := x], l + [x];
    if l == [] {
      assert l' == [x] && l'[1..] == [];
    } else {
      SlotApart(base, |l|);
      RingPush(ring, (base + 1) % WRAP, idx, l[1..], x);
      assert l'[1..] == l[1..] + [x];
    }
  }

  /** The two indices differ exactly when something is waiting. */
  lemma RingEmpty(ring: seq<nat>, base: nat, idx: nat, l: seq<nat>)
    requires RingHolds(ring, base, idx, l) && |l| < NUM
    ensures base == idx <==> l == []
  {
    RingIdx(ring, base, idx, l);
    if l != [] { SlotApart(base, |l|); }
  }

  lemma AvailRoom(st: State, h: nat)
    requires Sized(st) && RingsOk(st) && h < NUM && !HeadAt(st, h, Queued)
    ensures |st.inAvail| < NUM && h !in st.inAvail
  {
    forall i | 0 <= i < |st.inAvail| ensures st.inAvail[i] < NUM { assert HeadAt(st, st.inAvail[i], Queued); }
    RoomFor(st.inAvail, h, NUM);
  }

  lemma UsedRoom(st: State, h: nat)
    requires Sized(st) && RingsOk(st) && h < NUM && !HeadAt(st, h, Reported)
    ensures |st.inUsed| < NUM && h !in st.inUsed
  {
    forall i | 0 <= i < |st.inUsed| ensures st.inUsed[i] < NUM { assert HeadAt(st, st.inUsed[i], Reported); }
    RoomFor(st.inUsed, h, NUM);
  }

  lemma AllocRings(st: State, p: nat, c: Chain)
    requires Inv(st) && Enabled(st, Alloc(p, c))
    ensures Sized(DoAlloc(st, p, c)) && RingsOk(DoAlloc(st, p, c))
  {
    var st' := DoAlloc(st, p, c);
    assert RoleOk(st, c.i0);
    AvailRoom(st, c.i0);
    RingPush(st.q.avail, st.devIdx, st.q.availIdx, st.inAvail, c.i0);
    forall h ensures HeadAt(st', h, Queued) == (HeadAt(st, h, Queued) || h == c.i0) { AllocHead(st, p, c, h, Queued); }
    forall h ensures HeadAt(st', h, Working) == HeadAt(st, h, Working) { AllocHead(st, p, c, h, Working); }
    forall h ensures HeadAt(st', h, Reported) == HeadAt(st, h, Reported) { AllocHead(st, p, c, h, Reported); }
  }

  lemma AllocHead(st: State, p: nat, c: Chain, h: nat, stage: Stage)
    requires Inv(st) && Enabled(st, Alloc(p, c))
    ensures HeadAt(DoAlloc(st, p, c), h, stage) == (HeadAt(st, h, stage) || (h == c.i0 && stage == Queued))
  {
    assert RoleOk(st, c.i0) && RoleOk(st, c.i1) && RoleOk(st, c.i2);
    if h < NUM { assert RoleOk(st, h); }
  }

  lemma AllocLog(st: State, p: nat, c: Chain)
    requires Inv(st) && Enabled(st, Alloc(p, c))
    ensures Sized(DoAlloc(st, p, c)) && LogOk(DoAlloc(st, p, c))
  {
    var st' := DoAlloc(st, p, c);
    forall r | 0 <= r < |st'.procs| && st'.procs[r].Flight? ensures OnceOk(st', r) {
      if r != p { assert OnceOk(st, r); }
    }
  }

  lemma KeepsAlloc(st: State, p: nat, c: Chain)
    requires Inv(st) && Enabled(st, Alloc(p, c))
    ensures Inv(DoAlloc(st, p, c))
  {
    AllocRoles(st, p, c);
    AllocChains(st, p, c);
    AllocBuffers(st, p, c);
    AllocRings(st, p, c);
    AllocLog(st, p, c);
  }

  // ---------------------------------------------------------------- the device takes a request

  /** Which request the next unconsumed slot is for. */
  lemma NextQueued(st: State)
    requires Inv(st) && Enabled(st, Take)
    ensures st.inAvail != [] && st.q.avail[st.devIdx % NUM] == st.inAvail[0] && HeadAt(st, st.inAvail[0], Queued)
    ensures st.inAvail[0] !in st.inAvail[1..] && ChainOk(st, st.role[st.inAvail[0]])
  {
    var h := st.q.avail[st.devIdx % NUM];
    assert HeadAt(st, st.inAvail[0], Queued);
  }

  /** Requests but for one keep their stage; that one moves on. */
  ghost predicate Moved(st: State, st': State, h: nat, to: Stage)
    requires Sized(st)
  {
    && st'.q.desc == st.q.desc && st'.q.free == st.q.free && st'.q.ops == st.q.ops && |st'.q.info| == |st.q.info|
    && st'.role == st.role && st'.owner == st.owner && |st'.store| == |st.store|
    && |st'.procs| == |st.procs| && h < NUM && 0 <= st.role[h] < |st.procs| && st.procs[st.role[h]].Flight?
    && (forall p :: 0 <= p < |st.procs| ==> st'.procs[p].Flight? == st.procs[p].Flight?)
    && (forall p :: 0 <= p < |st.procs| && !st.procs[p].Flight? ==> st'.procs[p] == st.procs[p])
    && (forall p :: 0 <= p < |st.procs| && st.procs[p].Flight? ==>
          && st'.procs[p].op == st.procs[p].op && st'.procs[p].c == st.procs[p].c
          && st'.procs[p].stage == (if p == st.role[h] then to else st.procs[p].stage)
          && st'.procs[p].since == st.procs[p].since)
  }

  lemma MovedRoles(st: State, st': State, h: nat, to: Stage)
    requires Sized(st) && RolesOk(st) && Moved(st, st', h, to) && Sized(st')
    ensures RolesOk(st')
  {
    forall i | 0 <= i < NUM ensures RoleOk(st', i) { assert RoleOk(st, i); }
  }

  lemma MovedChains(st: State, st': State, h: nat, to: Stage)
    requires Sized(st) && ChainsOk(st) && Moved(st, st', h, to) && Sized(st')
    requires forall p :: 0 <= p < |st.procs| && st.procs[p].Flight? && st.procs[p].c.i0 < NUM ==>
      && st'.q.info[st.procs[p].c.i0].b == st.q.info[st.procs[p].c.i0].b
      && (st'.procs[p].stage == Reported || st'.procs[p].stage == Done ==> st'.q.info[st.procs[p].c.i0].status == 0)
    ensures ChainsOk(st')
  {
    forall p | 0 <= p < |st'.procs| && st'.procs[p].Flight? ensures ChainOk(st', p) { assert ChainOk(st, p); }
  }

  lemma MovedHeads(st: State, st': State, h: nat, from: Stage, to: Stage, g: nat, stage: Stage)
    requires Sized(st) && Moved(st, st', h, to) && Sized(st') && HeadAt(st, h, from) && from != to
    ensures HeadAt(st', g, stage) == if g == h then stage == to else HeadAt(st, g, stage)
  {
  }

  lemma TakeSized(st: State)
    requires Inv(st) && Enabled(st, Take)
    ensures Sized(DoTake(st)) && Moved(st, DoTake(st), st.inAvail[0], Working)
    ensures DoTake(st).q == st.q && DoTake(st).inAvail == st.inAvail[1..]
  {
    NextQueued(st);
  }

  lemma TakeRings(st: State)
    requires Inv(st) && Enabled(st, Take)
    ensures Sized(DoTake(st)) && RingsOk(DoTake(st))
  {
    NextQueued(st);
    TakeSized(st);
    var st', h := DoTake(st), st.inAvail[0];
    forall g ensures HeadAt(st', g, Queued) == (g != h && HeadAt(st, g, Queued)) { MovedHeads(st, st', h, Queued, Working, g, Queued); }
    forall g ensures HeadAt(st', g, Working) == (g == h || HeadAt(st, g, Working)) { MovedHeads(st, st', h, Queued, Working, g, Working); }
    forall g ensures HeadAt(st', g, Reported) == HeadAt(st, g, Reported) { MovedHeads(st, st', h, Queued, Working, g, Reported); }
    assert st.inAvail == [h] + st'.inAvail;
  }

  lemma KeepsTake(st: State)
    requires Inv(st) && Enabled(st, Take)
    ensures Inv(DoTake(st))
  {
    NextQueued(st);
    TakeSized(st);
    var st', h := DoTake(st), st.inAvail[0];
    MovedRoles(st, st', h, Working);
    forall p | 0 <= p < |st.procs| && st.procs[p].Flight? ensures ChainOk(st, p) && OnceOk(st, p) && BufferOk(st, p) {}
    MovedChains(st, st', h, Working);
    TakeRings(st);
    forall p | 0 <= p < |st'.procs| ensures BufferOk(st', p) { assert BufferOk(st, p); }
    forall p | 0 <= p < |st'.procs| && st'.procs[p].Flight? ensures OnceOk(st', p) { assert OnceOk(st, p); }
  }

  // ---------------------------------------------------------------- the device finishes one

  /** The device reads back exactly the request that was submitted at h. */
  lemma DecodesRight(st: State, h: nat)
    requires Inv(st) && HeadAt(st, h, Working)
    ensures ChainOk(st, st.role[h]) && BufferOk(st, st.role[h])
    ensures Decode(st.q, h) == Good(st.procs[st.role[h]].op, h)
    ensures st.procs[st.role[h]].op.b < |st.data| && st.procs[st.role[h]].op.blockno < |st.store|
  {
  }

  lemma FinishMoved(st: State, h: nat)
    requires Inv(st) && Enabled(st, Finish(h))
    ensures HeadAt(st, h, Working) && Sized(DoFinish(st, h)) && Moved(st, DoFinish(st, h), h, Reported)
    ensures ChainOk(st, st.role[h]) && BufferOk(st, st.role[h])
    ensures var op := st.procs[st.role[h]].op;
      && op.b < |st.data| && op.blockno < |st.store|
      && DoFinish(st, h).log == st.log + [Event(op, if op.out then st.data[op.b] else st.store[op.blockno])]
      && DoFinish(st, h).data == (if op.out then st.data else st.data[op.b := st.store[op.blockno]])
      && DoFinish(st, h).q.info == st.q.info[h := st.q.info[h].(status := 0)]
      && DoFinish(st, h).q.used == st.q.used[st.q.usedIdx % NUM := h]
      && DoFinish(st, h).inUsed == st.inUsed + [h] && DoFinish(st, h).taken == st.taken - {h}
  {
    assert HeadAt(st, h, Working);
    DecodesRight(st, h);
  }

  lemma FinishRings(st: State, h: nat)
    requires Inv(st) && Enabled(st, Finish(h))
    ensures Sized(DoFinish(st, h)) && RingsOk(DoFinish(st, h))
  {
    FinishMoved(st, h);
    var st' := DoFinish(st, h);
    UsedRoom(st, h);
    RingPush(st.q.used, st.q.seen, st.q.usedIdx, st.inUsed, h);
    forall g ensures HeadAt(st', g, Queued) == HeadAt(st, g, Queued) { MovedHeads(st, st', h, Working, Reported, g, Queued); }
    forall g ensures HeadAt(st', g, Working) == (g != h && HeadAt(st, g, Working)) { MovedHeads(st, st', h, Working, Reported, g, Working); }
    forall g ensures HeadAt(st', g, Reported) == (g == h || HeadAt(st, g, Reported)) { MovedHeads(st, st', h, Working, Reported, g, Reported); }
  }

  lemma FinishLog(st: State, h: nat)
    requires Inv(st) && Enabled(st, Finish(h))
    ensures Sized(DoFinish(st, h)) && LogOk(DoFinish(st, h))
  {
    FinishMoved(st, h);
    var st' := DoFinish(st, h);
    var me := st.role[h];
    forall p | 0 <= p < |st'.procs| && st'.procs[p].Flight? ensures OnceOk(st', p) {
      assert OnceOk(st, p) && BufferOk(st, p) && BufferOk(st, me);
      var f := st.procs[p];
      if p == me {
        assert DoneAt(st'.log, f.op, f.since, |st.log|);
      } else if f.stage == Reported || f.stage == Done {
        var k: nat :| DoneAt(st.log, f.op, f.since, k) && f.op.b < |st.data| && st.data[f.op.b] == st.log[k].value;
        assert DoneAt(st'.log, f.op, f.since, k);
      }
    }
  }

  lemma KeepsFinish(st: State, h: nat)
    requires Inv(st) && Enabled(st, Finish(h))
    ensures Inv(DoFinish(st, h))
  {
    FinishMoved(st, h);
    var st' := DoFinish(st, h);
    MovedRoles(st, st', h, Reported);
    forall p | 0 <= p < |st.procs| && st.procs[p].Flight? ensures ChainOk(st, p) {}
    MovedChains(st, st', h, Reported);
    FinishRings(st, h);
    FinishLog(st, h);
    forall p | 0 <= p < |st'.procs| ensures BufferOk(st', p) { assert BufferOk(st, p); }
  }

  // ---------------------------------------------------------------- the interrupt handler

  /** What the next completion names: a request that has been carried out, with status 0. */
  lemma NextReported(st: State)
    requires Inv(st) && Enabled(st, Intr)
    ensures st.inUsed != [] && st.q.used[st.q.seen % NUM] == st.inUsed[0] && HeadAt(st, st.inUsed[0], Reported)
    ensures st.inUsed[0] !in st.inUsed[1..]
    ensures ChainOk(st, st.role[st.inUsed[0]]) && BufferOk(st, st.role[st.inUsed[0]]) && !IntrPanics(st)
  {
    assert HeadAt(st, st.inUsed[0], Reported);
    assert ChainOk(st, st.role[st.inUsed[0]]) && BufferOk(st, st.role[st.inUsed[0]]);
  }

  lemma IntrMoved(st: State)
    requires Inv(st) && Enabled(st, Intr)
    ensures st.inUsed != [] && HeadAt(st, st.inUsed[0], Reported)
    ensures Sized(DoIntr(st)) && Moved(st, DoIntr(st), st.inUsed[0], Done)
    ensures DoIntr(st).q == st.q.(seen := (st.q.seen + 1) % WRAP) && DoIntr(st).inUsed == st.inUsed[1..]
    ensures DoIntr(st).inAvail == st.inAvail && DoIntr(st).taken == st.taken && DoIntr(st).devIdx == st.devIdx
    ensures DoIntr(st).log == st.log && DoIntr(st).data == st.data
    ensures var b := st.procs[st.role[st.inUsed[0]]].op.b;
      b < |st.onDisk| && DoIntr(st).onDisk == st.onDisk[b := false]
  {
    NextReported(st);
  }

  lemma IntrRings(st: State)
    requires Inv(st) && Enabled(st, Intr)
    ensures Sized(DoIntr(st)) && RingsOk(DoIntr(st))
  {
    NextReported(st);
    IntrMoved(st);
    var st', h := DoIntr(st), st.inUsed[0];
    forall g ensures HeadAt(st', g, Queued) == HeadAt(st, g, Queued) { MovedHeads(st, st', h, Reported, Done, g, Queued); }
    forall g ensures HeadAt(st', g, Working) == HeadAt(st, g, Working) { MovedHeads(st, st', h, Reported, Done, g, Working); }
    forall g ensures HeadAt(st', g, Reported) == (g != h && HeadAt(st, g, Reported)) { MovedHeads(st, st', h, Reported, Done, g, Reported); }
    assert st.inUsed == [h] + st'.inUsed;
  }

  lemma IntrBuffers(st: State)
    requires Inv(st) && Enabled(st, Intr)
    ensures Sized(DoIntr(st)) && BuffersOk(DoIntr(st))
  {
    NextReported(st);
    IntrMoved(st);
    var st', me := DoIntr(st), st.role[st.inUsed[0]];
    forall p | 0 <= p < |st'.procs| ensures BufferOk(st', p) {
      assert BufferOk(st, p) && BufferOk(st, me);
    }
  }

  lemma KeepsIntr(st: State)
    requires Inv(st) && Enabled(st, Intr)
    ensures Inv(DoIntr(st))
  {
    NextReported(st);
    IntrMoved(st);
    var st', h := DoIntr(st), st.inUsed[0];
    MovedRoles(st, st', h, Done);
    forall p | 0 <= p < |st.procs| && st.procs[p].Flight? ensures ChainOk(st, p) {}
    MovedChains(st, st', h, Done);
    IntrRings(st);
    IntrBuffers(st);
    forall p | 0 <= p < |st'.procs| && st'.procs[p].Flight? ensures OnceOk(st', p) { assert OnceOk(st, p); }
  }

  // ---------------------------------------------------------------- returning

  /** A finished request's three descriptors are taken and nobody else's: free_desc cannot panic. */
  lemma ReturnApart(st: State, p: nat, r: nat)
    requires Inv(st) && Enabled(st, Return(p)) && r < |st.procs| && st.procs[r].Flight? && r != p
    ensures ChainOk(st, r) && ChainOk(st, p)
    ensures forall i :: InChain(st.procs[p].c, i) ==> !InChain(st.procs[r].c, i)
  {
    assert ChainOk(st, r) && ChainOk(st, p);
  }

  lemma ReturnRoles(st: State, p: nat)
    requires Inv(st) && Enabled(st, Return(p))
    ensures Sized(DoReturn(st, p)) && RolesOk(DoReturn(st, p))
  {
    assert ChainOk(st, p);
    forall i | 0 <= i < NUM ensures RoleOk(DoReturn(st, p), i) { assert RoleOk(st, i); }
  }

  lemma ReturnChains(st: State, p: nat)
    requires Inv(st) && Enabled(st, Return(p))
    ensures Sized(DoReturn(st, p)) && ChainsOk(DoReturn(st, p))
  {
    var st', c := DoReturn(st, p), st.procs[p].c;
    forall r | 0 <= r < |st'.procs| && st'.procs[r].Flight? ensures ChainOk(st', r) {
      ReturnApart(st, p, r);
      assert InChain(c, c.i0) && InChain(c, c.i1) && InChain(c, c.i2);
    }
  }

  lemma ReturnBuffers(st: State, p: nat)
    requires Inv(st) && Enabled(st, Return(p))
    ensures Sized(DoReturn(st, p)) && BuffersOk(DoReturn(st, p))
  {
    var st' := DoReturn(st, p);
    assert BufferOk(st, p);
    forall r | 0 <= r < |st'.procs| ensures BufferOk(st', r) { assert BufferOk(st, r); }
  }

  lemma ReturnHead(st: State, p: nat, g: nat, stage: Stage)
    requires Inv(st) && Enabled(st, Return(p)) && stage != Done
    ensures HeadAt(DoReturn(st, p), g, stage) == HeadAt(st, g, stage)
  {
    assert ChainOk(st, p) && BufferOk(st, p);
    if g < NUM { assert RoleOk(st, g); }
  }

  lemma ReturnRings(st: State, p: nat)
    requires Inv(st) && Enabled(st, Return(p))
    ensures Sized(DoReturn(st, p)) && RingsOk(DoReturn(st, p))
  {
    var st' := DoReturn(st, p);
    forall g ensures HeadAt(st', g, Queued) == HeadAt(st, g, Queued) { ReturnHead(st, p, g, Queued); }
    forall g ensures HeadAt(st', g, Working) == HeadAt(st, g, Working) { ReturnHead(st, p, g, Working); }
    forall g ensures HeadAt(st', g, Reported) == HeadAt(st, g, Reported) { ReturnHead(st, p, g, Reported); }
  }

  lemma KeepsReturn(st: State, p: nat)
    requires Inv(st) && Enabled(st, Return(p))
    ensures Inv(DoReturn(st, p))
  {
    ReturnRoles(st, p);
    ReturnChains(st, p);
    ReturnBuffers(st, p);
    ReturnRings(st, p);
    var st' := DoReturn(st, p);
    forall r | 0 <= r < |st'.procs| && st'.procs[r].Flight? ensures OnceOk(st', r) { assert OnceOk(st, r); }
  }

  lemma StepKeepsInv(st: State, l: Label)
    requires Inv(st) && Enabled(st, l)
    ensures Inv(Apply(st, l))
  {
    match l
    case Call(p, op) => KeepsCall(st, p, op);
    case Fill(b, v) => KeepsFill(st, b, v);
    case Alloc(p, c) => KeepsAlloc(st, p, c);
    case NoDesc(p) => KeepsNoDesc(st, p);
    case Take => KeepsTake(st);
    case Finish(h) => KeepsFinish(st, h);
    case Intr => KeepsIntr(st);
    case Return(p) => KeepsReturn(st, p);
    case Stir(p) => KeepsSleep(st, p, false);
    case Resleep(p) => assert BufferOk(st, p); KeepsSleep(st, p, true);
  }
}
