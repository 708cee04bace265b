/** Buffer ownership: every buffer a live request will complete is on its node's
    list, no two requests will complete the same buffer, and the meta ring numbers
    are contiguous. */
module CamOwnership {
  import opened CamTypes
  import opened CamPipeline
  import opened CamCore
  import B = CamBuffers
  import Q = CamQueues

  /** What completing this request would touch is there to be touched. */
  ghost predicate ReqHeld(c: Config, b: Buffers, started: set<NodeId>, r: ReqId, req: Request) {
    if req.synthetic then
      && |req.bufs| == 1 && req.bufs[0].node == MainOut && MainOut !in c.viaRequests
      && (MainOut in started ==> B.Owned(b, req.bufs[0]))
    else
      forall x :: x in req.bufs ==>
        && x.node in c.viaRequests
        && (x in b.bound && b.bound[x] == r && x.node in started ==> B.Owned(b, x))
  }

  ghost predicate AllHeld(c: Config, q: Queues, b: Buffers, started: set<NodeId>) {
    forall r :: Live(q, r) ==> ReqHeld(c, b, started, r, Q.At(q, r))
  }

  /** No two synthetic requests complete the same buffer; a user request never shares
      one, because a buffer is bound to one request. */
  ghost predicate NoSharing(q: Queues) {
    forall r1, r2 :: Live(q, r1) && Live(q, r2) && r1 != r2 ==>
      !(Q.At(q, r1).synthetic && Q.At(q, r2).synthetic && Q.At(q, r1).bufs == Q.At(q, r2).bufs)
  }

  ghost predicate Held(c: Config, q: Queues, b: Buffers, started: set<NodeId>) {
    AllHeld(c, q, b, started) && NoSharing(q)
  }

  // ---- frames ------------------------------------------------------------

  /** q' has the live requests of q, with the same kinds and buffers. */
  ghost predicate SameRequests(q: Queues, q': Queues) {
    forall r :: Live(q', r) ==>
      Live(q, r) && Q.At(q', r).synthetic == Q.At(q, r).synthetic && Q.At(q', r).bufs == Q.At(q, r).bufs
  }

  lemma {:induction false} HeldFrame(c: Config, q: Queues, q': Queues, b: Buffers, started: set<NodeId>)
    requires Held(c, q, b, started) && SameRequests(q, q')
    ensures Held(c, q', b, started)
  {
    forall r | Live(q', r) ensures ReqHeld(c, b, started, r, Q.At(q', r)) {
      assert Live(q, r);
      assert ReqHeld(c, b, started, r, Q.At(q, r));
    }
  }

  lemma {:induction false} DispatchSame(q: Queues)
    requires Q.MemOk(q)
    ensures SameRequests(q, Q.Dispatch(q))
  {
    Q.DispatchFrame(q);
  }

  lemma {:induction false} TryQueueHeld(s: State)
    requires Q.MemOk(s.q) && Held(s.cfg, s.q, s.b, s.st.started)
    ensures var s' := TryQueue(s);
            && Held(s'.cfg, s'.q, s'.b, s'.st.started)
            && s'.b == s.b && s'.st == s.st && s'.fr == s.fr && s'.cfg == s.cfg
  {
    DispatchSame(s.q);
    HeldFrame(s.cfg, s.q, Q.Dispatch(s.q), s.b, s.st.started);
  }

  lemma {:induction false} StampSofSame(q: Queues, f: nat, now: nat)
    requires Q.MemOk(q)
    ensures SameRequests(q, StampSof(q, f, now))
  {
  }

  // ---- retiring ----------------------------------------------------------

  lemma {:induction false} RetireHeadSame(q: Queues, outcome: Outcome)
    requires Q.MemOk(q) && q.running != []
    ensures SameRequests(q, Q.RetireHead(q, outcome))
    ensures !Live(Q.RetireHead(q, outcome), q.running[0])
  {
    assert q.running == [q.running[0]] + q.running[1..];
  }

  /** While streaming, everything job_done will return is on its list. */
  lemma {:induction false} HitsOwned(c: Config, q: Queues, b: Buffers, started: set<NodeId>, r: ReqId)
    requires AllHeld(c, q, b, started) && Live(q, r) && started == c.enabled && MainOut in started
    requires forall x :: x in Q.At(q, r).bufs ==> !Missing(c, b, r, Q.At(q, r), x)
    ensures var req := Q.At(q, r);
            && (req.synthetic ==> |req.bufs| <= 1)
            && forall x :: x in B.Hits(b, r, req, req.bufs) ==> B.Owned(b, x)
  {
    assert ReqHeld(c, b, started, r, Q.At(q, r));
  }

  /** The buffers of one request are not those of another. */
  lemma {:induction false} HitsDisjoint(c: Config, q: Queues, b: Buffers, started: set<NodeId>, r: ReqId, r2: ReqId)
    requires Held(c, q, b, started) && Live(q, r) && Live(q, r2) && r != r2
    ensures B.Hits(b, r, Q.At(q, r), Q.At(q, r).bufs) !! B.Hits(b, r2, Q.At(q, r2), Q.At(q, r2).bufs)
  {
    var req, req2 := Q.At(q, r), Q.At(q, r2);
    assert ReqHeld(c, b, started, r, req);
    assert ReqHeld(c, b, started, r2, req2);
    if req.synthetic && req2.synthetic {
      assert req.bufs == [req.bufs[0]] && req2.bufs == [req2.bufs[0]];
    }
  }

  /** A request stays held when b' loses only buffers that are not its own. */
  lemma {:induction false} ReqHeldFrame(c: Config, b: Buffers, b': Buffers, started: set<NodeId>,
                     r: ReqId, req: Request, gone: set<Buf>)
    requires ReqHeld(c, b, started, r, req)
    requires forall y :: B.Owned(b, y) && y !in gone ==> B.Owned(b', y)
    requires forall y :: y in b'.bound ==> y in b.bound && b'.bound[y] == b.bound[y]
    requires gone !! B.Hits(b', r, req, req.bufs)
    ensures ReqHeld(c, b', started, r, req)
  {
    forall x | x in req.bufs && (req.synthetic || (x in b'.bound && b'.bound[x] == r)) ensures x !in gone {
      assert x in B.Hits(b', r, req, req.bufs);
    }
  }

  /** Nothing of the request goes missing between b and b'. */
  ghost predicate StillThere(c: Config, b: Buffers, b': Buffers, r: ReqId, req: Request) {
    forall x :: x in req.bufs && Missing(c, b', r, req, x) ==> Missing(c, b, r, req, x)
  }

  lemma {:induction false} NotMissingFrame(c: Config, b: Buffers, b': Buffers, r: ReqId, req: Request, gone: set<Buf>)
    requires forall y :: B.Owned(b, y) && y !in gone ==> B.Owned(b', y)
    requires forall y :: y in b'.bound ==> y in b.bound && b'.bound[y] == b.bound[y]
    requires gone !! B.Hits(b, r, req, req.bufs)
    ensures StillThere(c, b, b', r, req)
  {
    forall x | x in req.bufs && Missing(c, b', r, req, x) ensures Missing(c, b, r, req, x) {
      assert x in B.Hits(b, r, req, req.bufs);
    }
  }

  /** Completing the head request while streaming takes away its own buffers only. */
  lemma {:induction false} JobDoneHeld(c: Config, q: Queues, b: Buffers, started: set<NodeId>,
                    state: Vb2State, eof: nat)
    requires Held(c, q, b, started) && B.BufInv(b) && q.running != []
    requires started == c.enabled && MainOut in started && state != QUEUED
    requires forall x :: x in Q.At(q, q.running[0]).bufs ==> !Missing(c, b, q.running[0], Q.At(q, q.running[0]), x)
    ensures var r := q.running[0];
            var b' := B.JobDone(b, true, r, Q.At(q, r), state, eof);
            && B.BufInv(b')
            && forall r2 :: Live(q, r2) && r2 != r ==> ReqHeld(c, b', started, r2, Q.At(q, r2)) && StillThere(c, b, b', r2, Q.At(q, r2))
  {
    var r := q.running[0];
    var req := Q.At(q, r);
    HitsOwned(c, q, b, started, r);
    B.CompleteAllKeeps(b, r, req, req.bufs, state, eof);
    B.CompleteAllFrame(b, r, req, req.bufs, state, eof);
    var b' := B.JobDone(b, true, r, req, state, eof);
    forall r2 | Live(q, r2) && r2 != r
      ensures ReqHeld(c, b', started, r2, Q.At(q, r2)) && StillThere(c, b, b', r2, Q.At(q, r2))
    {
      HitsDisjoint(c, q, b, started, r, r2);
      ReqHeldFrame(c, b, b', started, r2, Q.At(q, r2), B.Hits(b, r, req, req.bufs));
      NotMissingFrame(c, b, b', r2, Q.At(q, r2), B.Hits(b, r, req, req.bufs));
    }
  }

  lemma {:induction false} RetireHeadHeld(c: Config, q: Queues, b: Buffers, started: set<NodeId>,
                       streaming: bool, state: Vb2State, outcome: Outcome, eof: nat)
    requires Held(c, q, b, started) && B.BufInv(b) && Q.MemOk(q) && q.running != []
    requires streaming ==> started == c.enabled && MainOut in started
    requires streaming ==>
               forall x :: x in Q.At(q, q.running[0]).bufs ==> !Missing(c, b, q.running[0], Q.At(q, q.running[0]), x)
    requires state != QUEUED
    ensures var r := q.running[0];
            var b' := B.JobDone(b, streaming, r, Q.At(q, r), state, eof);
            && B.BufInv(b') && Held(c, Q.RetireHead(q, outcome), b', started)
            && forall f :: NoneMissing(c, q, b, f) ==> NoneMissing(c, Q.RetireHead(q, outcome), b', f)
  {
    var r := q.running[0];
    var q' := Q.RetireHead(q, outcome);
    var b' := B.JobDone(b, streaming, r, Q.At(q, r), state, eof);
    RetireHeadSame(q, outcome);
    HeldFrame(c, q, q', b, started);
    if streaming {
      JobDoneHeld(c, q, b, started, state, eof);
      forall r2 | Live(q', r2) ensures ReqHeld(c, b', started, r2, Q.At(q', r2)) {
        assert Live(q, r2) && r2 != r;
      }
    }
    forall f | NoneMissing(c, q, b, f) ensures NoneMissing(c, q', b', f) {
      forall r2, x | r2 in q'.running && Q.At(q', r2).frameSeq <= f && x in Q.At(q', r2).bufs
        ensures !Missing(c, b', r2, Q.At(q', r2), x)
      {
        assert Live(q', r2) && Live(q, r2) && r2 != r && Q.At(q', r2) == Q.At(q, r2);
        assert !Missing(c, b, r2, Q.At(q, r2), x);
      }
    }
  }

  lemma {:induction false} RetireLoopHeld(c: Config, q: Queues, b: Buffers, started: set<NodeId>,
                                          streaming: bool, f: nat, eof: nat)
    requires Held(c, q, b, started) && B.BufInv(b) && Q.MemOk(q)
    requires streaming ==> started == c.enabled && MainOut in started && NoneMissing(c, q, b, f)
    ensures var (q', b') := RetireLoop(q, b, streaming, f, eof);
            B.BufInv(b') && Held(c, q', b', started)
    decreases |q.running|
  {
    if q.running != [] {
      var r := q.running[0];
      var req := Q.At(q, r);
      if req.frameSeq == f {
        RetireHeadHeld(c, q, b, started, streaming, DONE, if streaming then Finished else Silent, eof);
      } else if req.frameSeq < f {
        var o := if streaming then Dropped else Silent;
        RetireHeadHeld(c, q, b, started, streaming, ERROR, o, eof);
        Q.RetireHeadMem(q, o);
        RetireLoopHeld(c, Q.RetireHead(q, o), B.JobDone(b, streaming, r, req, ERROR, eof),
                       started, streaming, f, eof);
      }
    }
  }

  // ---- submission --------------------------------------------------------

  /** Handing over more buffers keeps every request held. */
  lemma {:induction false} HeldMono(c: Config, q: Queues, b: Buffers, b': Buffers, started: set<NodeId>)
    requires Held(c, q, b, started)
    requires forall y :: B.Owned(b, y) ==> B.Owned(b', y)
    requires forall y :: y in b'.bound ==> y in b.bound && b'.bound[y] == b.bound[y]
    ensures Held(c, q, b', started)
  {
    forall r | Live(q, r) ensures ReqHeld(c, b', started, r, Q.At(q, r)) {
      assert ReqHeld(c, b, started, r, Q.At(q, r));
    }
  }

  /** A cancelled queue leaves the lists and asks less of them. */
  lemma {:induction false} CancelHeld(s: State, n: NodeId)
    requires B.BufInv(s.b) && Held(s.cfg, s.q, s.b, s.st.started)
    ensures var s' := CancelQueue(s, n);
            B.BufInv(s'.b) && Held(s'.cfg, s'.q, s'.b, s'.st.started)
  {
    var b' := B.Cancel(s.b, n);
    assert forall y :: B.Owned(b', y) == B.Owned(s.b, y);
    HeldMono(s.cfg, s.q, s.b, b', s.st.started);
  }

  lemma {:induction false} BindAllHeld(c: Config, q: Queues, b: Buffers, started: set<NodeId>,
                    xs: seq<Buf>, r: ReqId)
    requires Held(c, q, b, started) && !Live(q, r)
    requires forall x :: x in xs ==> x !in b.bound
    ensures Held(c, q, BindAll(b, xs, r), started)
  {
    var b' := BindAll(b, xs, r);
    forall r2 | Live(q, r2) ensures ReqHeld(c, b', started, r2, Q.At(q, r2)) {
      assert ReqHeld(c, b, started, r2, Q.At(q, r2));
    }
  }

  lemma {:induction false} GiveStartedEffect(b: Buffers, started: set<NodeId>, xs: seq<Buf>)
    requires B.BufInv(b) && Distinct(xs) && forall x :: x in xs ==> !B.Owned(b, x)
    ensures var b' := GiveStarted(b, started, xs);
            && B.BufInv(b')
            && (forall y :: B.Owned(b', y) <==> B.Owned(b, y) || (y in xs && y.node in started))
    decreases |xs|
  {
    if xs != [] {
      var x := xs[0];
      assert xs == [x] + xs[1..];
      if x.node in started { B.GiveKeeps(b, x); }
      GiveStartedEffect(if x.node in started then B.Give(b, x) else b, started, xs[1..]);
    }
  }

  lemma {:induction false} GiveStartedFrame(b: Buffers, started: set<NodeId>, xs: seq<Buf>)
    ensures var b' := GiveStarted(b, started, xs);
            && b'.bound == b.bound && b'.seqNo == b.seqNo && b'.log == b.log
            && forall n: NodeId :: (forall x :: x in xs ==> x.node != n) ==> b'.lists[n] == b.lists[n]
    decreases |xs|
  {
    if xs != [] {
      GiveStartedFrame(if xs[0].node in started then B.Give(b, xs[0]) else b, started, xs[1..]);
    }
  }

  /** Submitting a request that is held and shares no buffer with another one. */
  lemma {:induction false} SubmitHeld(c: Config, q: Queues, b: Buffers, started: set<NodeId>, r: ReqId, req: Request)
    requires Held(c, q, b, started) && !Live(q, r)
    requires ReqHeld(c, b, started, r, req)
    requires forall r2 :: Live(q, r2) && Q.At(q, r2).synthetic && req.synthetic ==> Q.At(q, r2).bufs != req.bufs
    ensures Held(c, Q.Submit(q, r, req), b, started)
  {
    var q' := Q.Submit(q, r, req);
    forall r2 | Live(q', r2) ensures r2 == r || (Live(q, r2) && Q.At(q', r2) == Q.At(q, r2)) {
    }
    forall r2 | Live(q', r2) ensures ReqHeld(c, b, started, r2, Q.At(q', r2)) {
      if r2 != r { assert ReqHeld(c, b, started, r2, Q.At(q, r2)); }
    }
  }

  lemma {:induction false} ReqQueueHeld(s: State, r: ReqId, xs: seq<Buf>)
    requires Core(s) && B.BufInv(s.b) && Held(s.cfg, s.q, s.b, s.st.started)
    requires Legal(s, EvReqQueue(r, xs)) && Benign(s, EvReqQueue(r, xs))
    ensures var s' := ReqQueue(s, r, xs);
            B.BufInv(s'.b) && Held(s'.cfg, s'.q, s'.b, s'.st.started)
  {
    var c, started := s.cfg, s.st.started;
    var b1 := BindAll(s.b, xs, r);
    BindAllHeld(c, s.q, s.b, started, xs, r);
    var b2 := GiveStarted(b1, started, xs);
    GiveStartedEffect(b1, started, xs);
    GiveStartedFrame(b1, started, xs);
    HeldMono(c, s.q, b1, b2, started);
    var req := Q.At(s.q, r).(synthetic := false, bufs := xs);
    SubmitHeld(c, s.q, b2, started, r, req);
    Q.SubmitKeeps(s.q, s.st.pipelineOn, r, req);
    TryQueueHeld(s.(b := b2, q := Q.Submit(s.q, r, req)));
  }

  lemma {:induction false} SubmitMem(q: Queues, r: ReqId, req: Request)
    requires Q.MemOk(q) && !Live(q, r)
    ensures Q.MemOk(Q.Submit(q, r, req))
  {
  }

  /** A synthetic request for a main-stream buffer that was just handed over. */
  lemma {:induction false} SyntheticHeld(c: Config, q: Queues, b: Buffers, started: set<NodeId>, id: ReqId, x: Buf)
    requires Held(c, q, b, started) && id !in q.heap && Q.MemOk(q)
    requires x.node == MainOut && MainOut in started && MainOut !in c.viaRequests && B.Owned(b, x)
    requires forall r :: Live(q, r) && Q.At(q, r).synthetic ==> x !in Q.At(q, r).bufs
    ensures Held(c, Q.Submit(q, id, SyntheticRequest(x)), b, started)
  {
    SubmitHeld(c, q, b, started, id, SyntheticRequest(x));
  }

  /** A main-stream buffer that is not on the list is in no synthetic request. */
  lemma {:induction false} NotYetHeld(c: Config, q: Queues, b: Buffers, started: set<NodeId>, x: Buf)
    requires AllHeld(c, q, b, started) && MainOut in started && !B.Owned(b, x)
    ensures forall r :: Live(q, r) && Q.At(q, r).synthetic ==> x !in Q.At(q, r).bufs
  {
    forall r | Live(q, r) && Q.At(q, r).synthetic ensures x !in Q.At(q, r).bufs {
      assert ReqHeld(c, b, started, r, Q.At(q, r));
    }
  }

  lemma {:induction false} EnqueueMainHeld(s: State, x: Buf, id: ReqId)
    requires Q.MemOk(s.q) && Held(s.cfg, s.q, s.b, s.st.started)
    requires x.node == MainOut && MainOut in s.st.started && MainOut !in s.cfg.viaRequests && B.Owned(s.b, x)
    requires id !in s.q.heap
    requires forall r :: Live(s.q, r) && Q.At(s.q, r).synthetic ==> x !in Q.At(s.q, r).bufs
    ensures var s' := EnqueueNoRequest(s, x, Ptr(id));
            Held(s'.cfg, s'.q, s'.b, s'.st.started) && s'.b == s.b
  {
    SyntheticHeld(s.cfg, s.q, s.b, s.st.started, id, x);
    SubmitMem(s.q, id, SyntheticRequest(x));
    hide Held, Q.MemOk;
    TryQueueHeld(s.(q := Q.Submit(s.q, id, SyntheticRequest(x))));
  }

  lemma {:induction false} BufQueueHeld(s: State, x: Buf, alloc: Alloc)
    requires Core(s) && B.BufInv(s.b) && Held(s.cfg, s.q, s.b, s.st.started)
    requires Legal(s, EvBufQueue(x, alloc)) && Benign(s, EvBufQueue(x, alloc))
    ensures var s' := BufQueue(s, x, alloc);
            B.BufInv(s'.b) && Held(s'.cfg, s'.q, s'.b, s'.st.started)
  {
    assert Q.MemOk(s.q);
    hide Core, Q.MemOk, Held, B.BufInv, EnqueueNoRequest;
    var s1 := s.(b := B.Give(s.b, x));
    GivenHeld(s, x);
    if x.node !in s.cfg.viaRequests && x.node in s.st.started {
      if x.node == MainOut { EnqueueMainHeld(s1, x, alloc.id); } else { MetaEnqueueHeld(s1, x); MetaIs(s1, x, alloc); }
    }
  }

  lemma {:induction false} MetaIs(s: State, x: Buf, alloc: Alloc)
    requires x.node != MainOut
    ensures EnqueueNoRequest(s, x, alloc) == MetaEnqueue(s, x)
  {
  }

  /** A buffer that is handed over; if it is one of the main stream, no request has it yet. */
  lemma {:induction false} GivenHeld(s: State, x: Buf)
    requires B.BufInv(s.b) && Held(s.cfg, s.q, s.b, s.st.started) && !B.Owned(s.b, x)
    ensures var b' := B.Give(s.b, x);
            B.BufInv(b') && B.Owned(b', x) && Held(s.cfg, s.q, b', s.st.started)
    ensures MainOut in s.st.started ==> forall r :: Live(s.q, r) && Q.At(s.q, r).synthetic ==> x !in Q.At(s.q, r).bufs
  {
    B.GiveKeeps(s.b, x);
    hide B.BufInv;
    HeldMono(s.cfg, s.q, s.b, B.Give(s.b, x), s.st.started);
    if MainOut in s.st.started { NotYetHeld(s.cfg, s.q, s.b, s.st.started, x); }
  }

  lemma {:induction false} MetaEnqueueHeld(s: State, x: Buf)
    requires B.BufInv(s.b) && Held(s.cfg, s.q, s.b, s.st.started)
    ensures var s' := MetaEnqueue(s, x);
            && B.BufInv(s'.b) && Held(s'.cfg, s'.q, s'.b, s'.st.started)
            && s'.b.lists == s.b.lists && s'.b.bound == s.b.bound && s'.b.log == s.b.log
            && s'.q == s.q && s'.st == s.st && s'.cfg == s.cfg
  {
    var b' := MetaEnqueue(s, x).b;
    assert b' == s.b.(seqNo := b'.seqNo);
    assert forall y :: B.Owned(b', y) == B.Owned(s.b, y);
    HeldMono(s.cfg, s.q, s.b, b', s.st.started);
  }

  // ---- dequeueing the meta ring ------------------------------------------

  /** Taking a prefix of another node's ring keeps a request held: what it loses is
      unbound from it. */
  lemma {:induction false} RingTakeReqHeld(c: Config, b: Buffers, b': Buffers, started: set<NodeId>,
                        r: ReqId, req: Request, n: NodeId, gone: set<Buf>)
    requires ReqHeld(c, b, started, r, req) && n != MainOut
    requires forall x :: x in gone ==> x.node == n
    requires forall y :: B.Owned(b', y) <==> B.Owned(b, y) && y !in gone
    requires b'.bound == b.bound - gone
    ensures ReqHeld(c, b', started, r, req)
  {
    assert gone !! B.Hits(b', r, req, req.bufs);
    ReqHeldFrame(c, b, b', started, r, req, gone);
  }

  lemma {:induction false} RingTakeHeld(c: Config, q: Queues, b: Buffers, started: set<NodeId>,
                     n: NodeId, limit: nat, frame: nat, now: nat)
    requires B.BufInv(b) && Held(c, q, b, started) && n != MainOut
    ensures Held(c, q, B.RingTake(b, n, limit, frame, now), started)
  {
    var b' := B.RingTake(b, n, limit, frame, now);
    var l := b.lists[n];
    var k := B.PrefixLen(b, l, limit);
    B.RingTakeLists(b, n, limit, frame, now);
    var gone := set x | x in l[..k];
    assert forall x :: x in gone ==> x in l;
    assert b'.bound == b.bound - gone;
    hide B.RingTake, B.PrefixLen;
    forall r | Live(q, r) ensures ReqHeld(c, b', started, r, Q.At(q, r)) {
      RingTakeReqHeld(c, b, b', started, r, Q.At(q, r), n, gone);
    }
  }

  lemma {:induction false} DequeueFrameHeld(s: State, n: NodeId, frame: nat, seqNo: nat, fbc: nat, now: nat)
    requires B.BufInv(s.b) && Held(s.cfg, s.q, s.b, s.st.started) && n != MainOut
    ensures var s' := DequeueFrame(s, n, frame, seqNo, fbc, now);
            && B.BufInv(s'.b) && Held(s'.cfg, s'.q, s'.b, s'.st.started)
            && s' == s.(b := s'.b)
  {
    hide B.BufInv, Held, B.RingTake;
    if n in s.cfg.enabled && s.st.streaming {
      var limit := if fbc % 128 == 0 then EnqMeta(s.fr, n) else seqNo;
      B.RingTakeKeeps(s.b, n, limit, frame, now);
      RingTakeHeld(s.cfg, s.q, s.b, s.st.started, n, limit, frame, now);
    }
  }

  /** The meta rings are those of enabled nodes, so a take makes nothing go missing. */
  lemma {:induction false} DequeueFrameMissing(s: State, n: NodeId, frame: nat, seqNo: nat, fbc: nat, now: nat, f: nat)
    requires B.ListsOk(s.b) && NoneMissing(s.cfg, s.q, s.b, f)
    ensures NoneMissing(s.cfg, s.q, DequeueFrame(s, n, frame, seqNo, fbc, now).b, f)
  {
    hide NoneMissing, B.ListsOk, B.RingTake;
    if n in s.cfg.enabled && s.st.streaming {
      RingTakeMissing(s.cfg, s.q, s.b, n, if fbc % 128 == 0 then EnqMeta(s.fr, n) else seqNo, frame, now, f);
    }
  }

  lemma {:induction false} RingTakeMissing(c: Config, q: Queues, b: Buffers, n: NodeId, limit: nat, frame: nat, now: nat, f: nat)
    requires B.ListsOk(b) && NoneMissing(c, q, b, f) && n in c.enabled
    ensures NoneMissing(c, q, B.RingTake(b, n, limit, frame, now), f)
  {
    var b' := B.RingTake(b, n, limit, frame, now);
    var k := B.PrefixLen(b, b.lists[n], limit);
    B.RingTakeLists(b, n, limit, frame, now);
    hide B.PrefixLen, B.Dequeued;
    assert forall y :: y in b.lists[n][..k] ==> y in b.lists[n];
    forall r, x | r in q.running && Q.At(q, r).frameSeq <= f && x in Q.At(q, r).bufs
      ensures !Missing(c, b', r, Q.At(q, r), x)
    {
      assert !Missing(c, b, r, Q.At(q, r), x);
    }
  }

  /** The state after the ring nodes were dequeued, on a done event. */
  function AfterRings(s: State, i: Irq): State {
    var s1 := if i.hwDone && i.aaoDone then DequeueFrame(s, MetaOut0, s.q.deq, s.fr.meta0, i.aaoFbc, i.now) else s;
    var s2 := if i.afoDone then DequeueFrame(s1, MetaOut1, s1.q.deq, s1.fr.meta1, i.afoFbc, i.now) else s1;
    DequeueFrame(s2, MetaOut0, s2.q.deq, s2.fr.meta0, i.aaoFbcSw, i.now)
  }

  lemma {:induction false} EventMissing(s: State, i: Irq)
    requires B.BufInv(s.b) && Held(s.cfg, s.q, s.b, s.st.started) && NoneMissing(s.cfg, s.q, s.b, s.q.deq)
    ensures NoneMissing(s.cfg, s.q, AfterRings(s, i).b, s.q.deq)
  {
    hide Held, NoneMissing, B.RingTake, B.Conserved;
    var s1 := if i.hwDone && i.aaoDone then DequeueFrame(s, MetaOut0, s.q.deq, s.fr.meta0, i.aaoFbc, i.now) else s;
    DequeueFrameHeld(s, MetaOut0, s.q.deq, s.fr.meta0, i.aaoFbc, i.now);
    var s2 := if i.afoDone then DequeueFrame(s1, MetaOut1, s1.q.deq, s1.fr.meta1, i.afoFbc, i.now) else s1;
    DequeueFrameHeld(s1, MetaOut1, s1.q.deq, s1.fr.meta1, i.afoFbc, i.now);
    DequeueFrameMissing(s, MetaOut0, s.q.deq, s.fr.meta0, i.aaoFbc, i.now, s.q.deq);
    DequeueFrameMissing(s1, MetaOut1, s1.q.deq, s1.fr.meta1, i.afoFbc, i.now, s.q.deq);
    DequeueFrameMissing(s2, MetaOut0, s2.q.deq, s2.fr.meta0, i.aaoFbcSw, i.now, s.q.deq);
  }

  lemma {:induction false} EventHeld(s: State, i: Irq)
    requires Core(s) && B.BufInv(s.b) && Held(s.cfg, s.q, s.b, s.st.started) && Accounted(s, EvIrq(i))
    ensures var s' := HandleEvent(s, i);
            B.BufInv(s'.b) && Held(s'.cfg, s'.q, s'.b, s'.st.started)
  {
    var s1 := if i.hwDone && i.aaoDone then DequeueFrame(s, MetaOut0, s.q.deq, s.fr.meta0, i.aaoFbc, i.now) else s;
    DequeueFrameHeld(s, MetaOut0, s.q.deq, s.fr.meta0, i.aaoFbc, i.now);
    var s2 := if i.afoDone then DequeueFrame(s1, MetaOut1, s1.q.deq, s1.fr.meta1, i.afoFbc, i.now) else s1;
    DequeueFrameHeld(s1, MetaOut1, s1.q.deq, s1.fr.meta1, i.afoFbc, i.now);
    if i.swDone {
      var s3 := DequeueFrame(s2, MetaOut0, s2.q.deq, s2.fr.meta0, i.aaoFbcSw, i.now);
      DequeueFrameHeld(s2, MetaOut0, s2.q.deq, s2.fr.meta0, i.aaoFbcSw, i.now);
      if s.st.streaming { EventMissing(s, i); }
      RetireLoopHeld(s.cfg, s3.q, s3.b, s.st.started, s.st.streaming, s3.q.deq, i.now);
      RetireLoopCore(s3.q, s3.b, s.st.streaming, s3.q.deq, i.now, s.st.pipelineOn);
      hide StreamOk, B.BufInv, Held, RetireLoop, B.RingTake, DequeueFrame, Q.Dispatch;
      TryQueueHeld(DequeueReqFrame(s3, s3.q.deq, i.now));
    }
  }

  lemma {:induction false} SameAfterDeq(q: Queues, f: nat, now: nat)
    requires Q.MemOk(q)
    ensures SameRequests(q, StampSof(q.(deq := f), f, now))
  {
    StampSofSame(q.(deq := f), f, now);
  }

  lemma {:induction false} SofHeld(s: State, i: Irq)
    requires Core(s) && B.BufInv(s.b) && Held(s.cfg, s.q, s.b, s.st.started)
    ensures var s' := HandleSof(s, i);
            B.BufInv(s'.b) && Held(s'.cfg, s'.q, s'.b, s'.st.started)
  {
    assert Q.MemOk(s.q);
    hide B.BufInv, Held, Core, SameRequests, StampSof, Q.MemOk;
    SameAfterDeq(s.q, i.frame, i.now);
    HeldFrame(s.cfg, s.q, StampSof(s.q.(deq := i.frame), i.frame, i.now), s.b, s.st.started);
  }

  lemma {:induction false} IrqHeld(s: State, i: Irq)
    requires Core(s) && B.BufInv(s.b) && Held(s.cfg, s.q, s.b, s.st.started) && Accounted(s, EvIrq(i))
    ensures var s' := HandleIrq(s, i);
            B.BufInv(s'.b) && Held(s'.cfg, s'.q, s'.b, s'.st.started)
  {
    hide B.BufInv, Held, HandleEvent, HandleSof, Core;
    EventHeld(s, i);
    EventCore(s, i);
    if i.sof { SofHeld(HandleEvent(s, i), i); }
  }
}
