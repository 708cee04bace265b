/** Requests whose buffers have come back: when one may still be on a job list, and what
    the meta rings do to the buffers of requests. */
module CamRequests {
  import opened CamTypes
  import opened CamPipeline
  import opened CamCore
  import opened CamOwnership
  import opened CamSessions
  import B = CamBuffers
  import Q = CamQueues

  /** Buffers of these nodes are returned by dequeue_frame as well as by job_done. */
  predicate RingNode(n: NodeId) {
    n == MetaOut0 || n == MetaOut1
  }

  predicate Bound(b: Buffers, r: ReqId, x: Buf) {
    x in b.bound && b.bound[x] == r
  }

  /** The nodes whose buffers have left their requests with a stop of the node or a cancel of
      its queue. */
  function Emptied(st: Stream): set<NodeId> {
    st.stopped + st.cancelled
  }

  /** x is still bound to r, or its node has stopped or was cancelled, or it is on a meta
      ring. */
  predicate BoundOrGone(b: Buffers, stopped: set<NodeId>, r: ReqId, x: Buf) {
    Bound(b, r, x) || x.node in stopped || RingNode(x.node)
  }

  ghost predicate StillBound(q: Queues, b: Buffers, stopped: set<NodeId>) {
    forall r, x :: Live(q, r) && !Q.At(q, r).synthetic && x in Q.At(q, r).bufs ==> BoundOrGone(b, stopped, r, x)
  }

  /** Only buffers queued outside of requests have a sequence number, and only the others
      are bound to one. */
  ghost predicate SeqOk(c: Config, b: Buffers) {
    && (forall x :: x in b.seqNo ==> x.node !in c.viaRequests)
    && (forall x :: x in b.bound ==> x.node in c.viaRequests)
  }

  ghost predicate RequestsOk(s: State) {
    StillBound(s.q, s.b, Emptied(s.st)) && SeqOk(s.cfg, s.b)
  }

  /** Fewer requests, and bindings lost only on stopped nodes and rings. */
  lemma {:induction false} BoundFrame(q: Queues, q': Queues, b: Buffers, b': Buffers, stopped: set<NodeId>, stopped': set<NodeId>)
    requires StillBound(q, b, stopped) && SameRequests(q, q') && stopped <= stopped'
    requires forall r, x ::
      Live(q', r) && !Q.At(q', r).synthetic && x in Q.At(q', r).bufs && Bound(b, r, x) ==> BoundOrGone(b', stopped', r, x)
    ensures StillBound(q', b', stopped')
  {
    forall r, x | Live(q', r) && !Q.At(q', r).synthetic && x in Q.At(q', r).bufs
      ensures BoundOrGone(b', stopped', r, x)
    {
      assert Live(q, r) && BoundOrGone(b, stopped, r, x);
    }
  }

  lemma {:induction false} SameRefl(q: Queues)
    ensures SameRequests(q, q)
  {
  }

  // ---- the steps ---------------------------------------------------------

  lemma {:induction false} TryQueueBound(s: State)
    requires Q.MemOk(s.q) && RequestsOk(s)
    ensures RequestsOk(TryQueue(s))
  {
    DispatchSame(s.q);
    BoundFrame(s.q, Q.Dispatch(s.q), s.b, s.b, Emptied(s.st), Emptied(s.st));
  }

  lemma {:induction false} SubmitBound(q: Queues, b: Buffers, stopped: set<NodeId>, r: ReqId, req: Request)
    requires StillBound(q, b, stopped) && !Live(q, r)
    requires !req.synthetic ==> forall x :: x in req.bufs ==> BoundOrGone(b, stopped, r, x)
    ensures StillBound(Q.Submit(q, r, req), b, stopped)
  {
    var q' := Q.Submit(q, r, req);
    forall r2, x | Live(q', r2) && !Q.At(q', r2).synthetic && x in Q.At(q', r2).bufs
      ensures BoundOrGone(b, stopped, r2, x)
    {
      if r2 != r { assert Live(q, r2) && Q.At(q', r2) == Q.At(q, r2); }
    }
  }

  lemma {:induction false} BindSeq(c: Config, b: Buffers, started: set<NodeId>, xs: seq<Buf>, r: ReqId)
    requires SeqOk(c, b) && forall x :: x in xs ==> x.node in c.viaRequests
    ensures SeqOk(c, GiveStarted(BindAll(b, xs, r), started, xs))
  {
    GiveStartedFrame(BindAll(b, xs, r), started, xs);
    hide GiveStarted;
  }

  lemma {:induction false} ReqQueueBound(s: State, r: ReqId, xs: seq<Buf>)
    requires Core(s) && RequestsOk(s) && Legal(s, EvReqQueue(r, xs))
    ensures RequestsOk(ReqQueue(s, r, xs))
  {
    hide Emptied, SeqOk;
    BindSeq(s.cfg, s.b, s.st.started, xs, r);
    var b1 := BindAll(s.b, xs, r);
    SameRefl(s.q);
    BoundFrame(s.q, s.q, s.b, b1, Emptied(s.st), Emptied(s.st));
    GiveStartedFrame(b1, s.st.started, xs);
    var b2 := GiveStarted(b1, s.st.started, xs);
    BoundFrame(s.q, s.q, b1, b2, Emptied(s.st), Emptied(s.st));
    var req := Q.At(s.q, r).(synthetic := false, bufs := xs);
    SubmitBound(s.q, b2, Emptied(s.st), r, req);
    Q.SubmitKeeps(s.q, s.st.pipelineOn, r, req);
    hide StillBound, Q.QInv, Q.Dispatch, Core, GiveStarted;
    TryQueueBound(s.(b := b2, q := Q.Submit(s.q, r, req)));
  }

  /** Registering one buffer of a node used without requests. */
  lemma {:induction false} EnqueueBound(s: State, x: Buf, alloc: Alloc)
    requires Q.MemOk(s.q) && RequestsOk(s) && Held(s.cfg, s.q, s.b, s.st.started)
    requires x.node !in s.cfg.viaRequests && (alloc.Ptr? ==> alloc.id !in s.q.heap)
    ensures RequestsOk(EnqueueNoRequest(s, x, alloc))
  {
    SameRefl(s.q);
    if x.node != MainOut {
      BoundFrame(s.q, s.q, s.b, MetaEnqueue(s, x).b, Emptied(s.st), Emptied(s.st));
    } else if alloc.Null? {
      var b' := B.Vb2Done(s.b, x, ERROR, Unstamped);
      forall r, y | Live(s.q, r) && !Q.At(s.q, r).synthetic && y in Q.At(s.q, r).bufs && Bound(s.b, r, y)
        ensures BoundOrGone(b', Emptied(s.st), r, y)
      {
        assert ReqHeld(s.cfg, s.b, s.st.started, r, Q.At(s.q, r));
      }
      BoundFrame(s.q, s.q, s.b, b', Emptied(s.st), Emptied(s.st));
    } else {
      SubmitBound(s.q, s.b, Emptied(s.st), alloc.id, SyntheticRequest(x));
      SubmitMem(s.q, alloc.id, SyntheticRequest(x));
      hide StillBound, Held, Q.MemOk;
      TryQueueBound(s.(q := Q.Submit(s.q, alloc.id, SyntheticRequest(x))));
    }
  }

  lemma {:induction false} BufQueueBound(s: State, x: Buf, alloc: Alloc)
    requires Core(s) && RequestsOk(s) && Held(s.cfg, s.q, s.b, s.st.started)
    requires Legal(s, EvBufQueue(x, alloc))
    ensures RequestsOk(BufQueue(s, x, alloc))
  {
    var s1 := s.(b := B.Give(s.b, x));
    SameRefl(s.q);
    BoundFrame(s.q, s.q, s.b, s1.b, Emptied(s.st), Emptied(s.st));
    HeldMono(s.cfg, s.q, s.b, s1.b, s.st.started);
    assert Q.MemOk(s.q);
    hide StillBound, Core, Held, EnqueueNoRequest, Q.MemOk;
    if x.node !in s.cfg.viaRequests && x.node in s.st.started { EnqueueBound(s1, x, alloc); }
  }

  // ---- retiring ----------------------------------------------------------

  /** Completing one request unbinds nothing from another one. */
  lemma {:induction false} OthersStayBound(c: Config, q: Queues, b: Buffers, started: set<NodeId>, streaming: bool,
                                           r: ReqId, state: Vb2State, eof: nat, r2: ReqId, x: Buf)
    requires Held(c, q, b, started) && Live(q, r) && Live(q, r2) && r != r2 && state != QUEUED
    requires !Q.At(q, r2).synthetic && x in Q.At(q, r2).bufs && Bound(b, r2, x)
    ensures Bound(B.JobDone(b, streaming, r, Q.At(q, r), state, eof), r2, x)
  {
    var req := Q.At(q, r);
    assert ReqHeld(c, b, started, r, req) && ReqHeld(c, b, started, r2, Q.At(q, r2));
    hide Held, Live;
    assert x !in B.Hits(b, r, req, req.bufs);
    B.CompleteAllFrame(b, r, req, req.bufs, state, eof);
  }

  lemma {:induction false} JobDoneBound(c: Config, q: Queues, b: Buffers, started: set<NodeId>, stopped: set<NodeId>,
                                        streaming: bool, state: Vb2State, outcome: Outcome, eof: nat)
    requires StillBound(q, b, stopped) && Held(c, q, b, started) && Q.MemOk(q) && q.running != [] && state != QUEUED
    ensures var r := q.running[0];
            StillBound(Q.RetireHead(q, outcome), B.JobDone(b, streaming, r, Q.At(q, r), state, eof), stopped)
  {
    var r := q.running[0];
    var q', b' := Q.RetireHead(q, outcome), B.JobDone(b, streaming, r, Q.At(q, r), state, eof);
    RetireHeadSame(q, outcome);
    hide Held, B.JobDone, Q.RetireHead, Q.MemOk, StillBound;
    forall r2, x | Live(q', r2) && !Q.At(q', r2).synthetic && x in Q.At(q', r2).bufs && Bound(b, r2, x)
      ensures BoundOrGone(b', stopped, r2, x)
    {
      assert Live(q, r2);
      OthersStayBound(c, q, b, started, streaming, r, state, eof, r2, x);
    }
    BoundFrame(q, q', b, b', stopped, stopped);
  }

  lemma {:induction false} RetireLoopBound(c: Config, q: Queues, b: Buffers, started: set<NodeId>, stopped: set<NodeId>,
                                           streaming: bool, f: nat, eof: nat)
    requires StillBound(q, b, stopped) && Held(c, q, b, started) && B.BufInv(b) && Q.MemOk(q)
    requires streaming ==> started == c.enabled && MainOut in started && NoneMissing(c, q, b, f)
    ensures var (q', b') := RetireLoop(q, b, streaming, f, eof);
            StillBound(q', b', stopped) && b'.seqNo == b.seqNo && b'.bound.Keys <= b.bound.Keys
    decreases |q.running|
  {
    if q.running != [] {
      var r := q.running[0];
      var req := Q.At(q, r);
      assert ReqHeld(c, b, started, r, req);
      if req.frameSeq == f {
        B.CompleteAllFrame(b, r, req, req.bufs, DONE, eof);
        JobDoneBound(c, q, b, started, stopped, streaming, DONE, if streaming then Finished else Silent, eof);
      } else if req.frameSeq < f {
        var o := if streaming then Dropped else Silent;
        B.CompleteAllFrame(b, r, req, req.bufs, ERROR, eof);
        JobDoneBound(c, q, b, started, stopped, streaming, ERROR, o, eof);
        RetireHeadHeld(c, q, b, started, streaming, ERROR, o, eof);
        Q.RetireHeadMem(q, o);
        hide StillBound, Held, B.BufInv, Q.MemOk, NoneMissing;
        RetireLoopBound(c, Q.RetireHead(q, o), B.JobDone(b, streaming, r, req, ERROR, eof),
                        started, stopped, streaming, f, eof);
      }
    }
  }

  lemma {:induction false} DequeueFrameBound(s: State, n: NodeId, frame: nat, seqNo: nat, fbc: nat, now: nat)
    requires B.ListsOk(s.b) && RequestsOk(s) && RingNode(n)
    ensures RequestsOk(DequeueFrame(s, n, frame, seqNo, fbc, now))
  {
    hide B.RingTake, StillBound, SeqOk, B.ListsOk;
    if n in s.cfg.enabled && s.st.streaming {
      var limit := if fbc % 128 == 0 then EnqMeta(s.fr, n) else seqNo;
      RingTakeBound(s.q, s.b, Emptied(s.st), n, limit, frame, now);
      SameSeqNo(s.cfg, s.b, B.RingTake(s.b, n, limit, frame, now));
    }
  }

  lemma {:induction false} SameSeqNo(c: Config, b: Buffers, b': Buffers)
    requires SeqOk(c, b) && b'.seqNo == b.seqNo && b'.bound.Keys <= b.bound.Keys
    ensures SeqOk(c, b')
  {
  }

  lemma {:induction false} RingTakeBound(q: Queues, b: Buffers, stopped: set<NodeId>, n: NodeId, limit: nat, frame: nat, now: nat)
    requires B.ListsOk(b) && StillBound(q, b, stopped) && RingNode(n)
    ensures var b' := B.RingTake(b, n, limit, frame, now); StillBound(q, b', stopped) && b'.seqNo == b.seqNo && b'.bound.Keys <= b.bound.Keys
  {
    var b' := B.RingTake(b, n, limit, frame, now);
    var k := B.PrefixLen(b, b.lists[n], limit);
    hide B.PrefixLen, B.Dequeued;
    assert forall y :: y in b.lists[n][..k] ==> y in b.lists[n];
    SameRefl(q);
    BoundFrame(q, q, b, b', stopped, stopped);
  }

  lemma {:induction false} AfterRingsBound(s: State, i: Irq)
    requires B.BufInv(s.b) && Held(s.cfg, s.q, s.b, s.st.started) && RequestsOk(s)
    ensures var s' := AfterRings(s, i);
            && RequestsOk(s') && B.BufInv(s'.b) && Held(s'.cfg, s'.q, s'.b, s'.st.started)
            && s' == s.(b := s'.b)
    ensures RequestsOk(if i.hwDone && i.aaoDone then DequeueFrame(s, MetaOut0, s.q.deq, s.fr.meta0, i.aaoFbc, i.now) else s)
  {
    hide Held, RequestsOk, B.RingTake, B.Conserved, DequeueFrame;
    var s1 := if i.hwDone && i.aaoDone then DequeueFrame(s, MetaOut0, s.q.deq, s.fr.meta0, i.aaoFbc, i.now) else s;
    DequeueFrameHeld(s, MetaOut0, s.q.deq, s.fr.meta0, i.aaoFbc, i.now);
    DequeueFrameBound(s, MetaOut0, s.q.deq, s.fr.meta0, i.aaoFbc, i.now);
    var s2 := if i.afoDone then DequeueFrame(s1, MetaOut1, s1.q.deq, s1.fr.meta1, i.afoFbc, i.now) else s1;
    DequeueFrameHeld(s1, MetaOut1, s1.q.deq, s1.fr.meta1, i.afoFbc, i.now);
    DequeueFrameBound(s1, MetaOut1, s1.q.deq, s1.fr.meta1, i.afoFbc, i.now);
    DequeueFrameHeld(s2, MetaOut0, s2.q.deq, s2.fr.meta0, i.aaoFbcSw, i.now);
    DequeueFrameBound(s2, MetaOut0, s2.q.deq, s2.fr.meta0, i.aaoFbcSw, i.now);
  }

  lemma {:induction false} RingsOnly(s: State, i: Irq)
    requires B.BufInv(s.b) && Held(s.cfg, s.q, s.b, s.st.started) && RequestsOk(s) && !i.swDone
    ensures RequestsOk(HandleEvent(s, i))
  {
    hide Held, RequestsOk, B.RingTake, B.Conserved, DequeueFrame;
    var s1 := if i.hwDone && i.aaoDone then DequeueFrame(s, MetaOut0, s.q.deq, s.fr.meta0, i.aaoFbc, i.now) else s;
    DequeueFrameHeld(s, MetaOut0, s.q.deq, s.fr.meta0, i.aaoFbc, i.now);
    DequeueFrameBound(s, MetaOut0, s.q.deq, s.fr.meta0, i.aaoFbc, i.now);
    DequeueFrameBound(s1, MetaOut1, s1.q.deq, s1.fr.meta1, i.afoFbc, i.now);
  }

  lemma {:induction false} EventBound(s: State, i: Irq)
    requires Core(s) && B.BufInv(s.b) && Held(s.cfg, s.q, s.b, s.st.started) && RequestsOk(s)
    requires Accounted(s, EvIrq(i))
    ensures RequestsOk(HandleEvent(s, i))
  {
    if i.swDone {
      AfterRingsBound(s, i);
      if s.st.streaming { EventMissing(s, i); }
      RetireThenQueueBound(AfterRings(s, i), i.now);
      EventIs(s, i);
      hide HandleEvent, Core, Held, RequestsOk, B.BufInv, AfterRings;
    } else {
      hide HandleEvent, Core, Held, RequestsOk, B.BufInv;
      RingsOnly(s, i);
    }
  }

  lemma {:induction false} EventIs(s: State, i: Irq)
    requires i.swDone
    ensures HandleEvent(s, i) == var s3 := AfterRings(s, i); TryQueue(DequeueReqFrame(s3, s3.q.deq, i.now))
  {
    hide DequeueFrame, TryQueue, DequeueReqFrame;
  }

  lemma {:induction false} RetireThenQueueBound(s: State, eof: nat)
    requires Q.QInv(s.q, s.st.pipelineOn) && B.BufInv(s.b) && Held(s.cfg, s.q, s.b, s.st.started) && RequestsOk(s)
    requires s.st.streaming ==>
               s.st.started == s.cfg.enabled && MainOut in s.st.started && NoneMissing(s.cfg, s.q, s.b, s.q.deq)
    ensures RequestsOk(TryQueue(DequeueReqFrame(s, s.q.deq, eof)))
  {
    RetireLoopBound(s.cfg, s.q, s.b, s.st.started, Emptied(s.st), s.st.streaming, s.q.deq, eof);
    RetireLoopCore(s.q, s.b, s.st.streaming, s.q.deq, eof, s.st.pipelineOn);
    hide StillBound, Held, B.BufInv, RetireLoop, Q.Dispatch, NoneMissing, TryQueue, Q.QInv, SeqOk;
    SameSeqNo(s.cfg, s.b, DequeueReqFrame(s, s.q.deq, eof).b);
    QueuesMem(DequeueReqFrame(s, s.q.deq, eof).q, s.st.pipelineOn);
    TryQueueBound(DequeueReqFrame(s, s.q.deq, eof));
  }

  lemma {:induction false} IrqBound(s: State, i: Irq)
    requires Core(s) && B.BufInv(s.b) && Held(s.cfg, s.q, s.b, s.st.started) && RequestsOk(s)
    requires Accounted(s, EvIrq(i))
    ensures RequestsOk(HandleIrq(s, i))
  {
    hide HandleEvent, HandleSof, Held, B.BufInv, Accounted, Core, RequestsOk;
    EventBound(s, i);
    EventCore(s, i);
    if i.sof { SofBound(HandleEvent(s, i), i); }
  }

  lemma {:induction false} SofBound(s: State, i: Irq)
    requires Core(s) && RequestsOk(s)
    ensures RequestsOk(HandleSof(s, i))
  {
    hide StampSof, RequestsOk, Core, Q.MemOk;
    CoreMem(s);
    SameAfterDeq(s.q, i.frame, i.now);
    BoundFrame2(s, HandleSof(s, i));
  }

  lemma {:induction false} QueuesMem(q: Queues, on: bool)
    requires Q.QInv(q, on)
    ensures Q.MemOk(q)
  {
  }

  lemma {:induction false} CoreMem(s: State)
    requires Core(s)
    ensures Q.MemOk(s.q)
  {
  }

  // ---- start and stop ----------------------------------------------------

  lemma {:induction false} EachBound(s: State, xs: seq<Buf>, allocs: seq<Alloc>)
    requires |allocs| == |xs| && !s.st.streaming && Q.MemOk(s.q) && RequestsOk(s)
    requires forall i :: 0 <= i < |allocs| ==> allocs[i].Ptr? || xs[i].node != MainOut
    requires FreshAllocs(s.q.heap.Keys, allocs) && forall x :: x in xs ==> x.node !in s.cfg.viaRequests
    ensures RequestsOk(EnqueueEach(s, xs, allocs))
    decreases |xs|
  {
    if xs != [] {
      var x, a := xs[0], allocs[0];
      var s1 := EnqueueNoRequest(s, x, a);
      if x.node == MainOut {
        SubmitBound(s.q, s.b, Emptied(s.st), a.id, SyntheticRequest(x));
        SubmitMem(s.q, a.id, SyntheticRequest(x));
      } else {
        SameRefl(s.q);
        BoundFrame(s.q, s.q, s.b, s1.b, Emptied(s.st), Emptied(s.st));
        MetaSame(s, x);
      }
      assert FreshAllocs(s1.q.heap.Keys, allocs[1..]);
      if x.node == MainOut {
        assert forall i :: 0 <= i < |allocs[1..]| ==> allocs[1..][i] == allocs[i + 1];
      }
      hide StillBound, Held, Q.MemOk, FreshAllocs;
      EachBound(s1, xs[1..], allocs[1..]);
    }
  }

  lemma {:induction false} MetaSame(s: State, x: Buf)
    ensures var s1 := MetaEnqueue(s, x);
            s1.q == s.q && s1.st == s.st && s1.cfg == s.cfg && s1.b == s.b.(seqNo := s1.b.seqNo)
  {
  }

  lemma {:induction false} RegisterBound(s: State, n: NodeId, allocs: seq<Alloc>)
    requires !s.st.streaming && Q.MemOk(s.q) && RequestsOk(s) && B.ListsOk(s.b) && FreshAllocs(s.q.heap.Keys, allocs)
    requires n !in s.cfg.viaRequests ==> |allocs| == |s.b.lists[n]|
    requires Allocates(s, n) ==> AllAllocated(allocs)
    ensures RequestsOk(Register(s, n, allocs))
  {
    if n !in s.cfg.viaRequests {
      forall i | 0 <= i < |allocs| ensures allocs[i].Ptr? || s.b.lists[n][i].node != MainOut {
        assert s.b.lists[n][i] in s.b.lists[n];
      }
      hide StillBound, Q.MemOk;
      EachBound(s, s.b.lists[n], allocs);
    }
  }

  lemma {:induction false} GiveBackBound(s: State, n: NodeId)
    requires RequestsOk(s)
    ensures RequestsOk(GiveBack(s, n))
  {
    SameRefl(s.q);
    BoundFrame(s.q, s.q, s.b, GiveBack(s, n).b, Emptied(s.st), Emptied(s.st));
  }

  lemma {:induction false} FinishStartBound(s: State, n: NodeId, o: CioOutcome)
    requires Starting(s.cfg, s.st, n) && Q.MemOk(s.q) && RequestsOk(s)
    ensures RequestsOk(FinishStart(s, n, o))
  {
    hide Q.MemOk, RequestsOk, StreamOk, StillBound, SeqOk, FinishStart, Q.Dispatch, B.ReturnAll, Starting;
    StartingOff(s.cfg, s.st, n);
    StartingCount(s.cfg, s.st, n);
    FinishIs(s, n, o);
    var s' := FinishStart(s, n, o);
    if s.st.streamCount + 1 < s.st.enabledCount {
      SameRequestsOk(s, s');
    } else if o == CioOk {
      DispatchBound(s, s');
    } else {
      GiveBackBound(s, n);
      SameRequestsOk(GiveBack(s, n), s');
    }
  }

  /** Dispatching keeps what is bound, whatever the stream machine does meanwhile. */
  lemma {:induction false} DispatchBound(s: State, s': State)
    requires Q.MemOk(s.q) && RequestsOk(s)
    requires s'.q == Q.Dispatch(s.q) && s'.b == s.b && s'.cfg == s.cfg && Emptied(s'.st) == Emptied(s.st)
    ensures RequestsOk(s')
  {
    hide StillBound, Q.Dispatch, Q.MemOk, SeqOk;
    DispatchSame(s.q);
    BoundFrame2(s, s');
  }

  lemma {:induction false} BoundFrame2(s: State, s': State)
    requires RequestsOk(s) && SameRequests(s.q, s'.q)
    requires s'.b == s.b && s'.cfg == s.cfg && Emptied(s'.st) == Emptied(s.st)
    ensures RequestsOk(s')
  {
    BoundFrame(s.q, s'.q, s.b, s.b, Emptied(s.st), Emptied(s.st));
  }

  lemma {:induction false} StartingCount(c: Config, st: Stream, n: NodeId)
    requires Starting(c, st, n)
    ensures st.streamCount == 0 ==> st.stopped == {}
  {
    StartingOutcomes(c, st, n);
  }

  lemma {:induction false} SameRequestsOk(s: State, s': State)
    requires RequestsOk(s) && s'.q == s.q && s'.b == s.b && s'.cfg == s.cfg && Emptied(s'.st) == Emptied(s.st)
    ensures RequestsOk(s')
  {
  }

  lemma {:induction false} StartTailBound(s: State, n: NodeId, env: StartEnv)
    requires Starting(s.cfg, s.st, n) && Q.QInv(s.q, true) && RequestsOk(s) && B.ListsOk(s.b)
    requires n !in s.cfg.viaRequests ==> |env.allocs| == |s.b.lists[n]|
    requires Allocates(s, n) ==> AllAllocated(env.allocs)
    requires FreshAllocs(s.q.heap.Keys, env.allocs)
    ensures RequestsOk(StartTail(s, n, env))
  {
    if n !in s.cfg.viaRequests { EnqueueEachQueues(s, s.b.lists[n], env.allocs, true); }
    assert Q.MemOk(Register(s, n, env.allocs).q);
    hide StillBound, SeqOk, Q.QInv, RequestsOk, Starting, B.ListsOk;
    StartingOff(s.cfg, s.st, n);
    RegisterBound(s, n, env.allocs);
    hide Register;
    RegisterSame(s, n, env.allocs);
    FinishStartBound(Register(s, n, env.allocs), n, env.cio);
  }

  lemma {:induction false} RegisterSame(s: State, n: NodeId, allocs: seq<Alloc>)
    requires !s.st.streaming && (n !in s.cfg.viaRequests ==> |allocs| == |s.b.lists[n]|)
    ensures Register(s, n, allocs).st == s.st && Register(s, n, allocs).cfg == s.cfg
  {
    if n !in s.cfg.viaRequests { EachFrame(s, s.b.lists[n], allocs); }
  }

  lemma {:induction false} StartBound(s: State, n: NodeId, env: StartEnv)
    requires Core(s) && RequestsOk(s) && B.BufInv(s.b)
    requires Legal(s, EvStart(n, env)) && Accounted(s, EvStart(n, env))
    ensures RequestsOk(Start(s, n, env))
  {
    hide Q.QInv, StreamOk, StartTail, RequestsOk, HandedOver, B.Conserved, B.ListsOk, HwInit, InitStream, StillBound, B.ReturnAll;
    GiveBackBound(s, n);
    if n in s.cfg.enabled && s.st.pipelineOn {
      LaterStart(s, n);
      StartTailBound(s, n, env);
    } else if n in s.cfg.enabled && env.pipelineOk {
      FirstBound(s, n);
      if env.hwOk { StartTailBound(HwInit(InitStream(s.(st := s.st.(pipelineOn := true)))), n, env); }
    }
  }

  /** The first start of a session, up to registering. */
  lemma {:induction false} FirstBound(s: State, n: NodeId)
    requires Core(s) && RequestsOk(s) && !s.st.pipelineOn && n in s.cfg.enabled
    ensures var s0 := InitStream(s.(st := s.st.(pipelineOn := true)));
            && s0.st.streamCount == 0 && RequestsOk(GiveBack(PipelineStop(s0), n))
            && var s1 := HwInit(s0);
               && Starting(s1.cfg, s1.st, n) && Q.QInv(s1.q, true) && RequestsOk(s1)
               && s1.b == s.b && s1.cfg == s.cfg && s1.q.heap == s.q.heap
  {
    hide Q.QInv, StillBound, SeqOk, B.ReturnAll;
    var s0 := InitStream(s.(st := s.st.(pipelineOn := true)));
    var s1 := HwInit(s0);
    FirstStart(s, n);
    assert s.st.stopped == {};
    hide StreamOk, Starting;
    Q.ResetKeeps(s.q);
    SameLists(s, s1);
    SameLists(s, PipelineStop(s0));
    GiveBackBound(PipelineStop(s0), n);
  }

  lemma {:induction false} SameLists(s: State, s': State)
    requires RequestsOk(s) && s'.b == s.b && s'.cfg == s.cfg && Emptied(s'.st) == Emptied(s.st)
    requires s'.q.heap == s.q.heap && s'.q.pending == s.q.pending && s'.q.running == s.q.running
    ensures RequestsOk(s')
  {
    hide StillBound, SeqOk;
    SameByLists(s.q, s'.q);
    BoundFrame2(s, s');
  }

  lemma {:induction false} StopBound(s: State, n: NodeId)
    requires Core(s) && RequestsOk(s) && B.BufInv(s.b) && n in s.st.started
    ensures RequestsOk(Stop(s, n))
  {
    hide StillBound, StoppedQueues, Stop, B.BufInv, Core, Emptied, StoppedStream, B.ReturnAll, SeqOk;
    StopIs(s, n);
    StoppedSame(s, n);
    EmptiedAfterStop(s.st, n);
    var q', b' := StoppedQueues(s.q, s.st), B.ReturnAll(s.b, n, ERROR);
    ReturnedBound(s, n, q');
    if s.st.streamCount - 1 == 0 { NothingBound(q', b', Emptied(StoppedStream(s.st, n))); }
  }

  lemma {:induction false} EmptiedAfterStop(st: Stream, n: NodeId)
    ensures st.streamCount - 1 != 0 ==> Emptied(StoppedStream(st, n)) == Emptied(st) + {n}
  {
  }

  /** Returning a node's list unbinds only buffers of that node. */
  lemma {:induction false} ReturnedBound(s: State, n: NodeId, q': Queues)
    requires RequestsOk(s) && B.BufInv(s.b) && SameRequests(s.q, q')
    ensures var b' := B.ReturnAll(s.b, n, ERROR); StillBound(q', b', Emptied(s.st) + {n}) && SeqOk(s.cfg, b')
  {
    hide StillBound, Emptied;
    var b' := B.ReturnAll(s.b, n, ERROR);
    NodeOf(s.b, n);
    hide B.BufInv;
    BoundFrame(s.q, q', s.b, b', Emptied(s.st), Emptied(s.st) + {n});
  }

  lemma {:induction false} CancelBound(s: State, n: NodeId)
    requires RequestsOk(s)
    ensures RequestsOk(CancelQueue(s, n))
  {
    var s' := CancelQueue(s, n);
    SameRefl(s.q);
    BoundFrame(s.q, s.q, s.b, s'.b, Emptied(s.st), Emptied(s'.st));
  }

  lemma {:induction false} NodeOf(b: Buffers, n: NodeId)
    requires B.BufInv(b)
    ensures forall x :: x in b.lists[n] ==> x.node == n
  {
  }

  lemma {:induction false} StoppedSame(s: State, n: NodeId)
    requires Core(s) && n in s.st.started
    ensures var q' := StoppedQueues(s.q, s.st);
            SameRequests(s.q, q') && (s.st.streamCount - 1 == 0 ==> q'.pending == [] && q'.running == [])
  {
    hide Core, StoppedQueues, Q.QInv;
    StopReady(s, n);
    StoppedKeeps(s.q, s.st, true);
  }

  lemma {:induction false} NothingBound(q: Queues, b: Buffers, stopped: set<NodeId>)
    requires q.pending == [] && q.running == []
    ensures StillBound(q, b, stopped)
  {
  }
}
