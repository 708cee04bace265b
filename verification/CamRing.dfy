/** The meta ring numbers and the start-of-frame timestamps. */
module CamRing {
  import opened CamTypes
  import opened CamPipeline
  import opened CamCore
  import opened CamOwnership
  import B = CamBuffers
  import Q = CamQueues

  predicate IsRing(c: Config, n: NodeId) {
    (n == MetaOut0 || n == MetaOut1) && n !in c.viaRequests
  }

  /** The numbers on the list are the interval of length |l| that ends at e. */
  ghost predicate Numbered(b: Buffers, l: seq<Buf>, e: nat) {
    |l| <= e && forall i :: 0 <= i < |l| ==> B.SeqNo(b, l[i]) == e - |l| + 1 + i
  }

  ghost predicate RingOk(s: State) {
    forall n :: IsRing(s.cfg, n) && n in s.st.started && s.st.dmas != {} ==>
      Numbered(s.b, s.b.lists[n], EnqMeta(s.fr, n))
  }

  /** A change that leaves the rings, their numbers and their counters alone. */
  ghost predicate SameRings(s: State, s': State) {
    && s'.cfg == s.cfg && s'.fr.enqMeta0 == s.fr.enqMeta0 && s'.fr.enqMeta1 == s.fr.enqMeta1
    && s'.b.seqNo == s.b.seqNo
    && (s'.st.dmas == s.st.dmas || s'.st.dmas == {})
    && forall n :: IsRing(s.cfg, n) && n in s'.st.started ==> n in s.st.started && s'.b.lists[n] == s.b.lists[n]
  }

  lemma {:induction false} RingFrame(s: State, s': State)
    requires RingOk(s) && SameRings(s, s')
    ensures RingOk(s')
  {
    forall n | IsRing(s'.cfg, n) && n in s'.st.started && s'.st.dmas != {}
      ensures Numbered(s'.b, s'.b.lists[n], EnqMeta(s'.fr, n))
    {
      assert Numbered(s.b, s.b.lists[n], EnqMeta(s.fr, n));
    }
  }

  // ---- enqueue -----------------------------------------------------------

  /** A buffer appended with the next number keeps the ring numbered. */
  lemma {:induction false} NumberedAppend(b: Buffers, b': Buffers, l: seq<Buf>, e: nat, x: Buf)
    requires Numbered(b, l, e) && x !in l && b'.seqNo == b.seqNo[x := e + 1]
    ensures Numbered(b', l + [x], e + 1)
  {
  }

  lemma {:induction false} NumberedOther(b: Buffers, b': Buffers, l: seq<Buf>, e: nat, x: Buf, v: nat)
    requires Numbered(b, l, e) && x !in l && b'.seqNo == b.seqNo[x := v]
    ensures Numbered(b', l, e)
  {
  }

  lemma {:induction false} RingAt(s: State, n: NodeId)
    requires RingOk(s) && IsRing(s.cfg, n) && n in s.st.started && s.st.dmas != {}
    ensures Numbered(s.b, s.b.lists[n], EnqMeta(s.fr, n))
  {
  }

  /** What handing over and numbering a buffer changes. */
  lemma {:induction false} EnqueuedIs(s: State, x: Buf)
    requires (x.node == MetaOut0 || x.node == MetaOut1) && s.st.dmas != {}
    ensures var s' := MetaEnqueue(s.(b := B.Give(s.b, x)), x);
            && s'.b.seqNo == s.b.seqNo[x := EnqMeta(s.fr, x.node) + 1]
            && s'.b.lists == s.b.lists[x.node := s.b.lists[x.node] + [x]]
            && forall m :: (m == MetaOut0 || m == MetaOut1) ==>
                 EnqMeta(s'.fr, m) == EnqMeta(s.fr, m) + if m == x.node then 1 else 0
  {
  }

  /** One ring, when a buffer is queued on this or the other one. */
  lemma {:induction false} EnqueueOneRing(s: State, x: Buf, n: NodeId)
    requires RingOk(s) && B.ListsOk(s.b) && !B.Owned(s.b, x) && (x.node == MetaOut0 || x.node == MetaOut1)
    requires IsRing(s.cfg, n) && n in s.st.started && s.st.dmas != {}
    ensures var s' := MetaEnqueue(s.(b := B.Give(s.b, x)), x); Numbered(s'.b, s'.b.lists[n], EnqMeta(s'.fr, n))
  {
    hide Numbered, RingOk, MetaEnqueue, B.Give;
    var s' := MetaEnqueue(s.(b := B.Give(s.b, x)), x);
    assert Numbered(s.b, s.b.lists[n], EnqMeta(s.fr, n)) by { RingAt(s, n); }
    EnqueuedIs(s, x);
    assert x !in s.b.lists[n];
    if n == x.node {
      NumberedAppend(s.b, s'.b, s.b.lists[n], EnqMeta(s.fr, n), x);
    } else {
      NumberedOther(s.b, s'.b, s.b.lists[n], EnqMeta(s.fr, n), x, EnqMeta(s.fr, x.node) + 1);
    }
  }

  lemma {:induction false} EnqueueRing(s: State, x: Buf)
    requires RingOk(s) && B.ListsOk(s.b) && !B.Owned(s.b, x) && CfgOk(s.cfg)
    requires x.node in s.st.started && x.node in s.cfg.enabled && x.node !in s.cfg.viaRequests && x.node != MainOut
    ensures RingOk(MetaEnqueue(s.(b := B.Give(s.b, x)), x))
  {
    var s' := MetaEnqueue(s.(b := B.Give(s.b, x)), x);
    assert s'.st == s.st && s'.cfg == s.cfg && (x.node == MetaOut0 || x.node == MetaOut1);
    hide Numbered, MetaEnqueue, B.Give, B.ListsOk;
    forall n | IsRing(s'.cfg, n) && n in s'.st.started && s'.st.dmas != {}
      ensures Numbered(s'.b, s'.b.lists[n], EnqMeta(s'.fr, n))
    {
      EnqueueOneRing(s, x, n);
    }
  }

  /** Registering a list numbers it consecutively, from the counter on. */
  lemma {:induction false} EnqueueEachNumbers(s: State, n: NodeId, xs: seq<Buf>, allocs: seq<Alloc>)
    requires |allocs| == |xs| && Distinct(xs) && s.st.dmas != {}
    requires n == MetaOut0 || n == MetaOut1
    requires forall x :: x in xs ==> x.node == n
    ensures var s' := EnqueueEach(s, xs, allocs);
            && (forall i :: 0 <= i < |xs| ==> B.SeqNo(s'.b, xs[i]) == EnqMeta(s.fr, n) + 1 + i)
            && EnqMeta(s'.fr, n) == EnqMeta(s.fr, n) + |xs|
            && (forall m :: (m == MetaOut0 || m == MetaOut1) && m != n ==> EnqMeta(s'.fr, m) == EnqMeta(s.fr, m))
            && (forall y :: y !in xs ==> B.SeqNo(s'.b, y) == B.SeqNo(s.b, y))
            && s'.b.lists == s.b.lists
    decreases |xs|
  {
    if xs != [] {
      assert xs == [xs[0]] + xs[1..];
      EnqueueEachNumbers(MetaEnqueue(s, xs[0]), n, xs[1..], allocs[1..]);
    }
  }

  /** After start_streaming of a ring node its list is numbered 1, 2, ... on top of
      the counter; no list changes, and the other ring keeps its numbers and counter. */
  lemma {:induction false} RegisterRing(s: State, n: NodeId, allocs: seq<Alloc>)
    requires RingOk(s) && B.ListsOk(s.b) && n !in s.st.started && IsRing(s.cfg, n)
    requires |allocs| == |s.b.lists[n]| && s.st.dmas != {} && !s.st.streaming
    ensures var s' := Register(s, n, allocs); RingOk(s'.(st := s'.st.(started := s'.st.started + {n})))
    ensures var s', l := Register(s, n, allocs), s.b.lists[n];
            && (forall i :: 0 <= i < |l| ==> B.SeqNo(s'.b, l[i]) == EnqMeta(s.fr, n) + 1 + i)
            && EnqMeta(s'.fr, n) == EnqMeta(s.fr, n) + |l|
            && s'.b.lists == s.b.lists
            && forall m :: (m == MetaOut0 || m == MetaOut1) && m != n ==>
                 && EnqMeta(s'.fr, m) == EnqMeta(s.fr, m)
                 && forall x :: x in s.b.lists[m] ==> B.SeqNo(s'.b, x) == B.SeqNo(s.b, x)
  {
    var l := s.b.lists[n];
    EnqueueEachNumbers(s, n, l, allocs);
    EachStream(s, l, allocs);
    var s' := Register(s, n, allocs);
    forall m | IsRing(s'.cfg, m) && m in s'.st.started + {n} && s'.st.dmas != {}
      ensures Numbered(s'.b, s'.b.lists[m], EnqMeta(s'.fr, m))
    {
      if m != n {
        assert Numbered(s.b, s.b.lists[m], EnqMeta(s.fr, m));
        assert forall y :: y in s.b.lists[m] ==> y !in l;
      }
    }
  }

  lemma {:induction false} EachStream(s: State, xs: seq<Buf>, allocs: seq<Alloc>)
    requires |allocs| == |xs| && !s.st.streaming
    ensures var s' := EnqueueEach(s, xs, allocs); s'.st == s.st && s'.cfg == s.cfg && s'.b.lists == s.b.lists
    decreases |xs|
  {
    if xs != [] { EachStream(EnqueueNoRequest(s, xs[0], allocs[0]), xs[1..], allocs[1..]); }
  }

  /** Registering the main stream does not touch the rings. */
  lemma {:induction false} EnqueueMainEachRings(s: State, xs: seq<Buf>, allocs: seq<Alloc>)
    requires |allocs| == |xs| && !s.st.streaming && forall x :: x in xs ==> x.node == MainOut
    ensures SameRings(s, EnqueueEach(s, xs, allocs))
    decreases |xs|
  {
    if xs != [] { EnqueueMainEachRings(EnqueueNoRequest(s, xs[0], allocs[0]), xs[1..], allocs[1..]); }
  }

  // ---- dequeue -----------------------------------------------------------

  lemma {:induction false} NumberedSuffix(b: Buffers, l: seq<Buf>, e: nat, k: nat)
    requires Numbered(b, l, e) && k <= |l|
    ensures Numbered(b, l[k..], e)
  {
  }

  lemma {:induction false} RingTakeParts(b: Buffers, n: NodeId, limit: nat, frame: nat, now: nat)
    ensures var b' := B.RingTake(b, n, limit, frame, now);
            && b'.seqNo == b.seqNo
            && b'.lists[n] == b.lists[n][B.PrefixLen(b, b.lists[n], limit)..]
            && forall m: NodeId :: m != n ==> b'.lists[m] == b.lists[m]
  {
  }

  lemma {:induction false} NumberedFrame(b: Buffers, b': Buffers, l: seq<Buf>, e: nat)
    requires Numbered(b, l, e) && b'.seqNo == b.seqNo
    ensures Numbered(b', l, e)
  {
  }

  lemma {:induction false} RingTakeRing(s: State, n: NodeId, limit: nat, frame: nat, now: nat, m: NodeId)
    requires RingOk(s) && IsRing(s.cfg, m) && m in s.st.started && s.st.dmas != {}
    ensures var b' := B.RingTake(s.b, n, limit, frame, now); Numbered(b', b'.lists[m], EnqMeta(s.fr, m))
  {
    hide B.RingTake, B.PrefixLen, Numbered;
    var b' := B.RingTake(s.b, n, limit, frame, now);
    RingTakeParts(s.b, n, limit, frame, now);
    if m == n {
      NumberedSuffix(s.b, s.b.lists[n], EnqMeta(s.fr, n), B.PrefixLen(s.b, s.b.lists[n], limit));
    }
    NumberedFrame(s.b, b', b'.lists[m], EnqMeta(s.fr, m));
  }

  lemma {:induction false} DequeueFrameRing(s: State, n: NodeId, frame: nat, seqNo: nat, fbc: nat, now: nat)
    requires RingOk(s)
    ensures RingOk(DequeueFrame(s, n, frame, seqNo, fbc, now))
  {
    hide B.RingTake, Numbered;
    if n in s.cfg.enabled && s.st.streaming {
      var s' := DequeueFrame(s, n, frame, seqNo, fbc, now);
      var limit := if fbc % 128 == 0 then EnqMeta(s.fr, n) else seqNo;
      forall m | IsRing(s'.cfg, m) && m in s'.st.started && s'.st.dmas != {}
        ensures Numbered(s'.b, s'.b.lists[m], EnqMeta(s'.fr, m))
      {
        RingTakeRing(s, n, limit, frame, now, m);
      }
    }
  }

  /** Completing a request leaves the rings alone: its buffers are on other nodes. */
  lemma {:induction false} JobDoneRings(c: Config, q: Queues, b: Buffers, started: set<NodeId>,
                     streaming: bool, r: ReqId, state: Vb2State, eof: nat)
    requires AllHeld(c, q, b, started) && Live(q, r) && state != QUEUED
    ensures var b' := B.JobDone(b, streaming, r, Q.At(q, r), state, eof);
            b'.seqNo == b.seqNo && forall n :: IsRing(c, n) ==> b'.lists[n] == b.lists[n]
  {
    var req := Q.At(q, r);
    assert ReqHeld(c, b, started, r, req);
    B.CompleteAllFrame(b, r, req, req.bufs, state, eof);
  }

  lemma {:induction false} RetireLoopRings(c: Config, q: Queues, b: Buffers, started: set<NodeId>,
                                           streaming: bool, f: nat, eof: nat)
    requires Held(c, q, b, started) && B.BufInv(b) && Q.MemOk(q)
    requires streaming ==> started == c.enabled && MainOut in started && NoneMissing(c, q, b, f)
    ensures var b' := RetireLoop(q, b, streaming, f, eof).1;
            b'.seqNo == b.seqNo && forall n :: IsRing(c, n) ==> b'.lists[n] == b.lists[n]
    decreases |q.running|
  {
    if q.running != [] {
      var r := q.running[0];
      var req := Q.At(q, r);
      if req.frameSeq == f {
        JobDoneRings(c, q, b, started, streaming, r, DONE, eof);
      } else if req.frameSeq < f {
        var o := if streaming then Dropped else Silent;
        JobDoneRings(c, q, b, started, streaming, r, ERROR, eof);
        RetireHeadHeld(c, q, b, started, streaming, ERROR, o, eof);
        Q.RetireHeadMem(q, o);
        RetireLoopRings(c, Q.RetireHead(q, o), B.JobDone(b, streaming, r, req, ERROR, eof),
                        started, streaming, f, eof);
      }
    }
  }

  // ---- steps -------------------------------------------------------------

  lemma {:induction false} DequeueReqRing(s: State, f: nat, eof: nat)
    requires Q.MemOk(s.q) && B.BufInv(s.b) && Held(s.cfg, s.q, s.b, s.st.started) && RingOk(s)
    requires s.st.streaming ==>
               s.st.started == s.cfg.enabled && MainOut in s.st.started && NoneMissing(s.cfg, s.q, s.b, f)
    ensures RingOk(TryQueue(DequeueReqFrame(s, f, eof)))
  {
    RetireLoopRings(s.cfg, s.q, s.b, s.st.started, s.st.streaming, f, eof);
    hide B.BufInv, Held, RingOk, RetireLoop, Q.Dispatch, Q.MemOk;
    RingFrame(s, TryQueue(DequeueReqFrame(s, f, eof)));
  }

  lemma {:induction false} EventRing(s: State, i: Irq)
    requires Core(s) && B.BufInv(s.b) && Held(s.cfg, s.q, s.b, s.st.started) && RingOk(s)
    requires Accounted(s, EvIrq(i))
    ensures RingOk(HandleEvent(s, i))
  {
    assert Q.MemOk(s.q) && (s.st.streaming ==> s.st.started == s.cfg.enabled && MainOut in s.st.started);
    hide B.BufInv, Held, RingOk, B.RingTake, Q.Dispatch, RetireLoop, DequeueFrame, Core, Q.MemOk;
    var s1 := if i.hwDone && i.aaoDone then DequeueFrame(s, MetaOut0, s.q.deq, s.fr.meta0, i.aaoFbc, i.now) else s;
    DequeueFrameHeld(s, MetaOut0, s.q.deq, s.fr.meta0, i.aaoFbc, i.now);
    DequeueFrameRing(s, MetaOut0, s.q.deq, s.fr.meta0, i.aaoFbc, i.now);
    var s2 := if i.afoDone then DequeueFrame(s1, MetaOut1, s1.q.deq, s1.fr.meta1, i.afoFbc, i.now) else s1;
    DequeueFrameHeld(s1, MetaOut1, s1.q.deq, s1.fr.meta1, i.afoFbc, i.now);
    DequeueFrameRing(s1, MetaOut1, s1.q.deq, s1.fr.meta1, i.afoFbc, i.now);
    if i.swDone {
      var s3 := DequeueFrame(s2, MetaOut0, s2.q.deq, s2.fr.meta0, i.aaoFbcSw, i.now);
      DequeueFrameHeld(s2, MetaOut0, s2.q.deq, s2.fr.meta0, i.aaoFbcSw, i.now);
      DequeueFrameRing(s2, MetaOut0, s2.q.deq, s2.fr.meta0, i.aaoFbcSw, i.now);
      if s.st.streaming { EventMissing(s, i); }
      hide DequeueReqFrame, TryQueue;
      DequeueReqRing(s3, s3.q.deq, i.now);
    }
  }

  lemma {:induction false} ReqQueueRing(s: State, r: ReqId, xs: seq<Buf>)
    requires RingOk(s) && Legal(s, EvReqQueue(r, xs))
    ensures RingOk(ReqQueue(s, r, xs))
  {
    var b1 := BindAll(s.b, xs, r);
    GiveStartedFrame(b1, s.st.started, xs);
    hide GiveStarted, Q.Dispatch;
    assert SameRings(s, ReqQueue(s, r, xs));
    RingFrame(s, ReqQueue(s, r, xs));
  }

  lemma {:induction false} BufQueueRing(s: State, x: Buf, alloc: Alloc)
    requires Core(s) && B.BufInv(s.b) && RingOk(s)
    requires Legal(s, EvBufQueue(x, alloc)) && Benign(s, EvBufQueue(x, alloc))
    ensures RingOk(BufQueue(s, x, alloc))
  {
    var s1 := s.(b := B.Give(s.b, x));
    if x.node in s.cfg.viaRequests || x.node !in s.st.started {
      assert SameRings(s, s1);
      RingFrame(s, s1);
    } else if x.node == MainOut {
      hide Q.Dispatch, Q.QInv, StreamOk, B.BufInv;
      assert SameRings(s, BufQueue(s, x, alloc));
      RingFrame(s, BufQueue(s, x, alloc));
    } else {
      EnqueueRing(s, x);
    }
  }

  lemma {:induction false} SofRing(s: State, i: Irq)
    requires RingOk(s)
    ensures RingOk(HandleSof(s, i))
  {
    hide StampSof, RingOk;
    RingFrame(s, HandleSof(s, i));
  }

  lemma {:induction false} IrqRing(s: State, i: Irq)
    requires Core(s) && B.BufInv(s.b) && Held(s.cfg, s.q, s.b, s.st.started) && RingOk(s)
    requires Accounted(s, EvIrq(i))
    ensures RingOk(HandleIrq(s, i))
  {
    hide HandleEvent, HandleSof, B.BufInv, Held, Core, RingOk;
    EventRing(s, i);
    if i.sof { SofRing(HandleEvent(s, i), i); }
  }

  lemma {:induction false} SameRingsAfterStop(s: State, n: NodeId)
    ensures SameRings(s, State(s.cfg, StoppedQueues(s.q, s.st), B.ReturnAll(s.b, n, ERROR), StoppedStream(s.st, n), s.fr))
  {
    hide StoppedQueues;
  }

  lemma {:induction false} StopRing(s: State, n: NodeId)
    requires Core(s) && RingOk(s)
    ensures RingOk(Stop(s, n))
  {
    hide Stop, StoppedQueues, RingOk, Core;
    StopIs(s, n);
    SameRingsAfterStop(s, n);
    RingFrame(s, Stop(s, n));
  }

  lemma {:induction false} StartingStill(s: State, n: NodeId)
    requires Starting(s.cfg, s.st, n)
    ensures !s.st.streaming && !s.st.seninfOn && !s.st.sensorOn
  {
  }

  lemma {:induction false} FinishStartRing(s: State, n: NodeId, o: CioOutcome)
    requires RingOk(s.(st := s.st.(started := s.st.started + {n}))) && n !in s.st.started
    requires Starting(s.cfg, s.st, n)
    ensures RingOk(FinishStart(s, n, o))
  {
    hide FinishStart, Q.Dispatch, RingOk, Starting;
    StartingStill(s, n);
    FinishIs(s, n, o);
    RingFrame(s.(st := s.st.(started := s.st.started + {n})), FinishStart(s, n, o));
  }

  lemma {:induction false} StartTailRing(s: State, n: NodeId, env: StartEnv)
    requires CfgOk(s.cfg) && B.BufInv(s.b) && RingOk(s) && Starting(s.cfg, s.st, n)
    requires n !in s.cfg.viaRequests ==> |env.allocs| == |s.b.lists[n]|
    ensures RingOk(StartTail(s, n, env))
  {
    var s1 := Register(s, n, env.allocs);
    if n in s.cfg.viaRequests {
      RingFrame2(s, s1, n);
    } else {
      EachStream(s, s.b.lists[n], env.allocs);
      if n == MainOut {
        EnqueueMainEachRings(s, s.b.lists[n], env.allocs);
        RingFrame(s, s1);
        RingFrame2(s1, s1, n);
      } else if s.st.dmas != {} {
        RegisterRing(s, n, env.allocs);
      }
    }
    hide Register, RingOk, Starting, B.BufInv;
    FinishStartRing(s1, n, env.cio);
  }

  /** Starting a node that is no ring adds nothing to be numbered. */
  lemma {:induction false} RingFrame2(s: State, s1: State, n: NodeId)
    requires RingOk(s) && s1 == s && !IsRing(s.cfg, n)
    ensures RingOk(s1.(st := s1.st.(started := s1.st.started + {n})))
  {
    forall m | IsRing(s.cfg, m) && m in s.st.started + {n} && s.st.dmas != {}
      ensures Numbered(s.b, s.b.lists[m], EnqMeta(s.fr, m))
    {
      assert m in s.st.started;
    }
  }

  lemma {:induction false} StartRing(s: State, n: NodeId, env: StartEnv)
    requires Core(s) && B.BufInv(s.b) && RingOk(s) && Legal(s, EvStart(n, env))
    ensures RingOk(Start(s, n, env))
  {
    if n in s.cfg.enabled && s.st.pipelineOn {
      LaterStart(s, n);
      hide Q.QInv, StartTail, B.BufInv, RingOk;
      StartTailRing(s, n, env);
    } else if n in s.cfg.enabled && env.pipelineOk && env.hwOk {
      FirstStart(s, n);
      var s1 := HwInit(InitStream(s.(st := s.st.(pipelineOn := true))));
      assert RingOk(s1);
      hide Q.QInv, StartTail, B.BufInv, RingOk, StreamOk;
      StartTailRing(s1, n, env);
    } else {
      hide Q.QInv, B.BufInv;
      assert s.st.started == {} || SameRings(s, Start(s, n, env));
      if s.st.started != {} { RingFrame(s, Start(s, n, env)); }
    }
  }
}
