/** The main stream used without requests: while it streams, its list and the requests the
    driver made are the same buffers, one for one. */
module CamMainStream {
  import opened CamTypes
  import opened CamPipeline
  import opened CamCore
  import opened CamOwnership
  import opened CamRequests
  import opened CamTheorems
  import opened CamLimits
  import opened CamRetries
  import opened CamEffects
  import opened CamInterrupts
  import CamRequeue
  import B = CamBuffers
  import Q = CamQueues

  /** A request of the driver that holds exactly x is listed. */
  ghost predicate Requested(q: Queues, x: Buf) {
    exists r :: HoldsOnly(q, r, x)
  }

  ghost predicate HoldsOnly(q: Queues, r: ReqId, x: Buf) {
    Live(q, r) && Q.At(q, r).synthetic && Q.At(q, r).bufs == [x]
  }

  ghost predicate AllRequested(q: Queues, l: seq<Buf>) {
    forall x :: x in l ==> Requested(q, x)
  }

  /** Until the first stop of a session nothing retires before the stream is on, and each
      buffer of the started main stream has its request. */
  ghost predicate Covered(s: State) {
    s.st.pipelineOn && s.st.dmas != {} ==>
      && (!s.st.streaming ==> s.q.running == [])
      && (MainOut !in s.cfg.viaRequests && MainOut in s.st.started ==> AllRequested(s.q, s.b.lists[MainOut]))
  }

  // ---- what keeps requests -----------------------------------------------

  /** The requests of q are still listed, with the same kinds and buffers. */
  ghost predicate KeepsListed(q: Queues, q': Queues) {
    forall r :: Live(q, r) ==>
      Live(q', r) && Q.At(q', r).synthetic == Q.At(q, r).synthetic && Q.At(q', r).bufs == Q.At(q, r).bufs
  }

  lemma {:induction false} KeepsRequested(q: Queues, q': Queues, l: seq<Buf>)
    requires AllRequested(q, l) && KeepsListed(q, q')
    ensures AllRequested(q', l)
  {
    forall x | x in l ensures Requested(q', x) {
      assert Requested(q, x);
      var r :| HoldsOnly(q, r, x);
      assert HoldsOnly(q', r, x);
    }
  }

  lemma {:induction false} DispatchKeepsListed(q: Queues)
    requires Q.MemOk(q)
    ensures KeepsListed(q, Q.Dispatch(q))
  {
    forall r | Live(q, r)
      ensures var q' := Q.Dispatch(q);
              Live(q', r) && Q.At(q', r).synthetic == Q.At(q, r).synthetic && Q.At(q', r).bufs == Q.At(q, r).bufs
    {
      DispatchLives(q, r);
    }
  }

  lemma {:induction false} SubmitKeepsListed(q: Queues, r: ReqId, req: Request)
    requires Q.MemOk(q) && !Live(q, r)
    ensures KeepsListed(q, Q.Submit(q, r, req)) && Q.MemOk(Q.Submit(q, r, req))
  {
    SubmitMem(q, r, req);
  }

  lemma {:induction false} KeepsTrans(q: Queues, q1: Queues, q2: Queues)
    requires KeepsListed(q, q1) && KeepsListed(q1, q2)
    ensures KeepsListed(q, q2)
  {
  }

  lemma {:induction false} KeepsRefl(q: Queues)
    ensures KeepsListed(q, q)
  {
  }

  lemma {:induction false} SubmitQueueKeeps(s: State, r: ReqId, req: Request)
    requires Q.MemOk(s.q) && !Live(s.q, r)
    ensures KeepsListed(s.q, TryQueue(s.(q := Q.Submit(s.q, r, req))).q)
  {
    hide KeepsListed, Q.MemOk, Q.Dispatch, Q.Submit, Live;
    var q1 := Q.Submit(s.q, r, req);
    SubmitKeepsListed(s.q, r, req);
    DispatchKeepsListed(q1);
    KeepsTrans(s.q, q1, Q.Dispatch(q1));
  }

  // ---- steps -------------------------------------------------------------

  lemma {:induction false} BufQueueCovered(s: State, x: Buf, alloc: Alloc)
    requires Core(s) && Covered(s) && Legal(s, EvBufQueue(x, alloc)) && Benign(s, EvBufQueue(x, alloc))
    ensures Covered(BufQueue(s, x, alloc))
  {
    hide Core, BufQueue, AllRequested, Legal, KeepsListed, Live;
    BufQueueListed(s, x, alloc);
    BufQueueSubmits(s, x, alloc);
    BufQueueStream(s, x, alloc);
    var s' := BufQueue(s, x, alloc);
    if MakesRequest(s, x, alloc) {
      BufQueueKeeps(s, x, alloc);
      if s.st.pipelineOn && s.st.dmas != {} {
        KeepsRequested(s.q, s'.q, s.b.lists[MainOut]);
        assert HoldsOnly(s'.q, alloc.id, x);
        OneMore(s'.q, s.b.lists[MainOut], x);
      }
    }
  }

  lemma {:induction false} OneMore(q: Queues, l: seq<Buf>, x: Buf)
    requires AllRequested(q, l) && Requested(q, x)
    ensures AllRequested(q, l + [x])
  {
  }

  lemma {:induction false} BufQueueStream(s: State, x: Buf, alloc: Alloc)
    requires Core(s)
    ensures var s' := BufQueue(s, x, alloc);
            s'.st == s.st && s'.cfg == s.cfg && (!s.st.streaming ==> s'.q.running == s.q.running)
  {
    hide Q.Dispatch, Core;
  }

  lemma {:induction false} BufQueueKeeps(s: State, x: Buf, alloc: Alloc)
    requires Core(s) && Legal(s, EvBufQueue(x, alloc)) && MakesRequest(s, x, alloc)
    ensures KeepsListed(s.q, BufQueue(s, x, alloc).q)
  {
    NotLive(s, alloc.id);
    CoreMem(s);
    hide KeepsListed, Core, TryQueue, Q.MemOk, Live;
    SubmitQueueKeeps(s.(b := B.Give(s.b, x)), alloc.id, SyntheticRequest(x));
  }

  lemma {:induction false} ReqQueueCovered(s: State, r: ReqId, xs: seq<Buf>)
    requires Core(s) && Covered(s) && Legal(s, EvReqQueue(r, xs))
    ensures Covered(ReqQueue(s, r, xs))
  {
    hide Core, AllRequested, KeepsListed, Live, ReqQueue, OfNode;
    ReqQueueSubmits(s, r, xs, MainOut);
    ReqQueueParts(s, r, xs);
    if MainOut !in s.cfg.viaRequests { NoneOfMain(xs, s.st.started, MainOut); }
    if s.st.pipelineOn && s.st.dmas != {} && MainOut !in s.cfg.viaRequests && MainOut in s.st.started {
      assert ReqQueue(s, r, xs).b.lists[MainOut] == s.b.lists[MainOut];
      KeepsRequested(s.q, ReqQueue(s, r, xs).q, s.b.lists[MainOut]);
    }
  }

  lemma {:induction false} NoneOfMain(xs: seq<Buf>, started: set<NodeId>, n: NodeId)
    requires forall x :: x in xs ==> x.node != n
    ensures OfNode(xs, started, n) == []
    decreases |xs|
  {
    if xs != [] { NoneOfMain(xs[1..], started, n); }
  }

  lemma {:induction false} ReqQueueParts(s: State, r: ReqId, xs: seq<Buf>)
    requires Core(s) && !Live(s.q, r)
    ensures var s' := ReqQueue(s, r, xs);
            && s'.st == s.st && s'.cfg == s.cfg && (!s.st.streaming ==> s'.q.running == s.q.running)
            && KeepsListed(s.q, s'.q)
  {
    CoreMem(s);
    hide KeepsListed, Core, Q.MemOk, Live, Q.Dispatch, GiveStarted, BindAll;
    SubmitQueueKeeps(s.(b := GiveStarted(BindAll(s.b, xs, r), s.st.started, xs)), r, Q.At(s.q, r).(synthetic := false, bufs := xs));
  }

  // ---- interrupts --------------------------------------------------------

  /** Retiring the head: the buffer of its request leaves the list with it. */
  lemma {:induction false} RetireHeadCovered(c: Config, q: Queues, b: Buffers, started: set<NodeId>,
                                             state: Vb2State, outcome: Outcome, eof: nat)
    requires Held(c, q, b, started) && B.BufInv(b) && Q.MemOk(q) && q.running != [] && state != QUEUED
    requires started == c.enabled && MainOut in started
    requires forall x :: x in Q.At(q, q.running[0]).bufs ==> !Missing(c, b, q.running[0], Q.At(q, q.running[0]), x)
    requires AllRequested(q, b.lists[MainOut])
    ensures AllRequested(Q.RetireHead(q, outcome), B.JobDone(b, true, q.running[0], Q.At(q, q.running[0]), state, eof).lists[MainOut])
  {
    var r := q.running[0];
    var req := Q.At(q, r);
    var q', b' := Q.RetireHead(q, outcome), B.JobDone(b, true, r, req, state, eof);
    HitsOwned(c, q, b, started, r);
    B.CompleteAllKeeps(b, r, req, req.bufs, state, eof);
    forall x | x in b'.lists[MainOut] ensures Requested(q', x) {
      assert x.node == MainOut && B.Owned(b', x);
      assert B.Owned(b, x) && x !in B.Hits(b, r, req, req.bufs);
      assert Requested(q, x);
      var r2 :| HoldsOnly(q, r2, x);
      assert r2 != r;
      StillLive(q, outcome, r2);
      assert HoldsOnly(q', r2, x);
    }
  }

  lemma {:induction false} StillLive(q: Queues, outcome: Outcome, r: ReqId)
    requires Q.MemOk(q) && q.running != [] && Live(q, r) && r != q.running[0]
    ensures Live(Q.RetireHead(q, outcome), r) && Q.At(Q.RetireHead(q, outcome), r) == Q.At(q, r)
  {
    assert q.running == [q.running[0]] + q.running[1..];
  }

  lemma {:induction false} RetireLoopCovered(c: Config, q: Queues, b: Buffers, started: set<NodeId>, f: nat, eof: nat)
    requires Held(c, q, b, started) && B.BufInv(b) && Q.MemOk(q)
    requires started == c.enabled && MainOut in started && NoneMissing(c, q, b, f)
    requires AllRequested(q, b.lists[MainOut])
    ensures var (q', b') := RetireLoop(q, b, true, f, eof); AllRequested(q', b'.lists[MainOut])
    decreases |q.running|
  {
    hide Held, B.BufInv, Q.MemOk, AllRequested, B.JobDone, Q.RetireHead;
    if q.running != [] {
      var r := q.running[0];
      var req := Q.At(q, r);
      assert forall x :: x in req.bufs && req.frameSeq <= f ==> !Missing(c, b, r, req, x);
      if req.frameSeq == f {
        RetireHeadCovered(c, q, b, started, DONE, Finished, eof);
      } else if req.frameSeq < f {
        RetireHeadCovered(c, q, b, started, ERROR, Dropped, eof);
        RetireHeadHeld(c, q, b, started, true, ERROR, Dropped, eof);
        Q.RetireHeadMem(q, Dropped);
        CamRequeue.HeadGone(q, Dropped);
        hide NoneMissing;
        RetireLoopCovered(c, Q.RetireHead(q, Dropped), B.JobDone(b, true, r, req, ERROR, eof), started, f, eof);
      }
    }
  }

  lemma {:induction false} BetweenMain(s: State, i: Irq)
    requires Own(s)
    ensures Between(s, i).b.lists[MainOut] == s.b.lists[MainOut]
  {
    hide DequeueFrame, Own, B.ListsOk, Between;
    CamRequeue.OwnParts(s);
    BetweenIs(s, i);
    var s1, s2 := AfterAao(s, i), AfterAfo(s, i);
    RingOther(s, MetaOut0, s.q.deq, s.fr.meta0, i.aaoFbc, i.now);
    RingOther(s1, MetaOut1, s1.q.deq, s1.fr.meta1, i.afoFbc, i.now);
    RingOther(s2, MetaOut0, s2.q.deq, s2.fr.meta0, i.aaoFbcSw, i.now);
  }

  /** A start of frame keeps what is listed. */
  lemma {:induction false} SofKeepsListed(s: State, i: Irq)
    requires Q.MemOk(s.q)
    ensures KeepsListed(s.q, HandleSof(s, i).q) && HandleSof(s, i).q.running == s.q.running && HandleSof(s, i).b == s.b
  {
  }

  lemma {:induction false} EventCovered(s: State, i: Irq)
    requires Own(s) && s.st.streaming && Accounted(s, EvIrq(i)) && AllRequested(s.q, s.b.lists[MainOut])
    ensures AllRequested(HandleEvent(s, i).q, HandleEvent(s, i).b.lists[MainOut])
  {
    hide Core, B.BufInv, Held, RequestsOk, CamRing.RingOk, CamTime.TimeOk, AllRequested, HandleEvent, Between, AfterRings, Q.MemOk,
      RetireLoop, NoneMissing, Q.Dispatch, KeepsListed;
    BetweenMain(s, i);
    if i.swDone {
      BetweenOwned(s, i);
      EventAfter(s, i);
      var s3 := Between(s, i);
      RetireLoopCovered(s3.cfg, s3.q, s3.b, s3.st.started, s3.q.deq, i.now);
      RetireLoopMem(s, i);
      var (q4, b4) := RetireLoop(s3.q, s3.b, true, s3.q.deq, i.now);
      DispatchKeepsListed(q4);
      KeepsRequested(q4, Q.Dispatch(q4), b4.lists[MainOut]);
    } else {
      QuietEvent(s, i);
    }
  }

  lemma {:induction false} EventAfter(s: State, i: Irq)
    requires i.swDone && s.st.streaming
    ensures var s3 := Between(s, i);
            var (q4, b4) := RetireLoop(s3.q, s3.b, true, s3.q.deq, i.now);
            HandleEvent(s, i).q == Q.Dispatch(q4) && HandleEvent(s, i).b == b4
  {
    CamRequeue.BetweenSame(s, i);
    EventIs(s, i);
    hide HandleEvent, AfterRings, RetireLoop, Q.Dispatch;
  }

  lemma {:induction false} QuietEvent(s: State, i: Irq)
    requires !i.swDone
    ensures HandleEvent(s, i).q == s.q && HandleEvent(s, i).b == Between(s, i).b
  {
    hide DequeueFrame, RetireLoop, Q.Dispatch;
    assert forall t: State, n, f, q, c, w :: DequeueFrame(t, n, f, q, c, w).q == t.q by { DequeueQueues(); }
  }

  lemma {:induction false} DequeueQueues()
    ensures forall t: State, n, f, q, c, w :: DequeueFrame(t, n, f, q, c, w).q == t.q
  {
    hide B.RingTake;
  }

  lemma {:induction false} RetireLoopMem(s: State, i: Irq)
    requires Own(s) && i.swDone && s.st.streaming
    ensures var s3 := Between(s, i); Q.MemOk(RetireLoop(s3.q, s3.b, true, s3.q.deq, i.now).0)
  {
    hide B.BufInv, Held, RequestsOk, CamRing.RingOk, CamTime.TimeOk, Between, RetireLoop, StreamOk, Q.QInv;
    CamRequeue.BetweenSame(s, i);
    var s3 := Between(s, i);
    RetireLoopCore(s3.q, s3.b, true, s3.q.deq, i.now, s.st.pipelineOn);
    QueuesMem(RetireLoop(s3.q, s3.b, true, s3.q.deq, i.now).0, s.st.pipelineOn);
  }

  /** While the stream is off and nothing runs, an interrupt moves no request. */
  lemma {:induction false} OffCovered(s: State, i: Irq)
    requires !s.st.streaming && s.q.running == []
    ensures var s' := HandleEvent(s, i); s'.q == s.q && s'.b == s.b
  {
    hide Q.Dispatch;
  }

  lemma {:induction false} IrqCovered(s: State, i: Irq)
    requires Own(s) && Covered(s) && Benign(s, EvIrq(i))
    ensures Covered(HandleIrq(s, i))
  {
    hide Own, HandleEvent, HandleSof, AllRequested, KeepsListed, Accounted, Q.MemOk;
    IrqStream(s, i);
    IrqConfig(s, i);
    OwnCore(s);
    EventCore(s, i);
    CoreMem(HandleEvent(s, i));
    SofKeepsListed(HandleEvent(s, i), i);
    if s.st.pipelineOn && s.st.dmas != {} {
      if s.st.streaming {
        if MainOut !in s.cfg.viaRequests && MainOut in s.st.started { EventCovered(s, i); }
      } else {
        OffCovered(s, i);
      }
      if MainOut !in s.cfg.viaRequests && MainOut in s.st.started {
        var s1 := HandleEvent(s, i);
        KeepsRequested(s1.q, HandleSof(s1, i).q, s1.b.lists[MainOut]);
      }
    }
  }

  lemma {:induction false} OwnCore(s: State)
    requires Own(s)
    ensures Core(s) && B.BufInv(s.b)
  {
  }

  // ---- start and stop ----------------------------------------------------

  lemma {:induction false} ByListsKeeps(q: Queues, q': Queues)
    requires q'.heap == q.heap && q'.pending == q.pending && q'.running == q.running
    ensures KeepsListed(q, q')
  {
  }

  /** Registering a node other than the main stream makes no request. */
  lemma {:induction false} OtherMakesNone(s: State, xs: seq<Buf>, allocs: seq<Alloc>)
    requires |allocs| == |xs| && forall x :: x in xs ==> x.node != MainOut
    ensures EnqueueEach(s, xs, allocs).q == s.q
    decreases |xs|
  {
    if xs != [] { OtherMakesNone(EnqueueNoRequest(s, xs[0], allocs[0]), xs[1..], allocs[1..]); }
  }

  lemma {:induction false} RegisterOther(s: State, n: NodeId, allocs: seq<Alloc>)
    requires B.ListsOk(s.b) && n != MainOut && (n !in s.cfg.viaRequests ==> |allocs| == |s.b.lists[n]|)
    ensures Register(s, n, allocs).q == s.q
  {
    if n !in s.cfg.viaRequests { OtherMakesNone(s, s.b.lists[n], allocs); }
  }

  /** What a start that registers does to the parts that matter here. */
  lemma {:induction false} StartParts(s: State, n: NodeId, env: StartEnv)
    requires Core(s) && n !in s.st.started && Registers(s, n, env)
    requires n !in s.cfg.viaRequests ==> |env.allocs| == |s.b.lists[n]|
    ensures var s', s1 := Start(s, n, env), Register(Base(s), n, env.allocs);
            && (s'.q == s1.q || (s'.q == Q.Dispatch(s1.q) && s'.st.streaming))
            && s'.cfg == s.cfg && (s'.st.pipelineOn ==> s'.st.dmas == Base(s).st.dmas)
  {
    hide Core, FinishStart, Register, B.ReturnAll, Base, Start, Q.Dispatch;
    BaseOff(s, n);
    SameBase(s);
    RegisterSame(Base(s), n, env.allocs);
    StartIsTail(s, n, env);
    FinishIs(Register(Base(s), n, env.allocs), n, env.cio);
  }

  lemma {:induction false} BaseRunning(s: State, n: NodeId)
    requires Core(s) && Covered(s) && n in s.cfg.enabled && n !in s.st.started
    ensures Base(s).st.dmas != {} ==> Base(s).q.running == []
    ensures s.st.pipelineOn ==> Base(s) == s
    ensures !s.st.pipelineOn ==> s.st.started == {}
  {
    EnabledOff(s, n);
    BaseQueues(s, n);
  }

  lemma {:induction false} RegisterRunning(s: State, n: NodeId, env: StartEnv)
    requires Core(s) && Legal(s, EvStart(n, env)) && n in s.cfg.enabled
    ensures var s1 := Register(Base(s), n, env.allocs); s1.q.running == Base(s).q.running && Q.MemOk(s1.q)
  {
    BaseQueues(s, n);
    SameBase(s);
    hide Base, Core, HandedOver, FreshAllocs, EnqueueEach, Q.QInv;
    if n !in s.cfg.viaRequests { EnqueueEachQueues(Base(s), s.b.lists[n], env.allocs, true); }
    QueuesMem(Register(Base(s), n, env.allocs).q, true);
  }

  /** The main stream starts: every buffer on its list was given a request. */
  lemma {:induction false} MainStarts(s: State, env: StartEnv)
    requires Core(s) && B.BufInv(s.b) && Legal(s, EvStart(MainOut, env)) && MainOut !in s.cfg.viaRequests
    requires Registers(s, MainOut, env) && AllAllocated(env.allocs) && MainOut in Start(s, MainOut, env).st.started
    ensures AllRequested(Start(s, MainOut, env).q, Start(s, MainOut, env).b.lists[MainOut])
  {
    hide Core, B.Conserved, Start, HandedOver, FreshAllocs;
    assert GoodStart(s, env);
    GoodBuffers(s, env);
    var l, q' := s.b.lists[MainOut], Start(s, MainOut, env).q;
    forall x | x in l ensures Requested(q', x) {
      var i :| 0 <= i < |l| && l[i] == x;
      NewListed(s, env, i);
      assert HoldsOnly(q', env.allocs[i].id, x);
    }
  }

  /** Another node starts: the main stream's list and requests stay. */
  lemma {:induction false} OtherStarts(s: State, n: NodeId, env: StartEnv)
    requires Core(s) && B.BufInv(s.b) && Legal(s, EvStart(n, env)) && n != MainOut && Registers(s, n, env) && s.st.pipelineOn
    requires AllRequested(s.q, s.b.lists[MainOut])
    ensures AllRequested(Start(s, n, env).q, Start(s, n, env).b.lists[MainOut])
  {
    hide Core, B.Conserved, Start, HandedOver, FreshAllocs, AllRequested, KeepsListed, Register, Q.Dispatch, Q.MemOk, B.Returned,
      StartsLast;
    RegisteredReturns(s, n, env);
    StartParts(s, n, env);
    RegisterRunning(s, n, env);
    RegisterOther(s, n, env.allocs);
    DispatchKeepsListed(s.q);
    KeepsRefl(s.q);
    KeepsRequested(s.q, Start(s, n, env).q, s.b.lists[MainOut]);
  }

  lemma {:induction false} StartCovered(s: State, n: NodeId, env: StartEnv)
    requires Core(s) && B.BufInv(s.b) && Covered(s) && Legal(s, EvStart(n, env)) && Benign(s, EvStart(n, env))
    ensures Covered(Start(s, n, env))
  {
    hide Core, B.BufInv, Start, HandedOver, FreshAllocs, AllRequested, Register, Base, Q.Dispatch, Q.MemOk, StartsLast, NoLeftover;
    StartSucceeds(s, n, env);
    if Registers(s, n, env) {
      StartParts(s, n, env);
      BaseRunning(s, n);
      RegisterRunning(s, n, env);
      var s' := Start(s, n, env);
      if MainOut !in s.cfg.viaRequests && MainOut in s'.st.started {
        if n == MainOut {
          MainStarts(s, env);
        } else if s'.st.pipelineOn && s'.st.dmas != {} {
          OtherStarts(s, n, env);
        }
      }
    } else {
      NoStartCovered(s, n, env);
    }
  }

  /** A start that does not get as far as registering. */
  lemma {:induction false} NoStartCovered(s: State, n: NodeId, env: StartEnv)
    requires Core(s) && Covered(s) && !Registers(s, n, env) && (n !in s.cfg.viaRequests ==> |env.allocs| == |s.b.lists[n]|)
    requires n !in s.st.started
    ensures Covered(Start(s, n, env))
  {
    NoStartParts(s, n, env);
    hide Start, AllRequested, Core, KeepsListed;
    CamRequeue.NotRegistered(s, n, env);
    B.ReturnAllWhole(s.b, n, QUEUED);
    hide B.ReturnAll;
  }

  lemma {:induction false} NoStartParts(s: State, n: NodeId, env: StartEnv)
    requires Core(s) && !Registers(s, n, env) && (n !in s.cfg.viaRequests ==> |env.allocs| == |s.b.lists[n]|)
    ensures var s' := Start(s, n, env);
            && s'.cfg == s.cfg
            && (s'.st.pipelineOn ==> s.st.pipelineOn && s'.st == s.st && s'.q == s.q && n != MainOut)
  {
    hide StartTail, B.ReturnAll, Q.QInv, StreamOk;
  }

  lemma {:induction false} StopCovered(s: State, n: NodeId)
    requires Core(s) && Covered(s) && Legal(s, EvStop(n))
    ensures Covered(Stop(s, n))
  {
    hide Core, Stop, AllRequested, B.ReturnAll, B.Returned, Q.Drain, Q.Cleanup;
    StopReady(s, n);
    StopIs(s, n);
    B.ReturnAllWhole(s.b, n, ERROR);
  }

  lemma {:induction false} CancelCovered(s: State, n: NodeId)
    requires Covered(s)
    ensures Covered(CancelQueue(s, n))
  {
    hide AllRequested;
  }

  lemma {:induction false} WorkerCovered(s: State)
    requires Covered(s)
    ensures Covered(Worker(s))
  {
    hide AllRequested, KeepsListed;
    ByListsKeeps(s.q, Worker(s).q);
    if AllRequested(s.q, s.b.lists[MainOut]) { KeepsRequested(s.q, Worker(s).q, s.b.lists[MainOut]); }
  }

  lemma {:induction false} ComposerCovered(s: State, m: ScpMsg)
    requires Covered(s)
    ensures Covered(ComposerAck(s, m))
  {
    hide AllRequested, KeepsListed;
    ByListsKeeps(s.q, ComposerAck(s, m).q);
    if AllRequested(s.q, s.b.lists[MainOut]) { KeepsRequested(s.q, ComposerAck(s, m).q, s.b.lists[MainOut]); }
  }

  // ---- runs --------------------------------------------------------------

  lemma {:induction false} StepCovered(s: State, e: Event)
    requires Own(s) && Covered(s) && Legal(s, e) && Benign(s, e)
    ensures Covered(Step(s, e))
  {
    OwnCore(s);
    hide Own, Core, B.BufInv, Covered, Legal, Benign, Start, Stop, BufQueue, ReqQueue, HandleIrq, Worker, ComposerAck, CancelQueue;
    match e
    case EvReqQueue(r, xs) => ReqQueueCovered(s, r, xs);
    case EvBufQueue(x, alloc) => BufQueueCovered(s, x, alloc);
    case EvWorker => WorkerCovered(s);
    case EvComposer(m) => ComposerCovered(s, m);
    case EvIrq(i) => IrqCovered(s, i);
    case EvStart(n, env) => StartCovered(s, n, env);
    case EvStop(n) => StopCovered(s, n);
    case EvCancel(n) => CancelCovered(s, n);
  }

  lemma {:induction false} RunCovered(s: State, run: seq<Event>)
    requires RunOk(s, run) && BenignRun(s, run) && Own(s) && Covered(s)
    ensures Covered(Exec(s, run))
    decreases |run|
  {
    if run != [] {
      hide Own, Covered, Legal, Step, Benign;
      StepOwn(s, run[0]);
      StepCovered(s, run[0]);
      RunCovered(Step(s, run[0]), run[1..]);
    }
  }

  /** In every benign run, while the main stream streams without requests: a buffer is on its
      list if and only if a listed request of the driver holds it, and then exactly one does,
      and holds nothing else. */
  lemma {:induction false} MainListIsRequested(c: Config, run: seq<Event>, x: Buf)
    requires CfgOk(c) && MainOut !in c.viaRequests && x.node == MainOut
    requires RunOk(Initial(c), run) && BenignRun(Initial(c), run) && Exec(Initial(c), run).st.streaming
    ensures var s := Exec(Initial(c), run);
            && (x in s.b.lists[MainOut] <==> Requested(s.q, x))
            && forall r1, r2 :: HoldsOnly(s.q, r1, x) && HoldsOnly(s.q, r2, x) ==> r1 == r2
  {
    hide Own, Covered, Exec, RunOk, BenignRun;
    InitialOwn(c);
    InitialCovered(c);
    RunOwn(Initial(c), run);
    RunCovered(Initial(c), run);
    ExecConfig(Initial(c), run);
    MainExact(Exec(Initial(c), run), x);
  }

  lemma {:induction false} InitialCovered(c: Config)
    ensures Covered(Initial(c))
  {
  }

  lemma {:induction false} MainExact(s: State, x: Buf)
    requires Own(s) && Covered(s) && s.st.streaming && MainOut !in s.cfg.viaRequests && x.node == MainOut
    ensures x in s.b.lists[MainOut] <==> Requested(s.q, x)
    ensures forall r1, r2 :: HoldsOnly(s.q, r1, x) && HoldsOnly(s.q, r2, x) ==> r1 == r2
  {
    hide Q.QInv, B.BufInv, RequestsOk, CamRing.RingOk, CamTime.TimeOk;
    forall r | HoldsOnly(s.q, r, x) ensures x in s.b.lists[MainOut] {
      assert ReqHeld(s.cfg, s.b, s.st.started, r, Q.At(s.q, r));
    }
  }
}
