/** When a request has all its buffers back and is still on a job list, and what queueing it
    again does then. */
module CamRequeue {
  import opened CamTypes
  import opened CamPipeline
  import opened CamCore
  import opened CamOwnership
  import opened CamRequests
  import opened CamTheorems
  import opened CamFailures
  import opened CamRetries
  import opened CamLimits
  import B = CamBuffers
  import Q = CamQueues

  // ---- queueing a request that is still listed ---------------------------

  function Listed(q: Queues): multiset<ReqId> {
    multiset(q.running) + multiset(q.pending)
  }

  lemma {:induction false} DispatchListed(q: Queues)
    ensures Listed(Q.Dispatch(q)) == Listed(q)
    decreases |q.pending|
  {
    if q.pending != [] && q.jobCount < MAX_RUNNING_JOBS {
      var q1 := Q.DispatchOne(q);
      assert q.pending == [q.pending[0]] + q.pending[1..];
      assert Listed(q1) == Listed(q);
      DispatchListed(q1);
    }
  }

  lemma {:induction false} CountOnce<T>(s: seq<T>, x: T)
    requires Distinct(s)
    ensures multiset(s)[x] == if x in s then 1 else 0
  {
    if s != [] {
      assert s == [s[0]] + s[1..];
      CountOnce(s[1..], x);
    }
  }

  lemma {:induction false} ListedOnce(q: Queues, r: ReqId)
    requires Q.MemOk(q)
    ensures Listed(q)[r] <= 1
  {
    CountOnce(q.running, r);
    CountOnce(q.pending, r);
  }

  /** A user request may be queued if and only if it is on neither job list: otherwise the
      lists hold it twice and the scheduler's invariant is gone. */
  lemma {:induction false} RequeueExact(s: State, r: ReqId, xs: seq<Buf>)
    requires Core(s) && Contract(s, EvReqQueue(r, xs))
    ensures Core(ReqQueue(s, r, xs)) <==> Unlisted(s, EvReqQueue(r, xs))
  {
    hide ReqQueue, Q.FramesOk, Q.SentOk, Q.HistOk, Q.CountOk, Q.MemOk, StreamOk, CfgOk;
    if Live(s.q, r) {
      ListedTwice(s, r, xs);
      if Core(ReqQueue(s, r, xs)) { ListedOnce(ReqQueue(s, r, xs).q, r); }
    } else {
      ReqQueueCore(s, r, xs);
    }
  }

  lemma {:induction false} ListedTwice(s: State, r: ReqId, xs: seq<Buf>)
    requires Live(s.q, r)
    ensures Listed(ReqQueue(s, r, xs).q)[r] >= 2
  {
    hide Q.Dispatch, GiveStarted, BindAll;
    var q1 := Q.Submit(s.q, r, Q.At(s.q, r).(synthetic := false, bufs := xs));
    assert r in s.q.running || r in s.q.pending;
    assert Listed(q1) == Listed(s.q) + multiset{r};
    DispatchListed(q1);
  }

  /** Unbinding the buffers of l completes r exactly when all of its buffers are in l. */
  lemma {:induction false} UnboundIdle(b: Buffers, b': Buffers, r: ReqId, l: seq<Buf>)
    requires b'.bound == b.bound - (set x | x in l)
    ensures Idle(b', r) <==> forall x :: Bound(b, r, x) ==> x in l
  {
    assert forall x :: Bound(b', r, x) <==> Bound(b, r, x) && x !in l;
    assert Idle(b', r) <==> forall x :: !Bound(b', r, x);
  }

  /** Stopping a node completes a request that stays listed exactly when another node is
      still started and every buffer bound to the request is on the list of this node. */
  lemma {:induction false} StopCompletesListed(s: State, n: NodeId, r: ReqId)
    requires Core(s) && n in s.st.started && Live(s.q, r)
    ensures var s' := Stop(s, n);
            Live(s'.q, r) && Idle(s'.b, r)
            <==> s.st.started != {n} && forall x :: Bound(s.b, r, x) ==> x in s.b.lists[n]
  {
    StopLists(s, n, r);
    hide Core, Live, Stop;
    UnboundIdle(s.b, B.ReturnAll(s.b, n, ERROR), r, s.b.lists[n]);
  }

  lemma {:induction false} StopLists(s: State, n: NodeId, r: ReqId)
    requires Core(s) && n in s.st.started && Live(s.q, r)
    ensures var s' := Stop(s, n);
            s'.b == B.ReturnAll(s.b, n, ERROR) && (Live(s'.q, r) <==> s.st.started != {n})
  {
    hide Core, Stop, StoppedQueues, B.ReturnAll, Q.QInv;
    StopReady(s, n);
    FullCount({n}, s.st.started);
    StoppedKeeps(s.q, s.st, true);
    StopIs(s, n);
  }

  /** dequeue_frame on a meta ring does the same to a request exactly when the buffers
      bound to it are all among those it takes. */
  lemma {:induction false} RingCompletesListed(s: State, n: NodeId, frame: nat, seqNo: nat, fbc: nat, now: nat, r: ReqId)
    requires n in s.cfg.enabled && s.st.streaming
    ensures var limit := if fbc % 128 == 0 then EnqMeta(s.fr, n) else seqNo;
            var k := B.PrefixLen(s.b, s.b.lists[n], limit);
            Idle(DequeueFrame(s, n, frame, seqNo, fbc, now).b, r)
            <==> forall x :: Bound(s.b, r, x) ==> x in s.b.lists[n][..k]
  {
    var limit := if fbc % 128 == 0 then EnqMeta(s.fr, n) else seqNo;
    var k := B.PrefixLen(s.b, s.b.lists[n], limit);
    hide B.PrefixLen, B.Dequeued;
    var b' := B.RingTake(s.b, n, limit, frame, now);
    UnboundIdle(s.b, b', r, s.b.lists[n][..k]);
  }

  /** vb2's cancel of a queue completes a request that stays listed exactly when all buffers
      bound to it are of that queue. No driver code runs in between. */
  lemma {:induction false} CancelCompletesListed(s: State, n: NodeId, r: ReqId)
    requires Live(s.q, r)
    ensures var s' := CancelQueue(s, n);
            Live(s'.q, r) && (Idle(s'.b, r) <==> forall x :: Bound(s.b, r, x) ==> x.node == n)
  {
    var b' := B.Cancel(s.b, n);
    assert forall x :: Bound(b', r, x) <==> Bound(s.b, r, x) && x.node != n;
    assert Idle(b', r) <==> forall x :: !Bound(b', r, x);
  }

  /** Nothing else completes a buffer of a request: only a stop, a cancel and an interrupt
      unbind. */
  lemma {:induction false} OthersKeepBound(s: State, e: Event, x: Buf)
    requires Own(s) && Legal(s, e) && Benign(s, e) && !e.EvStop? && !e.EvIrq? && !e.EvCancel? && x in s.b.bound
    ensures var b := Step(s, e).b; x in b.bound && b.bound[x] == s.b.bound[x]
  {
    hide Own, Benign, HandedOver, FreshAllocs, Start, BufQueue, Worker, ReqQueue;
    if e.EvReqQueue? {
      GivenKeepsBound(s, e.r, e.bufs, x);
    } else {
      BindingsStay(s, e);
    }
  }

  lemma {:induction false} GivenKeepsBound(s: State, r: ReqId, xs: seq<Buf>, x: Buf)
    requires Contract(s, EvReqQueue(r, xs)) && x in s.b.bound
    ensures var b := ReqQueue(s, r, xs).b; x in b.bound && b.bound[x] == s.b.bound[x]
  {
    GiveStartedFrame(BindAll(s.b, xs, r), s.st.started, xs);
    hide GiveStarted, Q.Dispatch;
  }

  lemma {:induction false} StartKeepsBound(s: State, n: NodeId, env: StartEnv)
    requires Core(s) && B.BufInv(s.b) && Legal(s, EvStart(n, env)) && Accounted(s, EvStart(n, env))
    ensures Start(s, n, env).b.bound == s.b.bound
  {
    if Registers(s, n, env) {
      BaseQueues(s, n);
      SameBase(s);
      StartIsTail(s, n, env);
      hide Start, Base, Core, Register, FinishStart, B.Conserved, HandedOver, FreshAllocs, B.Returned;
      RegisterKeepsBound(Base(s), n, env.allocs);
      FinishBuffers(Register(Base(s), n, env.allocs), n, env.cio);
    } else {
      NotRegistered(s, n, env);
    }
  }

  lemma {:induction false} NotRegistered(s: State, n: NodeId, env: StartEnv)
    requires !Registers(s, n, env) && (n !in s.cfg.viaRequests ==> |env.allocs| == |s.b.lists[n]|)
    ensures Start(s, n, env).b == B.ReturnAll(s.b, n, QUEUED)
  {
    hide StartTail, B.ReturnAll;
  }

  lemma {:induction false} RegisterKeepsBound(s: State, n: NodeId, allocs: seq<Alloc>)
    requires B.ListsOk(s.b) && !s.st.streaming && (n !in s.cfg.viaRequests ==> |allocs| == |s.b.lists[n]|)
    requires Allocates(s, n) ==> AllAllocated(allocs)
    ensures Register(s, n, allocs).b.bound == s.b.bound
  {
    if n !in s.cfg.viaRequests {
      var l := s.b.lists[n];
      assert forall i :: 0 <= i < |l| ==> l[i] in l;
      EachKeeps(s, l, allocs);
    }
  }

  /** So in every run a listed request that has come back had its buffers on nodes that
      have stopped since the pipeline came up, on nodes whose queue was cancelled since the
      last cleanup, or on the meta rings. */
  lemma {:induction false} CompletedAndListed(c: Config, run: seq<Event>, r: ReqId, x: Buf)
    requires CfgOk(c) && RunOk(Initial(c), run) && BenignRun(Initial(c), run)
    ensures var s := Exec(Initial(c), run);
            Live(s.q, r) && !Q.At(s.q, r).synthetic && Idle(s.b, r) && x in Q.At(s.q, r).bufs ==>
              x.node in s.st.stopped || x.node in s.st.cancelled || RingNode(x.node)
  {
    InitialOwn(c);
    RunOwn(Initial(c), run);
    var s := Exec(Initial(c), run);
    hide Exec, RunOk, BenignRun, Core, Held, B.BufInv;
    if Live(s.q, r) && !Q.At(s.q, r).synthetic && Idle(s.b, r) && x in Q.At(s.q, r).bufs {
      assert BoundOrGone(s.b, Emptied(s.st), r, x);
    }
  }

  // ---- an interrupt ------------------------------------------------------

  /** A buffer that dequeue_frame returns in this interrupt, ahead of its request. */
  predicate ReturnsEarly(s: State, i: Irq, x: Buf) {
    s.st.streaming && x.node in s.cfg.enabled && RingNode(x.node) && Dequeues(i, x.node) && B.Owned(s.b, x)
  }

  /** From s0 to s the nodes in t were dequeued: of the bound buffers those that were on the
      lists of these nodes have gone, and nothing else has. */
  ghost predicate Rung(s0: State, s: State, t: set<NodeId>) {
    && s == s0.(b := s.b) && B.ListsOk(s.b) && SeqOk(s.cfg, s.b)
    && forall r, x ::
         && (Bound(s.b, r, x) <==> Bound(s0.b, r, x) && !(x.node in t && Taken(s0, x)))
         && (Bound(s.b, r, x) ==> (B.Owned(s.b, x) <==> B.Owned(s0.b, x)))
  }

  predicate Taken(s: State, x: Buf) {
    s.st.streaming && x.node in s.cfg.enabled && B.Owned(s.b, x)
  }

  /** dequeue_frame unbinds the listed buffers of its node, whatever the limit. */
  lemma {:induction false} TakeUnbinds(s: State, n: NodeId, frame: nat, seqNo: nat, fbc: nat, now: nat, r: ReqId, x: Buf)
    requires B.ListsOk(s.b) && SeqOk(s.cfg, s.b)
    ensures var s' := DequeueFrame(s, n, frame, seqNo, fbc, now);
            && (Bound(s'.b, r, x) <==> Bound(s.b, r, x) && !(x.node == n && Taken(s, x)))
            && (Bound(s'.b, r, x) ==> (B.Owned(s'.b, x) <==> B.Owned(s.b, x)))
  {
    hide B.RingTake, B.ListsOk, SeqOk;
    if n in s.cfg.enabled && s.st.streaming {
      RingUnbinds(s.b, s.cfg, n, if fbc % 128 == 0 then EnqMeta(s.fr, n) else seqNo, frame, now, r, x);
    }
  }

  lemma {:induction false} RingUnbinds(b: Buffers, c: Config, n: NodeId, limit: nat, frame: nat, now: nat, r: ReqId, x: Buf)
    requires B.ListsOk(b) && SeqOk(c, b)
    ensures var b' := B.RingTake(b, n, limit, frame, now);
            && (Bound(b', r, x) <==> Bound(b, r, x) && !(x.node == n && B.Owned(b, x)))
            && (Bound(b', r, x) ==> (B.Owned(b', x) <==> B.Owned(b, x)))
  {
    var taken := b.lists[n][..B.PrefixLen(b, b.lists[n], limit)];
    B.RingTakeLists(b, n, limit, frame, now);
    TakenOf(b, c, n, limit, x);
    hide B.PrefixLen, B.Dequeued, B.ListsOk, SeqOk;
    assert B.RingTake(b, n, limit, frame, now).bound == b.bound - (set y | y in taken);
  }

  /** Of the bound buffers a take removes those on the node's list. */
  lemma {:induction false} TakenOf(b: Buffers, c: Config, n: NodeId, limit: nat, x: Buf)
    requires B.ListsOk(b) && SeqOk(c, b)
    ensures x in b.bound ==>
              (x in b.lists[n][..B.PrefixLen(b, b.lists[n], limit)] <==> x.node == n && B.Owned(b, x))
  {
    var l := b.lists[n];
    var k := B.PrefixLen(b, l, limit);
    if n in c.viaRequests { WholeList(b, c, n, limit); }
    hide B.PrefixLen;
    assert forall y :: y in l[..k] ==> y in l;
    assert k == |l| ==> l[..k] == l;
  }

  lemma {:induction false} WholeList(b: Buffers, c: Config, n: NodeId, limit: nat)
    requires B.ListsOk(b) && SeqOk(c, b) && n in c.viaRequests
    ensures B.PrefixLen(b, b.lists[n], limit) == |b.lists[n]|
  {
    var l := b.lists[n];
    forall i | 0 <= i < |l| ensures B.SeqNo(b, l[i]) == 0 { assert l[i] in l; }
  }

  lemma {:induction false} RungStep(s0: State, s: State, t: set<NodeId>, n: NodeId, frame: nat, seqNo: nat, fbc: nat, now: nat)
    requires Rung(s0, s, t)
    ensures Rung(s0, DequeueFrame(s, n, frame, seqNo, fbc, now), t + {n})
  {
    hide DequeueFrame, B.ListsOk, SeqOk;
    var s' := DequeueFrame(s, n, frame, seqNo, fbc, now);
    RingOther(s, n, frame, seqNo, fbc, now);
    SameSeqNo(s.cfg, s.b, s'.b);
    forall r, x
      ensures Bound(s'.b, r, x) <==> Bound(s0.b, r, x) && !(x.node in t + {n} && Taken(s0, x))
      ensures Bound(s'.b, r, x) ==> (B.Owned(s'.b, x) <==> B.Owned(s0.b, x))
    {
      TakeUnbinds(s, n, frame, seqNo, fbc, now, r, x);
    }
  }

  lemma {:induction false} RungNone(s: State)
    requires B.ListsOk(s.b) && SeqOk(s.cfg, s.b)
    ensures Rung(s, s, {})
  {
  }

  /** The meta nodes that the interrupt dequeues. */
  function RungBy(i: Irq): set<NodeId> {
    (if i.hwDone && i.aaoDone then {MetaOut0} else {}) + (if i.afoDone then {MetaOut1} else {})
    + (if i.swDone then {MetaOut0} else {})
  }

  lemma {:induction false} BetweenRung(s: State, i: Irq)
    requires B.ListsOk(s.b) && SeqOk(s.cfg, s.b)
    ensures Rung(s, Between(s, i), RungBy(i))
  {
    hide DequeueFrame, Rung, B.ListsOk, SeqOk, Between;
    BetweenIs(s, i);
    RungNone(s);
    var s1, s2 := AfterAao(s, i), AfterAfo(s, i);
    var t1 := if i.hwDone && i.aaoDone then {MetaOut0} else {};
    RungStep(s, s, {}, MetaOut0, s.q.deq, s.fr.meta0, i.aaoFbc, i.now);
    assert {} + {MetaOut0} == {MetaOut0};
    assert Rung(s, s1, t1);
    RungStep(s, s1, t1, MetaOut1, s1.q.deq, s1.fr.meta1, i.afoFbc, i.now);
    var t2 := t1 + if i.afoDone then {MetaOut1} else {};
    assert t1 + {} == t1;
    assert Rung(s, s2, t2);
    RungStep(s, s2, t2, MetaOut0, s2.q.deq, s2.fr.meta0, i.aaoFbcSw, i.now);
    assert t2 + {} == t2;
  }

  /** The requests of the driver hold buffers of the main stream only, which no media
      request has. */
  ghost predicate SynthMain(c: Config, q: Queues) {
    forall r :: Live(q, r) && Q.At(q, r).synthetic ==>
      |Q.At(q, r).bufs| == 1 && Q.At(q, r).bufs[0].node == MainOut && MainOut !in c.viaRequests
  }

  lemma {:induction false} HeldSynthMain(c: Config, q: Queues, b: Buffers, started: set<NodeId>)
    requires Held(c, q, b, started)
    ensures SynthMain(c, q)
  {
    forall r | Live(q, r) && Q.At(q, r).synthetic
      ensures |Q.At(q, r).bufs| == 1 && Q.At(q, r).bufs[0].node == MainOut && MainOut !in c.viaRequests
    {
      assert ReqHeld(c, b, started, r, Q.At(q, r));
    }
  }

  lemma {:induction false} SynthMainFrame(c: Config, q: Queues, q': Queues)
    requires SynthMain(c, q) && SameRequests(q, q')
    ensures SynthMain(c, q')
  {
    forall r | Live(q', r) && Q.At(q', r).synthetic
      ensures |Q.At(q', r).bufs| == 1 && Q.At(q', r).bufs[0].node == MainOut && MainOut !in c.viaRequests
    {
      assert Live(q, r);
    }
  }

  /** Completing one request leaves the bindings of another one alone. */
  lemma {:induction false} DoneKeepsOthers(c: Config, q: Queues, b: Buffers, streaming: bool, r0: ReqId, state: Vb2State, eof: nat,
                                           r: ReqId, x: Buf)
    requires SynthMain(c, q) && SeqOk(c, b) && Live(q, r0) && r != r0 && state != QUEUED
    ensures var b' := B.JobDone(b, streaming, r0, Q.At(q, r0), state, eof);
            (Bound(b', r, x) <==> Bound(b, r, x)) && SeqOk(c, b')
  {
    var req := Q.At(q, r0);
    assert req.synthetic ==> |req.bufs| == 1 && req.bufs[0].node == MainOut && MainOut !in c.viaRequests;
    hide SynthMain, Live;
    B.CompleteAllFrame(b, r0, req, req.bufs, state, eof);
    hide B.CompleteAll;
    assert Bound(b, r, x) ==> x !in B.Hits(b, r0, req, req.bufs);
  }

  lemma {:induction false} LoopKeepsOthers(c: Config, q: Queues, b: Buffers, streaming: bool, f: nat, eof: nat, r: ReqId, x: Buf)
    requires Q.MemOk(q) && SynthMain(c, q) && SeqOk(c, b) && Live(RetireLoop(q, b, streaming, f, eof).0, r)
    ensures Bound(RetireLoop(q, b, streaming, f, eof).1, r, x) <==> Bound(b, r, x)
    decreases |q.running|
  {
    hide SynthMain, SeqOk, Q.MemOk, B.JobDone, Q.RetireHead, Live, Bound;
    if q.running != [] {
      var r0 := q.running[0];
      var req := Q.At(q, r0);
      assert Live(q, r0) by { HeadLive(q); }
      if req.frameSeq == f {
        RetireHeadSame(q, if streaming then Finished else Silent);
        DoneKeepsOthers(c, q, b, streaming, r0, DONE, eof, r, x);
      } else if req.frameSeq < f {
        var o := if streaming then Dropped else Silent;
        var q1, b1 := Q.RetireHead(q, o), B.JobDone(b, streaming, r0, req, ERROR, eof);
        RetireHeadSame(q, o);
        Q.RetireHeadMem(q, o);
        SynthMainFrame(c, q, q1);
        LoopShrinks(q1, b1, streaming, f, eof, r);
        HeadGone(q, o);
        DoneKeepsOthers(c, q, b, streaming, r0, ERROR, eof, r, x);
        LoopKeepsOthers(c, q1, b1, streaming, f, eof, r, x);
      }
    }
  }

  lemma {:induction false} HeadLive(q: Queues)
    requires q.running != []
    ensures Live(q, q.running[0])
  {
  }

  lemma {:induction false} HeadGone(q: Queues, outcome: Outcome)
    requires q.running != []
    ensures |Q.RetireHead(q, outcome).running| < |q.running|
  {
  }

  lemma {:induction false} LoopShrinks(q: Queues, b: Buffers, streaming: bool, f: nat, eof: nat, r: ReqId)
    ensures Live(RetireLoop(q, b, streaming, f, eof).0, r) ==> Live(q, r)
    decreases |q.running|
  {
    if q.running != [] {
      var r0 := q.running[0];
      var o := if streaming then Dropped else Silent;
      assert forall y :: y in q.running[1..] ==> y in q.running;
      if Q.At(q, r0).frameSeq < f {
        LoopShrinks(Q.RetireHead(q, o), B.JobDone(b, streaming, r0, Q.At(q, r0), ERROR, eof), streaming, f, eof, r);
      }
    }
  }

  /** What is listed after the interrupt was listed after the retire loop. */
  lemma {:induction false} ListedInLoop(s: State, i: Irq, r: ReqId)
    requires Core(s) && i.swDone && Live(HandleIrq(s, i).q, r)
    ensures var s3 := Between(s, i); Live(RetireLoop(s3.q, s3.b, s3.st.streaming, s3.q.deq, i.now).0, r)
  {
    hide RetireLoop, DequeueFrame, Q.QInv, StreamOk, Q.MemOk, Between, TryQueue, HandleSof, Live;
    BetweenSame(s, i);
    EventIs(s, i);
    var s3 := Between(s, i);
    RetireLoopCore(s3.q, s3.b, s3.st.streaming, s3.q.deq, i.now, s.st.pipelineOn);
    var s4 := DequeueReqFrame(s3, s3.q.deq, i.now);
    QueuesMem(s4.q, s.st.pipelineOn);
    TryQueueListed(s4, r);
    SofListed(TryQueue(s4), i, r);
    hide HandleEvent;
  }

  lemma {:induction false} BetweenSame(s: State, i: Irq)
    ensures Between(s, i) == s.(b := Between(s, i).b)
    ensures i.swDone ==> Between(s, i) == AfterRings(s, i)
  {
    hide B.RingTake, TryQueue, DequeueReqFrame;
  }

  lemma {:induction false} TryQueueListed(s: State, r: ReqId)
    requires Q.MemOk(s.q)
    ensures Live(TryQueue(s).q, r) ==> Live(s.q, r)
  {
    Q.DispatchFrame(s.q);
  }

  lemma {:induction false} SofListed(s: State, i: Irq, r: ReqId)
    ensures Live(HandleSof(s, i).q, r) ==> Live(s.q, r)
  {
  }

  lemma {:induction false} RungByIs(i: Irq, n: NodeId)
    ensures n in RungBy(i) <==> RingNode(n) && Dequeues(i, n)
  {
  }

  lemma {:induction false} QuietBuffers(s: State, i: Irq)
    requires !i.swDone
    ensures HandleIrq(s, i).b == Between(s, i).b
  {
    hide HandleEvent, StampSof;
  }

  /** One binding of a request that is still listed after an interrupt. */
  lemma {:induction false} IrqUnbinds(s: State, i: Irq, r: ReqId, x: Buf)
    requires Own(s) && Live(HandleIrq(s, i).q, r)
    ensures Bound(HandleIrq(s, i).b, r, x) <==> Bound(s.b, r, x) && !ReturnsEarly(s, i, x)
  {
    hide Core, B.BufInv, Held, SeqOk, RungBy, HandleIrq, Between, RetireLoop, Q.MemOk, SynthMain, CamRing.RingOk, CamTime.TimeOk,
      StillBound, Live, Alive;
    OwnParts(s);
    BetweenSame(s, i);
    BetweenRung(s, i);
    RungByIs(i, x.node);
    if i.swDone {
      ListedInLoop(s, i, r);
      IrqBuffers(s, i);
      var s3 := Between(s, i);
      LoopKeepsOthers(s3.cfg, s3.q, s3.b, s3.st.streaming, s3.q.deq, i.now, r, x);
    } else {
      QuietBuffers(s, i);
    }
  }

  lemma {:induction false} OwnParts(s: State)
    requires Own(s)
    ensures B.ListsOk(s.b) && SeqOk(s.cfg, s.b) && Q.MemOk(s.q) && SynthMain(s.cfg, s.q) && Core(s)
  {
    hide Held;
    HeldSynthMain(s.cfg, s.q, s.b, s.st.started);
  }

  /** An interrupt completes a request that stays listed exactly when dequeue_frame returns
      all its buffers ahead of it. */
  lemma {:induction false} IrqCompletesListed(s: State, i: Irq, r: ReqId)
    requires Own(s) && Live(HandleIrq(s, i).q, r)
    ensures Idle(HandleIrq(s, i).b, r) <==> forall x :: Bound(s.b, r, x) ==> ReturnsEarly(s, i, x)
  {
    hide Own, HandleIrq, Live, ReturnsEarly, Idle, Bound;
    var b' := HandleIrq(s, i).b;
    forall x ensures Bound(b', r, x) <==> Bound(s.b, r, x) && !ReturnsEarly(s, i, x) {
      IrqUnbinds(s, i, r, x);
    }
    IdleIs(b', r);
  }

  lemma {:induction false} IdleIs(b: Buffers, r: ReqId)
    ensures Idle(b, r) <==> forall x :: !Bound(b, r, x)
  {
    if !Idle(b, r) {
      var x :| x in b.bound && b.bound[x] == r;
      assert Bound(b, r, x);
    }
  }

  // ---- every entry point -------------------------------------------------

  /** A buffer that a step takes out of the request it is bound to. */
  ghost predicate Leaves(s: State, e: Event, x: Buf) {
    match e
    case EvStop(n) => x in s.b.lists[n]
    case EvCancel(n) => x.node == n
    case EvIrq(i) => ReturnsEarly(s, i, x)
    case _ => false
  }

  lemma {:induction false} SameBoundIdle(b: Buffers, b': Buffers, r: ReqId)
    requires forall x :: Bound(b', r, x) <==> Bound(b, r, x)
    ensures Idle(b', r) <==> forall x :: !Bound(b, r, x)
  {
    hide Bound, Idle;
    IdleIs(b', r);
  }

  lemma {:induction false} QueueKeepsOthers(s: State, r0: ReqId, xs: seq<Buf>, r: ReqId, x: Buf)
    requires Contract(s, EvReqQueue(r0, xs)) && r != r0
    ensures Bound(ReqQueue(s, r0, xs).b, r, x) <==> Bound(s.b, r, x)
  {
    GiveStartedFrame(BindAll(s.b, xs, r0), s.st.started, xs);
    hide GiveStarted, Q.Dispatch;
  }

  /** In every step a request that stays listed has all its buffers back afterwards exactly
      when each buffer that was bound to it is returned by the stop of its node, cancelled
      with its queue, or returned by an interrupt ahead of the request. */
  lemma {:induction false} CompletesExactly(s: State, e: Event, r: ReqId)
    requires Own(s) && Legal(s, e) && Benign(s, e) && Live(s.q, r) && Live(Step(s, e).q, r)
    ensures Idle(Step(s, e).b, r) <==> forall x :: Bound(s.b, r, x) ==> Leaves(s, e, x)
  {
    hide Own, Benign, Live, Idle, Bound, Start, Stop, HandleIrq, ReqQueue, BufQueue, Worker, CancelQueue, HandedOver, FreshAllocs,
      ReturnsEarly;
    match e
    case EvStop(n) => StopCompletes(s, n, r);
    case EvCancel(n) => CancelCompletesListed(s, n, r);
    case EvIrq(i) => IrqCompletesListed(s, i, r);
    case EvReqQueue(r0, xs) =>
      assert r != r0;
      forall x ensures Bound(ReqQueue(s, r0, xs).b, r, x) <==> Bound(s.b, r, x) { QueueKeepsOthers(s, r0, xs, r, x); }
      SameBoundIdle(s.b, ReqQueue(s, r0, xs).b, r);
    case _ =>
      BindingsStay(s, e);
      SameBinding(s.b, Step(s, e).b, r);
  }

  lemma {:induction false} SameBinding(b: Buffers, b': Buffers, r: ReqId)
    requires b'.bound == b.bound
    ensures Idle(b', r) <==> forall x :: !Bound(b, r, x)
  {
    assert forall x :: Bound(b', r, x) <==> Bound(b, r, x);
    SameBoundIdle(b, b', r);
  }

  lemma {:induction false} StopCompletes(s: State, n: NodeId, r: ReqId)
    requires Own(s) && n in s.st.started && Live(s.q, r) && Live(Stop(s, n).q, r)
    ensures Idle(Stop(s, n).b, r) <==> forall x :: Bound(s.b, r, x) ==> x in s.b.lists[n]
  {
    OwnParts(s);
    hide Own, Core, Stop, Live, Idle, Bound;
    StopCompletesListed(s, n, r);
    StopLists(s, n, r);
  }

  lemma {:induction false} BindingsStay(s: State, e: Event)
    requires Own(s) && Legal(s, e) && Benign(s, e) && !e.EvStop? && !e.EvCancel? && !e.EvIrq? && !e.EvReqQueue?
    ensures Step(s, e).b.bound == s.b.bound
  {
    hide Core, Held, B.BufInv, RequestsOk, HandedOver, FreshAllocs, Start, BufQueue, Worker, NoLeftover;
    match e
    case EvStart(n, env) => StartKeepsBound(s, n, env);
    case EvBufQueue(x, alloc) => BufQueueKeepsBound(s, x, alloc);
    case EvWorker => SameBuffers(s);
    case EvComposer(m) =>
  }

  lemma {:induction false} BufQueueKeepsBound(s: State, x: Buf, alloc: Alloc)
    requires Accounted(s, EvBufQueue(x, alloc))
    ensures BufQueue(s, x, alloc).b.bound == s.b.bound
  {
    hide Q.Dispatch, Q.Submit;
  }

  // ---- the failing input -------------------------------------------------

  function TwoEvents(r: ReqId, x: Buf): seq<Event> {
    [EvReqQueue(r, [x]), EvCancel(x.node)]
  }

  /** A run of two events. */
  lemma {:induction false} RunTwo(s: State, e1: Event, e2: Event)
    requires Legal(s, e1) && Benign(s, e1) && Legal(Step(s, e1), e2) && Benign(Step(s, e1), e2)
    ensures RunOk(s, [e1, e2]) && BenignRun(s, [e1, e2]) && Exec(s, [e1, e2]) == Step(Step(s, e1), e2)
  {
    hide Legal, Benign, Step;
    var s1 := Step(s, e1);
    assert [e1, e2][1..] == [e2] && [e2][1..] == [];
    assert RunOk(Step(s1, e2), []) && BenignRun(Step(s1, e2), []) && Exec(Step(s1, e2), []) == Step(s1, e2);
    assert RunOk(s1, [e2]) && BenignRun(s1, [e2]) && Exec(s1, [e2]) == Step(s1, e2);
  }

  lemma {:induction false} FirstLegal(c: Config, r: ReqId, x: Buf)
    requires x.node in c.viaRequests
    ensures Legal(Initial(c), EvReqQueue(r, [x])) && Benign(Initial(c), EvReqQueue(r, [x])) && !Live(Initial(c).q, r)
  {
  }

  /** What queueing a request does while nothing is started. */
  lemma {:induction false} QueuedIs(s: State, r: ReqId, x: Buf)
    requires !s.st.streaming && s.st.started == {} && s.b.bound == map[]
    ensures var s' := ReqQueue(s, r, [x]);
            s'.b == s.b.(bound := map[x := r]) && s'.st == s.st && s'.cfg == s.cfg && Live(s'.q, r)
  {
    assert [x][1..] == [];
    var b1 := BindAll(s.b, [x], r);
    assert b1.bound == map[x := r];
    assert GiveStarted(b1, s.st.started, [x]) == b1;
    assert Q.Submit(s.q, r, Q.At(s.q, r).(synthetic := false, bufs := [x])).pending[|s.q.pending|] == r;
  }

  /** vb2 may cancel a queue that has not started, and then the request is idle. */
  lemma {:induction false} CancelledIs(s: State, r: ReqId, x: Buf)
    requires s.st.started == {} && s.b.bound == map[x := r] && s.b.lists[x.node] == []
    requires Live(s.q, r) && x.node in s.cfg.viaRequests && !B.Owned(s.b, x)
    ensures Legal(s, EvCancel(x.node)) && Benign(s, EvCancel(x.node))
    ensures var s' := CancelQueue(s, x.node); Live(s'.q, r) && Idle(s'.b, r) && Contract(s', EvReqQueue(r, [x]))
  {
  }

  /** r is complete and still listed although nothing has stopped, and may be queued again,
      which ruins the lists. */
  ghost predicate Trap(s: State, r: ReqId, x: Buf) {
    && Live(s.q, r) && Idle(s.b, r) && s.st.stopped == {} && Contract(s, EvReqQueue(r, [x]))
    && Core(s) && !Core(ReqQueue(s, r, [x]))
  }

  lemma {:induction false} CancelTraps(s: State, r: ReqId, x: Buf)
    requires Core(s) && s.st.started == {} && s.st.stopped == {} && s.b.bound == map[x := r] && s.b.lists[x.node] == []
    requires Live(s.q, r) && x.node in s.cfg.viaRequests && !B.Owned(s.b, x)
    ensures Legal(s, EvCancel(x.node)) && Benign(s, EvCancel(x.node)) && Trap(CancelQueue(s, x.node), r, x)
  {
    hide Core, Legal, Contract, Benign, ReqQueue, Idle, Live;
    CancelledIs(s, r, x);
    CancelCore(s, x.node);
    StillListed(CancelQueue(s, x.node), r, [x]);
    RequeueExact(CancelQueue(s, x.node), r, [x]);
  }

  /** A request is queued, and its queue is cancelled before it has started: the request is
      complete and still pending, the media core lets it be queued again, and that ruins
      the lists. Nothing else happened in this run. */
  lemma {:induction false} CancelThenRequeue(c: Config, r: ReqId, x: Buf)
    requires CfgOk(c) && x.node in c.viaRequests
    ensures RunOk(Initial(c), TwoEvents(r, x)) && BenignRun(Initial(c), TwoEvents(r, x))
    ensures Trap(Exec(Initial(c), TwoEvents(r, x)), r, x)
  {
    InitialCore(c);
    FirstLegal(c, r, x);
    StepCore(Initial(c), EvReqQueue(r, [x]));
    QueuedIs(Initial(c), r, x);
    hide Core, Legal, Benign, ReqQueue, Live, Exec, RunOk, BenignRun, Trap, CancelQueue;
    CancelTraps(ReqQueue(Initial(c), r, [x]), r, x);
    RunTwo(Initial(c), EvReqQueue(r, [x]), EvCancel(x.node));
  }

  lemma {:induction false} StillListed(s: State, r: ReqId, xs: seq<Buf>)
    requires Live(s.q, r)
    ensures !Unlisted(s, EvReqQueue(r, xs))
  {
  }
}
