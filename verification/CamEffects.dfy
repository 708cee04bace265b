/** What the entry points do to the lists, the histories and the numbers: each does its
    work, and not only nothing wrong. */
module CamEffects {
  import opened CamTypes
  import opened CamPipeline
  import opened CamCore
  import opened CamOwnership
  import opened CamRequests
  import opened CamTheorems
  import opened CamRing
  import opened CamFailures
  import opened CamRetries
  import CamRequeue
  import B = CamBuffers
  import Q = CamQueues

  // ---- buf_queue ---------------------------------------------------------

  /** buf_queue makes a request of its own for x: the main stream is used without requests,
      has started, and there was memory. */
  predicate MakesRequest(s: State, x: Buf, alloc: Alloc) {
    x.node == MainOut && MainOut !in s.cfg.viaRequests && MainOut in s.st.started && alloc.Ptr?
  }

  /** The buffer goes to the end of its node's list, and no other list changes. */
  lemma {:induction false} BufQueueListed(s: State, x: Buf, alloc: Alloc)
    ensures var b' := BufQueue(s, x, alloc).b;
            && b'.given == s.b.given + multiset{x}
            && b'.lists[x.node] == s.b.lists[x.node] + [x]
            && forall n: NodeId :: n != x.node ==> b'.lists[n] == s.b.lists[n]
  {
    hide EnqueueNoRequest;
    EnqueueMovesNothing(s.(b := B.Give(s.b, x)), x, alloc);
  }

  lemma {:induction false} EnqueueMovesNothing(s: State, x: Buf, alloc: Alloc)
    ensures var b' := EnqueueNoRequest(s, x, alloc).b; b'.lists == s.b.lists && b'.given == s.b.given
  {
    hide Q.Dispatch, Q.Submit;
  }

  lemma {:induction false} DispatchLives(q: Queues, r: ReqId)
    requires Q.MemOk(q) && Live(q, r)
    ensures var q' := Q.Dispatch(q);
            Live(q', r) && Q.At(q', r).synthetic == Q.At(q, r).synthetic && Q.At(q', r).bufs == Q.At(q, r).bufs
  {
    Q.DispatchFrame(q);
  }

  /** A request that is submitted is listed, and with it the history grows. */
  lemma {:induction false} SubmitLives(s: State, r: ReqId, req: Request)
    requires Core(s) && !Live(s.q, r)
    ensures var q' := TryQueue(s.(q := Q.Submit(s.q, r, req))).q;
            && Live(q', r) && Q.At(q', r).synthetic == req.synthetic && Q.At(q', r).bufs == req.bufs
            && q'.submitted == s.q.submitted + [r]
  {
    var q1 := Q.Submit(s.q, r, req);
    Q.SubmitKeeps(s.q, s.st.pipelineOn, r, req);
    assert q1.pending[|s.q.pending|] == r;
    DispatchLives(q1, r);
    if s.st.streaming { Q.DispatchKeeps(q1); }
    hide Q.Dispatch, Q.QInv, Q.MemOk;
  }

  /** buf_queue of the running main stream submits one new request of the driver, which holds
      exactly this buffer; in every other case it submits nothing and no list of jobs
      changes. */
  lemma {:induction false} BufQueueSubmits(s: State, x: Buf, alloc: Alloc)
    requires Core(s) && Legal(s, EvBufQueue(x, alloc))
    ensures var q' := BufQueue(s, x, alloc).q;
            if MakesRequest(s, x, alloc) then
              && Live(q', alloc.id) && Q.At(q', alloc.id).synthetic && Q.At(q', alloc.id).bufs == [x]
              && q'.submitted == s.q.submitted + [alloc.id]
            else q' == s.q
  {
    if MakesRequest(s, x, alloc) {
      NotLive(s, alloc.id);
      BuffersApart(s, B.Give(s.b, x));
      hide Core, TryQueue, Live;
      SubmitLives(s.(b := B.Give(s.b, x)), alloc.id, SyntheticRequest(x));
    }
  }

  lemma {:induction false} NotLive(s: State, r: ReqId)
    requires Core(s) && r !in s.q.heap
    ensures !Live(s.q, r)
  {
  }

  /** A ring buffer gets the next number of its ring exactly when its queue has started and
      the DMAs are enabled; otherwise no number and no counter changes. */
  lemma {:induction false} BufQueueNumbers(s: State, x: Buf, alloc: Alloc)
    requires CfgOk(s.cfg) && (x.node in s.st.started ==> x.node in s.cfg.enabled)
    ensures var s' := BufQueue(s, x, alloc);
            if IsRing(s.cfg, x.node) && x.node in s.st.started && s.st.dmas != {} then
              && EnqMeta(s'.fr, x.node) == EnqMeta(s.fr, x.node) + 1
              && s'.b.seqNo == s.b.seqNo[x := EnqMeta(s'.fr, x.node)]
              && forall m :: (m == MetaOut0 || m == MetaOut1) && m != x.node ==> EnqMeta(s'.fr, m) == EnqMeta(s.fr, m)
            else s'.b.seqNo == s.b.seqNo && s'.fr == s.fr
  {
    hide Q.Dispatch;
  }

  // ---- req_queue ---------------------------------------------------------

  function One(x: Buf, started: set<NodeId>, n: NodeId): seq<Buf> {
    if x.node == n && n in started then [x] else []
  }

  lemma {:induction false} GiveAppends(b: Buffers, started: set<NodeId>, x: Buf, n: NodeId)
    ensures (if x.node in started then B.Give(b, x) else b).lists[n] == b.lists[n] + One(x, started, n)
  {
  }

  lemma {:induction false} Associate(a: seq<Buf>, b: seq<Buf>, c: seq<Buf>)
    ensures a + b + c == a + (b + c)
  {
  }

  lemma {:induction false} GiveStartedAppends(b: Buffers, started: set<NodeId>, xs: seq<Buf>, n: NodeId)
    ensures GiveStarted(b, started, xs).lists[n] == b.lists[n] + OfNode(xs, started, n)
    decreases |xs|
  {
    hide B.Give, One;
    if xs != [] {
      GiveAppends(b, started, xs[0], n);
      GiveStartedAppends(if xs[0].node in started then B.Give(b, xs[0]) else b, started, xs[1..], n);
      Associate(b.lists[n], One(xs[0], started, n), OfNode(xs[1..], started, n));
    }
  }

  lemma {:induction false} GiveStartedGiven(b: Buffers, started: set<NodeId>, xs: seq<Buf>)
    ensures GiveStarted(b, started, xs).given == b.given + multiset(Handed(xs, started))
    decreases |xs|
  {
    if xs != [] {
      var b1 := if xs[0].node in started then B.Give(b, xs[0]) else b;
      var one := if xs[0].node in started then [xs[0]] else [];
      assert b1.given == b.given + multiset(one);
      hide B.Give;
      GiveStartedGiven(b1, started, xs[1..]);
      assert multiset(one + Handed(xs[1..], started)) == multiset(one) + multiset(Handed(xs[1..], started));
    }
  }

  /** The buffers of a request whose queue is streaming, in order. */
  function Handed(xs: seq<Buf>, started: set<NodeId>): seq<Buf> {
    if xs == [] then [] else (if xs[0].node in started then [xs[0]] else []) + Handed(xs[1..], started)
  }

  /** Those of one node. */
  function OfNode(xs: seq<Buf>, started: set<NodeId>, n: NodeId): seq<Buf> {
    if xs == [] then [] else One(xs[0], started, n) + OfNode(xs[1..], started, n)
  }

  /** req_queue binds the buffers to the request, hands those over whose queue is streaming,
      in order, and submits the request. */
  lemma {:induction false} ReqQueueSubmits(s: State, r: ReqId, xs: seq<Buf>, n: NodeId)
    requires Core(s) && Legal(s, EvReqQueue(r, xs))
    ensures var s' := ReqQueue(s, r, xs);
            && Live(s'.q, r) && !Q.At(s'.q, r).synthetic && Q.At(s'.q, r).bufs == xs
            && s'.q.submitted == s.q.submitted + [r]
            && s'.b.lists[n] == s.b.lists[n] + OfNode(xs, s.st.started, n)
            && s'.b.given == s.b.given + multiset(Handed(xs, s.st.started))
            && (forall x :: Bound(s'.b, r, x) <==> x in xs)
            && s'.b.log == s.b.log
  {
    var b1 := BindAll(s.b, xs, r);
    var b2 := GiveStarted(b1, s.st.started, xs);
    GiveStartedAppends(b1, s.st.started, xs, n);
    GiveStartedGiven(b1, s.st.started, xs);
    GiveStartedFrame(b1, s.st.started, xs);
    BuffersApart(s, b2);
    assert forall x :: Bound(b1, r, x) <==> x in xs;
    hide Core, TryQueue, Live, GiveStarted, Bound, BindAll, OfNode, Handed;
    SubmitLives(s.(b := b2), r, Q.At(s.q, r).(synthetic := false, bufs := xs));
    TryQueueOnly(s.(b := b2, q := Q.Submit(s.q, r, Q.At(s.q, r).(synthetic := false, bufs := xs))));
    SameBinds(b1, b2, r);
  }

  lemma {:induction false} SameBinds(b: Buffers, b': Buffers, r: ReqId)
    requires b'.bound == b.bound
    ensures forall x :: Bound(b', r, x) <==> Bound(b, r, x)
  {
  }

  lemma {:induction false} TryQueueOnly(s: State)
    ensures TryQueue(s).b == s.b && TryQueue(s).st == s.st && TryQueue(s).fr == s.fr && TryQueue(s).cfg == s.cfg
  {
  }

  // ---- the worker and the composer ---------------------------------------

  /** The ordered workqueue run k times. */
  function Workers(s: State, k: nat): State
    decreases k
  {
    if k == 0 then s else Workers(Worker(s), k - 1)
  }

  /** Running k queued works sends the next k frames, in order, and when all have run every
      frame that was enqueued is sent. */
  lemma {:induction false} WorkersSend(s: State, k: nat)
    requires Core(s) && k <= |s.q.wq|
    ensures var s' := Workers(s, k);
            && s'.q.sent == s.q.sent + k && s'.q.wq == s.q.wq[k..] && s'.q.enq == s.q.enq
            && (k == |s.q.wq| ==> s'.q.sent == s'.q.enq)
            && Core(s')
    decreases k
  {
    if k > 0 {
      WorkerCore(s);
      Q.SendKeeps(s.q, s.st.pipelineOn);
      assert s.q.wq[1..][k - 1..] == s.q.wq[k..];
      hide Core, Q.QInv;
      WorkersSend(Worker(s), k - 1);
    } else {
      assert s.q.wq[0..] == s.q.wq;
      hide Q.MemOk, Q.FramesOk, Q.HistOk, Q.CountOk, StreamOk;
    }
  }

  predicate FullAck(m: ScpMsg) {
    m.longEnough && m.isAck && m.ofFrame
  }

  /** An acknowledged frame is programmed by a start of frame before it: the register is
      written if and only if the frame that starts is older than the acknowledged one. Other
      messages change nothing. */
  lemma {:induction false} AckThenSof(s: State, m: ScpMsg, i: Irq)
    requires Core(s) && s.st.pipelineOn && Legal(s, EvComposer(m)) && i.sof
    requires Legal(Step(s, EvComposer(m)), EvIrq(i))
    ensures var s1 := Step(s, EvComposer(m));
            && (FullAck(m) && i.frame < m.frame ==> ProgramsFrame(HandleIrq(s1, i), i.frame))
            && (FullAck(m) && i.frame >= m.frame ==> HandleIrq(s1, i).fr.cqOffset == s.fr.cqOffset)
            && (!FullAck(m) ==> s1 == s)
  {
    ComposerCore(s, m);
    hide Core, HandleIrq, ProgramsFrame;
    SofProgramsNextFrame(Step(s, EvComposer(m)), i);
  }

  // ---- start and stop ----------------------------------------------------

  /** A start succeeds exactly when the node is enabled, the pipeline and the hardware are or
      come up, and s_stream(1) succeeds if this is the last node. */
  lemma {:induction false} StartSucceeds(s: State, n: NodeId, env: StartEnv)
    requires Core(s) && n !in s.st.started && (n !in s.cfg.viaRequests ==> |env.allocs| == |s.b.lists[n]|)
    ensures n in Start(s, n, env).st.started
            <==> Registers(s, n, env) && (StartsLast(s, n) ==> env.cio == CioOk)
    ensures forall m :: m != n ==> (m in Start(s, n, env).st.started <==> m in s.st.started)
  {
    hide Core, FinishStart, Register, B.ReturnAll, Base, StartsLast;
    if Registers(s, n, env) {
      BaseOff(s, n);
      SameBase(s);
      BaseLast(s, n);
      RegisterSame(Base(s), n, env.allocs);
      StartIsTail(s, n, env);
      hide Start;
      FinishIs(Register(Base(s), n, env.allocs), n, env.cio);
    }
  }

  lemma {:induction false} BaseLast(s: State, n: NodeId)
    requires Core(s) && n in s.cfg.enabled && n !in s.st.started
    ensures StartsLast(s, n) <==> Base(s).st.streamCount + 1 >= Base(s).st.enabledCount
  {
    if s.st.pipelineOn { LaterStart(s, n); } else { FirstStart(s, n); }
    hide Q.QInv, StreamOk, Starting;
  }

  /** The allocations that a start makes, if any, succeed. */
  predicate Allocated(s: State, n: NodeId, env: StartEnv) {
    Allocates(s, n) ==> AllAllocated(env.allocs)
  }

  /** A start that fails gives the node's buffers back as QUEUED, in order, and leaves its
      list empty; one that succeeds returns nothing. No other list changes. */
  lemma {:induction false} StartReturns(s: State, n: NodeId, env: StartEnv, m: NodeId)
    requires Core(s) && B.BufInv(s.b) && Legal(s, EvStart(n, env)) && Allocated(s, n, env)
    ensures var b, l := Start(s, n, env).b, s.b.lists[n];
            && (n in Start(s, n, env).st.started ==> b.lists == s.b.lists && b.log == s.b.log)
            && (n !in Start(s, n, env).st.started ==>
                  b.lists[n] == [] && b.log == s.b.log + B.Returned(l, QUEUED) && (m != n ==> b.lists[m] == s.b.lists[m]))
  {
    hide Core, B.BufInv, Start, B.ReturnAll, HandedOver, FreshAllocs, B.Returned, AllAllocated, StartsLast;
    StartSucceeds(s, n, env);
    if Registers(s, n, env) {
      RegisteredReturns(s, n, env);
    } else {
      CamRequeue.NotRegistered(s, n, env);
      B.ReturnAllWhole(s.b, n, QUEUED);
    }
  }

  /** A start that gets as far as registering. */
  lemma {:induction false} RegisteredReturns(s: State, n: NodeId, env: StartEnv)
    requires Core(s) && B.BufInv(s.b) && n !in s.st.started && Registers(s, n, env) && Allocated(s, n, env)
    requires n !in s.cfg.viaRequests ==> |env.allocs| == |s.b.lists[n]|
    ensures var b := Start(s, n, env).b;
            if StartsLast(s, n) && env.cio != CioOk then
              && b.lists[n] == [] && b.log == s.b.log + B.Returned(s.b.lists[n], QUEUED)
              && forall m: NodeId :: m != n ==> b.lists[m] == s.b.lists[m]
            else b.lists == s.b.lists && b.log == s.b.log
  {
    hide Core, B.Conserved, B.ListsOk, FinishStart, Register, B.ReturnAll, Base, StartsLast, B.Returned, AllAllocated, Start;
    BaseOff(s, n);
    SameBase(s);
    BaseLast(s, n);
    RegisterSame(Base(s), n, env.allocs);
    RegisterQuiet(Base(s), n, env.allocs);
    StartIsTail(s, n, env);
    var s1 := Register(Base(s), n, env.allocs);
    FinishIs(s1, n, env.cio);
    B.ReturnAllWhole(s1.b, n, QUEUED);
  }

  /** Registering the queued buffers touches no list and, with memory, returns nothing. */
  lemma {:induction false} RegisterQuiet(s: State, n: NodeId, allocs: seq<Alloc>)
    requires B.ListsOk(s.b) && !s.st.streaming && (n !in s.cfg.viaRequests ==> |allocs| == |s.b.lists[n]|)
    requires Allocates(s, n) ==> AllAllocated(allocs)
    ensures Register(s, n, allocs).b.lists == s.b.lists && Register(s, n, allocs).b.log == s.b.log
  {
    if n !in s.cfg.viaRequests {
      var l := s.b.lists[n];
      assert forall i :: 0 <= i < |l| ==> l[i] in l;
      EachKeeps(s, l, allocs);
    }
  }

  /** A stop returns the node's whole list as ERROR, in order, and no other list changes. */
  lemma {:induction false} StopReturns(s: State, n: NodeId, m: NodeId)
    ensures var b, l := Stop(s, n).b, s.b.lists[n];
            && b.lists[n] == [] && b.log == s.b.log + B.Returned(l, ERROR)
            && (m != n ==> b.lists[m] == s.b.lists[m])
  {
    hide Stop, B.ReturnAll, StoppedQueues, StoppedStream;
    StopIs(s, n);
    B.ReturnAllWhole(s.b, n, ERROR);
  }

  /** The first start of a session begins its numbers anew: a ring that is registered is
      numbered 1, 2, ..., and until the next start of frame no number counts as finished. */
  lemma {:induction false} StartsAfresh(s: State, n: NodeId, env: StartEnv)
    requires Core(s) && B.ListsOk(s.b) && Legal(s, EvStart(n, env)) && !s.st.pipelineOn
    requires n in Start(s, n, env).st.started
    ensures var s', l := Start(s, n, env), s.b.lists[n];
            && s'.fr.meta0 == 0 && s'.fr.meta1 == 0 && s'.fr.sofCount == 0
            && s'.q.deq == 0 && s'.q.comp == 0 && s'.q.sent == 0
            && (forall m :: m == MetaOut0 || m == MetaOut1 ==>
                  EnqMeta(s'.fr, m) == if m == n && IsRing(s.cfg, n) then |l| else 0)
            && (IsRing(s.cfg, n) ==> forall i :: 0 <= i < |l| ==> B.SeqNo(s'.b, l[i]) == 1 + i)
  {
    hide Core, B.ListsOk, Start, FinishStart, Register, Base, Q.Dispatch, StartsLast, HandedOver, FreshAllocs, AfterFinish;
    StartSucceeds(s, n, env);
    FreshBase(s, n);
    SameBase(s);
    FreshRegister(Base(s), n, env.allocs);
    BaseOff(s, n);
    BaseQueues(s, n);
    RegisterSame(Base(s), n, env.allocs);
    StartIsTail(s, n, env);
    var s1 := Register(Base(s), n, env.allocs);
    FinishIs(s1, n, env.cio);
    RegisteredQueues(Base(s), n, env.allocs);
    Q.DispatchKeeps(s1.q);
    hide Q.QInv;
  }

  lemma {:induction false} RegisteredQueues(s: State, n: NodeId, allocs: seq<Alloc>)
    requires Q.QInv(s.q, true) && !s.st.streaming && FreshAllocs(s.q.heap.Keys, allocs)
    requires n !in s.cfg.viaRequests ==> |allocs| == |s.b.lists[n]|
    ensures Q.QInv(Register(s, n, allocs).q, true)
  {
    hide Q.QInv, FreshAllocs;
    if n !in s.cfg.viaRequests { EnqueueEachQueues(s, s.b.lists[n], allocs, true); }
  }

  /** The state from which the first node registers. */
  ghost predicate Fresh(s: State) {
    && s.fr.meta0 == 0 && s.fr.meta1 == 0 && s.fr.sofCount == 0 && s.fr.enqMeta0 == 0 && s.fr.enqMeta1 == 0
    && s.q.deq == 0 && s.q.comp == 0 && s.q.sent == 0 && s.st.dmas != {} && !s.st.streaming
  }

  lemma {:induction false} FreshBase(s: State, n: NodeId)
    requires Core(s) && !s.st.pipelineOn && n in s.cfg.enabled && n !in s.st.started
    ensures Fresh(Base(s)) && CfgOk(s.cfg)
  {
    EnabledOff(s, n);
    FreshDmas(s.cfg);
    hide Q.QInv, StreamOk;
  }

  /** Registering changes no saved number and no frame counter. */
  lemma {:induction false} EachFrames(s: State, xs: seq<Buf>, allocs: seq<Alloc>)
    requires |allocs| == |xs| && !s.st.streaming
    ensures var s' := EnqueueEach(s, xs, allocs);
            && s'.fr.meta0 == s.fr.meta0 && s'.fr.meta1 == s.fr.meta1 && s'.fr.sofCount == s.fr.sofCount
            && s'.q.deq == s.q.deq && s'.q.comp == s.q.comp && s'.q.sent == s.q.sent
    decreases |xs|
  {
    if xs != [] {
      RegisterOneFrames(s, xs[0], allocs[0]);
      hide EnqueueNoRequest;
      EachFrames(EnqueueNoRequest(s, xs[0], allocs[0]), xs[1..], allocs[1..]);
    }
  }

  lemma {:induction false} RegisterOneFrames(s: State, x: Buf, alloc: Alloc)
    requires !s.st.streaming
    ensures var s' := EnqueueNoRequest(s, x, alloc);
            && s'.fr.meta0 == s.fr.meta0 && s'.fr.meta1 == s.fr.meta1 && s'.fr.sofCount == s.fr.sofCount
            && s'.q.deq == s.q.deq && s'.q.comp == s.q.comp && s'.q.sent == s.q.sent && !s'.st.streaming
  {
    hide Q.Dispatch;
  }

  lemma {:induction false} FreshRegister(s: State, n: NodeId, allocs: seq<Alloc>)
    requires Fresh(s) && CfgOk(s.cfg) && n in s.cfg.enabled && B.ListsOk(s.b)
    requires n !in s.cfg.viaRequests ==> |allocs| == |s.b.lists[n]|
    ensures var s', l := Register(s, n, allocs), s.b.lists[n];
            && s'.fr.meta0 == 0 && s'.fr.meta1 == 0 && s'.fr.sofCount == 0
            && s'.q.deq == 0 && s'.q.comp == 0 && s'.q.sent == 0
            && (forall m :: m == MetaOut0 || m == MetaOut1 ==>
                  EnqMeta(s'.fr, m) == if m == n && IsRing(s.cfg, n) then |l| else 0)
            && (IsRing(s.cfg, n) ==> forall i :: 0 <= i < |l| ==> B.SeqNo(s'.b, l[i]) == 1 + i)
  {
    hide EnqueueEach;
    if n !in s.cfg.viaRequests {
      EachFrames(s, s.b.lists[n], allocs);
      if n == MainOut {
        EnqueueMainEachRings(s, s.b.lists[n], allocs);
      } else {
        EnqueueEachNumbers(s, n, s.b.lists[n], allocs);
      }
    }
  }
}
