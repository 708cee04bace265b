/** What is left behind when a node fails to start or stops before the others, and what
    the next start makes of it. */
module CamRetries {
  import opened CamTypes
  import opened CamPipeline
  import opened CamCore
  import opened CamOwnership
  import opened CamSessions
  import opened CamTime
  import opened CamRequests
  import opened CamTheorems
  import opened CamFailures
  import CamLimits
  import B = CamBuffers
  import Q = CamQueues

  // ---- starting over requests the driver left ----------------------------

  /** A listed request of the driver. */
  ghost predicate Synth(q: Queues, r: ReqId) {
    Live(q, r) && Q.At(q, r).synthetic
  }

  function DoneWith(q: Queues, b: Buffers, r: ReqId): Buffers {
    B.JobDone(b, true, r, Q.At(q, r), DONE, 0)
  }

  /** Completing any request of the driver, and any other one after it, keeps the
      accounting. */
  ghost predicate RetireClean(q: Queues, b: Buffers) {
    && (forall r :: Synth(q, r) ==> B.Conserved(DoneWith(q, b, r)))
    && (forall r1, r2 :: Synth(q, r1) && Synth(q, r2) && r1 != r2 ==> B.Conserved(DoneWith(q, DoneWith(q, b, r1), r2)))
  }

  lemma {:induction false} OneHolds(b: Buffers, r: ReqId, req: Request, y: Buf)
    requires req.synthetic && req.bufs == [y]
    ensures (forall x :: B.Holds(b, r, req, x) ==> B.Owned(b, x)) <==> B.Owned(b, y)
  {
    assert B.Holds(b, r, req, y);
  }

  lemma {:induction false} DoneOnce(q: Queues, b: Buffers, r: ReqId, y: Buf)
    requires B.BufInv(b) && Q.At(q, r).synthetic && Q.At(q, r).bufs == [y]
    ensures B.Conserved(DoneWith(q, b, r)) <==> B.Owned(b, y)
    ensures B.Owned(b, y) ==> B.BufInv(DoneWith(q, b, r))
    ensures B.Owned(b, y) ==> forall x :: B.Owned(DoneWith(q, b, r), x) <==> B.Owned(b, x) && x != y
  {
    var req := Q.At(q, r);
    hide B.CompleteAll, B.BufInv, B.Conserved, B.Owned, B.JobDone;
    JobDoneExact(b, r, req, DONE, 0);
    OneHolds(b, r, req, y);
    if B.Owned(b, y) {
      HitsOne(b, r, req, y);
      B.CompleteAllKeeps(b, r, req, req.bufs, DONE, 0);
      JobDoneIs(b, r, req);
    }
  }

  lemma {:induction false} JobDoneIs(b: Buffers, r: ReqId, req: Request)
    ensures B.JobDone(b, true, r, req, DONE, 0) == B.CompleteAll(b, r, req, req.bufs, DONE, 0)
  {
  }

  lemma {:induction false} HitsOne(b: Buffers, r: ReqId, req: Request, y: Buf)
    requires req.synthetic && req.bufs == [y]
    ensures B.Hits(b, r, req, req.bufs) == {y}
  {
  }

  /** Two requests that hold one buffer: whichever retires second breaks the accounting. */
  lemma {:induction false} SharedBreaks(q: Queues, b: Buffers, r1: ReqId, r2: ReqId, y: Buf)
    requires B.BufInv(b) && B.Owned(b, y)
    requires Q.At(q, r1).synthetic && Q.At(q, r1).bufs == [y] && Q.At(q, r2).synthetic && Q.At(q, r2).bufs == [y]
    ensures B.Conserved(DoneWith(q, b, r1)) && !B.Conserved(DoneWith(q, DoneWith(q, b, r1), r2))
  {
    hide B.BufInv, B.Conserved, DoneWith;
    DoneOnce(q, b, r1, y);
    DoneOnce(q, DoneWith(q, b, r1), r2, y);
  }

  lemma {:induction false} HeldClean(c: Config, q: Queues, b: Buffers, started: set<NodeId>)
    requires B.BufInv(b) && Held(c, q, b, started) && MainOut in started
    ensures RetireClean(q, b)
  {
    hide B.BufInv, B.Conserved, DoneWith, B.Owned;
    forall r | Synth(q, r)
      ensures Q.At(q, r).bufs == [Q.At(q, r).bufs[0]] && B.Owned(b, Q.At(q, r).bufs[0])
      ensures B.Conserved(DoneWith(q, b, r))
    {
      assert ReqHeld(c, b, started, r, Q.At(q, r));
      DoneOnce(q, b, r, Q.At(q, r).bufs[0]);
    }
    forall r1, r2 | Synth(q, r1) && Synth(q, r2) && r1 != r2
      ensures B.Conserved(DoneWith(q, DoneWith(q, b, r1), r2))
    {
      DoneOnce(q, b, r1, Q.At(q, r1).bufs[0]);
      DoneOnce(q, DoneWith(q, b, r1), r2, Q.At(q, r2).bufs[0]);
    }
  }

  /** Registering keeps the requests that are listed and adds one for each buffer. */
  lemma {:induction false} EachKeepsRequest(s: State, xs: seq<Buf>, allocs: seq<Alloc>, r: ReqId)
    requires |allocs| == |xs| && !s.st.streaming && r in s.q.heap && Live(s.q, r)
    requires forall i :: 0 <= i < |allocs| && allocs[i].Ptr? ==> allocs[i].id != r
    ensures var q := EnqueueEach(s, xs, allocs).q; Live(q, r) && Q.At(q, r) == Q.At(s.q, r)
    decreases |xs|
  {
    if xs != [] { EachKeepsRequest(EnqueueNoRequest(s, xs[0], allocs[0]), xs[1..], allocs[1..], r); }
  }

  lemma {:induction false} EachRegisters(s: State, xs: seq<Buf>, allocs: seq<Alloc>, i: nat)
    requires |allocs| == |xs| && i < |xs| && xs[i].node == MainOut && allocs[i].Ptr?
    requires !s.st.streaming && FreshAllocs(s.q.heap.Keys, allocs)
    ensures var q := EnqueueEach(s, xs, allocs).q;
            Live(q, allocs[i].id) && Q.At(q, allocs[i].id) == SyntheticRequest(xs[i])
    decreases |xs|
  {
    var s1 := EnqueueNoRequest(s, xs[0], allocs[0]);
    if i == 0 {
      assert s1.q.pending[|s.q.pending|] == allocs[0].id;
      EachKeepsRequest(s1, xs[1..], allocs[1..], allocs[0].id);
    } else {
      assert FreshAllocs(s1.q.heap.Keys, allocs[1..]);
      EachRegisters(s1, xs[1..], allocs[1..], i - 1);
    }
  }

  /** The state from which a start registers. */
  function Base(s: State): State {
    if s.st.pipelineOn then s else HwInit(InitStream(s.(st := s.st.(pipelineOn := true))))
  }

  lemma {:induction false} FinishSucceeds(s: State, n: NodeId, o: CioOutcome)
    requires n !in s.st.started && !s.st.streaming && n in FinishStart(s, n, o).st.started
    ensures var s' := FinishStart(s, n, o); s'.b == s.b && (s'.q == s.q || s'.q == Q.Dispatch(s.q))
  {
    var s1 := CountUp(s);
    hide Q.Dispatch, B.ReturnAll;
    if s1.st.streamCount >= s1.st.enabledCount && o != CioOk { CioStarted(s1, o); }
  }

  lemma {:induction false} CioStarted(s: State, o: CioOutcome)
    ensures CioStreamOn(s, o).st.started == s.st.started
  {
    hide Q.Dispatch;
  }

  lemma {:induction false} StartIsTail(s: State, n: NodeId, env: StartEnv)
    requires Registers(s, n, env) && (n !in s.cfg.viaRequests ==> |env.allocs| == |s.b.lists[n]|)
    ensures Start(s, n, env) == FinishStart(Register(Base(s), n, env.allocs), n, env.cio)
  {
    hide Register, FinishStart, InitStream, HwInit;
    SameBase(s);
  }

  lemma {:induction false} SameBase(s: State)
    ensures var s1 := Base(s); s1.b == s.b && s1.cfg == s.cfg && s1.st.started == s.st.started && s1.st.streaming == s.st.streaming
  {
  }

  /** A start that succeeds leaves the buffers as registering did, and dispatches at most. */
  lemma {:induction false} Succeeds(s: State, n: NodeId, env: StartEnv)
    requires n !in s.st.started && Registers(s, n, env) && (n !in s.cfg.viaRequests ==> |env.allocs| == |s.b.lists[n]|)
    requires !s.st.streaming && n in Start(s, n, env).st.started
    ensures var s', s1 := Start(s, n, env), Register(Base(s), n, env.allocs);
            s'.b == s1.b && (s'.q == s1.q || s'.q == Q.Dispatch(s1.q))
  {
    hide Start, Register, FinishStart, Base;
    SameBase(s);
    RegisterSame(Base(s), n, env.allocs);
    StartIsTail(s, n, env);
    FinishSucceeds(Register(Base(s), n, env.allocs), n, env.cio);
  }

  lemma {:induction false} DispatchLive(q: Queues, r: ReqId)
    requires Q.MemOk(q) && Live(q, r)
    ensures var q' := Q.Dispatch(q);
            Live(q', r) && Q.At(q', r).synthetic == Q.At(q, r).synthetic && Q.At(q', r).bufs == Q.At(q, r).bufs
  {
    Q.DispatchFrame(q);
  }

  lemma {:induction false} BaseQueues(s: State, n: NodeId)
    requires Core(s) && n in s.cfg.enabled && n !in s.st.started
    ensures Q.QInv(Base(s).q, true) && !s.st.streaming && !Base(s).st.streaming
    ensures Base(s).q.heap == s.q.heap && Base(s).q.pending == s.q.pending && Base(s).q.running == s.q.running
  {
    EnabledOff(s, n);
    if !s.st.pipelineOn { Q.ResetKeeps(s.q); }
  }

  /** A start of the main stream that registers its buffers, each with a request, and
      succeeds. */
  ghost predicate GoodStart(s: State, env: StartEnv) {
    && Legal(s, EvStart(MainOut, env)) && Registers(s, MainOut, env) && Allocates(s, MainOut)
    && AllAllocated(env.allocs) && MainOut in Start(s, MainOut, env).st.started
  }

  lemma {:induction false} GoodParts(s: State, env: StartEnv)
    requires Core(s) && GoodStart(s, env)
    ensures var l, base, s' := s.b.lists[MainOut], Base(s), Start(s, MainOut, env);
            && |l| == |env.allocs| && FreshAllocs(base.q.heap.Keys, env.allocs) && !base.st.streaming
            && base.q.heap == s.q.heap && base.q.pending == s.q.pending && base.q.running == s.q.running
            && Q.MemOk(EnqueueEach(base, l, env.allocs).q)
            && s'.b == EnqueueEach(base, l, env.allocs).b
            && (s'.q == EnqueueEach(base, l, env.allocs).q || s'.q == Q.Dispatch(EnqueueEach(base, l, env.allocs).q))
  {
    hide Start, HandedOver, FreshAllocs, Base, EnqueueEach;
    BaseQueues(s, MainOut);
    SameBase(s);
    EnqueueEachQueues(Base(s), s.b.lists[MainOut], env.allocs, true);
    Succeeds(s, MainOut, env);
  }

  lemma {:induction false} OneOf(q: Queues, q': Queues, r: ReqId)
    requires Q.MemOk(q) && Live(q, r) && (q' == q || q' == Q.Dispatch(q))
    ensures Live(q', r) && Q.At(q', r).synthetic == Q.At(q, r).synthetic && Q.At(q', r).bufs == Q.At(q, r).bufs
  {
    DispatchLive(q, r);
    hide Q.Dispatch, Q.MemOk;
  }

  /** What the driver left is still listed after a good start. */
  lemma {:induction false} LeftStays(s: State, env: StartEnv, r: ReqId)
    requires Core(s) && GoodStart(s, env) && Synth(s.q, r)
    ensures var q := Start(s, MainOut, env).q; Synth(q, r) && Q.At(q, r).bufs == Q.At(s.q, r).bufs
    ensures forall i :: 0 <= i < |env.allocs| ==> env.allocs[i].id != r
  {
    assert r in s.q.heap;
    GoodParts(s, env);
    hide Core, Base, Start, Q.MemOk, GoodStart;
    var base, l := Base(s), s.b.lists[MainOut];
    EachKeepsRequest(base, l, env.allocs, r);
    OneOf(EnqueueEach(base, l, env.allocs).q, Start(s, MainOut, env).q, r);
  }

  /** A good start makes a request for each buffer on the list. */
  lemma {:induction false} NewListed(s: State, env: StartEnv, i: nat)
    requires Core(s) && GoodStart(s, env) && B.ListsOk(s.b) && i < |env.allocs|
    ensures var q := Start(s, MainOut, env).q;
            Synth(q, env.allocs[i].id) && Q.At(q, env.allocs[i].id).bufs == [s.b.lists[MainOut][i]]
  {
    GoodParts(s, env);
    var base, l := Base(s), s.b.lists[MainOut];
    assert l[i] in l && env.allocs[i].Ptr?;
    hide Core, Base, Start, Q.MemOk, GoodStart;
    EachRegisters(base, l, env.allocs, i);
    OneOf(EnqueueEach(base, l, env.allocs).q, Start(s, MainOut, env).q, env.allocs[i].id);
  }

  lemma {:induction false} GoodBuffers(s: State, env: StartEnv)
    requires Core(s) && GoodStart(s, env) && B.BufInv(s.b)
    ensures B.BufInv(Start(s, MainOut, env).b) && Start(s, MainOut, env).b.lists == s.b.lists
  {
    hide Start, Base;
    StartAccounted(s, MainOut, env);
    GoodParts(s, env);
    SameBase(s);
    EachKeeps(Base(s), s.b.lists[MainOut], env.allocs);
    hide Core, GoodStart, B.Conserved;
  }

  /** A request the driver left behind spoils the next good start: either its buffer has no
      place on the list, or it is registered a second time. */
  lemma {:induction false} LeftoverBreaks(s: State, env: StartEnv, r: ReqId)
    requires Core(s) && B.BufInv(s.b) && Held(s.cfg, s.q, s.b, s.st.started) && GoodStart(s, env) && Synth(s.q, r)
    ensures !RetireClean(Start(s, MainOut, env).q, Start(s, MainOut, env).b)
  {
    var q', b' := Start(s, MainOut, env).q, Start(s, MainOut, env).b;
    assert ReqHeld(s.cfg, s.b, s.st.started, r, Q.At(s.q, r));
    var y := Q.At(s.q, r).bufs[0];
    assert Q.At(s.q, r).bufs == [y];
    GoodBuffers(s, env);
    LeftStays(s, env, r);
    hide Start, Core, Held, B.BufInv, DoneWith, B.Conserved;
    if y in s.b.lists[MainOut] {
      var i :| 0 <= i < |s.b.lists[MainOut]| && s.b.lists[MainOut][i] == y;
      NewListed(s, env, i);
      SharedBreaks(q', b', r, env.allocs[i].id, y);
    } else {
      DoneOnce(q', b', r, y);
    }
  }

  /** After a good start of the main stream every request of the driver can be completed,
      one after the other, if and only if none was left on the lists before. */
  lemma {:induction false} RetryExact(s: State, env: StartEnv)
    requires Own(s) && GoodStart(s, env)
    ensures RetireClean(Start(s, MainOut, env).q, Start(s, MainOut, env).b) <==> NoLeftover(s.q)
  {
    if NoLeftover(s.q) {
      hide Start, RetireClean, B.BufInv, Held;
      StartHeld(s, MainOut, env);
      var s' := Start(s, MainOut, env);
      HeldClean(s'.cfg, s'.q, s'.b, s'.st.started);
    } else {
      var r :| Live(s.q, r) && Q.At(s.q, r).synthetic;
      assert Synth(s.q, r);
      LeftoverBreaks(s, env, r);
    }
  }

  // ---- a start that fails at s_stream(1) ---------------------------------

  /** s_stream(1) fails after the buffers of the main stream were registered. */
  ghost predicate FailedStart(s: State, env: StartEnv) {
    && Legal(s, EvStart(MainOut, env)) && Registers(s, MainOut, env) && Allocates(s, MainOut)
    && AllAllocated(env.allocs) && StartsLast(s, MainOut) && env.cio != CioOk
  }

  lemma {:induction false} BaseOff(s: State, n: NodeId)
    requires Core(s) && n in s.cfg.enabled && n !in s.st.started
    ensures var st := Base(s).st; !st.streaming && !st.seninfOn && !st.sensorOn && n !in st.started && st.stopped == s.st.stopped
  {
    if s.st.pipelineOn { LaterStart(s, n); } else { FirstStart(s, n); }
    StartingOff(s.cfg, Base(s).st, n);
    hide Q.QInv, StreamOk, Starting;
  }

  lemma {:induction false} LastBase(s: State, n: NodeId)
    requires Core(s) && n in s.cfg.enabled && n !in s.st.started && StartsLast(s, n)
    ensures var st := Base(s).st;
            !st.streaming && !st.seninfOn && !st.sensorOn && n !in st.started && st.streamCount + 1 >= st.enabledCount
  {
    if s.st.pipelineOn { LaterStart(s, n); } else { FirstStart(s, n); }
    StartingOff(s.cfg, Base(s).st, n);
    hide Q.QInv, StreamOk, Starting;
  }

  /** The requests stay on the list while their buffers are given back to user space. */
  lemma {:induction false} FailedParts(s: State, env: StartEnv)
    requires Core(s) && FailedStart(s, env)
    ensures var l, base, s' := s.b.lists[MainOut], Base(s), Start(s, MainOut, env);
            && |l| == |env.allocs| && FreshAllocs(base.q.heap.Keys, env.allocs) && !base.st.streaming
            && base.q.heap == s.q.heap && base.q.pending == s.q.pending && base.q.running == s.q.running
            && s'.q == EnqueueEach(base, l, env.allocs).q
            && s'.b == B.ReturnAll(EnqueueEach(base, l, env.allocs).b, MainOut, QUEUED)
            && s'.b.lists[MainOut] == []
  {
    hide Start, HandedOver, FreshAllocs, EnqueueEach;
    var l := s.b.lists[MainOut];
    BaseQueues(s, MainOut);
    LastBase(s, MainOut);
    SameBase(s);
    StartIsTail(s, MainOut, env);
    hide Base;
    EachFrame(Base(s), l, env.allocs);
    FailedFinishParts(EnqueueEach(Base(s), l, env.allocs), MainOut, env.cio);
  }

  /** A failed start leaves a request on the lists exactly when there was one before or it
      registered a buffer; the accounting itself is kept. */
  lemma {:induction false} FailedStartLeaves(s: State, env: StartEnv)
    requires Own(s) && FailedStart(s, env)
    ensures var s' := Start(s, MainOut, env);
            && B.BufInv(s'.b)
            && (NoLeftover(s'.q) <==> NoLeftover(s.q) && s.b.lists[MainOut] == [])
  {
    FailedParts(s, env);
    StartAccounted(s, MainOut, env);
    FailedLists(s, env);
    var base, l := Base(s), s.b.lists[MainOut];
    hide Core, Start, Base, Held, HandedOver, B.Conserved;
    if l != [] {
      assert l[0] in l && env.allocs[0].Ptr?;
      EachRegisters(base, l, env.allocs, 0);
      IsLeftover(Start(s, MainOut, env).q, env.allocs[0].id);
    }
    if !NoLeftover(s.q) {
      var r :| Live(s.q, r) && Q.At(s.q, r).synthetic;
      EachKeepsRequest(base, l, env.allocs, r);
      IsLeftover(Start(s, MainOut, env).q, r);
    }
    if l == [] && NoLeftover(s.q) { SameLeftover(s.q, Start(s, MainOut, env).q); }
  }

  lemma {:induction false} IsLeftover(q: Queues, r: ReqId)
    requires Live(q, r) && Q.At(q, r).synthetic
    ensures !NoLeftover(q)
  {
  }

  lemma {:induction false} SameLeftover(q: Queues, q': Queues)
    requires NoLeftover(q) && q'.heap == q.heap && q'.pending == q.pending && q'.running == q.running
    ensures NoLeftover(q')
  {
    forall r | Live(q', r) ensures !Q.At(q', r).synthetic { assert Live(q, r); }
  }

  lemma {:induction false} FailedLists(s: State, env: StartEnv)
    requires Core(s) && FailedStart(s, env) && B.BufInv(s.b)
    ensures B.ListsOk(Start(s, MainOut, env).b)
  {
    FailedParts(s, env);
    SameBase(s);
    EachKeeps(Base(s), s.b.lists[MainOut], env.allocs);
    hide Core, Start, Base, FailedStart, EnqueueEach, B.Conserved;
  }

  // ---- the failing input -------------------------------------------------

  /** One buffer of the main stream is queued and the pipeline is down; the stream fails to
      start, the buffer is queued again, and the second start succeeds. */
  predicate Retried(s: State, x: Buf, env1: StartEnv, env2: StartEnv) {
    && !s.st.pipelineOn && s.cfg.enabled == {MainOut} && MainOut !in s.cfg.viaRequests
    && x.node == MainOut && s.b.lists[MainOut] == [x] && (forall y :: y in s.b.bound ==> y.node != MainOut)
    && env1.pipelineOk && env1.hwOk && env1.cio != CioOk && |env1.allocs| == 1 && env1.allocs[0].Ptr?
    && env2.pipelineOk && env2.hwOk && env2.cio == CioOk && |env2.allocs| == 1 && env2.allocs[0].Ptr?
    && env1.allocs[0].id !in s.q.heap && env2.allocs[0].id !in s.q.heap && env1.allocs[0].id != env2.allocs[0].id
  }

  /** The state after the failed start and the second hand-over. */
  function HandedAgain(s: State, x: Buf, env1: StartEnv, env2: StartEnv): State
    requires Retried(s, x, env1, env2)
  {
    BufQueue(Start(s, MainOut, env1), x, Null)
  }

  /** A good start from s after which r1 and r2 both hold x, so that the second of them to
      retire returns it once too often. */
  ghost predicate Shares(s: State, env: StartEnv, r1: ReqId, r2: ReqId, x: Buf) {
    && GoodStart(s, env) && r1 != r2
    && var s' := Start(s, MainOut, env);
       && Synth(s'.q, r1) && Q.At(s'.q, r1).bufs == [x] && Synth(s'.q, r2) && Q.At(s'.q, r2).bufs == [x]
       && B.Conserved(DoneWith(s'.q, s'.b, r1)) && !B.Conserved(DoneWith(s'.q, DoneWith(s'.q, s'.b, r1), r2))
  }

  lemma {:induction false} RetryFails(s: State, x: Buf, env1: StartEnv, env2: StartEnv)
    requires Own(s) && Retried(s, x, env1, env2)
    ensures FailedStart(s, env1)
  {
    hide Q.QInv, Held, B.BufInv, RequestsOk;
  }

  /** What the failed start did: the request is on the pending list and its buffer is back
      in user space. */
  lemma {:induction false} AfterFailure(s: State, x: Buf, env1: StartEnv, env2: StartEnv)
    requires Own(s) && Retried(s, x, env1, env2)
    ensures FailedStart(s, env1)
    ensures var s1, a := Start(s, MainOut, env1), env1.allocs[0].id;
            && Core(s1) && B.BufInv(s1.b) && s1.cfg == s.cfg && s1.st.started == {} && !s1.st.pipelineOn
            && s1.b.lists[MainOut] == [] && s1.b.bound == s.b.bound
            && s1.q.heap == s.q.heap[a := SyntheticRequest(x)] && Synth(s1.q, a)
  {
    RetryFails(s, x, env1, env2);
    hide Start, Held, HandedOver, B.BufInv, RequestsOk;
    StartCore(s, MainOut, env1);
    StartConfig(s, MainOut, env1);
    FailedStartLeaves(s, env1);
    FailedParts(s, env1);
    FailedLeavesOff(s, env1);
    SameBase(s);
    EachKeeps(Base(s), [x], env1.allocs);
    OneRegistered(Base(s), x, env1.allocs);
    hide Base, Core;
  }

  lemma {:induction false} OneRegistered(s: State, x: Buf, allocs: seq<Alloc>)
    requires |allocs| == 1 && allocs[0].Ptr? && x.node == MainOut && !s.st.streaming
    ensures EnqueueEach(s, [x], allocs).q == Q.Submit(s.q, allocs[0].id, SyntheticRequest(x))
    ensures Synth(Q.Submit(s.q, allocs[0].id, SyntheticRequest(x)), allocs[0].id)
  {
    assert [x][1..] == [] && allocs[1..] == [];
    assert Q.Submit(s.q, allocs[0].id, SyntheticRequest(x)).pending[|s.q.pending|] == allocs[0].id;
    assert EnqueueEach(s, [x], allocs) == EnqueueNoRequest(s, x, allocs[0]);
  }

  lemma {:induction false} FailedLeavesOff(s: State, env: StartEnv)
    requires Core(s) && FailedStart(s, env) && !s.st.pipelineOn
    ensures Start(s, MainOut, env).st.started == {} && !Start(s, MainOut, env).st.pipelineOn
  {
    CamLimits.FailedStartLeavesOff(s, MainOut, env);
  }

  /** The second hand-over and the second start are what vb2 may do next. */
  lemma {:induction false} AgainLegal(s: State, x: Buf, env1: StartEnv, env2: StartEnv)
    requires Own(s) && Retried(s, x, env1, env2)
    ensures Legal(Start(s, MainOut, env1), EvBufQueue(x, Null))
    ensures var s2, a := HandedAgain(s, x, env1, env2), env1.allocs[0].id;
            && Core(s2) && B.BufInv(s2.b) && s2.b.lists[MainOut] == [x]
            && GoodStart(s2, env2) && Synth(s2.q, a) && Q.At(s2.q, a).bufs == [x]
  {
    hide Start, Core, Own, FailedStart, GoodStart, B.BufInv;
    AfterFailure(s, x, env1, env2);
    var s1 := Start(s, MainOut, env1);
    GiveAgain(s1, x);
    hide BufQueue;
    GoodAgain(HandedAgain(s, x, env1, env2), x, env2);
  }

  lemma {:induction false} GiveAgain(s: State, x: Buf)
    requires Core(s) && B.BufInv(s.b) && s.st.started == {} && s.b.lists[MainOut] == [] && x.node == MainOut
    requires MainOut !in s.cfg.viaRequests
    ensures Legal(s, EvBufQueue(x, Null))
    ensures var s' := BufQueue(s, x, Null);
            && Core(s') && B.BufInv(s'.b) && s'.b.lists[MainOut] == [x] && s'.b.bound == s.b.bound
            && s'.q == s.q && s'.cfg == s.cfg && s'.st == s.st
  {
    hide Core, B.BufInv, EnqueueNoRequest;
    B.GiveKeeps(s.b, x);
    BuffersApart(s, B.Give(s.b, x));
  }

  lemma {:induction false} GoodAgain(s: State, x: Buf, env: StartEnv)
    requires Core(s) && !s.st.pipelineOn && s.cfg.enabled == {MainOut} && MainOut !in s.cfg.viaRequests
    requires s.b.lists[MainOut] == [x] && (forall y :: y in s.b.bound ==> y.node != MainOut)
    requires env.pipelineOk && env.hwOk && env.cio == CioOk && |env.allocs| == 1 && env.allocs[0].Ptr?
    requires env.allocs[0].id !in s.q.heap
    ensures GoodStart(s, env)
  {
    FirstStart(s, MainOut);
    var base := HwInit(InitStream(s.(st := s.st.(pipelineOn := true))));
    TailStarts(base, MainOut, env);
    hide Q.QInv, StartTail, StreamOk, Starting;
  }

  lemma {:induction false} TailStarts(s: State, n: NodeId, env: StartEnv)
    requires !s.st.streaming && (n !in s.cfg.viaRequests ==> |env.allocs| == |s.b.lists[n]|) && env.cio == CioOk
    ensures n in StartTail(s, n, env).st.started
  {
    hide Register, Q.Dispatch, B.ReturnAll;
  }

  /** Failed start, buffer handed over again, good start: two requests hold the buffer, and
      the second of them to retire returns it once too often. */
  lemma {:induction false} RetrySharesBuffer(s: State, x: Buf, env1: StartEnv, env2: StartEnv)
    requires Own(s) && Retried(s, x, env1, env2)
    ensures FailedStart(s, env1) && Legal(Start(s, MainOut, env1), EvBufQueue(x, Null))
    ensures Shares(HandedAgain(s, x, env1, env2), env2, env1.allocs[0].id, env2.allocs[0].id, x)
  {
    hide Start, HandedAgain, GoodStart, FailedStart, Core, Own, B.Conserved, B.BufInv, DoneWith, Legal;
    RetryFails(s, x, env1, env2);
    AgainLegal(s, x, env1, env2);
    SecondShares(HandedAgain(s, x, env1, env2), x, env2, env1.allocs[0].id);
  }

  lemma {:induction false} SecondShares(s: State, x: Buf, env: StartEnv, a: ReqId)
    requires Core(s) && B.BufInv(s.b) && s.b.lists[MainOut] == [x] && x.node == MainOut
    requires GoodStart(s, env) && |env.allocs| == 1 && Synth(s.q, a) && Q.At(s.q, a).bufs == [x]
    ensures Shares(s, env, a, env.allocs[0].id, x)
  {
    hide Start, Core, B.Conserved, DoneWith, Legal;
    GoodBuffers(s, env);
    LeftStays(s, env, a);
    NewListed(s, env, 0);
    var s' := Start(s, MainOut, env);
    assert B.Owned(s'.b, x);
    SharedBreaks(s'.q, s'.b, a, env.allocs[0].id, x);
  }
}
