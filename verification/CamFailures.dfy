/** Where the accounting of buffers stops: the condition of each entry point is exact. */
module CamFailures {
  import opened CamTypes
  import opened CamPipeline
  import opened CamCore
  import opened CamOwnership
  import opened CamSessions
  import opened CamRequests
  import opened CamTheorems
  import opened CamExact
  import B = CamBuffers
  import Q = CamQueues

  /** x has come back more often than it was handed over, the list counted in. */
  predicate Over(b: Buffers, x: Buf) {
    b.given[x] < B.DoneCount(b.log, x) + if B.Owned(b, x) then 1 else 0
  }

  lemma {:induction false} OverNotConserved(b: Buffers, x: Buf)
    requires Over(b, x)
    ensures !B.Conserved(b)
  {
  }

  lemma {:induction false} DoneCountGrows(log: seq<Completion>, log': seq<Completion>, x: Buf)
    requires log <= log'
    ensures B.DoneCount(log, x) <= B.DoneCount(log', x)
    decreases |log'|
  {
    if log == log' {
    } else {
      var k := |log'| - 1;
      assert log' == log'[..k] + [log'[k]] && log <= log'[..k];
      DoneCountGrows(log, log'[..k], x);
    }
  }

  lemma {:induction false} LoggedCounts(log: seq<Completion>, log': seq<Completion>, c: Completion)
    requires log <= log' && LoggedSince(log, log', c)
    ensures B.DoneCount(log', c.buf) >= B.DoneCount(log, c.buf) + 1
  {
    var i :| |log| <= i < |log'| && log'[i] == c;
    assert log'[..i + 1][..i] == log'[..i];
    DoneCountGrows(log, log'[..i], c.buf);
    DoneCountGrows(log'[..i + 1], log', c.buf);
  }

  /** A buffer that was not on a list and comes back all the same. */
  lemma {:induction false} UnownedReturned(b: Buffers, b': Buffers, c: Completion)
    requires B.Conserved(b) && !B.Owned(b, c.buf) && b'.given == b.given && b.log <= b'.log
    requires LoggedSince(b.log, b'.log, c)
    ensures Over(b', c.buf)
  {
    LoggedCounts(b.log, b'.log, c);
  }

  // ---- job_done ----------------------------------------------------------

  /** Completing a request keeps the accounting if and only if every buffer it would
      return is on its node's list. */
  lemma {:induction false} JobDoneExact(b: Buffers, r: ReqId, req: Request, state: Vb2State, eof: nat)
    requires B.BufInv(b) && state != QUEUED && (req.synthetic ==> |req.bufs| <= 1)
    ensures B.Conserved(B.JobDone(b, true, r, req, state, eof))
            <==> forall x :: B.Holds(b, r, req, x) ==> B.Owned(b, x)
  {
    var b' := B.JobDone(b, true, r, req, state, eof);
    if forall x :: B.Holds(b, r, req, x) ==> B.Owned(b, x) {
      forall x | x in B.Hits(b, r, req, req.bufs) ensures B.Owned(b, x) { assert B.Holds(b, r, req, x); }
      B.CompleteAllKeeps(b, r, req, req.bufs, state, eof);
    } else {
      var x :| B.Holds(b, r, req, x) && !B.Owned(b, x);
      assert x in B.Hits(b, r, req, req.bufs);
      CompleteAllMarks(b, r, req, req.bufs, state, eof, x);
      CompleteAllGrows(b, r, req, req.bufs, state, eof);
      B.CompleteAllFrame(b, r, req, req.bufs, state, eof);
      UnownedReturned(b, b', Completion(x, state, B.StampOf(req, x, eof)));
      OverNotConserved(b', x);
    }
  }

  /** While streaming, that is so exactly when no buffer is missing from a disabled node,
      which is decided by the nodes the request names as long as vb2 is not in the middle of
      handing over the buffers of one. */
  lemma {:induction false} StreamingHolds(s: State, r: ReqId)
    requires Own(s) && s.st.streaming && Live(s.q, r)
    ensures var req := Q.At(s.q, r);
            && ((forall x :: B.Holds(s.b, r, req, x) ==> B.Owned(s.b, x))
                <==> (forall x :: x in req.bufs ==> !Missing(s.cfg, s.b, r, req, x)))
            && ((forall n: NodeId :: n !in s.cfg.enabled ==> s.b.lists[n] == []) ==>
                 ((forall x :: x in req.bufs ==> !Missing(s.cfg, s.b, r, req, x))
                  <==> (forall x :: B.Holds(s.b, r, req, x) ==> x.node in s.cfg.enabled)))
  {
    hide Q.QInv, B.BufInv;
    var req := Q.At(s.q, r);
    assert ReqHeld(s.cfg, s.b, s.st.started, r, req);
    forall x | B.Holds(s.b, r, req, x) ensures B.Owned(s.b, x) <==> !Missing(s.cfg, s.b, r, req, x) {
    }
  }

  /** req_queue accepts a buffer of a node whose link is disabled. The buffer is bound and
      on no list afterwards, and completing the request then breaks the accounting. */
  lemma {:induction false} DisabledNodeBreaks(s: State, r: ReqId, x: Buf, state: Vb2State, eof: nat)
    requires Own(s) && Legal(s, EvReqQueue(r, [x])) && x.node !in s.cfg.enabled && state != QUEUED
    ensures var s' := ReqQueue(s, r, [x]);
            && Live(s'.q, r) && !Q.At(s'.q, r).synthetic && B.Holds(s'.b, r, Q.At(s'.q, r), x) && !B.Owned(s'.b, x)
            && !B.Conserved(B.JobDone(s'.b, true, r, Q.At(s'.q, r), state, eof))
  {
    var s' := ReqQueue(s, r, [x]);
    ReqQueueHeld(s, r, [x]);
    NotGiven(s, r, x);
    hide Own, Legal, ReqQueue;
    JobDoneExact(s'.b, r, Q.At(s'.q, r), state, eof);
  }

  lemma {:induction false} NotGiven(s: State, r: ReqId, x: Buf)
    requires Core(s) && !Live(s.q, r) && x.node !in s.cfg.enabled && !B.Owned(s.b, x)
    ensures var s' := ReqQueue(s, r, [x]);
            && Live(s'.q, r) && !Q.At(s'.q, r).synthetic
            && B.Holds(s'.b, r, Q.At(s'.q, r), x) && !B.Owned(s'.b, x)
  {
    QueuedLive(s, r, [x]);
    assert x.node !in s.st.started;
    hide Core, ReqQueue;
    assert [x][1..] == [];
    assert GiveStarted(BindAll(s.b, [x], r), s.st.started, [x]) == BindAll(s.b, [x], r);
  }

  lemma {:induction false} QueuedLive(s: State, r: ReqId, xs: seq<Buf>)
    requires Core(s) && !Live(s.q, r)
    ensures var s' := ReqQueue(s, r, xs);
            && Live(s'.q, r) && !Q.At(s'.q, r).synthetic && Q.At(s'.q, r).bufs == xs
            && s'.b == GiveStarted(BindAll(s.b, xs, r), s.st.started, xs)
  {
    var req := Q.At(s.q, r).(synthetic := false, bufs := xs);
    var q1 := Q.Submit(s.q, r, req);
    Q.SubmitKeeps(s.q, s.st.pipelineOn, r, req);
    Q.DispatchFrame(q1);
    assert q1.pending[|s.q.pending|] == r;
    hide Q.Dispatch, Q.QInv, GiveStarted;
  }

  // ---- every entry point -------------------------------------------------

  lemma {:induction false} CompleteAllGiven(b: Buffers, r: ReqId, req: Request, todo: seq<Buf>, state: Vb2State, eof: nat)
    ensures B.CompleteAll(b, r, req, todo, state, eof).given == b.given
    decreases |todo|
  {
    if todo != [] {
      var x := todo[0];
      var hit := req.synthetic || (x in b.bound && b.bound[x] == r);
      CompleteAllGiven(if hit then B.Complete(b, x, state, B.StampOf(req, x, eof)) else b, r, req, todo[1..], state, eof);
    }
  }

  lemma {:induction false} RetireLoopGrows(q: Queues, b: Buffers, streaming: bool, f: nat, eof: nat)
    ensures var b' := RetireLoop(q, b, streaming, f, eof).1; b'.given == b.given && b.log <= b'.log
    decreases |q.running|
  {
    if q.running != [] {
      var r := q.running[0];
      var req := Q.At(q, r);
      CompleteAllGiven(b, r, req, req.bufs, DONE, eof);
      CompleteAllGiven(b, r, req, req.bufs, ERROR, eof);
      CompleteAllGrows(b, r, req, req.bufs, DONE, eof);
      CompleteAllGrows(b, r, req, req.bufs, ERROR, eof);
      hide B.CompleteAll;
      if req.frameSeq < f {
        RetireLoopGrows(Q.RetireHead(q, if streaming then Dropped else Silent),
                        B.JobDone(b, streaming, r, req, ERROR, eof), streaming, f, eof);
      }
    }
  }

  /** A retired request with a buffer that is on no list returns it all the same. */
  lemma {:induction false} RetireLoopOver(c: Config, q: Queues, b: Buffers, started: set<NodeId>, f: nat, eof: nat, r: ReqId, x: Buf)
    requires Q.MemOk(q) && Q.FramesOk(q) && B.BufInv(b) && Held(c, q, b, started)
    requires r in q.running && Q.At(q, r).frameSeq <= f && B.Holds(b, r, Q.At(q, r), x) && !B.Owned(b, x)
    ensures Over(RetireLoop(q, b, true, f, eof).1, x)
  {
    var j :| 0 <= j < |q.running| && q.running[j] == r;
    var req := Q.At(q, r);
    RetireLoopMarks(c, q, b, started, f, eof, j, x);
    RetireLoopGrows(q, b, true, f, eof);
    hide RetireLoop, Held, Q.MemOk, Q.FramesOk;
    UnownedReturned(b, RetireLoop(q, b, true, f, eof).1,
                    Completion(x, if req.frameSeq == f then DONE else ERROR, B.StampOf(req, x, eof)));
  }

  /** Dequeueing a ring takes nothing from a request that is on no list. */
  lemma {:induction false} RingLeaves(s: State, n: NodeId, frame: nat, seqNo: nat, fbc: nat, now: nat, r: ReqId, x: Buf)
    requires B.ListsOk(s.b) && !B.Owned(s.b, x) && Bound(s.b, r, x)
    ensures var b := DequeueFrame(s, n, frame, seqNo, fbc, now).b; !B.Owned(b, x) && Bound(b, r, x)
  {
    hide B.RingTake, B.ListsOk;
    if n in s.cfg.enabled && s.st.streaming {
      TakeLeaves(s.b, n, if fbc % 128 == 0 then EnqMeta(s.fr, n) else seqNo, frame, now, r, x);
    }
  }

  lemma {:induction false} TakeLeaves(b: Buffers, n: NodeId, limit: nat, frame: nat, now: nat, r: ReqId, x: Buf)
    requires B.ListsOk(b) && !B.Owned(b, x) && Bound(b, r, x)
    ensures var b' := B.RingTake(b, n, limit, frame, now); !B.Owned(b', x) && Bound(b', r, x)
  {
    hide B.PrefixLen, B.Dequeued;
    var k := B.PrefixLen(b, b.lists[n], limit);
    B.RingTakeLists(b, n, limit, frame, now);
    assert forall y :: y in b.lists[n][..k] ==> y in b.lists[n];
    assert x in b.lists[n] ==> x.node == n;
  }

  lemma {:induction false} RingsLeave(s: State, i: Irq, r: ReqId, x: Buf)
    requires B.BufInv(s.b) && Held(s.cfg, s.q, s.b, s.st.started) && !B.Owned(s.b, x) && Bound(s.b, r, x)
    ensures var s' := AfterRings(s, i);
            && !B.Owned(s'.b, x) && Bound(s'.b, r, x)
            && B.BufInv(s'.b) && Held(s'.cfg, s'.q, s'.b, s'.st.started) && s' == s.(b := s'.b)
  {
    hide Held, B.RingTake, B.Conserved, DequeueFrame;
    var s1 := if i.hwDone && i.aaoDone then DequeueFrame(s, MetaOut0, s.q.deq, s.fr.meta0, i.aaoFbc, i.now) else s;
    var s2 := if i.afoDone then DequeueFrame(s1, MetaOut1, s1.q.deq, s1.fr.meta1, i.afoFbc, i.now) else s1;
    DequeueFrameHeld(s, MetaOut0, s.q.deq, s.fr.meta0, i.aaoFbc, i.now);
    DequeueFrameHeld(s1, MetaOut1, s1.q.deq, s1.fr.meta1, i.afoFbc, i.now);
    DequeueFrameHeld(s2, MetaOut0, s2.q.deq, s2.fr.meta0, i.aaoFbcSw, i.now);
    RingLeaves(s, MetaOut0, s.q.deq, s.fr.meta0, i.aaoFbc, i.now, r, x);
    RingLeaves(s1, MetaOut1, s1.q.deq, s1.fr.meta1, i.afoFbc, i.now, r, x);
    RingLeaves(s2, MetaOut0, s2.q.deq, s2.fr.meta0, i.aaoFbcSw, i.now, r, x);
  }

  lemma {:induction false} IrqOver(s: State, i: Irq, r: ReqId, x: Buf)
    requires Core(s) && B.BufInv(s.b) && Held(s.cfg, s.q, s.b, s.st.started) && s.st.streaming && i.swDone
    requires r in s.q.running && Q.At(s.q, r).frameSeq <= s.q.deq && x in Q.At(s.q, r).bufs
    requires Missing(s.cfg, s.b, r, Q.At(s.q, r), x)
    ensures Over(HandleIrq(s, i).b, x)
  {
    assert Q.MemOk(s.q) && Q.FramesOk(s.q) && MainOut in s.cfg.enabled;
    hide Core, Q.MemOk, Q.FramesOk, B.BufInv;
    assert ReqHeld(s.cfg, s.b, s.st.started, r, Q.At(s.q, r)) by { assert Live(s.q, r); }
    hide Held;
    RingsLeave(s, i, r, x);
    var s3 := AfterRings(s, i);
    RetireLoopOver(s3.cfg, s3.q, s3.b, s3.st.started, s3.q.deq, i.now, r, x);
    IrqBuffers(s, i);
    hide HandleIrq, AfterRings, RetireLoop;
  }

  lemma {:induction false} IrqBuffers(s: State, i: Irq)
    requires i.swDone
    ensures var s3 := AfterRings(s, i);
            HandleIrq(s, i).b == RetireLoop(s3.q, s3.b, s3.st.streaming, s3.q.deq, i.now).1
  {
    hide DequeueFrame, RetireLoop, Q.Dispatch, StampSof;
  }

  lemma {:induction false} IrqAccounted(s: State, i: Irq)
    requires Core(s) && B.BufInv(s.b) && Held(s.cfg, s.q, s.b, s.st.started)
    ensures B.Conserved(HandleIrq(s, i).b) <==> Accounted(s, EvIrq(i))
  {
    hide HandleIrq, Core, Held, B.Conserved, B.ListsOk;
    if Accounted(s, EvIrq(i)) {
      IrqHeld(s, i);
    } else {
      var r, x :| r in s.q.running && Q.At(s.q, r).frameSeq <= s.q.deq && x in Q.At(s.q, r).bufs
                  && Missing(s.cfg, s.b, r, Q.At(s.q, r), x);
      IrqOver(s, i, r, x);
      OverNotConserved(HandleIrq(s, i).b, x);
    }
  }

  /** Registering the queued buffers of a node touches no list, and returns nothing when
      every request can be allocated. */
  lemma {:induction false} EachKeeps(s: State, xs: seq<Buf>, allocs: seq<Alloc>)
    requires |allocs| == |xs| && !s.st.streaming
    ensures var b := EnqueueEach(s, xs, allocs).b;
            && b.lists == s.b.lists && b.given == s.b.given && s.b.log <= b.log
            && ((forall i :: 0 <= i < |xs| ==> allocs[i].Ptr? || xs[i].node != MainOut) ==> b.log == s.b.log && b.bound == s.b.bound)
    decreases |xs|
  {
    if xs != [] {
      EachKeeps(EnqueueNoRequest(s, xs[0], allocs[0]), xs[1..], allocs[1..]);
      assert forall i :: 0 < i < |xs| ==> xs[i] == xs[1..][i - 1] && allocs[i] == allocs[1..][i - 1];
    }
  }

  /** A buffer whose request cannot be allocated is returned. */
  lemma {:induction false} EachReturns(s: State, xs: seq<Buf>, allocs: seq<Alloc>, i: nat)
    requires |allocs| == |xs| && !s.st.streaming
    requires i < |xs| && allocs[i].Null? && xs[i].node == MainOut
    ensures LoggedSince(s.b.log, EnqueueEach(s, xs, allocs).b.log, Completion(xs[i], ERROR, Unstamped))
    decreases |xs|
  {
    var c := Completion(xs[i], ERROR, Unstamped);
    var s1 := EnqueueNoRequest(s, xs[0], allocs[0]);
    EachKeeps(s1, xs[1..], allocs[1..]);
    if i == 0 {
      assert s1.b.log[|s.b.log|] == c;
    } else {
      EachReturns(s1, xs[1..], allocs[1..], i - 1);
    }
    LoggedLater(s.b.log, s1.b.log, EnqueueEach(s1, xs[1..], allocs[1..]).b.log, c);
  }

  /** A buffer that was returned while it stays on the list. */
  predicate OnListOver(b: Buffers, x: Buf) {
    B.Owned(b, x) && Over(b, x)
  }

  /** Registration keeps the accounting exactly when all allocations succeed. */
  lemma {:induction false} RegisterAccounted(s: State, n: NodeId, allocs: seq<Alloc>)
    requires B.BufInv(s.b) && !s.st.streaming && (n !in s.cfg.viaRequests ==> |allocs| == |s.b.lists[n]|)
    ensures B.ListsOk(Register(s, n, allocs).b)
    ensures (Allocates(s, n) ==> AllAllocated(allocs)) ==> B.BufInv(Register(s, n, allocs).b)
    ensures Allocates(s, n) && !AllAllocated(allocs) ==> exists x :: OnListOver(Register(s, n, allocs).b, x)
  {
    if n !in s.cfg.viaRequests {
      var l := s.b.lists[n];
      EachKeeps(s, l, allocs);
      var b := Register(s, n, allocs).b;
      assert forall i :: 0 <= i < |l| ==> l[i] in l;
      if n == MainOut && !AllAllocated(allocs) {
        var i :| 0 <= i < |allocs| && allocs[i].Null?;
        EachReturns(s, l, allocs, i);
        LoggedCounts(s.b.log, b.log, Completion(l[i], ERROR, Unstamped));
        assert OnListOver(b, l[i]);
      }
    }
  }

  /** Returning a node's list does not mend it. */
  lemma {:induction false} ReturnStaysOver(b: Buffers, n: NodeId, state: Vb2State, x: Buf)
    requires B.ListsOk(b) && OnListOver(b, x)
    ensures Over(B.ReturnAll(b, n, state), x)
  {
    hide B.DoneCount, B.Returned;
    B.DoneCountAppend(b.log, B.Returned(b.lists[n], state), b.lists[n], x);
  }

  lemma {:induction false} FinishBuffers(s: State, n: NodeId, o: CioOutcome)
    ensures var b := FinishStart(s, n, o).b; b == s.b || b == B.ReturnAll(s.b, n, QUEUED)
  {
    hide Q.Dispatch, B.ReturnAll;
  }

  lemma {:induction false} TailAccounted(s: State, n: NodeId, env: StartEnv)
    requires B.BufInv(s.b) && !s.st.streaming && (n !in s.cfg.viaRequests ==> |env.allocs| == |s.b.lists[n]|)
    ensures B.Conserved(StartTail(s, n, env).b) <==> (Allocates(s, n) ==> AllAllocated(env.allocs))
  {
    hide Register, FinishStart, B.Conserved, B.ListsOk, AllAllocated, OnListOver, B.ReturnAll;
    RegisterAccounted(s, n, env.allocs);
    var s1 := Register(s, n, env.allocs);
    FinishBuffers(s1, n, env.cio);
    if Allocates(s, n) && !AllAllocated(env.allocs) {
      var x :| OnListOver(s1.b, x);
      ReturnStaysOver(s1.b, n, QUEUED, x);
      assert Over(s1.b, x) by { WasOver(s1.b, x); }
      OverNotConserved(StartTail(s, n, env).b, x);
    } else {
      B.ReturnAllKeeps(s1.b, n, QUEUED);
    }
  }

  lemma {:induction false} WasOver(b: Buffers, x: Buf)
    requires OnListOver(b, x)
    ensures Over(b, x)
  {
  }

  /** start_streaming keeps the accounting exactly when it does not get as far as
      registering, or every allocation there succeeds, whatever s_stream(1) says then. */
  lemma {:induction false} StartAccounted(s: State, n: NodeId, env: StartEnv)
    requires Core(s) && B.BufInv(s.b) && Legal(s, EvStart(n, env))
    ensures B.Conserved(Start(s, n, env).b) <==> (Registers(s, n, env) && Allocates(s, n) ==> AllAllocated(env.allocs))
  {
    if n in s.cfg.enabled { EnabledOff(s, n); }
    hide Core, B.Conserved, B.ListsOk, StartTail, AllAllocated, HandedOver, FreshAllocs, B.ReturnAll;
    B.ReturnAllKeeps(s.b, n, QUEUED);
    if Registers(s, n, env) {
      TailAccounted(if s.st.pipelineOn then s else HwInit(InitStream(s.(st := s.st.(pipelineOn := true)))), n, env);
    }
  }

  /** The exact conditions: in a state where everything was accounted for, an entry point
      keeps it so if and only if its guard holds. buf_queue needs its allocation to succeed
      if it makes one; start_streaming the same for every buffer it registers; the done
      interrupt needs the buffers of the requests it retires not to be missing. */
  lemma {:induction false} StepAccounted(s: State, e: Event)
    requires Own(s) && Legal(s, e)
    ensures B.Conserved(Step(s, e).b) <==> Accounted(s, e)
  {
    hide Core, B.Conserved, B.ListsOk, Held, RequestsOk, HandedOver, FreshAllocs, NoneMissing;
    match e
    case EvReqQueue(r, xs) => hide ReqQueue; ReqQueueHeld(s, r, xs);
    case EvBufQueue(x, alloc) => hide BufQueue; AllocationExact(s, x, alloc);
    case EvWorker => SameBuffers(s);
    case EvComposer(m) =>
    case EvIrq(i) => hide HandleIrq; IrqAccounted(s, i);
    case EvStart(n, env) => hide Start; StartAccounted(s, n, env);
    case EvStop(n) => hide Stop; StopHeld(s, n);
    case EvCancel(n) => hide CancelQueue; CancelHeld(s, n);
  }

  lemma {:induction false} SameBuffers(s: State)
    ensures Worker(s).b == s.b
  {
  }

  /** buf_queue keeps the exactly-once accounting if and only if the allocation it
      makes, if it makes one, succeeds: on failure the buffer is returned but stays
      on the list. */
  lemma {:induction false} AllocationExact(s: State, x: Buf, alloc: Alloc)
    requires Own(s) && Legal(s, EvBufQueue(x, alloc))
    ensures B.Conserved(BufQueue(s, x, alloc).b) <==> Accounted(s, EvBufQueue(x, alloc))
  {
    if Accounted(s, EvBufQueue(x, alloc)) {
      hide BufQueue;
      BufQueueHeld(s, x, alloc);
    } else {
      B.GiveKeeps(s.b, x);
      B.DoneWithoutDelBreaks(B.Give(s.b, x), x, ERROR, Unstamped);
    }
  }
}
