/** The meta ring in closed form, the stream machine over every run, and FIFO order step
    by step. */
module CamLimits {
  import opened CamTypes
  import opened CamPipeline
  import opened CamCore
  import opened CamSessions
  import opened CamRing
  import opened CamTheorems
  import opened CamRequests
  import opened CamOwnership
  import opened CamExact
  import B = CamBuffers
  import Q = CamQueues

  // ---- the meta ring -----------------------------------------------------

  lemma {:induction false} SplitMember(l: seq<Buf>, k: nat, x: Buf)
    requires Distinct(l) && k <= |l| && x in l
    ensures x in l[k..] <==> exists i :: k <= i < |l| && l[i] == x
  {
    if x in l[k..] {
      var j :| 0 <= j < |l[k..]| && l[k..][j] == x;
      assert l[k + j] == x;
    }
  }

  /** In a numbered ring the prefix within the limit is everything within the limit. */
  lemma {:induction false} PrefixIsFilter(b: Buffers, l: seq<Buf>, e: nat, limit: nat, x: Buf)
    requires Numbered(b, l, e) && Distinct(l) && x in l
    ensures x in l[B.PrefixLen(b, l, limit)..] <==> B.SeqNo(b, x) > limit
  {
    var k := B.PrefixLen(b, l, limit);
    var i :| 0 <= i < |l| && l[i] == x;
    SplitMember(l, k, x);
    if i >= k { assert B.SeqNo(b, l[k]) > limit; }
  }

  lemma {:induction false} RingTakeExact(b: Buffers, n: NodeId, e: nat, limit: nat, frame: nat, now: nat)
    requires Numbered(b, b.lists[n], e) && Distinct(b.lists[n])
    ensures var b' := B.RingTake(b, n, limit, frame, now);
            var l := b.lists[n];
            var k := |l| - |b'.lists[n]|;
            && 0 <= k <= |l| && b'.lists[n] == l[k..]
            && (forall x :: x in l ==> (x in b'.lists[n] <==> B.SeqNo(b, x) > limit))
            && b'.log == b.log + B.Dequeued(l[..k], frame, now)
            && (limit == e ==> b'.lists[n] == [])
  {
    var l := b.lists[n];
    forall x | x in l ensures x in l[B.PrefixLen(b, l, limit)..] <==> B.SeqNo(b, x) > limit {
      PrefixIsFilter(b, l, e, limit, x);
    }
    assert limit == e ==> B.PrefixLen(b, l, limit) == |l|;
  }

  /** While streaming, dequeue_frame returns exactly the ring buffers numbered up to
      the limit, which is everything when the FBC count is zero, in order and with
      consecutive frame stamps. */
  lemma {:induction false} RingDequeueExact(s: State, n: NodeId, frame: nat, seqNo: nat, fbc: nat, now: nat)
    requires Own(s) && IsRing(s.cfg, n) && n in s.cfg.enabled && s.st.streaming
    ensures var s' := DequeueFrame(s, n, frame, seqNo, fbc, now);
            var l := s.b.lists[n];
            var limit := if fbc % 128 == 0 then EnqMeta(s.fr, n) else seqNo;
            var k := |l| - |s'.b.lists[n]|;
            && 0 <= k <= |l| && s'.b.lists[n] == l[k..]
            && (forall x :: x in l ==> (x in s'.b.lists[n] <==> B.SeqNo(s.b, x) > limit))
            && s'.b.log == s.b.log + B.Dequeued(l[..k], frame, now)
            && (fbc % 128 == 0 ==> s'.b.lists[n] == [])
  {
    hide Own, Numbered, B.RingTake, B.Dequeued;
    StreamingRing(s, n);
    RingTakeExact(s.b, n, EnqMeta(s.fr, n), if fbc % 128 == 0 then EnqMeta(s.fr, n) else seqNo, frame, now);
  }

  lemma {:induction false} StreamingRing(s: State, n: NodeId)
    requires Own(s) && IsRing(s.cfg, n) && n in s.cfg.enabled && s.st.streaming
    ensures Numbered(s.b, s.b.lists[n], EnqMeta(s.fr, n)) && Distinct(s.b.lists[n])
  {
    assert n in s.st.started && s.st.dmas != {};
  }

  /** What is left on a ring after a take starts beyond the limit. */
  lemma {:induction false} NothingLeft(b: Buffers, n: NodeId, limit: nat, frame: nat, now: nat)
    ensures var b' := B.RingTake(b, n, limit, frame, now); B.PrefixLen(b', b'.lists[n], limit) == 0
  {
    var l := b.lists[n];
    var k := B.PrefixLen(b, l, limit);
    assert l[k..] != [] ==> l[k..][0] == l[k];
  }

  lemma {:induction false} TakeNothing(b: Buffers, n: NodeId, limit: nat, frame: nat, now: nat)
    requires B.PrefixLen(b, b.lists[n], limit) == 0
    ensures B.RingTake(b, n, limit, frame, now) == b
  {
    var l := b.lists[n];
    assert l[0..] == l && l[..0] == [];
    assert b.lists[n := l] == b.lists;
    assert b.bound - (set x | x in l[..0]) == b.bound;
    assert b.log + B.Dequeued(l[..0], frame, now) == b.log;
  }

  /** Right after dequeue_frame, a second call with the same limit does nothing. */
  lemma {:induction false} RingDequeueTwice(s: State, n: NodeId, frame: nat, seqNo: nat, fbc: nat, now: nat, frame2: nat, now2: nat)
    ensures var s' := DequeueFrame(s, n, frame, seqNo, fbc, now);
            DequeueFrame(s', n, frame2, seqNo, fbc, now2) == s'
  {
    hide B.RingTake, B.PrefixLen;
    var limit := if fbc % 128 == 0 then EnqMeta(s.fr, n) else seqNo;
    NothingLeft(s.b, n, limit, frame, now);
    TakeNothing(B.RingTake(s.b, n, limit, frame, now), n, limit, frame2, now2);
  }

  // ---- the meta nodes in request mode ------------------------------------

  /** Buffers of requests have no number, so dequeue_frame returns the whole list of a meta
      node that is used through requests, whatever the counters say. */
  lemma {:induction false} RequestRingTaken(s: State, n: NodeId, frame: nat, seqNo: nat, fbc: nat, now: nat)
    requires B.ListsOk(s.b) && SeqOk(s.cfg, s.b) && n in s.cfg.viaRequests && n in s.cfg.enabled && s.st.streaming
    ensures var b := DequeueFrame(s, n, frame, seqNo, fbc, now).b;
            b.lists[n] == [] && b.log == s.b.log + B.Dequeued(s.b.lists[n], frame, now)
  {
    var l := s.b.lists[n];
    forall i | 0 <= i < |l| ensures B.SeqNo(s.b, l[i]) == 0 { assert l[i] in l; }
    assert B.PrefixLen(s.b, l, if fbc % 128 == 0 then EnqMeta(s.fr, n) else seqNo) == |l|;
    assert l[..|l|] == l;
  }

  /** The other node's list stays, and so does what the next call needs. */
  lemma {:induction false} RingOther(s: State, n: NodeId, frame: nat, seqNo: nat, fbc: nat, now: nat)
    requires B.ListsOk(s.b)
    ensures var s' := DequeueFrame(s, n, frame, seqNo, fbc, now);
            && s' == s.(b := s'.b) && B.ListsOk(s'.b) && s'.b.seqNo == s.b.seqNo && s'.b.bound.Keys <= s.b.bound.Keys
            && s.b.log <= s'.b.log
            && (s.b.lists[n] == [] ==> s'.b.lists[n] == [])
            && forall m: NodeId :: m != n ==> s'.b.lists[m] == s.b.lists[m]
  {
    hide B.RingTake, B.ListsOk;
    if n in s.cfg.enabled && s.st.streaming {
      TakeOther(s.b, n, if fbc % 128 == 0 then EnqMeta(s.fr, n) else seqNo, frame, now);
    }
  }

  lemma {:induction false} TakeOther(b: Buffers, n: NodeId, limit: nat, frame: nat, now: nat)
    requires B.ListsOk(b)
    ensures var b' := B.RingTake(b, n, limit, frame, now);
            && B.ListsOk(b') && b'.seqNo == b.seqNo && b'.bound.Keys <= b.bound.Keys && b.log <= b'.log
            && (b.lists[n] == [] ==> b'.lists[n] == [])
            && forall m: NodeId :: m != n ==> b'.lists[m] == b.lists[m]
  {
    B.RingTakeLists(b, n, limit, frame, now);
    hide B.PrefixLen, B.ListsOk;
  }

  /** From s0 to s only rings were dequeued; the k-th buffer of n has left exactly when
      taken holds, and then with the completion c. */
  ghost predicate Taking(s0: State, s: State, n: NodeId, taken: bool, c: Completion) {
    && s == s0.(b := s.b) && B.ListsOk(s.b) && SeqOk(s.cfg, s.b) && s0.b.log <= s.b.log
    && (if taken then s.b.lists[n] == [] && LoggedSince(s0.b.log, s.b.log, c) else s.b.lists[n] == s0.b.lists[n])
  }

  /** What a call on another node, or on an empty list, leaves as it was. */
  lemma {:induction false} TakeElsewhere(s0: State, s: State, s': State, n: NodeId, taken: bool, c: Completion)
    requires Taking(s0, s, n, taken, c)
    requires s' == s.(b := s'.b) && B.ListsOk(s'.b) && s'.b.seqNo == s.b.seqNo && s'.b.bound.Keys <= s.b.bound.Keys
    requires s.b.log <= s'.b.log
    requires s'.b.lists[n] == s.b.lists[n]
    ensures Taking(s0, s', n, taken, c)
  {
    hide B.ListsOk;
    if taken { LoggedLater(s0.b.log, s.b.log, s'.b.log, c); }
  }

  /** The call that takes the list. */
  lemma {:induction false} TakeHere(s0: State, s: State, n: NodeId, seqNo: nat, fbc: nat, now: nat, k: nat)
    requires k < |s0.b.lists[n]| && n in s.cfg.viaRequests && n in s.cfg.enabled && s.st.streaming
    requires Taking(s0, s, n, false, Completion(s0.b.lists[n][k], DONE, Stamp(s.q.deq + k, now)))
    ensures Taking(s0, DequeueFrame(s, n, s.q.deq, seqNo, fbc, now), n, true,
                   Completion(s0.b.lists[n][k], DONE, Stamp(s.q.deq + k, now)))
  {
    hide DequeueFrame, B.ListsOk, SeqOk;
    var s' := DequeueFrame(s, n, s.q.deq, seqNo, fbc, now);
    RingOther(s, n, s.q.deq, seqNo, fbc, now);
    RequestRingTaken(s, n, s.q.deq, seqNo, fbc, now);
    assert s'.b.log[|s.b.log| + k] == Completion(s0.b.lists[n][k], DONE, Stamp(s.q.deq + k, now));
    SameSeqNo(s.cfg, s.b, s'.b);
  }

  lemma {:induction false} OneTake(s0: State, s: State, m: NodeId, seqNo: nat, fbc: nat, now: nat, n: NodeId, taken: bool, k: nat)
    requires k < |s0.b.lists[n]| && n in s.cfg.viaRequests && n in s.cfg.enabled && s.st.streaming
    requires Taking(s0, s, n, taken, Completion(s0.b.lists[n][k], DONE, Stamp(s.q.deq + k, now)))
    ensures Taking(s0, DequeueFrame(s, m, s.q.deq, seqNo, fbc, now), n, taken || m == n,
                   Completion(s0.b.lists[n][k], DONE, Stamp(s.q.deq + k, now)))
  {
    hide DequeueFrame, Taking, B.ListsOk, SeqOk;
    var c := Completion(s0.b.lists[n][k], DONE, Stamp(s.q.deq + k, now));
    if m == n && !taken {
      TakeHere(s0, s, n, seqNo, fbc, now, k);
    } else {
      TakingLists(s0, s, n, taken, c);
      RingOther(s, m, s.q.deq, seqNo, fbc, now);
      TakeElsewhere(s0, s, DequeueFrame(s, m, s.q.deq, seqNo, fbc, now), n, taken, c);
    }
  }

  lemma {:induction false} TakingLists(s0: State, s: State, n: NodeId, taken: bool, c: Completion)
    requires Taking(s0, s, n, taken, c)
    ensures B.ListsOk(s.b) && (taken ==> s.b.lists[n] == [])
  {
  }

  /** The done bits on which an interrupt dequeues the node. */
  predicate Dequeues(i: Irq, n: NodeId) {
    if n == MetaOut0 then i.swDone || (i.hwDone && i.aaoDone) else i.afoDone
  }

  /** The state between the dequeueing of the two meta nodes and the retiring of requests. */
  function Between(s: State, i: Irq): State {
    if i.swDone then AfterRings(s, i) else HandleEvent(s, i)
  }

  /** A buffer of a request that waits on a meta node is returned ahead of its request, by
      the first interrupt with the node's done bit, and only by it; its stamp is the frame
      reported last plus its place on the list, and the time of the interrupt. */
  lemma {:induction false} ReturnedEarly(s: State, i: Irq, n: NodeId, k: nat)
    requires Own(s) && s.st.streaming && RingNode(n) && n in s.cfg.viaRequests && n in s.cfg.enabled
    requires k < |s.b.lists[n]|
    ensures var s', l := Between(s, i), s.b.lists[n];
            && s'.b.lists[n] == (if Dequeues(i, n) then [] else l)
            && s.b.log <= s'.b.log
            && (Dequeues(i, n) ==> LoggedSince(s.b.log, s'.b.log, Completion(l[k], DONE, Stamp(s.q.deq + k, i.now))))
  {
    hide Own, DequeueFrame, Taking, HandleEvent, Between, AfterRings, AfterAao, AfterAfo;
    var c := Completion(s.b.lists[n][k], DONE, Stamp(s.q.deq + k, i.now));
    NothingYet(s, n, c);
    AaoTake(s, i, n, k);
    AfoTake(s, i, n, k);
    LastTake(s, i, n, k);
    TakenParts(s, Between(s, i), n, Dequeues(i, n), c);
  }

  function AfterAao(s: State, i: Irq): State {
    if i.hwDone && i.aaoDone then DequeueFrame(s, MetaOut0, s.q.deq, s.fr.meta0, i.aaoFbc, i.now) else s
  }

  function AfterAfo(s: State, i: Irq): State {
    var s1 := AfterAao(s, i);
    if i.afoDone then DequeueFrame(s1, MetaOut1, s1.q.deq, s1.fr.meta1, i.afoFbc, i.now) else s1
  }

  lemma {:induction false} NothingYet(s: State, n: NodeId, c: Completion)
    requires Own(s)
    ensures Taking(s, s, n, false, c)
  {
    hide Core, Held;
  }

  lemma {:induction false} AaoTake(s: State, i: Irq, n: NodeId, k: nat)
    requires k < |s.b.lists[n]| && n in s.cfg.viaRequests && n in s.cfg.enabled && s.st.streaming
    requires Taking(s, s, n, false, Completion(s.b.lists[n][k], DONE, Stamp(s.q.deq + k, i.now)))
    ensures Taking(s, AfterAao(s, i), n, i.hwDone && i.aaoDone && n == MetaOut0,
                   Completion(s.b.lists[n][k], DONE, Stamp(s.q.deq + k, i.now)))
  {
    hide DequeueFrame, Taking;
    OneTake(s, s, MetaOut0, s.fr.meta0, i.aaoFbc, i.now, n, false, k);
  }

  lemma {:induction false} AfoTake(s: State, i: Irq, n: NodeId, k: nat)
    requires k < |s.b.lists[n]| && n in s.cfg.viaRequests && n in s.cfg.enabled && s.st.streaming
    requires Taking(s, AfterAao(s, i), n, i.hwDone && i.aaoDone && n == MetaOut0,
                    Completion(s.b.lists[n][k], DONE, Stamp(s.q.deq + k, i.now)))
    ensures Taking(s, AfterAfo(s, i), n, (i.hwDone && i.aaoDone && n == MetaOut0) || (i.afoDone && n == MetaOut1),
                   Completion(s.b.lists[n][k], DONE, Stamp(s.q.deq + k, i.now)))
  {
    hide DequeueFrame, Taking, AfterAao;
    var s1, t1 := AfterAao(s, i), i.hwDone && i.aaoDone && n == MetaOut0;
    SameQueues(s, s1, n, t1, Completion(s.b.lists[n][k], DONE, Stamp(s.q.deq + k, i.now)));
    OneTake(s, s1, MetaOut1, s1.fr.meta1, i.afoFbc, i.now, n, t1, k);
  }

  lemma {:induction false} LastTake(s: State, i: Irq, n: NodeId, k: nat)
    requires k < |s.b.lists[n]| && n in s.cfg.viaRequests && n in s.cfg.enabled && s.st.streaming && RingNode(n)
    requires Taking(s, AfterAfo(s, i), n, (i.hwDone && i.aaoDone && n == MetaOut0) || (i.afoDone && n == MetaOut1),
                    Completion(s.b.lists[n][k], DONE, Stamp(s.q.deq + k, i.now)))
    ensures Taking(s, Between(s, i), n, Dequeues(i, n),
                   Completion(s.b.lists[n][k], DONE, Stamp(s.q.deq + k, i.now)))
  {
    BetweenIs(s, i);
    hide DequeueFrame, Taking, AfterAfo, Between;
    var s2 := AfterAfo(s, i);
    var t2 := (i.hwDone && i.aaoDone && n == MetaOut0) || (i.afoDone && n == MetaOut1);
    SameQueues(s, s2, n, t2, Completion(s.b.lists[n][k], DONE, Stamp(s.q.deq + k, i.now)));
    OneTake(s, s2, MetaOut0, s2.fr.meta0, i.aaoFbcSw, i.now, n, t2, k);
  }

  lemma {:induction false} BetweenIs(s: State, i: Irq)
    ensures Between(s, i) == var s2 := AfterAfo(s, i);
            if i.swDone then DequeueFrame(s2, MetaOut0, s2.q.deq, s2.fr.meta0, i.aaoFbcSw, i.now) else s2
  {
    hide DequeueFrame, TryQueue, DequeueReqFrame;
  }

  lemma {:induction false} SameQueues(s0: State, s: State, n: NodeId, taken: bool, c: Completion)
    requires Taking(s0, s, n, taken, c)
    ensures s.q == s0.q && s.st == s0.st && s.cfg == s0.cfg && s.fr == s0.fr
  {
  }

  lemma {:induction false} TakenParts(s0: State, s: State, n: NodeId, taken: bool, c: Completion)
    requires Taking(s0, s, n, taken, c)
    ensures s.b.lists[n] == (if taken then [] else s0.b.lists[n]) && s0.b.log <= s.b.log
    ensures taken ==> LoggedSince(s0.b.log, s.b.log, c)
  {
  }

  // ---- the stream machine ------------------------------------------------

  /** Streaming exactly when all enabled nodes are started; it implies that sensor and
      seninf are on, and both are off otherwise. The workqueue of a streaming driver is
      there exactly while enabled_dmas is not empty. */
  lemma {:induction false} StreamMachine(c: Config, run: seq<Event>)
    requires CfgOk(c) && RunOk(Initial(c), run)
    ensures var st := Exec(Initial(c), run).st;
            && (st.streaming <==> st.started == c.enabled)
            && (st.streaming ==> st.sensorOn && st.seninfOn && st.pipelineOn)
            && (!st.streaming ==> !st.sensorOn && !st.seninfOn)
            && st.streamCount == |st.started|
            && (st.streaming ==> (st.wqAlive <==> st.dmas != {}))
  {
    InitialCore(c);
    RunCore(Initial(c), run);
    ExecConfig(Initial(c), run);
    hide Exec, RunOk, Q.QInv;
  }

  /** A start whose s_stream(1) fails leaves the stream, the sensor and the seninf off
      and the node not started. */
  lemma {:induction false} FailedStartLeavesOff(s: State, n: NodeId, env: StartEnv)
    requires Core(s) && Legal(s, EvStart(n, env))
    requires StartsLast(s, n) && env.pipelineOk && env.hwOk && env.cio != CioOk
    ensures var st := Start(s, n, env).st;
            && !st.streaming && !st.sensorOn && !st.seninfOn
            && st.started == s.st.started && st.streamCount == s.st.streamCount
            && (st.pipelineOn <==> s.st.pipelineOn)
  {
    StartCore(s, n, env);
    if s.st.pipelineOn {
      LaterStart(s, n);
      FailedTail(s, n, env);
    } else {
      FirstStart(s, n);
      FailedTail(HwInit(InitStream(s.(st := s.st.(pipelineOn := true)))), n, env);
    }
  }

  lemma {:induction false} FailedTail(s: State, n: NodeId, env: StartEnv)
    requires Starting(s.cfg, s.st, n) && s.st.streamCount + 1 >= s.st.enabledCount && env.cio != CioOk
    requires n !in s.cfg.viaRequests ==> |env.allocs| == |s.b.lists[n]|
    ensures StartTail(s, n, env).st
            == if s.st.streamCount == 0 then s.st.(pipelineOn := false, stopped := {}) else s.st
  {
    if n !in s.cfg.viaRequests { EachFrame(s, s.b.lists[n], env.allocs); }
    StartingOutcomes(s.cfg, s.st, n);
    hide StreamOk, EnqueueEach;
    FailedStreamOn(CountUp(Register(s, n, env.allocs)), env.cio);
    hide CioStreamOn;
  }

  // ---- FIFO order, step by step ------------------------------------------

  /** q' continues q: both histories and the frame counter only grow. */
  ghost predicate Extends(q: Queues, q': Queues) {
    q.submitted <= q'.submitted && q.retired <= q'.retired && q.enq <= q'.enq
  }

  lemma {:induction false} SubmitExtends(q: Queues, r: ReqId, req: Request)
    requires Q.QInv(q, true) && !Live(q, r)
    ensures Extends(q, Q.Submit(q, r, req)) && Extends(q, Q.Dispatch(Q.Submit(q, r, req)))
  {
    Q.SubmitKeeps(q, true, r, req);
    DispatchExtends(Q.Submit(q, r, req));
    hide Q.Dispatch, Q.QInv;
  }

  lemma {:induction false} DispatchExtends(q: Queues)
    requires Q.QInv(q, true)
    ensures Extends(q, Q.Dispatch(q))
  {
    Q.DispatchKeeps(q);
    Q.DispatchFrame(q);
    hide Q.Dispatch;
  }

  lemma {:induction false} RetireLoopExtends(q: Queues, b: Buffers, streaming: bool, f: nat, eof: nat)
    ensures Extends(q, RetireLoop(q, b, streaming, f, eof).0)
    decreases |q.running|
  {
    if q.running != [] && Q.At(q, q.running[0]).frameSeq < f {
      var r := q.running[0];
      RetireLoopExtends(Q.RetireHead(q, if streaming then Dropped else Silent),
                        B.JobDone(b, streaming, r, Q.At(q, r), ERROR, eof), streaming, f, eof);
    }
  }

  lemma {:induction false} RetireAndQueueExtends(s: State, eof: nat)
    requires Q.QInv(s.q, s.st.pipelineOn) && (s.st.streaming ==> s.st.pipelineOn)
    ensures Extends(s.q, TryQueue(DequeueReqFrame(s, s.q.deq, eof)).q)
  {
    RetireLoopExtends(s.q, s.b, s.st.streaming, s.q.deq, eof);
    RetireLoopCore(s.q, s.b, s.st.streaming, s.q.deq, eof, s.st.pipelineOn);
    hide RetireLoop, Q.QInv;
    if s.st.streaming { DispatchExtends(DequeueReqFrame(s, s.q.deq, eof).q); }
    hide Q.Dispatch;
  }

  lemma {:induction false} EventExtends(s: State, i: Irq)
    requires Q.QInv(s.q, s.st.pipelineOn) && (s.st.streaming ==> s.st.pipelineOn)
    ensures Extends(s.q, HandleEvent(s, i).q)
  {
    var s1 := if i.hwDone && i.aaoDone then DequeueFrame(s, MetaOut0, s.q.deq, s.fr.meta0, i.aaoFbc, i.now) else s;
    var s2 := if i.afoDone then DequeueFrame(s1, MetaOut1, s1.q.deq, s1.fr.meta1, i.afoFbc, i.now) else s1;
    var s3 := DequeueFrame(s2, MetaOut0, s2.q.deq, s2.fr.meta0, i.aaoFbcSw, i.now);
    assert s3.q == s.q && s3.st == s.st && s2.q == s.q;
    hide Q.QInv, DequeueFrame, TryQueue, DequeueReqFrame;
    if i.swDone { RetireAndQueueExtends(s3, i.now); }
  }

  lemma {:induction false} FifoIrq(s: State, i: Irq)
    requires Core(s)
    ensures Extends(s.q, HandleIrq(s, i).q)
  {
    EventExtends(s, i);
    SofExtends(HandleEvent(s, i), i);
    hide HandleEvent, HandleSof;
  }

  lemma {:induction false} SofExtends(s: State, i: Irq)
    ensures Extends(s.q, HandleSof(s, i).q)
  {
  }

  lemma {:induction false} EachExtends(s: State, xs: seq<Buf>, allocs: seq<Alloc>)
    requires |allocs| == |xs| && !s.st.streaming
    ensures Extends(s.q, EnqueueEach(s, xs, allocs).q)
    decreases |xs|
  {
    if xs != [] { EachExtends(EnqueueNoRequest(s, xs[0], allocs[0]), xs[1..], allocs[1..]); }
  }

  lemma {:induction false} FinishStartExtends(s: State, n: NodeId, o: CioOutcome)
    requires Q.QInv(s.q, true) && !s.st.streaming && !s.st.seninfOn && !s.st.sensorOn
    ensures Extends(s.q, FinishStart(s, n, o).q)
  {
    hide FinishStart, Q.Dispatch, Q.QInv, B.ReturnAll;
    DispatchExtends(s.q);
    FinishIs(s, n, o);
  }

  lemma {:induction false} FifoStart(s: State, n: NodeId, env: StartEnv)
    requires Core(s) && Legal(s, EvStart(n, env)) && s.st.pipelineOn
    ensures Extends(s.q, Start(s, n, env).q)
  {
    if n in s.cfg.enabled {
      LaterStart(s, n);
      StartingOff(s.cfg, s.st, n);
      RegisterSame(s, n, env.allocs);
      if n !in s.cfg.viaRequests {
        EachExtends(s, s.b.lists[n], env.allocs);
        EnqueueEachQueues(s, s.b.lists[n], env.allocs, true);
      }
      hide Q.Dispatch, Q.QInv, StreamOk, Starting, HandedOver, EnqueueEach, FinishStart;
      FinishStartExtends(Register(s, n, env.allocs), n, env.cio);
    }
  }

  /** Within a session a step only appends to the submission history and to the
      retired prefix of it, and frame numbers only go up. */
  lemma {:induction false} FifoStep(s: State, e: Event)
    requires Core(s) && Legal(s, e) && s.st.pipelineOn && Step(s, e).st.pipelineOn
    ensures Extends(s.q, Step(s, e).q)
  {
    assert Q.QInv(s.q, true);
    hide Core, Q.QInv, Q.Dispatch, Q.Drain, Q.Submit;
    match e
    case EvReqQueue(r, xs) => SubmitExtends(s.q, r, Q.At(s.q, r).(synthetic := false, bufs := xs));
    case EvBufQueue(x, alloc) => FifoBufQueue(s, x, alloc);
    case EvWorker =>
    case EvComposer(m) =>
    case EvIrq(i) => hide HandleIrq; FifoIrq(s, i);
    case EvStart(n, env) => hide Start; FifoStart(s, n, env);
    case EvStop(n) => Q.DrainKeeps(s.q, true);
    case EvCancel(n) =>
  }

  lemma {:induction false} FifoBufQueue(s: State, x: Buf, alloc: Alloc)
    requires Q.QInv(s.q, true) && (alloc.Ptr? ==> alloc.id !in s.q.heap)
    ensures Extends(s.q, BufQueue(s, x, alloc).q)
  {
    if alloc.Ptr? { SubmitExtends(s.q, alloc.id, SyntheticRequest(x)); }
    hide Q.QInv, Q.Dispatch, Q.Submit;
  }
}
