/** Every finished capture buffer carries the time of its own frame's start. */
module CamTime {
  import opened CamTypes
  import opened CamPipeline
  import opened CamCore
  import opened CamOwnership
  import B = CamBuffers
  import Q = CamQueues

  /** Buffers that only job_done completes and that are not output buffers. */
  predicate TimedNode(n: NodeId) {
    n != MetaIn0 && n != MetaOut0 && n != MetaOut1
  }

  predicate TimedEntry(c: Completion, sofs: set<(nat, nat)>) {
    c.state == DONE && TimedNode(c.buf.node) ==>
      c.stamp.Stamp? && (c.stamp.sequence, c.stamp.timestamp) in sofs
  }

  /** The completions of this session, the log from base on. */
  ghost predicate TimedLog(log: seq<Completion>, base: nat, sofs: set<(nat, nat)>) {
    base <= |log| && forall i :: base <= i < |log| ==> TimedEntry(log[i], sofs)
  }

  /** The running request of the frame reported last has that frame's start time. */
  ghost predicate Stamped(q: Queues, lastSof: nat) {
    forall k :: 0 <= k < |q.running| && Q.At(q, q.running[k]).frameSeq == q.deq ==>
      Q.At(q, q.running[k]).timestamp == lastSof
  }

  ghost predicate TimeOk(q: Queues, log: seq<Completion>, fr: Frames) {
    && Stamped(q, fr.lastSof)
    && (q.deq > 0 ==> (q.deq, fr.lastSof) in fr.sofs)
    && TimedLog(log, fr.logBase, fr.sofs)
  }

  lemma {:induction false} TimedAppend(log: seq<Completion>, more: seq<Completion>, base: nat, sofs: set<(nat, nat)>)
    requires TimedLog(log, base, sofs) && forall i :: 0 <= i < |more| ==> TimedEntry(more[i], sofs)
    ensures TimedLog(log + more, base, sofs)
  {
  }

  lemma {:induction false} TimedGrow(log: seq<Completion>, base: nat, sofs: set<(nat, nat)>, sofs': set<(nat, nat)>)
    requires TimedLog(log, base, sofs) && sofs <= sofs'
    ensures TimedLog(log, base, sofs')
  {
    forall i | base <= i < |log| ensures TimedEntry(log[i], sofs') {
      assert TimedEntry(log[i], sofs);
    }
  }

  // ---- job_done ----------------------------------------------------------

  lemma {:induction false} CompleteAllTimed(b: Buffers, r: ReqId, req: Request, todo: seq<Buf>,
                                            state: Vb2State, eof: nat, base: nat, sofs: set<(nat, nat)>)
    requires TimedLog(b.log, base, sofs)
    requires state == DONE ==> (req.frameSeq, req.timestamp) in sofs
    ensures TimedLog(B.CompleteAll(b, r, req, todo, state, eof).log, base, sofs)
    decreases |todo|
  {
    if todo != [] {
      var x := todo[0];
      var c := Completion(x, state, B.StampOf(req, x, eof));
      TimedAppend(b.log, [c], base, sofs);
      var b1 := if req.synthetic || (x in b.bound && b.bound[x] == r)
        then B.Complete(b, x, state, B.StampOf(req, x, eof)) else b;
      CompleteAllTimed(b1, r, req, todo[1..], state, eof, base, sofs);
    }
  }

  lemma {:induction false} RetireHeadStamped(q: Queues, outcome: Outcome, lastSof: nat)
    requires Q.MemOk(q) && q.running != [] && Stamped(q, lastSof)
    ensures Stamped(Q.RetireHead(q, outcome), lastSof)
  {
    var q' := Q.RetireHead(q, outcome);
    forall k | 0 <= k < |q'.running| && Q.At(q', q'.running[k]).frameSeq == q'.deq
      ensures Q.At(q', q'.running[k]).timestamp == lastSof
    {
      assert q'.running[k] == q.running[k + 1];
    }
  }

  lemma {:induction false} RetireLoopTimed(q: Queues, b: Buffers, streaming: bool, eof: nat, fr: Frames)
    requires Q.MemOk(q) && Q.FramesOk(q) && TimeOk(q, b.log, fr)
    ensures var (q', b') := RetireLoop(q, b, streaming, q.deq, eof); TimeOk(q', b'.log, fr)
    decreases |q.running|
  {
    if q.running != [] {
      var r := q.running[0];
      var req := Q.At(q, r);
      if req.frameSeq == q.deq {
        RetireHeadStamped(q, if streaming then Finished else Silent, fr.lastSof);
        CompleteAllTimed(b, r, req, req.bufs, DONE, eof, fr.logBase, fr.sofs);
      } else if req.frameSeq < q.deq {
        var o := if streaming then Dropped else Silent;
        CompleteAllTimed(b, r, req, req.bufs, ERROR, eof, fr.logBase, fr.sofs);
        RetireHeadStamped(q, o, fr.lastSof);
        Q.RetireHeadMem(q, o);
        Q.RetireHeadFrames(q, o);
        RetireLoopTimed(Q.RetireHead(q, o), B.JobDone(b, streaming, r, req, ERROR, eof), streaming, eof, fr);
      }
    }
  }

  // ---- the other steps ---------------------------------------------------

  lemma {:induction false} DispatchStamped(q: Queues, lastSof: nat)
    requires Q.QInv(q, true) && Stamped(q, lastSof)
    ensures Stamped(Q.Dispatch(q), lastSof)
  {
    Q.DispatchKeeps(q);
    Q.DispatchFrame(q);
    var q' := Q.Dispatch(q);
    forall k | 0 <= k < |q'.running| && Q.At(q', q'.running[k]).frameSeq == q'.deq
      ensures Q.At(q', q'.running[k]).timestamp == lastSof
    {
      assert k < |q.running| ==> q'.running[k] == q.running[k];
    }
  }

  lemma {:induction false} TryQueueTimed(s: State)
    requires Q.QInv(s.q, s.st.pipelineOn) && (s.st.streaming ==> s.st.pipelineOn)
    requires TimeOk(s.q, s.b.log, s.fr)
    ensures var s' := TryQueue(s); TimeOk(s'.q, s'.b.log, s'.fr)
  {
    if s.st.streaming {
      DispatchStamped(s.q, s.fr.lastSof);
      Q.DispatchKeeps(s.q);
      hide Q.QInv, Q.Dispatch, Stamped;
    }
  }

  lemma {:induction false} DequeueFrameTimed(s: State, n: NodeId, frame: nat, seqNo: nat, fbc: nat, now: nat)
    requires B.ListsOk(s.b) && TimeOk(s.q, s.b.log, s.fr) && !TimedNode(n)
    ensures var s' := DequeueFrame(s, n, frame, seqNo, fbc, now); TimeOk(s'.q, s'.b.log, s'.fr)
  {
    if n in s.cfg.enabled && s.st.streaming {
      var limit := if fbc % 128 == 0 then EnqMeta(s.fr, n) else seqNo;
      var l := s.b.lists[n];
      var taken := l[..B.PrefixLen(s.b, l, limit)];
      forall i | 0 <= i < |taken| ensures TimedEntry(B.Dequeued(taken, frame, now)[i], s.fr.sofs) {
        assert taken[i] in l;
      }
      TimedAppend(s.b.log, B.Dequeued(taken, frame, now), s.fr.logBase, s.fr.sofs);
    }
  }

  lemma {:induction false} EventTimed(s: State, i: Irq)
    requires Core(s) && B.BufInv(s.b) && Held(s.cfg, s.q, s.b, s.st.started)
    requires TimeOk(s.q, s.b.log, s.fr)
    ensures var s' := HandleEvent(s, i); TimeOk(s'.q, s'.b.log, s'.fr)
  {
    assert s.st.streaming ==> s.st.pipelineOn;
    hide StreamOk, Held, TimeOk, Q.QInv, RetireLoop, Q.Dispatch, DequeueFrame, B.Conserved, B.ListsOk;
    var s1 := if i.hwDone && i.aaoDone then DequeueFrame(s, MetaOut0, s.q.deq, s.fr.meta0, i.aaoFbc, i.now) else s;
    DequeueFrameHeld(s, MetaOut0, s.q.deq, s.fr.meta0, i.aaoFbc, i.now);
    DequeueFrameTimed(s, MetaOut0, s.q.deq, s.fr.meta0, i.aaoFbc, i.now);
    var s2 := if i.afoDone then DequeueFrame(s1, MetaOut1, s1.q.deq, s1.fr.meta1, i.afoFbc, i.now) else s1;
    DequeueFrameHeld(s1, MetaOut1, s1.q.deq, s1.fr.meta1, i.afoFbc, i.now);
    DequeueFrameTimed(s1, MetaOut1, s1.q.deq, s1.fr.meta1, i.afoFbc, i.now);
    if i.swDone {
      var s3 := DequeueFrame(s2, MetaOut0, s2.q.deq, s2.fr.meta0, i.aaoFbcSw, i.now);
      DequeueFrameHeld(s2, MetaOut0, s2.q.deq, s2.fr.meta0, i.aaoFbcSw, i.now);
      DequeueFrameTimed(s2, MetaOut0, s2.q.deq, s2.fr.meta0, i.aaoFbcSw, i.now);
      DequeueReqTimed(s3, i.now);
    }
  }

  lemma {:induction false} DequeueReqTimed(s: State, eof: nat)
    requires Q.QInv(s.q, s.st.pipelineOn) && (s.st.streaming ==> s.st.pipelineOn)
    requires TimeOk(s.q, s.b.log, s.fr)
    ensures var s' := TryQueue(DequeueReqFrame(s, s.q.deq, eof)); TimeOk(s'.q, s'.b.log, s'.fr)
  {
    RetireLoopTimed(s.q, s.b, s.st.streaming, eof, s.fr);
    RetireLoopCore(s.q, s.b, s.st.streaming, s.q.deq, eof, s.st.pipelineOn);
    hide TimeOk, Q.QInv, RetireLoop, Q.Dispatch;
    TryQueueTimed(DequeueReqFrame(s, s.q.deq, eof));
  }

  /** At a start of frame the request of that frame, if it runs, gets its time. */
  lemma {:induction false} SofTimed(s: State, i: Irq)
    requires Core(s) && TimeOk(s.q, s.b.log, s.fr)
    ensures var s' := HandleSof(s, i); TimeOk(s'.q, s'.b.log, s'.fr)
  {
    TimedGrow(s.b.log, s.fr.logBase, s.fr.sofs, s.fr.sofs + {(i.frame, i.now)});
    StampSofStamped(s.q.(deq := i.frame), i.now);
    hide Core, StampSof, Stamped;
  }

  lemma {:induction false} StampSofStamped(q: Queues, now: nat)
    requires Q.MemOk(q) && Q.FramesOk(q)
    ensures Stamped(StampSof(q, q.deq, now), now)
    ensures StampSof(q, q.deq, now).deq == q.deq
  {
    var k := Q.FindFrame(q, q.running, q.deq);
    var q' := StampSof(q, q.deq, now);
    forall j | 0 <= j < |q'.running| && Q.At(q', q'.running[j]).frameSeq == q'.deq
      ensures Q.At(q', q'.running[j]).timestamp == now
    {
      assert Q.At(q', q'.running[j]).frameSeq == Q.At(q, q.running[j]).frameSeq;
      assert Q.At(q, q.running[j]).frameSeq == q.enq - |q.running| + 1 + j;
    }
  }

  lemma {:induction false} IrqTimed(s: State, i: Irq)
    requires Core(s) && B.BufInv(s.b) && Held(s.cfg, s.q, s.b, s.st.started)
    requires TimeOk(s.q, s.b.log, s.fr)
    ensures var s' := HandleIrq(s, i); TimeOk(s'.q, s'.b.log, s'.fr)
  {
    EventTimed(s, i);
    EventCore(s, i);
    hide Core, B.BufInv, Held, TimeOk, HandleEvent, HandleSof;
    if i.sof { SofTimed(HandleEvent(s, i), i); }
  }

  lemma {:induction false} SubmitStamped(q: Queues, r: ReqId, req: Request, lastSof: nat)
    requires Stamped(q, lastSof) && r !in q.running
    ensures Stamped(Q.Submit(q, r, req), lastSof)
  {
  }

  lemma {:induction false} SubmitTimed(s: State, r: ReqId, req: Request)
    requires Core(s) && !Live(s.q, r) && TimeOk(s.q, s.b.log, s.fr)
    ensures var s' := TryQueue(s.(q := Q.Submit(s.q, r, req))); TimeOk(s'.q, s'.b.log, s'.fr)
  {
    Q.SubmitKeeps(s.q, s.st.pipelineOn, r, req);
    SubmitStamped(s.q, r, req, s.fr.lastSof);
    hide Q.QInv, Q.Dispatch, Stamped, TimedLog;
    TryQueueTimed(s.(q := Q.Submit(s.q, r, req)));
  }

  lemma {:induction false} ReqQueueTimed(s: State, r: ReqId, xs: seq<Buf>)
    requires Core(s) && !Live(s.q, r) && TimeOk(s.q, s.b.log, s.fr)
    ensures var s' := ReqQueue(s, r, xs); TimeOk(s'.q, s'.b.log, s'.fr)
  {
    var b1 := BindAll(s.b, xs, r);
    GiveStartedFrame(b1, s.st.started, xs);
    var s1 := s.(b := GiveStarted(b1, s.st.started, xs));
    hide StreamOk, Q.QInv, Q.Dispatch, TimeOk, GiveStarted;
    SubmitTimed(s1, r, Q.At(s.q, r).(synthetic := false, bufs := xs));
  }

  lemma {:induction false} BufQueueTimed(s: State, x: Buf, alloc: Alloc)
    requires Core(s) && (alloc.Ptr? ==> alloc.id !in s.q.heap) && TimeOk(s.q, s.b.log, s.fr)
    ensures var s' := BufQueue(s, x, alloc); TimeOk(s'.q, s'.b.log, s'.fr)
  {
    var s1 := s.(b := B.Give(s.b, x));
    if x.node == MainOut && x.node !in s.cfg.viaRequests && x.node in s.st.started {
      TimedAppend(s1.b.log, [Completion(x, ERROR, Unstamped)], s.fr.logBase, s.fr.sofs);
      if alloc.Ptr? {
        assert !Live(s.q, alloc.id);
        hide StreamOk, Q.QInv, Q.Dispatch, TimeOk;
        SubmitTimed(s1, alloc.id, SyntheticRequest(x));
      }
    }
  }

  lemma {:induction false} EmptyTimed(q: Queues, log: seq<Completion>, fr: Frames)
    requires TimeOk(q, log, fr)
    ensures TimeOk(Q.Cleanup(q), log, fr)
  {
  }

  lemma {:induction false} DrainTimed(q: Queues, log: seq<Completion>, fr: Frames)
    requires Q.QInv(q, true) && TimeOk(q, log, fr)
    ensures TimeOk(Q.Drain(q), log, fr)
  {
    Q.DrainKeeps(q, true);
    hide Q.Drain;
  }

  lemma {:induction false} ReturnedTimed(q: Queues, b: Buffers, fr: Frames, n: NodeId, state: Vb2State)
    requires TimeOk(q, b.log, fr) && state != DONE
    ensures TimeOk(q, B.ReturnAll(b, n, state).log, fr)
  {
    TimedAppend(b.log, B.Returned(b.lists[n], state), fr.logBase, fr.sofs);
  }

  lemma {:induction false} StopTimed(s: State, n: NodeId)
    requires Core(s) && n in s.st.started && TimeOk(s.q, s.b.log, s.fr)
    ensures var s' := Stop(s, n); TimeOk(s'.q, s'.b.log, s'.fr)
  {
    hide Q.QInv, Q.Drain, Q.Cleanup, TimeOk, B.ReturnAll;
    ReturnedTimed(s.q, s.b, s.fr, n, ERROR);
    var log := B.ReturnAll(s.b, n, ERROR).log;
    DrainTimed(s.q, log, s.fr);
    var q1 := if s.st.streamCount == s.st.enabledCount && s.st.streaming then Q.Drain(s.q) else s.q;
    EmptyTimed(q1, log, s.fr);
    hide StreamOk;
  }

  lemma {:induction false} GiveBackTimed(s: State, n: NodeId)
    requires TimeOk(s.q, s.b.log, s.fr)
    ensures var s' := GiveBack(s, n); TimeOk(s'.q, s'.b.log, s'.fr)
  {
    ReturnedTimed(s.q, s.b, s.fr, n, QUEUED);
  }

  /** Before the stream is on, registering buffers changes nothing timed but the log,
      and that only by failed allocations. */
  lemma {:induction false} EnqueueEachTimed(s: State, xs: seq<Buf>, allocs: seq<Alloc>)
    requires |allocs| == |xs| && !s.st.streaming && Q.MemOk(s.q) && TimeOk(s.q, s.b.log, s.fr)
    requires FreshAllocs(s.q.heap.Keys, allocs)
    ensures var s' := EnqueueEach(s, xs, allocs); TimeOk(s'.q, s'.b.log, s'.fr)
    decreases |xs|
  {
    if xs != [] {
      var s1 := EnqueueNoRequest(s, xs[0], allocs[0]);
      if xs[0].node == MainOut {
        TimedAppend(s.b.log, [Completion(xs[0], ERROR, Unstamped)], s.fr.logBase, s.fr.sofs);
        if allocs[0].Ptr? {
          SubmitMem(s.q, allocs[0].id, SyntheticRequest(xs[0]));
          SubmitStamped(s.q, allocs[0].id, SyntheticRequest(xs[0]), s.fr.lastSof);
        }
      }
      assert FreshAllocs(s1.q.heap.Keys, allocs[1..]);
      hide Stamped, TimedLog, Q.MemOk;
      EnqueueEachTimed(s1, xs[1..], allocs[1..]);
    }
  }

  lemma {:induction false} FailedFinishParts(s: State, n: NodeId, o: CioOutcome)
    requires !s.st.seninfOn && !s.st.sensorOn && !s.st.streaming && o != CioOk
    requires s.st.streamCount + 1 >= s.st.enabledCount
    ensures var s' := FinishStart(s, n, o); s'.q == s.q && s'.fr == s.fr && s'.b == GiveBack(s, n).b
  {
    FailedStreamOn(CountUp(s), o);
    hide CioStreamOn;
  }

  lemma {:induction false} FinishStartTimed(s: State, n: NodeId, o: CioOutcome)
    requires Starting(s.cfg, s.st, n) && Q.QInv(s.q, true) && TimeOk(s.q, s.b.log, s.fr)
    ensures var s' := FinishStart(s, n, o); TimeOk(s'.q, s'.b.log, s'.fr)
  {
    hide Q.QInv, TimeOk, StreamOk, Q.Dispatch;
    var s1 := CountUp(s);
    if s1.st.streamCount >= s1.st.enabledCount {
      if o == CioOk {
        TryQueueTimed(s1.(st := s1.st.(seninfOn := true, sensorOn := true, streaming := true)));
      } else {
        StartingOutcomes(s.cfg, s.st, n);
        FailedFinishParts(s, n, o);
        GiveBackTimed(s, n);
        hide FinishStart;
      }
    }
  }

  lemma {:induction false} StartTailTimed(s: State, n: NodeId, env: StartEnv)
    requires Starting(s.cfg, s.st, n) && Q.QInv(s.q, true) && TimeOk(s.q, s.b.log, s.fr)
    requires n !in s.cfg.viaRequests ==> |env.allocs| == |s.b.lists[n]|
    requires FreshAllocs(s.q.heap.Keys, env.allocs)
    ensures var s' := StartTail(s, n, env); TimeOk(s'.q, s'.b.log, s'.fr)
  {
    if n !in s.cfg.viaRequests {
      EnqueueEachQueues(s, s.b.lists[n], env.allocs, true);
      EnqueueEachTimed(s, s.b.lists[n], env.allocs);
    }
    hide TimeOk, Q.QInv, Starting, EnqueueEach;
    FinishStartTimed(Register(s, n, env.allocs), n, env.cio);
  }

  lemma {:induction false} StartTimed(s: State, n: NodeId, env: StartEnv)
    requires Core(s) && Legal(s, EvStart(n, env)) && TimeOk(s.q, s.b.log, s.fr)
    ensures var s' := Start(s, n, env); TimeOk(s'.q, s'.b.log, s'.fr)
  {
    GiveBackTimed(s, n);
    if n in s.cfg.enabled && s.st.pipelineOn {
      LaterStart(s, n);
      hide Q.QInv, StreamOk, StartTail, TimeOk, HandedOver;
      StartTailTimed(s, n, env);
    } else if n in s.cfg.enabled && env.pipelineOk && env.hwOk {
      FirstStart(s, n);
      Q.ResetKeeps(s.q);
      var s1 := HwInit(InitStream(s.(st := s.st.(pipelineOn := true))));
      assert TimeOk(s1.q, s1.b.log, s1.fr);
      hide Q.QInv, StreamOk, StartTail, TimeOk, HandedOver;
      StartTailTimed(s1, n, env);
    } else {
      hide StreamOk, HandedOver, TimedLog;
    }
  }
}
