/** The driver's code: objects whose methods update their fields the way mtk_cam.c
    and mtk_cam-hw.c do, each method proved equal to the step it implements. Request
    memory is a map that the driver's kfree removes from, so every access is proved not to
    touch a request the driver has freed, and every list_del is proved to find its buffer. */
module CamDriver {
  import opened CamTypes
  import opened CamPipeline
  import opened CamCore
  import opened CamOwnership
  import opened CamTheorems
  import B = CamBuffers
  import Q = CamQueues

  /** The node lists, with vb2's bookkeeping of bindings and completions. */
  class NodeBuffers {
    var bufLists: Lists
    var bound: map<Buf, ReqId>
    var seqNo: map<Buf, nat>
    ghost var given: multiset<Buf>
    ghost var doneLog: seq<Completion>

    ghost function Abs(): Buffers
      reads this
    {
      Buffers(bufLists, bound, seqNo, given, doneLog)
    }

    constructor ()
      ensures Abs() == Buffers(NoBuffers(), map[], map[], multiset{}, [])
    {
      bufLists, bound, seqNo, given, doneLog := NoBuffers(), map[], map[], multiset{}, [];
    }

    method ListAddTail(x: Buf)
      modifies this
      ensures Abs() == B.Give(old(Abs()), x)
    {
      bufLists := bufLists[x.node := bufLists[x.node] + [x]];
      given := given + multiset{x};
    }

    method ListDel(x: Buf)
      requires x in bufLists[x.node]
      modifies this
      ensures Abs() == B.ListDel(old(Abs()), x)
    {
      bufLists := bufLists[x.node := Remove(bufLists[x.node], x)];
    }

    method SetSeqNo(x: Buf, number: nat)
      modifies this
      ensures Abs() == old(Abs()).(seqNo := old(Abs()).seqNo[x := number])
    {
      seqNo := seqNo[x := number];
    }

    method Vb2BufferDone(x: Buf, state: Vb2State, ghost stamp: Stamp)
      modifies this
      ensures Abs() == B.Vb2Done(old(Abs()), x, state, stamp)
    {
      doneLog := doneLog + [Completion(x, state, stamp)];
      if state != QUEUED {
        bound := bound - {x};
      }
    }

    /** vb2 binds the buffers of a media request to it when the request is queued. */
    method BindBuffers(xs: seq<Buf>, r: ReqId)
      modifies this
      ensures Abs() == BindAll(old(Abs()), xs, r)
    {
      bound := map x | x in bound.Keys + (set y | y in xs) :: if x in xs then r else bound[x];
    }

    /** vb2 takes the buffers of a queue it cancels out of their requests. */
    method UnbindNode(n: NodeId)
      modifies this
      ensures Abs() == B.Cancel(old(Abs()), n)
    {
      bound := map x | x in bound && x.node != n :: bound[x];
    }

    /** vb2_request_queue: buf_queue for every buffer whose queue is streaming. */
    method QueueBuffers(xs: seq<Buf>, started: set<NodeId>)
      modifies this
      ensures Abs() == GiveStarted(old(Abs()), started, xs)
    {
      assert xs[0..] == xs;
      var i := 0;
      while i < |xs|
        invariant 0 <= i <= |xs|
        invariant GiveStarted(Abs(), started, xs[i..]) == GiveStarted(old(Abs()), started, xs)
      {
        assert xs[i..][1..] == xs[i + 1..];
        if xs[i].node in started {
          ListAddTail(xs[i]);
        }
        i := i + 1;
      }
    }

    /** job_done finds every buffer it will take off a list on that list. */
    static ghost predicate CanComplete(b: Buffers, streaming: bool, r: ReqId, req: Request) {
      && B.BufInv(b)
      && (req.synthetic ==> |req.bufs| == 1)
      && (streaming ==> forall x :: x in B.Hits(b, r, req, req.bufs) ==> B.Owned(b, x))
    }

    /** One buffer of job_done: off its list, stamped, and back to vb2. */
    method ReturnStamped(x: Buf, req: Request, state: Vb2State, eof: nat)
      requires x in bufLists[x.node]
      modifies this
      ensures Abs() == B.Complete(old(Abs()), x, state, B.StampOf(req, x, eof))
    {
      ListDel(x);
      var timestamp := if !req.synthetic && x.node == MetaIn0 then eof else req.timestamp;
      Vb2BufferDone(x, state, Stamp(req.frameSeq, timestamp));
    }

    /** mtk_cam_dev_job_done. */
    method JobDone(streaming: bool, r: ReqId, req: Request, state: Vb2State, eof: nat)
      requires state != QUEUED && CanComplete(Abs(), streaming, r, req)
      modifies this
      ensures Abs() == B.JobDone(old(Abs()), streaming, r, req, state, eof)
    {
      hide B.BufInv, B.Complete, B.Hits;
      if !streaming {
        return;
      }
      if req.synthetic {
        B.CompleteAllStep(Abs(), r, req, req.bufs, state, eof);
        ReturnStamped(req.bufs[0], req, state, eof);
        assert req.bufs[1..] == [];
        return;
      }
      assert req.bufs[0..] == req.bufs;
      var i := 0;
      while i < |req.bufs|
        invariant 0 <= i <= |req.bufs|
        invariant B.CompleteAll(Abs(), r, req, req.bufs[i..], state, eof)
                  == B.CompleteAll(old(Abs()), r, req, req.bufs, state, eof)
        invariant B.BufInv(Abs())
        invariant forall x :: x in B.Hits(Abs(), r, req, req.bufs[i..]) ==> B.Owned(Abs(), x)
      {
        var x := req.bufs[i];
        B.CompleteAllStep(Abs(), r, req, req.bufs[i..], state, eof);
        assert req.bufs[i..][1..] == req.bufs[i + 1..];
        if x in bound && bound[x] == r {
          ReturnStamped(x, req, state, eof);
        }
        i := i + 1;
      }
    }

    /** list_del and vb2_buffer_done on the head of a node's list. */
    method ReturnFirst(n: NodeId, state: Vb2State, ghost stamp: Stamp)
      requires bufLists[n] != []
      modifies this
      ensures Abs() == B.ReturnHead(old(Abs()), n, state, stamp)
    {
      var x := bufLists[n][0];
      bufLists := bufLists[n := bufLists[n][1..]];
      Vb2BufferDone(x, state, stamp);
    }

    /** mtk_cam_vb2_return_all_buffers. */
    method ReturnAllBuffers(n: NodeId, state: Vb2State)
      modifies this
      ensures Abs() == B.ReturnAll(old(Abs()), n, state)
    {
      hide B.ReturnAll;
      while bufLists[n] != []
        invariant B.ReturnAll(Abs(), n, state) == B.ReturnAll(old(Abs()), n, state)
        decreases |bufLists[n]|
      {
        B.ReturnAllStep(Abs(), n, state);
        ReturnFirst(n, state, Unstamped);
      }
      B.ReturnAllEnd(Abs(), n, state);
    }

    /** The loop of mtk_cam_dev_dequeue_frame over one node's list. */
    method DequeueUpTo(n: NodeId, limit: nat, frameSeqNo: nat, now: nat)
      modifies this
      ensures Abs() == B.RingTake(old(Abs()), n, limit, frameSeqNo, now)
    {
      hide B.RingTake;
      var frame := frameSeqNo;
      while bufLists[n] != []
        invariant B.RingTake(Abs(), n, limit, frame, now) == B.RingTake(old(Abs()), n, limit, frameSeqNo, now)
        decreases |bufLists[n]|
      {
        var x := bufLists[n][0];
        if (if x in seqNo then seqNo[x] else 0) > limit {
          break;
        }
        B.RingTakeStep(Abs(), n, limit, frame, now);
        ReturnFirst(n, DONE, Stamp(frame, now));
        frame := frame + 1;
      }
      B.RingTakeEnd(Abs(), n, limit, frame, now);
    }
  }

  /** Request memory, the job lists, the workqueue and the frame counters. */
  class JobQueues {
    var heap: map<ReqId, Request>
    var pendingJobList: seq<ReqId>
    var runningJobList: seq<ReqId>
    var runningJobCount: nat
    var composerWq: seq<ReqId>
    var enqueuedFrameSeqNo: nat
    var dequeuedFrameSeqNo: nat
    var composedFrameSeqNo: nat
    ghost var sentFrameSeqNo: nat
    ghost var submitted: seq<ReqId>
    ghost var retired: seq<Retired>

    ghost function Abs(): Queues
      reads this
    {
      Queues(heap, pendingJobList, runningJobList, runningJobCount, composerWq, enqueuedFrameSeqNo,
             sentFrameSeqNo, composedFrameSeqNo, dequeuedFrameSeqNo, submitted, retired)
    }

    constructor ()
      ensures Abs() == Queues(map[], [], [], 0, [], 0, 0, 0, 0, [], [])
    {
      heap, pendingJobList, runningJobList, runningJobCount, composerWq := map[], [], [], 0, [];
      enqueuedFrameSeqNo, dequeuedFrameSeqNo, composedFrameSeqNo, sentFrameSeqNo := 0, 0, 0, 0;
      submitted, retired := [], [];
    }

    /** kfree: the address may not be used any more. */
    method Kfree(r: ReqId)
      requires r in heap
      modifies `heap
      ensures heap == old(heap) - {r}
    {
      heap := heap - {r};
    }

    /** list_add_tail of a request that was just filled in. */
    method AddPending(r: ReqId, req: Request)
      modifies this
      ensures Abs() == Q.Submit(old(Abs()), r, req)
    {
      heap := heap[r := req];
      pendingJobList := pendingJobList + [r];
      submitted := submitted + [r];
    }

    /** mtk_isp_req_enqueue: number the frame and queue its work. */
    method ReqEnqueue(r: ReqId)
      requires r in heap
      modifies `enqueuedFrameSeqNo, `heap, `composerWq
      ensures enqueuedFrameSeqNo == old(enqueuedFrameSeqNo) + 1 && composerWq == old(composerWq) + [r]
      ensures heap == old(heap)[r := old(heap)[r].(frameSeq := enqueuedFrameSeqNo)]
    {
      enqueuedFrameSeqNo := enqueuedFrameSeqNo + 1;
      heap := heap[r := heap[r].(frameSeq := enqueuedFrameSeqNo)];
      composerWq := composerWq + [r];
    }

    lemma {:induction false} PendingInHeap()
      requires Q.MemOk(Abs()) && pendingJobList != []
      ensures pendingJobList[0] in heap
    {
    }

    /** The loop of mtk_cam_dev_req_try_queue. */
    method TryQueue()
      requires Q.MemOk(Abs())
      modifies this
      ensures Abs() == Q.Dispatch(old(Abs()))
    {
      hide Q.MemOk;
      while pendingJobList != []
        invariant Q.MemOk(Abs()) && Q.Dispatch(Abs()) == Q.Dispatch(old(Abs()))
        decreases |pendingJobList|
      {
        if runningJobCount >= MAX_RUNNING_JOBS {
          break;
        }
        Q.DispatchOneMem(Abs());
        PendingInHeap();
        var req := pendingJobList[0];
        runningJobCount := runningJobCount + 1;
        pendingJobList := pendingJobList[1..];
        runningJobList := runningJobList + [req];
        ReqEnqueue(req);
      }
    }

    /** Unlink the head of the running list, and free it if the driver made it. */
    method UnlinkFirst(ghost outcome: Outcome)
      requires runningJobList != [] && runningJobList[0] in heap && runningJobCount > 0
      modifies this
      ensures Abs() == Q.RetireHead(old(Abs()), outcome)
    {
      var req := runningJobList[0];
      runningJobCount := runningJobCount - 1;
      runningJobList := runningJobList[1..];
      retired := retired + [Retired(req, heap[req].frameSeq, outcome)];
      if heap[req].synthetic {
        Kfree(req);
      }
    }

    /** isp_tx_frame_worker on the oldest queued work. */
    method TxFrameWorker()
      requires composerWq != [] && composerWq[0] in heap
      modifies this
      ensures Abs() == Q.Send(old(Abs()))
    {
      var req := composerWq[0];
      composerWq := composerWq[1..];
      sentFrameSeqNo := heap[req].frameSeq;
    }

    /** destroy_workqueue: every queued work runs before the queue goes away. */
    method DestroyWorkqueue()
      requires Q.QInv(Abs(), true)
      modifies this
      ensures Abs() == Q.Drain(old(Abs()))
    {
      while composerWq != []
        invariant Q.QInv(Abs(), true) && Q.Drain(Abs()) == Q.Drain(old(Abs()))
        decreases |composerWq|
      {
        Q.SendKeeps(Abs(), true);
        TxFrameWorker();
      }
    }

    /** The part of mtk_isp_hw_init that resets the frame counters. */
    method ResetCounters()
      modifies this
      ensures Abs() == Q.ResetCounters(old(Abs()))
    {
      enqueuedFrameSeqNo := 0;
      dequeuedFrameSeqNo := 0;
      composedFrameSeqNo := 0;
      sentFrameSeqNo := 0;
    }

    method ResetJobCount()
      modifies this
      ensures Abs() == old(Abs()).(jobCount := 0)
    {
      runningJobCount := 0;
    }

    method SetComposed(frameSeqNo: nat)
      modifies `composedFrameSeqNo
      ensures Abs() == old(Abs()).(comp := frameSeqNo)
    {
      composedFrameSeqNo := frameSeqNo;
    }

    /** What a start of frame changes here: the reported number, and the start time
        of the running request with that number. */
    method SetDequeued(frameSeqNo: nat, now: nat)
      requires Q.MemOk(Abs())
      modifies `dequeuedFrameSeqNo, `heap
      ensures Abs() == StampSof(old(Abs()).(deq := frameSeqNo), frameSeqNo, now)
    {
      dequeuedFrameSeqNo := frameSeqNo;
      var k := GetReq(frameSeqNo);
      if k >= 0 {
        var r := runningJobList[k];
        heap := heap[r := heap[r].(timestamp := now)];
      }
    }

    /** mtk_cam_dev_get_req. */
    method GetReq(frameSeqNo: nat) returns (k: int)
      requires forall r :: r in runningJobList ==> r in heap
      ensures k == Q.FindFrame(Abs(), runningJobList, frameSeqNo)
    {
      var i := 0;
      while i < |runningJobList|
        invariant 0 <= i <= |runningJobList|
        invariant forall j :: 0 <= j < i ==> Q.At(Abs(), runningJobList[j]).frameSeq != frameSeqNo
      {
        if heap[runningJobList[i]].frameSeq == frameSeqNo {
          return i;
        }
        i := i + 1;
      }
      return -1;
    }

    /** One unlink of the cleanup, from either list. */
    method FreeIfSynthetic(r: ReqId)
      requires r in heap
      modifies `heap
      ensures heap == if old(heap)[r].synthetic then old(heap) - {r} else old(heap)
    {
      if heap[r].synthetic {
        Kfree(r);
      }
    }

    static function Freed(h: map<ReqId, Request>, ids: seq<ReqId>): map<ReqId, Request> {
      h - (set x | x in ids && x in h && h[x].synthetic)
    }

    static lemma {:induction false} FreedSnoc(h: map<ReqId, Request>, ids: seq<ReqId>, r: ReqId)
      requires r in h && r !in ids
      ensures r in Freed(h, ids) && Freed(h, ids)[r] == h[r]
      ensures Freed(h, ids + [r]) == if h[r].synthetic then Freed(h, ids) - {r} else Freed(h, ids)
    {
    }

    static lemma {:induction false} NextNotGone(l: seq<ReqId>, gone: seq<ReqId>, rest: seq<ReqId>)
      requires Distinct(l) && l == gone + rest && rest != []
      ensures rest[0] !in gone && rest[0] in l && l == (gone + [rest[0]]) + rest[1..]
    {
      assert l[|gone|] == rest[0];
      forall k | 0 <= k < |gone| ensures gone[k] != rest[0] {
        assert gone[k] == l[k];
      }
    }

    static lemma {:induction false} FreedBoth(h: map<ReqId, Request>, p: seq<ReqId>, r: seq<ReqId>)
      ensures Freed(Freed(h, p), r) == h - (set x | x in p + r && x in h && h[x].synthetic)
    {
    }

    method FreePending()
      requires Distinct(pendingJobList) && forall r :: r in pendingJobList ==> r in heap
      modifies `pendingJobList, `heap
      ensures pendingJobList == [] && heap == Freed(old(heap), old(pendingJobList))
    {
      ghost var h, p := heap, pendingJobList;
      ghost var gone: seq<ReqId> := [];
      while pendingJobList != []
        invariant p == gone + pendingJobList && heap == Freed(h, gone)
        decreases |pendingJobList|
      {
        var req := pendingJobList[0];
        NextNotGone(p, gone, pendingJobList);
        FreedSnoc(h, gone, req);
        pendingJobList := pendingJobList[1..];
        FreeIfSynthetic(req);
        gone := gone + [req];
      }
    }

    method FreeRunning()
      requires Distinct(runningJobList) && forall r :: r in runningJobList ==> r in heap
      modifies `runningJobList, `heap
      ensures runningJobList == [] && heap == Freed(old(heap), old(runningJobList))
    {
      ghost var h, p := heap, runningJobList;
      ghost var gone: seq<ReqId> := [];
      while runningJobList != []
        invariant p == gone + runningJobList && heap == Freed(h, gone)
        decreases |runningJobList|
      {
        var req := runningJobList[0];
        NextNotGone(p, gone, runningJobList);
        FreedSnoc(h, gone, req);
        runningJobList := runningJobList[1..];
        FreeIfSynthetic(req);
        gone := gone + [req];
      }
    }

    /** mtk_cam_dev_req_cleanup: unlink everything, free what the driver made. */
    method ReqCleanup()
      requires Q.MemOk(Abs())
      modifies this
      ensures Abs() == Q.Cleanup(old(Abs()))
    {
      FreedBoth(heap, pendingJobList, runningJobList);
      FreePending();
      FreeRunning();
      submitted, retired := [], [];
    }
  }

  /** The interrupt-side fields of struct mtk_isp_p1_device. */
  class P1Device {
    var dequeuedMetaSeqNo0: nat
    var dequeuedMetaSeqNo1: nat
    var enqueuedMetaSeqNo0: nat
    var enqueuedMetaSeqNo1: nat
    var sofCount: nat
    var cqBaseAddr: nat
    ghost var lastSof: nat
    ghost var sofs: set<(nat, nat)>
    ghost var logBase: nat

    ghost function Abs(): Frames
      reads this
    {
      Frames(dequeuedMetaSeqNo0, dequeuedMetaSeqNo1, enqueuedMetaSeqNo0, enqueuedMetaSeqNo1,
             sofCount, cqBaseAddr, lastSof, sofs, logBase)
    }

    constructor ()
      ensures Abs() == Frames(0, 0, 0, 0, 0, 0, 0, {}, 0)
    {
      dequeuedMetaSeqNo0, dequeuedMetaSeqNo1, enqueuedMetaSeqNo0, enqueuedMetaSeqNo1 := 0, 0, 0, 0;
      sofCount, cqBaseAddr, lastSof, sofs, logBase := 0, 0, 0, {}, 0;
    }

    method Reset(ghost base: nat)
      modifies this
      ensures Abs() == old(Abs()).(meta0 := 0, meta1 := 0, enqMeta0 := 0, enqMeta1 := 0, sofCount := 0,
                                   sofs := {}, logBase := base)
    {
      sofCount := 0;
      enqueuedMetaSeqNo0, dequeuedMetaSeqNo0 := 0, 0;
      enqueuedMetaSeqNo1, dequeuedMetaSeqNo1 := 0, 0;
      sofs, logBase := {}, base;
    }

    /** Take the next number of a ring. */
    method NextMetaSeqNo(n: NodeId) returns (number: nat)
      modifies this
      ensures number == EnqMeta(old(Abs()), n) + 1
      ensures Abs() == if n == MetaOut0 then old(Abs()).(enqMeta0 := number) else old(Abs()).(enqMeta1 := number)
    {
      if n == MetaOut0 {
        enqueuedMetaSeqNo0 := enqueuedMetaSeqNo0 + 1;
        return enqueuedMetaSeqNo0;
      }
      enqueuedMetaSeqNo1 := enqueuedMetaSeqNo1 + 1;
      return enqueuedMetaSeqNo1;
    }

    /** What a start of frame saves, and the address register it may write. */
    method SaveFrame(i: Irq, composed: nat)
      modifies this
      ensures var fr := old(Abs()).(sofCount := (old(Abs()).sofCount + 1) % 256, meta0 := i.meta0, meta1 := i.meta1,
                                    lastSof := i.now, sofs := old(Abs()).sofs + {(i.frame, i.now)});
              Abs() == if composed <= i.frame then fr
                       else fr.(cqOffset := CQ_ADDRESS_OFFSET * (i.frame % CQ_BUFFER_COUNT))
    {
      sofCount := (sofCount + 1) % 256;
      dequeuedMetaSeqNo0 := i.meta0;
      dequeuedMetaSeqNo1 := i.meta1;
      lastSof := i.now;
      sofs := sofs + {(i.frame, i.now)};
      if composed <= i.frame {
        return;
      }
      cqBaseAddr := CQ_ADDRESS_OFFSET * (i.frame % CQ_BUFFER_COUNT);
    }
  }

  /** struct mtk_cam_dev with the Pass-1 device around it. */
  class CamDev {
    const cfg: Config
    const jobs: JobQueues
    const nodes: NodeBuffers
    const p1: P1Device

    var pipelineOn: bool
    var streaming: bool
    var sensorOn: bool
    var seninfOn: bool
    var wqAlive: bool
    var started: set<NodeId>
    ghost var stopped: set<NodeId>
    ghost var cancelled: set<NodeId>
    var enabledCount: nat
    var streamCount: nat
    var enabledDmas: set<NodeId>

    ghost function StAbs(): Stream
      reads this
    {
      Stream(pipelineOn, streaming, sensorOn, seninfOn, wqAlive, started, stopped, cancelled, enabledCount, streamCount,
             enabledDmas)
    }

    /** The state of the machine that this object represents. */
    ghost function Abs(): State
      reads this, jobs, nodes, p1
    {
      State(cfg, jobs.Abs(), nodes.Abs(), StAbs(), p1.Abs())
    }

    /** The stream fields, as the machine sees them. */
    lemma {:induction false} View()
      ensures Abs().st == StAbs() && Abs().cfg == cfg && Abs().b == nodes.Abs() && Abs().q == jobs.Abs()
      ensures var st := StAbs();
              && st.streaming == streaming && st.pipelineOn == pipelineOn && st.started == started
              && st.streamCount == streamCount && st.enabledCount == enabledCount && st.dmas == enabledDmas
    {
    }

    constructor (c: Config)
      requires CfgOk(c)
      ensures Abs() == Initial(c) && Own(Abs()) && fresh(jobs) && fresh(nodes) && fresh(p1)
    {
      cfg := c;
      jobs := new JobQueues();
      nodes := new NodeBuffers();
      p1 := new P1Device();
      pipelineOn, streaming, sensorOn, seninfOn, wqAlive := false, false, false, false, false;
      started, stopped, cancelled, enabledCount, streamCount, enabledDmas := {}, {}, {}, 0, 0, {};
      new;
      InitialOwn(c);
    }

    // ---- scheduler -------------------------------------------------------

    /** mtk_cam_dev_req_try_queue. */
    method ReqTryQueue()
      requires streaming ==> Q.MemOk(jobs.Abs())
      modifies jobs
      ensures Abs() == CamPipeline.TryQueue(old(Abs()))
    {
      hide Q.Dispatch, Q.MemOk;
      if !streaming {
        return;
      }
      jobs.TryQueue();
    }

    /** What the walk over the running list relies on, kept by every unlink. */
    static ghost predicate Retirable(c: Config, q: Queues, b: Buffers, st: Stream) {
      && Q.QInv(q, st.pipelineOn) && B.BufInv(b) && Held(c, q, b, st.started)
      && (st.streaming ==> st.started == c.enabled && MainOut in st.started && NoneMissing(c, q, b, q.deq))
    }

    static lemma {:induction false} HeadThere(c: Config, q: Queues, b: Buffers, st: Stream)
      requires Retirable(c, q, b, st) && q.running != []
      ensures q.jobCount > 0 && q.running[0] in q.heap
    {
    }

    static lemma {:induction false} HeadReady(c: Config, q: Queues, b: Buffers, st: Stream)
      requires Retirable(c, q, b, st) && q.running != [] && Q.At(q, q.running[0]).frameSeq <= q.deq
      ensures q.running[0] in q.heap
      ensures NodeBuffers.CanComplete(b, st.streaming, q.running[0], q.heap[q.running[0]])
    {
      var r := q.running[0];
      assert Live(q, r) && ReqHeld(c, b, st.started, r, Q.At(q, r));
      if st.streaming { HitsOwned(c, q, b, st.started, r); }
    }

    static lemma {:induction false} RetireKeeps(c: Config, q: Queues, b: Buffers, st: Stream, outcome: Outcome, eof: nat)
      requires Retirable(c, q, b, st) && q.running != [] && Q.At(q, q.running[0]).frameSeq <= q.deq
      ensures var r := q.running[0];
              Retirable(c, Q.RetireHead(q, outcome), B.JobDone(b, st.streaming, r, Q.At(q, r), ERROR, eof), st)
    {
      assert Q.MemOk(q);
      Q.RetireHeadKeeps(q, outcome);
      assert Q.RetireHead(q, outcome).deq == q.deq;
      RetireHeadHeld(c, q, b, st.started, st.streaming, ERROR, outcome, eof);
      hide Held, Q.QInv, B.BufInv, B.JobDone, Q.RetireHead;
    }

    /** mtk_cam_dev_dequeue_req_frame. */
    method DequeueReqFrame(frameSeqNo: nat, eof: nat)
      requires Retirable(cfg, jobs.Abs(), nodes.Abs(), StAbs()) && frameSeqNo == jobs.dequeuedFrameSeqNo
      modifies jobs, nodes
      ensures Abs() == CamPipeline.DequeueReqFrame(old(Abs()), frameSeqNo, eof)
    {
      hide Retirable, NodeBuffers.CanComplete, B.JobDone;
      ghost var goal := RetireLoop(jobs.Abs(), nodes.Abs(), streaming, frameSeqNo, eof);
      while jobs.runningJobList != []
        invariant Retirable(cfg, jobs.Abs(), nodes.Abs(), StAbs()) && jobs.dequeuedFrameSeqNo == frameSeqNo
        invariant RetireLoop(jobs.Abs(), nodes.Abs(), streaming, frameSeqNo, eof) == goal
        decreases |jobs.runningJobList|
      {
        HeadThere(cfg, jobs.Abs(), nodes.Abs(), StAbs());
        var r := jobs.runningJobList[0];
        var req := jobs.heap[r];
        if req.frameSeq <= frameSeqNo { HeadReady(cfg, jobs.Abs(), nodes.Abs(), StAbs()); }
        if req.frameSeq == frameSeqNo {
          nodes.JobDone(streaming, r, req, DONE, eof);
          jobs.UnlinkFirst(if streaming then Finished else Silent);
          assert goal == (jobs.Abs(), nodes.Abs());
          return;
        } else if req.frameSeq < frameSeqNo {
          ghost var o := if streaming then Dropped else Silent;
          RetireKeeps(cfg, jobs.Abs(), nodes.Abs(), StAbs(), o, eof);
          nodes.JobDone(streaming, r, req, ERROR, eof);
          jobs.UnlinkFirst(o);
        } else {
          assert goal == (jobs.Abs(), nodes.Abs());
          return;
        }
      }
      assert goal == (jobs.Abs(), nodes.Abs());
    }

    // ---- buffers ---------------------------------------------------------

    /** mtk_isp_enqueue for the two ring nodes. */
    method IspEnqueue(x: Buf)
      modifies p1, nodes
      ensures Abs() == MetaEnqueue(old(Abs()), x)
    {
      if enabledDmas == {} {
        return;
      }
      var number := p1.NextMetaSeqNo(x.node);
      nodes.SetSeqNo(x, number);
    }

    /** mtk_cam_enqueue_no_request; alloc is what kzalloc returned. */
    method EnqueueNoRequest(x: Buf, alloc: Alloc)
      requires streaming ==> Q.MemOk(jobs.Abs()) && (alloc.Ptr? ==> !Live(jobs.Abs(), alloc.id))
      modifies jobs, nodes, p1
      ensures Abs() == CamPipeline.EnqueueNoRequest(old(Abs()), x, alloc)
    {
      hide Q.MemOk, Q.Dispatch, Live;
      if x.node != MainOut {
        IspEnqueue(x);
        return;
      }
      if alloc.Null? {
        nodes.Vb2BufferDone(x, ERROR, Unstamped);
        return;
      }
      if streaming {
        AddRequest(alloc.id, SyntheticRequest(x));
      } else {
        jobs.AddPending(alloc.id, SyntheticRequest(x));
        ReqTryQueue();
      }
    }

    /** mtk_cam_vb2_buf_queue. */
    method BufQueue(x: Buf, alloc: Alloc)
      requires Core(Abs()) && Legal(Abs(), EvBufQueue(x, alloc))
      modifies this, jobs, nodes, p1
      ensures Abs() == Step(old(Abs()), EvBufQueue(x, alloc)) && Core(Abs())
    {
      hide StreamOk, Q.FramesOk, Q.SentOk, Q.HistOk, Q.CountOk;
      StepCore(Abs(), EvBufQueue(x, alloc));
      nodes.ListAddTail(x);
      if x.node !in cfg.viaRequests && x.node in started {
        EnqueueNoRequest(x, alloc);
      }
    }

    /** vb2_request_queue. */
    method Vb2RequestQueue(r: ReqId, xs: seq<Buf>)
      modifies nodes
      ensures Abs() == old(Abs()).(b := GiveStarted(BindAll(old(Abs()).b, xs, r), old(Abs()).st.started, xs))
    {
      hide BindAll, GiveStarted;
      nodes.BindBuffers(xs, r);
      nodes.QueueBuffers(xs, started);
    }

    /** vb2's cancel of a queue that has not started; the driver's callback only prints. */
    method Vb2QueueCancel(n: NodeId)
      requires Core(Abs()) && Legal(Abs(), EvCancel(n))
      modifies this, nodes
      ensures Abs() == Step(old(Abs()), EvCancel(n)) && Core(Abs())
    {
      hide Core;
      StepCore(Abs(), EvCancel(n));
      nodes.UnbindNode(n);
      cancelled := cancelled + {n};
    }

    /** Put a request on the pending list and try to run it. */
    method AddRequest(r: ReqId, req: Request)
      requires Q.MemOk(jobs.Abs()) && !Live(jobs.Abs(), r)
      modifies jobs
      ensures Abs() == CamPipeline.TryQueue(old(Abs()).(q := Q.Submit(old(Abs()).q, r, req)))
    {
      hide Q.MemOk, Live, CamPipeline.TryQueue;
      SubmitMem(jobs.Abs(), r, req);
      jobs.AddPending(r, req);
      ReqTryQueue();
    }

    /** mtk_cam_req_queue. */
    method ReqQueue(r: ReqId, xs: seq<Buf>)
      requires Core(Abs()) && Legal(Abs(), EvReqQueue(r, xs))
      modifies this, jobs, nodes, p1
      ensures Abs() == Step(old(Abs()), EvReqQueue(r, xs)) && Core(Abs())
    {
      hide Core, Q.MemOk, BindAll, GiveStarted, CamPipeline.TryQueue, Abs;
      View();
      QueueFacts(Abs());
      StepCore(Abs(), EvReqQueue(r, xs));
      var req := if r in jobs.heap then jobs.heap[r] else Request(false, [], 0, 0);
      Vb2RequestQueue(r, xs);
      View();
      AddRequest(r, req.(synthetic := false, bufs := xs));
    }

    static lemma {:induction false} QueueFacts(s: State)
      requires Core(s)
      ensures Q.MemOk(s.q)
    {
    }

    /** mtk_cam_dev_dequeue_frame; fbcReg is the FBC register that is read. */
    method DequeueFrame(n: NodeId, frameSeqNo: nat, seqNo: nat, fbcReg: nat, now: nat)
      modifies nodes
      ensures Abs() == CamPipeline.DequeueFrame(old(Abs()), n, frameSeqNo, seqNo, fbcReg, now)
    {
      hide B.RingTake;
      if n !in cfg.enabled || !streaming {
        return;
      }
      var limit := seqNo;
      if fbcReg % 128 == 0 {
        limit := if n == MetaOut0 then p1.enqueuedMetaSeqNo0 else p1.enqueuedMetaSeqNo1;
      }
      nodes.DequeueUpTo(n, limit, frameSeqNo, now);
    }

    // ---- worker, composer, interrupt -------------------------------------

    /** The ordered workqueue runs its oldest work. */
    method TxFrameWorker()
      requires Core(Abs())
      modifies jobs
      ensures Abs() == Step(old(Abs()), EvWorker) && Core(Abs())
    {
      hide Core, Q.Send;
      StepCore(Abs(), EvWorker);
      WorkReady(Abs());
      if jobs.composerWq != [] {
        jobs.TxFrameWorker();
      }
    }

    static lemma {:induction false} WorkReady(s: State)
      requires Core(s)
      ensures s.q.wq != [] ==> s.q.wq[0] in s.q.heap
    {
      if s.q.wq != [] { Q.SendKeeps(s.q, s.st.pipelineOn); }
    }

    /** isp_composer_handler. */
    method ComposerHandler(m: ScpMsg)
      requires Core(Abs()) && Legal(Abs(), EvComposer(m))
      modifies jobs
      ensures Abs() == Step(old(Abs()), EvComposer(m)) && Core(Abs())
    {
      hide Core;
      StepCore(Abs(), EvComposer(m));
      if !m.longEnough {
        return;
      }
      if !m.isAck || !m.ofFrame {
        return;
      }
      jobs.SetComposed(m.frame);
    }

    /** isp_irq_handle_event. */
    method IrqHandleEvent(i: Irq)
      requires Own(Abs()) && Accounted(Abs(), EvIrq(i))
      modifies jobs, nodes
      ensures Abs() == HandleEvent(old(Abs()), i)
    {
      hide StreamOk, Q.QInv, B.BufInv, Held, CamRing.RingOk, CamTime.TimeOk, RetireLoop, Q.Dispatch, B.RingTake;
      StreamFacts(Abs());
      if i.hwDone && i.aaoDone {
        DequeueFrameHeld(Abs(), MetaOut0, jobs.dequeuedFrameSeqNo, p1.dequeuedMetaSeqNo0, i.aaoFbc, i.now);
        DequeueFrame(MetaOut0, jobs.dequeuedFrameSeqNo, p1.dequeuedMetaSeqNo0, i.aaoFbc, i.now);
      }
      if i.afoDone {
        DequeueFrameHeld(Abs(), MetaOut1, jobs.dequeuedFrameSeqNo, p1.dequeuedMetaSeqNo1, i.afoFbc, i.now);
        DequeueFrame(MetaOut1, jobs.dequeuedFrameSeqNo, p1.dequeuedMetaSeqNo1, i.afoFbc, i.now);
      }
      if i.swDone {
        DequeueFrameHeld(Abs(), MetaOut0, jobs.dequeuedFrameSeqNo, p1.dequeuedMetaSeqNo0, i.aaoFbcSw, i.now);
        DequeueFrame(MetaOut0, jobs.dequeuedFrameSeqNo, p1.dequeuedMetaSeqNo0, i.aaoFbcSw, i.now);
        if streaming { EventMissing(old(Abs()), i); }
        RetireAndQueue(i.now);
      }
    }

    /** What follows the ring nodes on a done event. */
    method RetireAndQueue(now: nat)
      requires Retirable(cfg, jobs.Abs(), nodes.Abs(), StAbs())
      modifies jobs, nodes
      ensures Abs() == CamPipeline.TryQueue(CamPipeline.DequeueReqFrame(old(Abs()), old(Abs()).q.deq, now))
    {
      hide Q.QInv, B.BufInv, Held, NoneMissing, RetireLoop, Q.Dispatch, StreamOk;
      RetiredMem(Abs(), now);
      DequeueReqFrame(jobs.dequeuedFrameSeqNo, now);
      ReqTryQueue();
    }

    static lemma {:induction false} StreamFacts(s: State)
      requires Core(s)
      ensures s.st.streaming ==> s.st.pipelineOn && s.st.started == s.cfg.enabled && MainOut in s.st.started
      ensures Q.QInv(s.q, s.st.pipelineOn)
    {
    }

    static lemma {:induction false} RetiredMem(s: State, eof: nat)
      requires Q.QInv(s.q, s.st.pipelineOn)
      ensures Q.MemOk(CamPipeline.DequeueReqFrame(s, s.q.deq, eof).q)
    {
      RetireLoopCore(s.q, s.b, s.st.streaming, s.q.deq, eof, s.st.pipelineOn);
      hide RetireLoop;
    }

    /** isp_irq_handle_sof. */
    method IrqHandleSof(i: Irq)
      requires Q.MemOk(jobs.Abs())
      modifies p1, jobs
      ensures Abs() == HandleSof(old(Abs()), i)
    {
      hide Q.MemOk, StampSof;
      p1.SaveFrame(i, jobs.composedFrameSeqNo);
      jobs.SetDequeued(i.frame, i.now);
    }

    /** isp_irq_cam. */
    method IrqCam(i: Irq)
      requires Own(Abs()) && Legal(Abs(), EvIrq(i)) && Accounted(Abs(), EvIrq(i))
      modifies this, jobs, nodes, p1
      ensures Abs() == Step(old(Abs()), EvIrq(i)) && Own(Abs())
    {
      hide StreamOk, Q.FramesOk, Q.SentOk, Q.HistOk, Q.CountOk, Q.MemOk, B.BufInv, Held, CamRing.RingOk, CamTime.TimeOk,
        HandleEvent, HandleSof;
      StepOwn(Abs(), EvIrq(i));
      EventCore(Abs(), i);
      IrqHandleEvent(i);
      if i.sof {
        IrqHandleSof(i);
      }
    }
  
    // ---- streaming -------------------------------------------------------

    /** mtk_cam_dev_init_stream. */
    method InitStream()
      modifies this, jobs
      ensures Abs() == CamPipeline.InitStream(old(Abs()))
      ensures started == old(started)
    {
      streamCount := 0;
      jobs.ResetJobCount();
      enabledCount := |cfg.enabled|;
      enabledDmas := cfg.enabled - {MetaIn0};
    }

    /** mtk_isp_hw_init, once the remote processor runs. */
    method HwInit()
      modifies this, jobs, p1
      ensures Abs() == CamPipeline.HwInit(old(Abs()))
      ensures started == old(started)
    {
      wqAlive := true;
      jobs.ResetCounters();
      p1.Reset(|nodes.doneLog|);
    }

    /** mtk_cam_cio_stream_on. */
    method CioStreamOn(o: CioOutcome) returns (ok: bool)
      requires Q.MemOk(jobs.Abs())
      modifies this, jobs
      ensures Abs() == CamPipeline.CioStreamOn(old(Abs()), o) && (ok <==> o == CioOk)
      ensures started == old(started)
    {
      hide Q.MemOk, CamPipeline.TryQueue;
      if o == NoSeninf || o == NoSensor || o == SeninfFails {
        return false;
      }
      seninfOn := true;
      if o == SensorFails {
        seninfOn := false;
        return false;
      }
      ok := CioConfig(o);
    }

    /** The rest of mtk_cam_cio_stream_on, with the sensor on. */
    method CioConfig(o: CioOutcome) returns (ok: bool)
      requires Q.MemOk(jobs.Abs()) && (o == ConfigFails || o == CioOk)
      modifies this, jobs
      ensures var st := old(Abs()).st;
              Abs() == if o == CioOk then CamPipeline.TryQueue(old(Abs()).(st := st.(sensorOn := true, streaming := true)))
                       else old(Abs()).(st := st.(sensorOn := false, seninfOn := false))
      ensures (ok <==> o == CioOk) && started == old(started)
    {
      hide Q.MemOk, CamPipeline.TryQueue;
      sensorOn := true;
      if o == ConfigFails {
        sensorOn := false;
        seninfOn := false;
        return false;
      }
      streaming := true;
      ReqTryQueue();
      return true;
    }

    /** mtk_cam_cio_stream_off with mtk_isp_hw_release. */
    method CioStreamOff()
      requires Q.QInv(jobs.Abs(), true)
      modifies this, jobs
      ensures Abs() == CamPipeline.CioStreamOff(old(Abs()))
    {
      hide Q.QInv, Q.Drain;
      sensorOn := false;
      seninfOn := false;
      streaming := false;
      jobs.DestroyWorkqueue();
      wqAlive := false;
    }

    /** In non-request mode, register every buffer that is queued already. */
    method RegisterQueued(n: NodeId, allocs: seq<Alloc>)
      requires !streaming && |allocs| == |nodes.bufLists[n]|
      modifies jobs, nodes, p1
      ensures Abs() == EnqueueEach(old(Abs()), old(nodes.bufLists[n]), allocs)
    {
      ghost var goal := EnqueueEach(Abs(), nodes.bufLists[n], allocs);
      var l := nodes.bufLists[n];
      assert l[0..] == l && allocs[0..] == allocs;
      var i := 0;
      while i < |l|
        invariant 0 <= i <= |l| && !streaming
        invariant EnqueueEach(Abs(), l[i..], allocs[i..]) == goal
      {
        assert l[i..][1..] == l[i + 1..] && allocs[i..][1..] == allocs[i + 1..];
        EnqueueNoRequest(l[i], allocs[i]);
        i := i + 1;
      }
    }

    method GiveBack(n: NodeId)
      modifies nodes
      ensures Abs() == CamPipeline.GiveBack(old(Abs()), n)
    {
      hide B.ReturnAll;
      nodes.ReturnAllBuffers(n, QUEUED);
    }

    method PipelineStop()
      modifies this
      ensures Abs() == CamPipeline.PipelineStop(old(Abs()))
      ensures started == old(started)
    {
      pipelineOn := false;
      stopped := {};
    }

    method CountUp()
      modifies this
      ensures Abs() == CamPipeline.CountUp(old(Abs()))
      ensures started == old(started)
    {
      streamCount := streamCount + 1;
    }

    method CountDown()
      requires streamCount > 0
      modifies this
      ensures Abs() == old(Abs()).(st := old(Abs()).st.(streamCount := old(Abs()).st.streamCount - 1))
      ensures started == old(started)
    {
      streamCount := streamCount - 1;
    }

    /** vb2 marks the queue as streaming once start_streaming has succeeded. */
    method MarkStarted(n: NodeId)
      modifies this
      ensures Abs() == CamPipeline.MarkStarted(old(Abs()), n)
      ensures started == old(started) + {n}
    {
      started := started + {n};
    }

    /** s_stream(1) for the last node, once it is counted. */
    method StartLast(n: NodeId, o: CioOutcome) returns (ok: bool)
      requires Q.MemOk(jobs.Abs()) && streamCount > 0
      modifies this, jobs, nodes
      ensures var s := old(Abs());
              var s2 := CamPipeline.CioStreamOn(s, o);
              var s3 := s2.(st := s2.st.(streamCount := s2.st.streamCount - 1));
              Abs() == if o == CioOk then CamPipeline.MarkStarted(s2, n)
                       else CamPipeline.GiveBack(if s3.st.streamCount == 0 then CamPipeline.PipelineStop(s3) else s3, n)
      ensures ok <==> o == CioOk
      ensures started == if o == CioOk then old(started) + {n} else old(started)
    {
      hide Q.MemOk, CamPipeline.CioStreamOn, CamPipeline.GiveBack, CamPipeline.MarkStarted, CamPipeline.PipelineStop, Abs;
      View();
      CountKept(Abs(), o);
      ok := CioStreamOn(o);
      View();
      if ok {
        MarkStarted(n);
      } else {
        UndoCount(n);
      }
    }

    static lemma {:induction false} CountKept(s: State, o: CioOutcome)
      ensures CamPipeline.CioStreamOn(s, o).st.streamCount == s.st.streamCount
    {
      hide Q.Dispatch;
    }

    /** The end of mtk_cam_vb2_start_streaming, from the stream count on. */
    method FinishStart(n: NodeId, o: CioOutcome) returns (ok: bool)
      requires Q.MemOk(jobs.Abs())
      modifies this, jobs, nodes
      ensures Abs() == CamPipeline.FinishStart(old(Abs()), n, o)
      ensures n !in old(started) ==> (ok <==> n in started)
    {
      hide Q.MemOk, CamPipeline.CioStreamOn, CamPipeline.GiveBack, CamPipeline.MarkStarted, CamPipeline.PipelineStop, Abs;
      View();
      CountUp();
      View();
      if streamCount < enabledCount || streaming {
        MarkStarted(n);
        return true;
      }
      ok := StartLast(n, o);
    }

    /** The path fail_no_stream, down to fail_ret_buf. */
    method UndoCount(n: NodeId)
      requires streamCount > 0
      modifies this, nodes
      ensures var s := old(Abs()).(st := old(Abs()).st.(streamCount := old(Abs()).st.streamCount - 1));
              Abs() == CamPipeline.GiveBack(if s.st.streamCount == 0 then CamPipeline.PipelineStop(s) else s, n)
      ensures started == old(started)
    {
      hide CamPipeline.GiveBack, CamPipeline.PipelineStop, Abs;
      View();
      CountDown();
      View();
      if streamCount == 0 {
        PipelineStop();
      }
      GiveBack(n);
    }

    /** Start the pipeline and set up the session counters. */
    method StartPipeline()
      modifies this, jobs
      ensures Abs() == CamPipeline.InitStream(old(Abs()).(st := old(Abs()).st.(pipelineOn := true)))
      ensures started == old(started)
    {
      pipelineOn := true;
      InitStream();
    }

    /** Register what is queued, then count the node in. */
    method StartTail(n: NodeId, env: StartEnv) returns (ok: bool)
      requires !streaming && Q.MemOk(jobs.Abs()) && FreshAllocs(jobs.heap.Keys, env.allocs)
      requires n !in cfg.viaRequests ==> |env.allocs| == |nodes.bufLists[n]|
      modifies this, jobs, nodes, p1
      ensures Abs() == CamPipeline.StartTail(old(Abs()), n, env)
      ensures n !in old(started) ==> (ok <==> n in started)
    {
      hide Q.MemOk, FreshAllocs, EnqueueEach, CamPipeline.FinishStart;
      RegisteredMem(Abs(), n, env.allocs);
      if n !in cfg.viaRequests {
        RegisterQueued(n, env.allocs);
      }
      ok := FinishStart(n, env.cio);
    }

    /** mtk_cam_vb2_start_streaming. */
    method StartStreaming(n: NodeId, env: StartEnv) returns (ok: bool)
      requires Core(Abs()) && Legal(Abs(), EvStart(n, env))
      modifies this, jobs, nodes, p1
      ensures Abs() == Step(old(Abs()), EvStart(n, env)) && Core(Abs())
      ensures ok <==> n in started
    {
      hide Core, Q.MemOk, FreshAllocs, HandedOver, CamPipeline.StartTail, CamPipeline.GiveBack, CamPipeline.PipelineStop;
      StepCore(Abs(), EvStart(n, env));
      NotStreaming(Abs(), n);
      if n !in cfg.enabled {
        GiveBack(n);
        return false;
      }
      if !pipelineOn {
        if !env.pipelineOk {
          GiveBack(n);
          return false;
        }
        ok := FirstStart(n, env);
      } else {
        ok := StartTail(n, env);
      }
    }

    /** The first node of a session, once the pipeline has started. */
    method FirstStart(n: NodeId, env: StartEnv) returns (ok: bool)
      requires !streaming && Q.MemOk(jobs.Abs()) && FreshAllocs(jobs.heap.Keys, env.allocs) && n !in started
      requires n !in cfg.viaRequests ==> |env.allocs| == |nodes.bufLists[n]|
      modifies this, jobs, nodes, p1
      ensures var s1 := CamPipeline.InitStream(old(Abs()).(st := old(Abs()).st.(pipelineOn := true)));
              Abs() == if env.hwOk then CamPipeline.StartTail(CamPipeline.HwInit(s1), n, env)
                       else CamPipeline.GiveBack(CamPipeline.PipelineStop(s1), n)
      ensures ok <==> n in started
    {
      hide Q.MemOk, FreshAllocs, CamPipeline.StartTail, CamPipeline.GiveBack, CamPipeline.PipelineStop;
      InitKeepsMem(Abs());
      StartPipeline();
      if !env.hwOk {
        if streamCount == 0 {
          PipelineStop();
        }
        GiveBack(n);
        return false;
      }
      HwInit();
      ok := StartTail(n, env);
    }

    static lemma {:induction false} InitKeepsMem(s: State)
      requires Q.MemOk(s.q)
      ensures var s1 := CamPipeline.InitStream(s.(st := s.st.(pipelineOn := true)));
              Q.MemOk(CamPipeline.HwInit(s1).q)
    {
    }

    static lemma {:induction false} NotStreaming(s: State, n: NodeId)
      requires Core(s) && n !in s.st.started
      ensures n in s.cfg.enabled ==> !s.st.streaming
      ensures Q.QInv(s.q, s.st.pipelineOn) && Q.MemOk(s.q)
    {
    }

    static lemma {:induction false} RegisteredMem(s: State, n: NodeId, allocs: seq<Alloc>)
      requires !s.st.streaming && Q.MemOk(s.q) && FreshAllocs(s.q.heap.Keys, allocs)
      requires n !in s.cfg.viaRequests ==> |allocs| == |s.b.lists[n]|
      ensures Q.MemOk(Register(s, n, allocs).q)
    {
      if n !in s.cfg.viaRequests { EachMem(s, s.b.lists[n], allocs); }
    }

    static lemma {:induction false} EachMem(s: State, xs: seq<Buf>, allocs: seq<Alloc>)
      requires |allocs| == |xs| && !s.st.streaming && Q.MemOk(s.q) && FreshAllocs(s.q.heap.Keys, allocs)
      ensures Q.MemOk(EnqueueEach(s, xs, allocs).q)
      decreases |xs|
    {
      if xs != [] {
        if xs[0].node == MainOut && allocs[0].Ptr? { SubmitMem(s.q, allocs[0].id, SyntheticRequest(xs[0])); }
        EachMem(CamPipeline.EnqueueNoRequest(s, xs[0], allocs[0]), xs[1..], allocs[1..]);
      }
    }

    /** The first part of a stop: the stream goes off when every node was started. */
    method StopStream()
      requires streaming ==> Q.QInv(jobs.Abs(), true)
      modifies this, jobs
      ensures var s := old(Abs());
              Abs() == if s.st.streamCount == s.st.enabledCount then
                         var off := if s.st.streaming then CamPipeline.CioStreamOff(s) else s;
                         off.(st := off.st.(dmas := {}))
                       else s
    {
      hide Q.QInv, CamPipeline.CioStreamOff, Abs;
      View();
      if streamCount == enabledCount {
        if streaming {
          CioStreamOff();
        }
        ClearDmas();
      }
    }

    method ClearDmas()
      modifies this
      ensures Abs() == old(Abs()).(st := old(Abs()).st.(dmas := {}))
    {
      enabledDmas := {};
    }

    /** vb2 marks the queue as stopped. */
    method MarkStopped(n: NodeId)
      requires streamCount > 0
      modifies this
      ensures var st := old(Abs()).st;
              Abs() == old(Abs()).(st := st.(streamCount := st.streamCount - 1, started := st.started - {n},
                                             stopped := st.stopped + {n}))
    {
      streamCount := streamCount - 1;
      started, stopped := started - {n}, stopped + {n};
    }

    /** mtk_cam_vb2_stop_streaming. */
    method StopStreaming(n: NodeId)
      requires Core(Abs()) && n in started
      modifies this, jobs, nodes, p1
      ensures Abs() == Step(old(Abs()), EvStop(n)) && Core(Abs())
    {
      hide Core, CamPipeline.CioStreamOff, CamPipeline.PipelineStop, B.ReturnAll, Q.Cleanup, Q.MemOk, Q.QInv, Abs;
      View();
      StepCore(Abs(), EvStop(n));
      StopFacts(Abs(), n);
      StopStream();
      View();
      ReturnError(n);
      View();
      MarkStopped(n);
      View();
      if streamCount != 0 {
        return;
      }
      EndSession();
    }

    method EndSession()
      requires Q.MemOk(jobs.Abs())
      modifies this, jobs
      ensures var s := old(Abs());
              Abs() == CamPipeline.PipelineStop(s.(q := Q.Cleanup(s.q), st := s.st.(cancelled := {})))
    {
      hide CamPipeline.PipelineStop, Q.Cleanup, Q.MemOk, Abs;
      Cleanup();
      PipelineStop();
    }

    method ReturnError(n: NodeId)
      modifies nodes
      ensures Abs() == old(Abs()).(b := B.ReturnAll(old(Abs()).b, n, ERROR))
    {
      hide B.ReturnAll;
      nodes.ReturnAllBuffers(n, ERROR);
    }

    method Cleanup()
      requires Q.MemOk(jobs.Abs())
      modifies this, jobs
      ensures var s := old(Abs()); Abs() == s.(q := Q.Cleanup(s.q), st := s.st.(cancelled := {}))
    {
      hide Q.Cleanup, Q.MemOk;
      jobs.ReqCleanup();
      cancelled := {};
    }

    static lemma {:induction false} StopFacts(s: State, n: NodeId)
      requires Core(s) && n in s.st.started
      ensures s.st.streamCount > 0 && Q.QInv(s.q, true)
      ensures Q.MemOk(s.q) && Q.MemOk(CamPipeline.CioStreamOff(s).q)
      ensures CamPipeline.CioStreamOff(s).st.streamCount == s.st.streamCount
    {
      Q.DrainKeeps(s.q, true);
      FullCount({n}, s.st.started);
    }
  }
}
