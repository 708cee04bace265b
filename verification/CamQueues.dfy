/** The request scheduler: the pending FIFO, the running list, the ordered
    workqueue, the frame counters, and the memory of the requests. */
module CamQueues {
  import opened CamTypes

  /** The request at an address; an address that was freed reads as zeroes. */
  function At(q: Queues, r: ReqId): Request {
    if r in q.heap then q.heap[r] else Request(false, [], 0, 0)
  }

  // ---- invariants --------------------------------------------------------

  /** Both lists hold live requests, each at most once; a synthetic request that is
      still allocated is on one of them, so none is leaked or used after its kfree. */
  ghost predicate MemOk(q: Queues) {
    && Distinct(q.pending) && Distinct(q.running)
    && (forall r :: r in q.pending ==> r !in q.running && r in q.heap)
    && (forall r :: r in q.running ==> r in q.heap)
    && (forall r :: r in q.heap && q.heap[r].synthetic ==> r in q.pending || r in q.running)
  }

  /** The running frame numbers are the interval ending at enqueued_frame_seq_no. */
  ghost predicate FramesOk(q: Queues) {
    && |q.running| <= MAX_RUNNING_JOBS
    && |q.running| <= q.enq
    && forall k :: 0 <= k < |q.running| ==>
         q.running[k] in q.heap && q.heap[q.running[k]].frameSeq == q.enq - |q.running| + 1 + k
  }

  /** The workqueue holds exactly the running requests that were not sent yet. */
  ghost predicate SentOk(q: Queues) {
    && |q.wq| <= |q.running| && |q.wq| <= q.enq
    && q.wq == q.running[|q.running| - |q.wq|..]
    && q.sent == q.enq - |q.wq|
    && q.deq <= q.comp <= q.sent
  }

  function Ids(h: seq<Retired>): (s: seq<ReqId>)
    ensures |s| == |h| && forall i :: 0 <= i < |h| ==> s[i] == h[i].id
  {
    seq(|h|, i requires 0 <= i < |h| => h[i].id)
  }

  /** One abstract queue: what was submitted since the last cleanup is what has
      retired, then what runs, then what waits; the i-th one has frame number i. */
  ghost predicate HistOk(q: Queues) {
    && q.submitted == Ids(q.retired) + q.running + q.pending
    && forall i :: 0 <= i < |q.retired| ==> q.retired[i].frame == i + 1
  }

  ghost predicate CountOk(q: Queues, pipelineOn: bool) {
    if pipelineOn then
      && q.jobCount == |q.running|
      && q.enq == |q.retired| + |q.running|
      && |q.retired| <= q.deq
    else
      q.running == [] && q.retired == []
  }

  ghost predicate QInv(q: Queues, pipelineOn: bool) {
    MemOk(q) && FramesOk(q) && SentOk(q) && HistOk(q) && CountOk(q, pipelineOn)
  }

  // ---- req_try_queue -----------------------------------------------------

  /** Move the head of the pending list to the running list and queue its work
      (one turn of the loop, with mtk_isp_req_enqueue inlined). */
  function DispatchOne(q: Queues): Queues
    requires q.pending != []
  {
    var r := q.pending[0];
    q.(jobCount := q.jobCount + 1,
       pending := q.pending[1..],
       running := q.running + [r],
       enq := q.enq + 1,
       heap := q.heap[r := At(q, r).(frameSeq := q.enq + 1)],
       wq := q.wq + [r])
  }

  function Dispatch(q: Queues): Queues
    decreases |q.pending|
  {
    if q.pending == [] || q.jobCount >= MAX_RUNNING_JOBS then q
    else Dispatch(DispatchOne(q))
  }

  lemma {:induction false} DispatchOneMem(q: Queues)
    requires MemOk(q) && q.pending != []
    ensures MemOk(DispatchOne(q))
  {
    var q' := DispatchOne(q);
    var r := q.pending[0];
    assert q.pending == [r] + q.pending[1..];
    forall x | x in q'.heap && q'.heap[x].synthetic ensures x in q'.pending || x in q'.running {
      assert x in q.heap && q.heap[x].synthetic;
    }
  }

  lemma {:induction false} DispatchOneRest(q: Queues)
    requires QInv(q, true) && q.pending != [] && q.jobCount < MAX_RUNNING_JOBS
    ensures var q' := DispatchOne(q); FramesOk(q') && SentOk(q') && HistOk(q') && CountOk(q', true)
  {
    var q' := DispatchOne(q);
    assert q.pending == [q.pending[0]] + q.pending[1..];
    assert q'.submitted == Ids(q'.retired) + q'.running + q'.pending;
    assert q'.wq == q'.running[|q'.running| - |q'.wq|..];
  }

  lemma {:induction false} DispatchKeeps(q: Queues)
    requires QInv(q, true)
    ensures var q' := Dispatch(q);
            && QInv(q', true)
            && (q'.pending == [] || q'.jobCount == MAX_RUNNING_JOBS)
            && q'.deq == q.deq && q'.comp == q.comp && q'.sent == q.sent
            && q'.retired == q.retired && q'.submitted == q.submitted
    decreases |q.pending|
  {
    if q.pending != [] && q.jobCount < MAX_RUNNING_JOBS {
      DispatchOneMem(q);
      DispatchOneRest(q);
      DispatchKeeps(DispatchOne(q));
    }
  }

  /** Dispatching only renumbers requests: memory, bindings and live set stay. */
  lemma {:induction false} DispatchFrame(q: Queues)
    requires MemOk(q)
    ensures var q' := Dispatch(q);
            && q'.heap.Keys == q.heap.Keys
            && (forall r :: r in q.heap ==> q'.heap[r] == q.heap[r].(frameSeq := q'.heap[r].frameSeq))
            && (forall r :: r in q.pending || r in q.running <==> r in q'.pending || r in q'.running)
            && (forall r :: r in q.running ==> q'.heap[r] == q.heap[r])
            && q.running <= q'.running
    decreases |q.pending|
  {
    if q.pending != [] && q.jobCount < MAX_RUNNING_JOBS {
      var q1 := DispatchOne(q);
      DispatchOneMem(q);
      DispatchFrame(q1);
      assert q.pending == [q.pending[0]] + q.pending[1..];
    }
  }

  // ---- retiring ----------------------------------------------------------

  /** Unlink the head of the running list and free it if the driver made it. */
  function RetireHead(q: Queues, outcome: Outcome): Queues
    requires q.running != []
  {
    var r := q.running[0];
    q.(jobCount := q.jobCount - 1,
       running := q.running[1..],
       heap := if At(q, r).synthetic then q.heap - {r} else q.heap,
       retired := q.retired + [Retired(r, At(q, r).frameSeq, outcome)])
  }

  lemma {:induction false} RetireHeadMem(q: Queues, outcome: Outcome)
    requires MemOk(q) && q.running != []
    ensures MemOk(RetireHead(q, outcome))
  {
    assert q.running == [q.running[0]] + q.running[1..];
  }

  lemma {:induction false} RetireHeadFrames(q: Queues, outcome: Outcome)
    requires MemOk(q) && FramesOk(q) && q.running != []
    ensures FramesOk(RetireHead(q, outcome))
  {
    var q' := RetireHead(q, outcome);
    forall k | 0 <= k < |q'.running|
      ensures q'.running[k] in q'.heap && q'.heap[q'.running[k]].frameSeq == q'.enq - |q'.running| + 1 + k
    {
      assert q'.running[k] == q.running[k + 1];
    }
  }

  lemma {:induction false} RetireHeadHist(q: Queues, outcome: Outcome)
    requires QInv(q, true) && q.running != [] && q.heap[q.running[0]].frameSeq <= q.deq
    ensures HistOk(RetireHead(q, outcome)) && CountOk(RetireHead(q, outcome), true)
  {
    var q' := RetireHead(q, outcome);
    assert Ids(q'.retired) == Ids(q.retired) + [q.running[0]];
    assert q.running == [q.running[0]] + q.running[1..];
    assert q'.submitted == Ids(q'.retired) + q'.running + q'.pending;
  }

  /** A frame that was reported done is composed, hence sent: its work is gone from
      the workqueue before its memory is freed. */
  lemma {:induction false} RetireHeadSent(q: Queues, outcome: Outcome)
    requires MemOk(q) && FramesOk(q) && SentOk(q) && q.running != []
    requires q.heap[q.running[0]].frameSeq <= q.deq
    ensures q.running[0] !in q.wq
    ensures SentOk(RetireHead(q, outcome))
  {
    var q' := RetireHead(q, outcome);
    assert |q.wq| < |q.running|;
    assert q'.running[|q'.running| - |q.wq|..] == q.running[|q.running| - |q.wq|..];
  }

  lemma {:induction false} RetireHeadKeeps(q: Queues, outcome: Outcome)
    requires QInv(q, true) && q.running != [] && q.heap[q.running[0]].frameSeq <= q.deq
    ensures QInv(RetireHead(q, outcome), true)
  {
    RetireHeadMem(q, outcome);
    RetireHeadFrames(q, outcome);
    RetireHeadHist(q, outcome);
    RetireHeadSent(q, outcome);
  }

  // ---- worker, composer, cleanup -----------------------------------------

  /** isp_tx_frame_worker: the oldest queued work sends its frame to the SCP. */
  function Send(q: Queues): Queues
    requires q.wq != []
  {
    q.(wq := q.wq[1..], sent := At(q, q.wq[0]).frameSeq)
  }

  lemma {:induction false} SendKeeps(q: Queues, on: bool)
    requires QInv(q, on) && q.wq != []
    ensures q.wq[0] in q.heap && QInv(Send(q), on)
    ensures Send(q).sent == q.sent + 1
  {
    assert q.wq[0] == q.running[|q.running| - |q.wq|];
    assert Send(q).wq == q.running[|q.running| - |q.wq| + 1..];
  }

  /** destroy_workqueue runs every queued work before it returns. */
  function Drain(q: Queues): Queues
    decreases |q.wq|
  {
    if q.wq == [] then q else Drain(Send(q))
  }

  lemma {:induction false} DrainKeeps(q: Queues, on: bool)
    requires QInv(q, on)
    ensures var q' := Drain(q); QInv(q', on) && q' == q.(wq := [], sent := q.enq)
    decreases |q.wq|
  {
    if q.wq != [] {
      SendKeeps(q, on);
      DrainKeeps(Send(q), on);
    }
  }

  /** Unlink every request and free the synthetic ones. */
  function Cleanup(q: Queues): Queues {
    q.(pending := [], running := [], submitted := [], retired := [],
       heap := q.heap - (set r | r in q.pending + q.running && r in q.heap && q.heap[r].synthetic))
  }

  lemma {:induction false} CleanupKeeps(q: Queues, on: bool)
    requires QInv(q, on) && q.wq == []
    ensures QInv(Cleanup(q), false)
    ensures Cleanup(q).pending == [] && Cleanup(q).running == []
    ensures forall r :: r in Cleanup(q).heap <==> r in q.heap && !q.heap[r].synthetic
    ensures forall r :: r in Cleanup(q).heap ==> Cleanup(q).heap[r] == q.heap[r]
  {
  }

  /** The counters are reset when the hardware is initialised. */
  function ResetCounters(q: Queues): Queues {
    q.(enq := 0, sent := 0, comp := 0, deq := 0)
  }

  lemma {:induction false} ResetKeeps(q: Queues)
    requires QInv(q, false)
    ensures QInv(ResetCounters(q.(jobCount := 0)), true)
  {
  }

  // ---- submission --------------------------------------------------------

  /** list_add_tail on the pending list. */
  function Submit(q: Queues, r: ReqId, req: Request): Queues {
    q.(heap := q.heap[r := req], pending := q.pending + [r], submitted := q.submitted + [r])
  }

  lemma {:induction false} SubmitKeeps(q: Queues, on: bool, r: ReqId, req: Request)
    requires QInv(q, on) && r !in q.pending && r !in q.running
    ensures QInv(Submit(q, r, req), on)
  {
    var q' := Submit(q, r, req);
    assert q'.submitted == Ids(q'.retired) + q'.running + q'.pending;
  }

  // ---- lookup ------------------------------------------------------------

  /** mtk_cam_dev_get_req: the running request with this frame number, if any. */
  function FindFrame(q: Queues, running: seq<ReqId>, f: nat): (k: int)
    ensures -1 <= k < |running|
    ensures k >= 0 ==> At(q, running[k]).frameSeq == f && forall i :: 0 <= i < k ==> At(q, running[i]).frameSeq != f
    ensures k < 0 ==> forall i :: 0 <= i < |running| ==> At(q, running[i]).frameSeq != f
  {
    if running == [] then -1
    else if At(q, running[0]).frameSeq == f then 0
    else
      var k := FindFrame(q, running[1..], f);
      assert forall i :: 0 < i < |running| ==> running[i] == running[1..][i - 1];
      if k < 0 then -1 else k + 1
  }
}
