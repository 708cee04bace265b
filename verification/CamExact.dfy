/** What the retire loop does, said about the whole list at once. */
module CamExact {
  import opened CamTypes
  import opened CamPipeline
  import opened CamCore
  import opened CamOwnership
  import opened CamTheorems
  import B = CamBuffers
  import Q = CamQueues

  // ---- the retire loop is a filter ---------------------------------------

  /** How many running requests have a frame number up to f. */
  function RetireCount(q: Queues, f: nat): int {
    var base := q.enq - |q.running|;
    if f <= base then 0 else if f - base >= |q.running| then |q.running| else f - base
  }

  function OutcomeOf(streaming: bool, frame: nat, f: nat): Outcome {
    if !streaming then Silent else if frame == f then Finished else Dropped
  }

  /** job_done on each of a list of jobs, DONE for frame f and ERROR for the others. */
  function CompleteJobs(b: Buffers, streaming: bool, jobs: seq<(ReqId, Request)>, f: nat, eof: nat): Buffers
    decreases |jobs|
  {
    if jobs == [] then b
    else
      var state := if jobs[0].1.frameSeq == f then DONE else ERROR;
      CompleteJobs(B.JobDone(b, streaming, jobs[0].0, jobs[0].1, state, eof), streaming, jobs[1..], f, eof)
  }

  function JobsOf(q: Queues, ids: seq<ReqId>): (js: seq<(ReqId, Request)>)
    ensures |js| == |ids| && forall i :: 0 <= i < |ids| ==> js[i] == (ids[i], Q.At(q, ids[i]))
  {
    seq(|ids|, i requires 0 <= i < |ids| => (ids[i], Q.At(q, ids[i])))
  }

  /** ret' is ret followed by the first k requests of run, in order: the frames from base + 1
      on, frame f finished and the others dropped. */
  ghost predicate Gone(run: seq<ReqId>, ret: seq<Retired>, ret': seq<Retired>, base: nat, k: int, streaming: bool, f: nat) {
    && 0 <= k <= |run| && |ret'| == |ret| + k && ret <= ret'
    && forall i :: 0 <= i < k ==>
         ret'[|ret| + i] == Retired(run[i], base + 1 + i, OutcomeOf(streaming, base + 1 + i, f))
  }

  lemma {:induction false} GoneStep(run: seq<ReqId>, ret: seq<Retired>, ret': seq<Retired>, base: nat, k: int,
                                    streaming: bool, f: nat)
    requires run != [] && k >= 1
    requires var first := Retired(run[0], base + 1, OutcomeOf(streaming, base + 1, f));
             Gone(run[1..], ret + [first], ret', base + 1, k - 1, streaming, f)
    ensures Gone(run, ret, ret', base, k, streaming, f)
  {
    hide OutcomeOf;
    var first := Retired(run[0], base + 1, OutcomeOf(streaming, base + 1, f));
    forall i | 0 <= i < k
      ensures ret'[|ret| + i] == Retired(run[i], base + 1 + i, OutcomeOf(streaming, base + 1 + i, f))
    {
      if i == 0 {
        assert (ret + [first])[|ret|] == first;
      } else {
        assert run[1..][i - 1] == run[i];
      }
    }
  }

  /** The head of the list, when it is not newer than frame f. */
  lemma {:induction false} HeadLeaves(q: Queues, outcome: Outcome)
    requires Q.MemOk(q) && Q.FramesOk(q) && q.running != []
    ensures var q1 := Q.RetireHead(q, outcome);
            && Q.MemOk(q1) && Q.FramesOk(q1) && q.enq >= |q.running|
            && Q.At(q, q.running[0]).frameSeq == q.enq - |q.running| + 1
            && q1.running == q.running[1..] && q1.jobCount == q.jobCount - 1 && q1.enq == q.enq
            && q1.retired == q.retired + [Retired(q.running[0], q.enq - |q.running| + 1, outcome)]
  {
    Q.RetireHeadMem(q, outcome);
    Q.RetireHeadFrames(q, outcome);
  }

  lemma {:induction false} BaseOk(q: Queues)
    requires Q.FramesOk(q)
    ensures q.enq >= |q.running|
    ensures q.running != [] ==> Q.At(q, q.running[0]).frameSeq == q.enq - |q.running| + 1
  {
  }

  /** The early-breaking loop equals the whole-list specification: exactly the
      requests numbered up to f leave, in order, frame f as finished and the older
      ones as dropped; the newer ones stay. */
  lemma {:induction false} RetireLoopIsFilter(q: Queues, b: Buffers, streaming: bool, f: nat, eof: nat)
    requires Q.MemOk(q) && Q.FramesOk(q)
    ensures q.enq >= |q.running|
    ensures var (q', b') := RetireLoop(q, b, streaming, f, eof);
            var k := RetireCount(q, f);
            && 0 <= k <= |q.running| && q'.running == q.running[k..]
            && q'.jobCount == q.jobCount - k
            && Gone(q.running, q.retired, q'.retired, q.enq - |q.running|, k, streaming, f)
    decreases |q.running|
  {
    hide Q.MemOk, Q.FramesOk, B.JobDone, Q.RetireHead, Gone;
    BaseOk(q);
    var q' := RetireLoop(q, b, streaming, f, eof).0;
    if q.running == [] || Q.At(q, q.running[0]).frameSeq > f {
      NoneGone(q.running, q.retired, q.enq - |q.running|, streaming, f);
    } else if Q.At(q, q.running[0]).frameSeq == f {
      var o := if streaming then Finished else Silent;
      HeadLeaves(q, o);
      NoneGone(q.running[1..], q'.retired, q.enq - |q.running| + 1, streaming, f);
      GoneStep(q.running, q.retired, q'.retired, q.enq - |q.running|, 1, streaming, f);
    } else {
      var o := if streaming then Dropped else Silent;
      var r := q.running[0];
      HeadLeaves(q, o);
      RetireLoopIsFilter(Q.RetireHead(q, o), B.JobDone(b, streaming, r, Q.At(q, r), ERROR, eof), streaming, f, eof);
      GoneStep(q.running, q.retired, q'.retired, q.enq - |q.running|, RetireCount(q, f), streaming, f);
    }
  }

  lemma {:induction false} NoneGone(run: seq<ReqId>, ret: seq<Retired>, base: nat, streaming: bool, f: nat)
    ensures Gone(run, ret, ret, base, 0, streaming, f)
  {
  }

  /** Membership form: a running request stays exactly when its frame is newer. */
  lemma {:induction false} RetiredExactly(q: Queues, b: Buffers, streaming: bool, f: nat, eof: nat, r: ReqId)
    requires Q.MemOk(q) && Q.FramesOk(q) && r in q.running
    ensures r in RetireLoop(q, b, streaming, f, eof).0.running <==> Q.At(q, r).frameSeq > f
  {
    hide RetireLoop, Gone, Q.MemOk;
    RetireLoopIsFilter(q, b, streaming, f, eof);
    var k := RetireCount(q, f);
    var i :| 0 <= i < |q.running| && q.running[i] == r;
    assert q.running[i] in q.running[k..] <==> i >= k by {
      if i >= k { assert q.running[k..][i - k] == r; }
    }
  }

  /** The buffers are those of the retired requests, completed one request after the
      other. */
  lemma {:induction false} RetireLoopCompletes(q: Queues, b: Buffers, streaming: bool, f: nat, eof: nat)
    requires Q.MemOk(q) && Q.FramesOk(q)
    ensures RetireLoop(q, b, streaming, f, eof).1
            == CompleteJobs(b, streaming, JobsOf(q, q.running[..RetireCount(q, f)]), f, eof)
    decreases |q.running|
  {
    var k := RetireCount(q, f);
    if k > 0 {
      var r := q.running[0];
      var req := Q.At(q, r);
      assert JobsOf(q, q.running[..k])[0] == (r, req);
      if req.frameSeq == f {
        assert k == 1 && JobsOf(q, q.running[..k])[1..] == [];
      } else {
        var o := if streaming then Dropped else Silent;
        var q1 := Q.RetireHead(q, o);
        Q.RetireHeadMem(q, o);
        Q.RetireHeadFrames(q, o);
        RetireLoopCompletes(q1, B.JobDone(b, streaming, r, req, ERROR, eof), streaming, f, eof);
        assert RetireCount(q1, f) == k - 1;
        assert JobsOf(q1, q1.running[..k - 1]) == JobsOf(q, q.running[..k])[1..];
      }
    }
  }

  // ---- what a retired request does to its buffers ------------------------

  ghost predicate LoggedSince(log: seq<Completion>, log': seq<Completion>, c: Completion) {
    exists i :: |log| <= i < |log'| && log'[i] == c
  }

  lemma {:induction false} LoggedLater(log: seq<Completion>, log1: seq<Completion>, log2: seq<Completion>, c: Completion)
    requires log <= log1 <= log2 && (LoggedSince(log, log1, c) || LoggedSince(log1, log2, c))
    ensures LoggedSince(log, log2, c)
  {
    if LoggedSince(log, log1, c) {
      var i :| |log| <= i < |log1| && log1[i] == c;
      assert log2[i] == c;
    }
  }

  lemma {:induction false} CompleteAllGrows(b: Buffers, r: ReqId, req: Request, todo: seq<Buf>, state: Vb2State, eof: nat)
    ensures b.log <= B.CompleteAll(b, r, req, todo, state, eof).log
    decreases |todo|
  {
    if todo != [] {
      var x := todo[0];
      var b1 := if req.synthetic || (x in b.bound && b.bound[x] == r)
        then B.Complete(b, x, state, B.StampOf(req, x, eof)) else b;
      CompleteAllGrows(b1, r, req, todo[1..], state, eof);
    }
  }

  /** job_done logs each buffer it walks over. */
  lemma {:induction false} CompleteAllMarks(b: Buffers, r: ReqId, req: Request, todo: seq<Buf>,
                                            state: Vb2State, eof: nat, x: Buf)
    requires state != QUEUED && (req.synthetic ==> |todo| <= 1) && x in B.Hits(b, r, req, todo)
    ensures LoggedSince(b.log, B.CompleteAll(b, r, req, todo, state, eof).log,
                        Completion(x, state, B.StampOf(req, x, eof)))
    decreases |todo|
  {
    var y := todo[0];
    var c := Completion(x, state, B.StampOf(req, x, eof));
    var b1 := if y in B.Hits(b, r, req, todo) then B.Complete(b, y, state, B.StampOf(req, y, eof)) else b;
    B.HitsStep(b, b1, r, req, todo);
    CompleteAllGrows(b1, r, req, todo[1..], state, eof);
    if x == y {
      assert b1.log[|b.log|] == c;
    } else {
      CompleteAllMarks(b1, r, req, todo[1..], state, eof, x);
    }
    LoggedLater(b.log, b1.log, B.CompleteAll(b1, r, req, todo[1..], state, eof).log, c);
  }

  lemma {:induction false} CompleteJobsGrows(b: Buffers, jobs: seq<(ReqId, Request)>, f: nat, eof: nat)
    ensures b.log <= CompleteJobs(b, true, jobs, f, eof).log
    decreases |jobs|
  {
    if jobs != [] {
      var state := if jobs[0].1.frameSeq == f then DONE else ERROR;
      CompleteAllGrows(b, jobs[0].0, jobs[0].1, jobs[0].1.bufs, state, eof);
      CompleteJobsGrows(B.JobDone(b, true, jobs[0].0, jobs[0].1, state, eof), jobs[1..], f, eof);
    }
  }

  predicate HasHit(b: Buffers, job: (ReqId, Request), x: Buf) {
    x in B.Hits(b, job.0, job.1, job.1.bufs)
  }

  /** A buffer of the j-th job that no earlier job completes is logged for job j. */
  lemma {:induction false} CompleteJobsMarks(b: Buffers, jobs: seq<(ReqId, Request)>, j: nat, f: nat, eof: nat, x: Buf)
    requires j < |jobs| && HasHit(b, jobs[j], x)
    requires forall i :: 0 <= i < |jobs| ==> jobs[i].1.synthetic ==> |jobs[i].1.bufs| <= 1
    requires forall i :: 0 <= i < j ==> !HasHit(b, jobs[i], x)
    ensures LoggedSince(b.log, CompleteJobs(b, true, jobs, f, eof).log,
                        Completion(x, if jobs[j].1.frameSeq == f then DONE else ERROR, B.StampOf(jobs[j].1, x, eof)))
    decreases |jobs|
  {
    var (r, req) := jobs[0];
    var state := if req.frameSeq == f then DONE else ERROR;
    var b1 := B.JobDone(b, true, r, req, state, eof);
    var c := Completion(x, if jobs[j].1.frameSeq == f then DONE else ERROR, B.StampOf(jobs[j].1, x, eof));
    CompleteAllGrows(b, r, req, req.bufs, state, eof);
    CompleteJobsGrows(b1, jobs[1..], f, eof);
    if j == 0 {
      CompleteAllMarks(b, r, req, req.bufs, state, eof, x);
    } else {
      B.CompleteAllFrame(b, r, req, req.bufs, state, eof);
      assert !HasHit(b, jobs[0], x);
      forall i | 0 <= i < |jobs[1..]| ensures HasHit(b1, jobs[1..][i], x) == HasHit(b, jobs[i + 1], x) {
      }
      CompleteJobsMarks(b1, jobs[1..], j - 1, f, eof, x);
    }
    LoggedLater(b.log, b1.log, CompleteJobs(b1, true, jobs[1..], f, eof).log, c);
  }

  /** The loop logs each buffer that a running request numbered up to f holds. */
  lemma {:induction false} RetireLoopMarks(c: Config, q: Queues, b: Buffers, started: set<NodeId>, f: nat, eof: nat, j: nat, x: Buf)
    requires Q.MemOk(q) && Q.FramesOk(q) && Held(c, q, b, started)
    requires j < |q.running| && Q.At(q, q.running[j]).frameSeq <= f
    requires B.Holds(b, q.running[j], Q.At(q, q.running[j]), x)
    ensures var req := Q.At(q, q.running[j]);
            LoggedSince(b.log, RetireLoop(q, b, true, f, eof).1.log,
                        Completion(x, if req.frameSeq == f then DONE else ERROR, B.StampOf(req, x, eof)))
  {
    var k := RetireCount(q, f);
    assert j < k;
    var jobs := JobsOf(q, q.running[..k]);
    RetireLoopCompletes(q, b, true, f, eof);
    hide RetireLoop, Q.FramesOk, CompleteJobs;
    forall i | 0 <= i < |jobs|
      ensures jobs[i].1.synthetic ==> |jobs[i].1.bufs| <= 1
      ensures i < j ==> !HasHit(b, jobs[i], x)
    {
      OneBuffer(c, q, b, started, q.running[i]);
      if i < j { OtherHit(c, q, b, started, q.running[i], q.running[j], x); }
    }
    hide Held, Q.MemOk;
    assert HasHit(b, jobs[j], x);
    CompleteJobsMarks(b, jobs, j, f, eof, x);
  }

  lemma {:induction false} OneBuffer(c: Config, q: Queues, b: Buffers, started: set<NodeId>, r: ReqId)
    requires Held(c, q, b, started) && r in q.running
    ensures Q.At(q, r).synthetic ==> |Q.At(q, r).bufs| == 1
  {
    assert ReqHeld(c, b, started, r, Q.At(q, r));
  }

  lemma {:induction false} OtherHit(c: Config, q: Queues, b: Buffers, started: set<NodeId>, r1: ReqId, r2: ReqId, x: Buf)
    requires Held(c, q, b, started) && r1 in q.running && r2 in q.running && r1 != r2
    requires B.Holds(b, r2, Q.At(q, r2), x)
    ensures !HasHit(b, (r1, Q.At(q, r1)), x)
  {
    hide Held;
    HitsDisjoint(c, q, b, started, r1, r2);
    assert x in B.Hits(b, r2, Q.At(q, r2), Q.At(q, r2).bufs);
  }

  /** While streaming, each buffer of each running request numbered up to f is
      returned: DONE for frame f itself, ERROR for a dropped one, with the stamp of
      that request. */
  lemma {:induction false} RetiredBuffersMarked(s: State, f: nat, eof: nat, j: nat, x: Buf)
    requires Own(s) && s.st.streaming && j < |s.q.running|
    requires Q.At(s.q, s.q.running[j]).frameSeq <= f
    requires B.Holds(s.b, s.q.running[j], Q.At(s.q, s.q.running[j]), x)
    ensures var req := Q.At(s.q, s.q.running[j]);
            LoggedSince(s.b.log, DequeueReqFrame(s, f, eof).b.log,
                        Completion(x, if req.frameSeq == f then DONE else ERROR, B.StampOf(req, x, eof)))
  {
    hide Held, RetireLoop, StreamOk, B.BufInv, Q.MemOk, Q.FramesOk;
    RetireLoopMarks(s.cfg, s.q, s.b, s.st.started, f, eof, j, x);
  }

  // ---- an interrupt with both kinds of event -----------------------------

  /** The start-of-frame part of an interrupt retires nothing. */
  lemma {:induction false} SofRetiresNothing(s: State, i: Irq)
    ensures HandleSof(s, i).q.retired == s.q.retired
  {
  }

  /** What the done part retires is decided by the frame number saved earlier. */
  lemma {:induction false} EventRetires(s: State, i: Irq)
    requires Core(s)
    ensures var k := if i.swDone then RetireCount(s.q, s.q.deq) else 0;
            && |HandleEvent(s, i).q.retired| == |s.q.retired| + k
            && s.q.retired <= HandleEvent(s, i).q.retired
  {
    var s1 := if i.hwDone && i.aaoDone then DequeueFrame(s, MetaOut0, s.q.deq, s.fr.meta0, i.aaoFbc, i.now) else s;
    var s2 := if i.afoDone then DequeueFrame(s1, MetaOut1, s1.q.deq, s1.fr.meta1, i.afoFbc, i.now) else s1;
    var s3 := DequeueFrame(s2, MetaOut0, s2.q.deq, s2.fr.meta0, i.aaoFbcSw, i.now);
    assert s3.q == s.q && s3.st == s.st && s2.q == s.q;
    hide DequeueFrame, Core, RetireCount, TryQueue, DequeueReqFrame;
    if i.swDone { RetireThenQueue(s3, i.now); }
  }

  lemma {:induction false} RetireThenQueue(s: State, eof: nat)
    requires Core(s)
    ensures var q := TryQueue(DequeueReqFrame(s, s.q.deq, eof)).q;
            |q.retired| == |s.q.retired| + RetireCount(s.q, s.q.deq) && s.q.retired <= q.retired
  {
    RetireLoopIsFilter(s.q, s.b, s.st.streaming, s.q.deq, eof);
    RetireLoopCore(s.q, s.b, s.st.streaming, s.q.deq, eof, s.st.pipelineOn);
    hide RetireLoop, Q.QInv, Q.Dispatch, RetireCount;
    if s.st.streaming { Q.DispatchKeeps(DequeueReqFrame(s, s.q.deq, eof).q); }
  }

  /** When a done event and a start of frame come in one interrupt, the done event counts
      for the frame reported before: the frame that starts now is not retired with it. */
  lemma {:induction false} CoalescedInterrupt(s: State, i: Irq)
    requires Core(s) && i.swDone
    ensures var q := HandleIrq(s, i).q;
            && |q.retired| == |s.q.retired| + RetireCount(s.q, s.q.deq)
            && s.q.retired <= q.retired
            && (i.sof ==> q.deq == i.frame)
  {
    EventRetires(s, i);
    SofRetiresNothing(HandleEvent(s, i), i);
    hide HandleEvent, Core, RetireCount;
    if i.sof { SofRegisters(HandleEvent(s, i), i); }
  }
}
