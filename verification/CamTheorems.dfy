/** Main results on the Pass-1 request pipeline, over every run of the driver. */
module CamTheorems {
  import opened CamTypes
  import opened CamPipeline
  import opened CamCore
  import opened CamOwnership
  import opened CamSessions
  import opened CamRing
  import opened CamTime
  import opened CamRequests
  import B = CamBuffers
  import Q = CamQueues

  /** The stream is on only with the workqueue it was started with. */
  predicate Alive(st: Stream) {
    st.streaming ==> st.dmas != {}
  }

  /** Everything that holds as long as every entry point is benign. */
  ghost predicate Own(s: State) {
    && Core(s)
    && B.BufInv(s.b)
    && Held(s.cfg, s.q, s.b, s.st.started)
    && RingOk(s)
    && TimeOk(s.q, s.b.log, s.fr)
    && RequestsOk(s)
    && Alive(s.st)
  }

  lemma {:induction false} InitialOwn(c: Config)
    requires CfgOk(c)
    ensures Own(Initial(c))
  {
  }

  lemma {:induction false} StepHeld(s: State, e: Event)
    requires Own(s) && Legal(s, e) && Benign(s, e)
    ensures var s' := Step(s, e); B.BufInv(s'.b) && Held(s'.cfg, s'.q, s'.b, s'.st.started)
  {
    hide RingOk, TimeOk, B.BufInv, HandedOver, FreshAllocs, Held, Core, RequestsOk, Alive;
    match e
    case EvReqQueue(r, xs) => hide ReqQueue; ReqQueueHeld(s, r, xs);
    case EvBufQueue(x, alloc) => hide BufQueue; BufQueueHeld(s, x, alloc);
    case EvWorker =>
      SendSame(s.q);
      hide Q.Send, SameRequests;
      if s.q.wq != [] { HeldFrame(s.cfg, s.q, Q.Send(s.q), s.b, s.st.started); }
    case EvComposer(m) =>
      HeldFrame(s.cfg, s.q, s.q.(comp := m.frame), s.b, s.st.started);
    case EvIrq(i) => hide HandleIrq; IrqHeld(s, i);
    case EvStart(n, env) => hide Start; StartHeld(s, n, env);
    case EvStop(n) => hide Stop; StopHeld(s, n);
    case EvCancel(n) => hide CancelQueue; CancelHeld(s, n);
  }

  lemma {:induction false} SendSame(q: Queues)
    ensures q.wq != [] ==> SameRequests(q, Q.Send(q))
  {
  }

  lemma {:induction false} StepRing(s: State, e: Event)
    requires Own(s) && Legal(s, e) && Benign(s, e)
    ensures RingOk(Step(s, e))
  {
    hide TimeOk, B.BufInv, HandedOver, FreshAllocs, Held, Core, RequestsOk, Alive;
    match e
    case EvReqQueue(r, xs) => hide ReqQueue; ReqQueueRing(s, r, xs);
    case EvBufQueue(x, alloc) => hide BufQueue; BufQueueRing(s, x, alloc);
    case EvWorker => RingFrame(s, Worker(s));
    case EvComposer(m) => RingFrame(s, ComposerAck(s, m));
    case EvIrq(i) => hide HandleIrq; IrqRing(s, i);
    case EvStart(n, env) => hide Start; StartRing(s, n, env);
    case EvStop(n) => hide Stop; StopRing(s, n);
    case EvCancel(n) => RingFrame(s, CancelQueue(s, n));
  }

  lemma {:induction false} StepTime(s: State, e: Event)
    requires Own(s) && Legal(s, e) && Benign(s, e)
    ensures var s' := Step(s, e); TimeOk(s'.q, s'.b.log, s'.fr)
  {
    hide RingOk, B.BufInv, HandedOver, FreshAllocs, Held, Core, TimeOk, RequestsOk, Alive;
    match e
    case EvReqQueue(r, xs) => hide ReqQueue; ReqQueueTimed(s, r, xs);
    case EvBufQueue(x, alloc) => hide BufQueue; BufQueueTimed(s, x, alloc);
    case EvWorker => WorkerTimed(s);
    case EvComposer(m) => ComposerTimed(s, m);
    case EvIrq(i) => hide HandleIrq; IrqTimed(s, i);
    case EvStart(n, env) => hide Start; StartTimed(s, n, env);
    case EvStop(n) => hide Stop; StopTimed(s, n);
    case EvCancel(n) =>
  }

  lemma {:induction false} WorkerTimed(s: State)
    requires TimeOk(s.q, s.b.log, s.fr)
    ensures var s' := Worker(s); TimeOk(s'.q, s'.b.log, s'.fr)
  {
  }

  lemma {:induction false} ComposerTimed(s: State, m: ScpMsg)
    requires TimeOk(s.q, s.b.log, s.fr)
    ensures var s' := ComposerAck(s, m); TimeOk(s'.q, s'.b.log, s'.fr)
  {
  }

  lemma {:induction false} StepRequests(s: State, e: Event)
    requires Own(s) && Legal(s, e) && Benign(s, e)
    ensures RequestsOk(Step(s, e))
  {
    hide RingOk, B.BufInv, HandedOver, FreshAllocs, Held, Core, TimeOk, RequestsOk, Alive;
    match e
    case EvReqQueue(r, xs) => hide ReqQueue; ReqQueueBound(s, r, xs);
    case EvBufQueue(x, alloc) => hide BufQueue; BufQueueBound(s, x, alloc);
    case EvWorker => WorkerBound(s);
    case EvComposer(m) => ComposerBound(s, m);
    case EvIrq(i) => hide HandleIrq; IrqBound(s, i);
    case EvStart(n, env) => hide Start; StartBound(s, n, env);
    case EvStop(n) => hide Stop; StopBound(s, n);
    case EvCancel(n) => hide CancelQueue; CancelBound(s, n);
  }

  lemma {:induction false} WorkerBound(s: State)
    requires RequestsOk(s)
    ensures RequestsOk(Worker(s))
  {
    if s.q.wq != [] {
      SendSame(s.q);
      BoundFrame(s.q, Q.Send(s.q), s.b, s.b, Emptied(s.st), Emptied(s.st));
    }
  }

  lemma {:induction false} ComposerBound(s: State, m: ScpMsg)
    requires RequestsOk(s)
    ensures RequestsOk(ComposerAck(s, m))
  {
    BoundFrame(s.q, ComposerAck(s, m).q, s.b, s.b, Emptied(s.st), Emptied(s.st));
  }

  // ---- the workqueue -----------------------------------------------------

  lemma {:induction false} FinishStream(s: State, n: NodeId, o: CioOutcome)
    requires !s.st.streaming && !s.st.seninfOn && !s.st.sensorOn
    ensures var st := FinishStart(s, n, o).st;
            && (st.streaming <==> s.st.streamCount + 1 >= s.st.enabledCount && o == CioOk)
            && (st.streaming ==> st.dmas == s.st.dmas && st.wqAlive == s.st.wqAlive)
  {
    hide Q.Dispatch, B.ReturnAll;
  }

  lemma {:induction false} TailStream(s: State, n: NodeId, env: StartEnv)
    requires Starting(s.cfg, s.st, n)
    requires n !in s.cfg.viaRequests ==> |env.allocs| == |s.b.lists[n]|
    ensures var st := StartTail(s, n, env).st;
            && (st.streaming <==> s.st.streamCount + 1 >= s.st.enabledCount && env.cio == CioOk)
            && (st.streaming ==> st.dmas == s.st.dmas && st.wqAlive == s.st.wqAlive)
            && (s.st.wqAlive <==> s.st.dmas != {})
  {
    hide Register, FinishStart, StreamOk;
    StartingOff(s.cfg, s.st, n);
    RegisterSame(s, n, env.allocs);
    FinishStream(Register(s, n, env.allocs), n, env.cio);
  }

  lemma {:induction false} EnabledOff(s: State, n: NodeId)
    requires Core(s) && n !in s.st.started && n in s.cfg.enabled
    ensures !s.st.streaming
  {
  }

  /** A start turns the stream on with a destroyed workqueue if and only if the pipeline
      was up, enabled_dmas had been cleared, n is the last node to start and s_stream(1)
      succeeds. */
  lemma {:induction false} RestartExact(s: State, n: NodeId, env: StartEnv)
    requires Core(s) && n !in s.st.started && (n !in s.cfg.viaRequests ==> |env.allocs| == |s.b.lists[n]|)
    ensures var st := Start(s, n, env).st;
            && (!s.st.streaming && st.streaming && !st.wqAlive <==> DeadRestart(s, n, env))
            && (!s.st.streaming && st.streaming ==> (st.wqAlive <==> st.dmas != {}))
            && (s.st.streaming ==> st == s.st)
  {
    if n in s.cfg.enabled {
      EnabledOff(s, n);
      if s.st.pipelineOn { LaterStart(s, n); } else { FirstStart(s, n); }
    }
    hide StartTail, Q.QInv, Starting, StreamOk;
    if n in s.cfg.enabled && s.st.pipelineOn {
      TailStream(s, n, env);
    } else if n in s.cfg.enabled && env.pipelineOk && env.hwOk {
      FreshDmas(s.cfg);
      TailStream(HwInit(InitStream(s.(st := s.st.(pipelineOn := true)))), n, env);
    }
  }

  lemma {:induction false} FreshDmas(c: Config)
    requires CfgOk(c)
    ensures c.enabled - {MetaIn0} != {}
  {
    assert MainOut in c.enabled - {MetaIn0};
  }

  lemma {:induction false} StepAlive(s: State, e: Event)
    requires Core(s) && Alive(s.st) && Legal(s, e) && Benign(s, e)
    ensures Alive(Step(s, e).st)
  {
    hide Core, Legal, Benign, Alive, Start, Stop, HandleIrq, B.BufInv;
    match e
    case EvStart(n, env) => StartAlive(s, n, env);
    case EvStop(n) => StopAlive(s, n);
    case EvIrq(i) => IrqStream(s, i);
    case _ => OtherAlive(s, e);
  }

  lemma {:induction false} OtherAlive(s: State, e: Event)
    requires Alive(s.st) && Legal(s, e) && !e.EvStart? && !e.EvStop? && !e.EvIrq?
    ensures Alive(Step(s, e).st)
  {
    hide Legal, Step;
    OtherStream(s, e);
  }

  lemma {:induction false} StopAlive(s: State, n: NodeId)
    requires Core(s) && Legal(s, EvStop(n))
    ensures Alive(Stop(s, n).st)
  {
    hide Core, Stop;
    StopNotStreaming(s, n);
  }

  lemma {:induction false} StartAlive(s: State, n: NodeId, env: StartEnv)
    requires Core(s) && Alive(s.st) && Legal(s, EvStart(n, env)) && Benign(s, EvStart(n, env))
    ensures Alive(Start(s, n, env).st)
  {
    hide Core, Start, HandedOver, FreshAllocs, DeadRestart, CleanStart;
    RestartExact(s, n, env);
  }

  lemma {:induction false} OtherStream(s: State, e: Event)
    requires Legal(s, e) && !e.EvStart? && !e.EvStop? && !e.EvIrq?
    ensures var st := Step(s, e).st;
            if e.EvCancel? then st == s.st.(cancelled := s.st.cancelled + {e.node}) else st == s.st
  {
    hide Legal, Q.Dispatch, GiveStarted, Start, Stop, HandleIrq;
  }

  lemma {:induction false} IrqStream(s: State, i: Irq)
    ensures HandleIrq(s, i).st == s.st
  {
    hide RetireLoop, Q.Dispatch, B.RingTake, StampSof;
  }

  lemma {:induction false} StopNotStreaming(s: State, n: NodeId)
    requires Core(s) && n in s.st.started
    ensures !Stop(s, n).st.streaming
  {
    FullCount(s.st.started, s.cfg.enabled);
    hide Q.Drain, Q.Cleanup, B.ReturnAll, Q.QInv;
  }

  lemma {:induction false} StepOwn(s: State, e: Event)
    requires Own(s) && Legal(s, e) && Benign(s, e)
    ensures Own(Step(s, e))
  {
    hide Core, B.BufInv, Held, RingOk, TimeOk, Legal, Benign, Step, RequestsOk, Alive;
    StepCore(s, e);
    StepHeld(s, e);
    StepRing(s, e);
    StepTime(s, e);
    StepRequests(s, e);
    StepAlive(s, e);
  }

  // ---- runs --------------------------------------------------------------

  /** The environment keeps its contract at every step of the run. */
  ghost predicate RunOk(s: State, run: seq<Event>)
    decreases |run|
  {
    run == [] || (Legal(s, run[0]) && RunOk(Step(s, run[0]), run[1..]))
  }

  /** ... and every allocation and every s_stream(1) on the way succeeds. */
  ghost predicate BenignRun(s: State, run: seq<Event>)
    requires RunOk(s, run)
    decreases |run|
  {
    run == [] || (Benign(s, run[0]) && BenignRun(Step(s, run[0]), run[1..]))
  }

  ghost function Exec(s: State, run: seq<Event>): State
    requires RunOk(s, run)
    decreases |run|
  {
    if run == [] then s else Exec(Step(s, run[0]), run[1..])
  }

  lemma {:induction false} RunCore(s: State, run: seq<Event>)
    requires RunOk(s, run) && Core(s)
    ensures Core(Exec(s, run))
    decreases |run|
  {
    if run != [] {
      StepCore(s, run[0]);
      hide Core, Contract, Step;
      RunCore(Step(s, run[0]), run[1..]);
    }
  }

  lemma {:induction false} RunOwn(s: State, run: seq<Event>)
    requires RunOk(s, run) && BenignRun(s, run) && Own(s)
    ensures Own(Exec(s, run))
    decreases |run|
  {
    if run != [] {
      StepOwn(s, run[0]);
      hide Own, Contract, Step, Benign;
      RunOwn(Step(s, run[0]), run[1..]);
    }
  }

  // ---- the configuration never changes ----------------------------------

  lemma {:induction false} ExecConfig(s: State, run: seq<Event>)
    requires RunOk(s, run)
    ensures Exec(s, run).cfg == s.cfg
    decreases |run|
  {
    if run != [] {
      StepConfig(s, run[0]);
      ExecConfig(Step(s, run[0]), run[1..]);
    }
  }

  lemma {:induction false} StepConfig(s: State, e: Event)
    requires Legal(s, e)
    ensures Step(s, e).cfg == s.cfg
  {
    match e
    case EvStart(n, env) => hide Start, HandedOver, FreshAllocs; StartConfig(s, n, env);
    case EvIrq(i) => hide Contract; hide HandleIrq; IrqConfig(s, i);
    case _ => hide Contract; hide Q.Dispatch, Q.Drain;
  }

  lemma {:induction false} IrqConfig(s: State, i: Irq)
    ensures HandleIrq(s, i).cfg == s.cfg
  {
    hide RetireLoop, Q.Dispatch, B.RingTake, StampSof;
  }

  lemma {:induction false} FinishConfig(s: State, n: NodeId, o: CioOutcome)
    ensures FinishStart(s, n, o).cfg == s.cfg
  {
    hide Q.Dispatch, B.ReturnAll;
  }

  lemma {:induction false} StartConfig(s: State, n: NodeId, env: StartEnv)
    requires n !in s.cfg.viaRequests ==> |env.allocs| == |s.b.lists[n]|
    ensures Start(s, n, env).cfg == s.cfg
  {
    var s1 := HwInit(InitStream(s.(st := s.st.(pipelineOn := true))));
    if n in s.cfg.enabled {
      if n !in s.cfg.viaRequests {
        EachConfig(s, s.b.lists[n], env.allocs);
        EachConfig(s1, s.b.lists[n], env.allocs);
      }
      hide EnqueueEach, FinishStart, B.ReturnAll;
      FinishConfig(Register(s, n, env.allocs), n, env.cio);
      FinishConfig(Register(s1, n, env.allocs), n, env.cio);
    }
  }

  lemma {:induction false} EachConfig(s: State, xs: seq<Buf>, allocs: seq<Alloc>)
    requires |allocs| == |xs|
    ensures EnqueueEach(s, xs, allocs).cfg == s.cfg
    decreases |xs|
  {
    if xs != [] { EachConfig(EnqueueNoRequest(s, xs[0], allocs[0]), xs[1..], allocs[1..]); }
  }

  // ---- exactly-once completion -------------------------------------------

  /** At every point of every run a buffer has been returned exactly as often as it
      was handed over, or once less, and the latter exactly when it is on its node's
      list; it is on no other list, and there only once. */
  lemma {:induction false} ExactlyOnce(c: Config, run: seq<Event>, x: Buf)
    requires CfgOk(c) && RunOk(Initial(c), run) && BenignRun(Initial(c), run)
    ensures var b := Exec(Initial(c), run).b;
            && b.given[x] == B.DoneCount(b.log, x) + (if x in b.lists[x.node] then 1 else 0)
            && (forall n :: x in b.lists[n] ==> n == x.node)
            && Distinct(b.lists[x.node])
  {
    InitialOwn(c);
    RunOwn(Initial(c), run);
    var b := Exec(Initial(c), run).b;
    assert B.Owned(b, x) <==> x in b.lists[x.node];
  }

  /** When a node has stopped, each of its buffers has come back exactly as often as it was
      handed over. */
  lemma {:induction false} NothingKeptAfterStop(c: Config, run: seq<Event>, n: NodeId, x: Buf)
    requires CfgOk(c) && RunOk(Initial(c), run) && BenignRun(Initial(c), run)
    requires n in Exec(Initial(c), run).st.started && x.node == n
    ensures var b := Stop(Exec(Initial(c), run), n).b; x !in b.lists[n] && b.given[x] == B.DoneCount(b.log, x)
  {
    InitialOwn(c);
    RunOwn(Initial(c), run);
    hide Exec, RunOk, BenignRun, Held, RequestsOk, RingOk, TimeOk, Core;
    StopHeld(Exec(Initial(c), run), n);
    StopEmpties(Exec(Initial(c), run), n);
    hide Stop;
  }

  lemma {:induction false} StopEmpties(s: State, n: NodeId)
    ensures Stop(s, n).b.lists[n] == []
  {
    hide Q.Drain, Q.Cleanup;
  }

  /** While streaming, every buffer that a pending or running request still holds is on the
      list of its node, if that node is enabled, and no two requests share one. */
  lemma {:induction false} RequestsHoldTheirBuffers(c: Config, run: seq<Event>, r1: ReqId, r2: ReqId, x: Buf)
    requires CfgOk(c) && RunOk(Initial(c), run) && BenignRun(Initial(c), run)
    ensures var s := Exec(Initial(c), run);
            s.st.streaming && Live(s.q, r1) && B.Holds(s.b, r1, Q.At(s.q, r1), x) ==>
              && (x.node in c.enabled ==> x in s.b.lists[x.node])
              && (Live(s.q, r2) && r1 != r2 ==> !B.Holds(s.b, r2, Q.At(s.q, r2), x))
  {
    hide Own, Benign, Legal, B.Holds, Live, Step;
    InitialOwn(c);
    RunOwn(Initial(c), run);
    ExecConfig(Initial(c), run);
    var s := Exec(Initial(c), run);
    if s.st.streaming && Live(s.q, r1) && B.Holds(s.b, r1, Q.At(s.q, r1), x) {
      HeldIsListed(s, r1, x);
      if Live(s.q, r2) && r1 != r2 { HeldOnce(s, r1, r2, x); }
    }
  }

  lemma {:induction false} HeldIsListed(s: State, r: ReqId, x: Buf)
    requires Own(s) && s.st.streaming && Live(s.q, r) && B.Holds(s.b, r, Q.At(s.q, r), x)
    ensures x.node in s.cfg.enabled ==> x in s.b.lists[x.node]
  {
    hide Q.QInv, B.BufInv, RingOk, TimeOk, RequestsOk;
    assert ReqHeld(s.cfg, s.b, s.st.started, r, Q.At(s.q, r));
  }

  lemma {:induction false} HeldOnce(s: State, r1: ReqId, r2: ReqId, x: Buf)
    requires Own(s) && Live(s.q, r1) && Live(s.q, r2) && r1 != r2 && B.Holds(s.b, r1, Q.At(s.q, r1), x)
    ensures !B.Holds(s.b, r2, Q.At(s.q, r2), x)
  {
    hide Core, B.BufInv, RingOk, TimeOk, RequestsOk, Held, Live;
    HitsDisjoint(s.cfg, s.q, s.b, s.st.started, r1, r2);
    assert x in B.Hits(s.b, r1, Q.At(s.q, r1), Q.At(s.q, r1).bufs);
    assert B.Holds(s.b, r2, Q.At(s.q, r2), x) ==> x in B.Hits(s.b, r2, Q.At(s.q, r2), Q.At(s.q, r2).bufs);
  }

  /** A capture buffer outside the two meta rings that was finished since the hardware was
      initialised carries a (frame, time) pair recorded at a start of frame since then. */
  lemma {:induction false} TimestampsAreStartOfFrame(c: Config, run: seq<Event>, i: nat)
    requires CfgOk(c) && RunOk(Initial(c), run) && BenignRun(Initial(c), run)
    requires Exec(Initial(c), run).fr.logBase <= i < |Exec(Initial(c), run).b.log|
    ensures var s := Exec(Initial(c), run);
            var e := s.b.log[i];
            e.state == DONE && TimedNode(e.buf.node) ==>
              e.stamp.Stamp? && (e.stamp.sequence, e.stamp.timestamp) in s.fr.sofs
  {
    InitialOwn(c);
    RunOwn(Initial(c), run);
    var s := Exec(Initial(c), run);
    hide Exec, Core, Held, B.BufInv, RingOk, RequestsOk;
    assert TimedEntry(s.b.log[i], s.fr.sofs);
  }

  /** The retire step itself: the request finished is the one of the frame reported
      last, and its stamp is the time of the last start of frame. */
  lemma {:induction false} FinishedAtLastSof(s: State, k: nat, x: Buf, eof: nat)
    requires Own(s) && k < |s.q.running|
    requires var req := Q.At(s.q, s.q.running[k]); req.frameSeq == s.q.deq && x.node != MetaIn0
    ensures B.StampOf(Q.At(s.q, s.q.running[k]), x, eof) == Stamp(s.q.deq, s.fr.lastSof)
    ensures (s.q.deq, s.fr.lastSof) in s.fr.sofs
  {
  }

  // ---- request lifetime --------------------------------------------------

  /** A synthetic request is allocated exactly while it is on one of the two lists,
      and it is there once; a queued work always refers to a running, allocated
      request whose frame has not been sent. */
  lemma {:induction false} RequestLifetime(c: Config, run: seq<Event>, r: ReqId)
    requires CfgOk(c) && RunOk(Initial(c), run)
    ensures var q := Exec(Initial(c), run).q;
            && (r in q.heap && q.heap[r].synthetic ==> (r in q.pending) != (r in q.running))
            && (r in q.pending || r in q.running ==> r in q.heap)
            && Distinct(q.pending) && Distinct(q.running)
            && (r in q.wq ==> r in q.running && q.heap[r].frameSeq > q.sent)
            && (r in q.running && q.heap[r].frameSeq > q.sent ==> r in q.wq)
  {
    InitialCore(c);
    RunCore(Initial(c), run);
    var q := Exec(Initial(c), run).q;
    UnsentWorks(q, r);
  }

  lemma {:induction false} UnsentWorks(q: Queues, r: ReqId)
    requires Q.FramesOk(q) && Q.SentOk(q)
    ensures r in q.wq ==> r in q.running && q.heap[r].frameSeq > q.sent
    ensures r in q.running && q.heap[r].frameSeq > q.sent ==> r in q.wq
  {
    var d := |q.running| - |q.wq|;
    if r in q.wq {
      var j :| 0 <= j < |q.wq| && q.wq[j] == r;
      assert q.running[d + j] == r;
    }
    if r in q.running && q.heap[r].frameSeq > q.sent {
      var k :| 0 <= k < |q.running| && q.running[k] == r;
      assert k >= d && q.wq[k - d] == r;
    }
  }

  /** The head that retires is already sent, so no work refers to freed memory. */
  lemma {:induction false} RetiredWasSent(s: State)
    requires Core(s) && s.q.running != [] && Q.At(s.q, s.q.running[0]).frameSeq <= s.q.deq
    ensures s.q.running[0] !in s.q.wq && Q.At(s.q, s.q.running[0]).frameSeq <= s.q.sent
  {
    Q.RetireHeadSent(s.q, Finished);
  }

  // ---- running list shape and FIFO order ---------------------------------

  /** The running frame numbers are the interval of length at most three that ends
      at the last enqueued frame, and the job counter is its length whenever the
      stream is on or the list is not empty. */
  lemma {:induction false} RunningShape(c: Config, run: seq<Event>)
    requires CfgOk(c) && RunOk(Initial(c), run)
    ensures var s := Exec(Initial(c), run);
            && |s.q.running| <= MAX_RUNNING_JOBS
            && (forall k :: 0 <= k < |s.q.running| ==>
                  Q.At(s.q, s.q.running[k]).frameSeq == s.q.enq - |s.q.running| + 1 + k)
            && (s.st.streaming || s.q.running != [] ==> s.q.jobCount == |s.q.running|)
  {
    InitialCore(c);
    RunCore(Initial(c), run);
  }

  /** One abstract queue: retired, then running, then pending is the submission
      history; the i-th submitted request has frame number i once dispatched. */
  lemma {:induction false} FifoView(c: Config, run: seq<Event>)
    requires CfgOk(c) && RunOk(Initial(c), run)
    ensures var q := Exec(Initial(c), run).q;
            var d, e := |q.retired|, |q.retired| + |q.running|;
            && |q.submitted| == e + |q.pending|
            && q.running == q.submitted[d..e]
            && q.pending == q.submitted[e..]
            && (forall i :: 0 <= i < d ==> q.retired[i].id == q.submitted[i] && q.retired[i].frame == i + 1)
            && (forall i :: d <= i < e ==> Q.At(q, q.submitted[i]).frameSeq == i + 1)
  {
    InitialCore(c);
    RunCore(Initial(c), run);
    FifoOfCore(Exec(Initial(c), run));
  }

  lemma {:induction false} FifoOfCore(s: State)
    requires Core(s)
    ensures var q := s.q;
            var d, e := |q.retired|, |q.retired| + |q.running|;
            && |q.submitted| == e + |q.pending|
            && q.running == q.submitted[d..e]
            && q.pending == q.submitted[e..]
            && (forall i :: 0 <= i < d ==> q.retired[i].id == q.submitted[i] && q.retired[i].frame == i + 1)
            && (forall i :: d <= i < e ==> Q.At(q, q.submitted[i]).frameSeq == i + 1)
  {
    var q := s.q;
    var d := |q.retired|;
    assert q.submitted == Q.Ids(q.retired) + q.running + q.pending;
    forall i | d <= i < d + |q.running| ensures Q.At(q, q.submitted[i]).frameSeq == i + 1 {
      assert q.submitted[i] == q.running[i - d];
    }
    forall i | 0 <= i < d ensures q.retired[i].id == q.submitted[i] {
      assert Q.Ids(q.retired)[i] == q.retired[i].id;
    }
  }

  /** After every entry point a streaming driver has nothing pending or three jobs. */
  lemma {:induction false} WorkConserving(c: Config, run: seq<Event>)
    requires CfgOk(c) && RunOk(Initial(c), run)
    ensures var s := Exec(Initial(c), run);
            s.st.streaming ==> s.q.pending == [] || |s.q.running| == MAX_RUNNING_JOBS
  {
    InitialCore(c);
    RunCore(Initial(c), run);
  }

  // ---- command queue slots -----------------------------------------------

  /** The SCP composes frame n into slot (n - 1) % 3. */
  function Slot(n: nat): nat
    requires n >= 1
  {
    (n - 1) % CQ_BUFFER_COUNT
  }

  lemma {:induction false} CloseFramesDiffer(a: nat, b: nat)
    requires 1 <= a < b <= a + 2
    ensures Slot(a) != Slot(b)
  {
  }

  /** No two frames in flight share a command-queue slot. */
  lemma {:induction false} SlotsDistinct(c: Config, run: seq<Event>, i: nat, j: nat)
    requires CfgOk(c) && RunOk(Initial(c), run)
    requires i < j < |Exec(Initial(c), run).q.running|
    ensures var q := Exec(Initial(c), run).q;
            var a, b := Q.At(q, q.running[i]).frameSeq, Q.At(q, q.running[j]).frameSeq;
            1 <= a < b && Slot(a) != Slot(b)
  {
    InitialCore(c);
    RunCore(Initial(c), run);
    var q := Exec(Initial(c), run).q;
    CloseFramesDiffer(Q.At(q, q.running[i]).frameSeq, Q.At(q, q.running[j]).frameSeq);
  }

  /** When frame n is enqueued, frame n - 3 and everything before it has retired. */
  lemma {:induction false} EnqueueReusesRetiredSlot(q: Queues, f: nat)
    requires Q.QInv(q, true) && q.pending != [] && q.jobCount < MAX_RUNNING_JOBS
    requires 1 <= f && f + 3 <= Q.DispatchOne(q).enq
    ensures f <= |q.retired| && q.retired[f - 1].frame == f
    ensures forall r :: r in q.running ==> Q.At(q, r).frameSeq != f
  {
    forall r | r in q.running ensures Q.At(q, r).frameSeq != f {
      var k :| 0 <= k < |q.running| && q.running[k] == r;
    }
  }

  /** The register points at the slot of frame d + 1, which is composed, still
      running, and the only running frame in that slot. */
  ghost predicate ProgramsFrame(s: State, d: nat) {
    && s.fr.cqOffset == CQ_ADDRESS_OFFSET * Slot(d + 1)
    && d + 1 <= s.q.comp
    && (exists k :: 0 <= k < |s.q.running| && Q.At(s.q, s.q.running[k]).frameSeq == d + 1)
    && (forall j :: 0 <= j < |s.q.running| && Q.At(s.q, s.q.running[j]).frameSeq != d + 1 ==>
          Slot(d + 1) != (Q.At(s.q, s.q.running[j]).frameSeq - 1) % CQ_BUFFER_COUNT)
  }

  lemma {:induction false} NextFrameRuns(s: State, d: nat)
    requires Core(s) && s.st.pipelineOn && s.q.deq == d < s.q.comp
    requires s.fr.cqOffset == CQ_ADDRESS_OFFSET * Slot(d + 1)
    ensures ProgramsFrame(s, d)
  {
    var k := d - |s.q.retired|;
    assert Q.At(s.q, s.q.running[k]).frameSeq == d + 1;
    forall j | 0 <= j < |s.q.running| && Q.At(s.q, s.q.running[j]).frameSeq != d + 1
      ensures Slot(d + 1) != (Q.At(s.q, s.q.running[j]).frameSeq - 1) % CQ_BUFFER_COUNT
    {
      var f := Q.At(s.q, s.q.running[j]).frameSeq;
      if f < d + 1 { CloseFramesDiffer(f, d + 1); } else { CloseFramesDiffer(d + 1, f); }
    }
  }

  lemma {:induction false} SofRegisters(s: State, i: Irq)
    ensures var s' := HandleSof(s, i);
            && s'.q.deq == i.frame && s'.q.comp == s.q.comp && s'.st == s.st
            && s'.fr.cqOffset == if s.q.comp <= i.frame then s.fr.cqOffset else CQ_ADDRESS_OFFSET * Slot(i.frame + 1)
  {
  }

  /** The interrupt at the start of frame d writes the address register exactly when
      a newer frame is composed, and then it programs frame d + 1. */
  lemma {:induction false} SofProgramsNextFrame(s: State, i: Irq)
    requires Core(s) && Legal(s, EvIrq(i)) && s.st.pipelineOn && i.sof
    ensures s.q.comp > i.frame ==> ProgramsFrame(HandleIrq(s, i), i.frame)
    ensures s.q.comp <= i.frame ==> HandleIrq(s, i).fr.cqOffset == s.fr.cqOffset
  {
    EventCore(s, i);
    IrqCore(s, i);
    hide HandleEvent, Core, ProgramsFrame;
    SofRegisters(HandleEvent(s, i), i);
    hide HandleSof;
    if s.q.comp > i.frame { NextFrameRuns(HandleIrq(s, i), i.frame); }
  }
}
