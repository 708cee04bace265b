/** What holds in every run, failed starts and failed allocations included: the
    shape of the lists, the frame counters, request lifetime, the stream machine and
    work conservation. */
module CamCore {
  import opened CamTypes
  import opened CamPipeline
  import B = CamBuffers
  import Q = CamQueues

  /** The stream machine: streaming exactly when every enabled node is started, and
      then, and only then, sensor and seninf are on. */
  ghost predicate StreamOk(c: Config, st: Stream) {
    && st.started <= c.enabled && st.stopped <= c.enabled
    && st.streamCount == |st.started|
    && (st.pipelineOn <==> st.started != {})
    && (st.pipelineOn ==> st.enabledCount == |c.enabled|)
    && (st.streaming <==> st.started == c.enabled)
    && (st.streaming <==> st.sensorOn)
    && (st.streaming <==> st.seninfOn)
    && (!st.pipelineOn ==> st.stopped == {})
    && (st.pipelineOn && st.stopped == {} ==> st.dmas != {})
    && (st.pipelineOn ==> st.dmas == {} || st.dmas == c.enabled - {MetaIn0})
    && (st.pipelineOn ==> (st.wqAlive <==> st.dmas != {}))
  }

  /** No job waits while fewer than three run. */
  predicate Busy(s: State) {
    s.st.streaming ==> s.q.pending == [] || s.q.jobCount == MAX_RUNNING_JOBS
  }

  ghost predicate Core(s: State) {
    && CfgOk(s.cfg)
    && StreamOk(s.cfg, s.st)
    && Q.QInv(s.q, s.st.pipelineOn)
    && (s.q.wq != [] ==> s.st.streaming)
    && Busy(s)
  }

  lemma {:induction false} InitialQueues(c: Config)
    ensures Q.QInv(Initial(c).q, false)
  {
  }

  lemma {:induction false} InitialCore(c: Config)
    requires CfgOk(c)
    ensures Core(Initial(c))
  {
    InitialQueues(c);
    hide Q.QInv;
  }

  /** The scheduler and the stream machine do not look at the buffers. */
  lemma {:induction false} BuffersApart(s: State, b: Buffers)
    requires Core(s)
    ensures Core(s.(b := b))
  {
  }

  lemma {:induction false} FullCount(started: set<NodeId>, enabled: set<NodeId>)
    requires started <= enabled
    ensures |started| <= |enabled|
    ensures |started| == |enabled| <==> started == enabled
  {
    var rest := enabled - started;
    assert enabled == started + rest;
  }

  // ---- scheduler steps ---------------------------------------------------

  lemma {:induction false} TryQueueCore(s: State)
    requires CfgOk(s.cfg) && StreamOk(s.cfg, s.st) && Q.QInv(s.q, s.st.pipelineOn)
    requires s.q.wq != [] ==> s.st.streaming
    ensures Core(TryQueue(s))
    ensures TryQueue(s).q.deq == s.q.deq && TryQueue(s).q.comp == s.q.comp
  {
    if s.st.streaming { Q.DispatchKeeps(s.q); }
  }

  lemma {:induction false} RetireOneCore(q: Queues, outcome: Outcome, on: bool)
    requires Q.QInv(q, on) && q.running != [] && Q.At(q, q.running[0]).frameSeq <= q.deq
    ensures var q' := Q.RetireHead(q, outcome);
            && Q.QInv(q', on) && q'.wq == q.wq && q'.pending == q.pending
            && q'.deq == q.deq && q'.comp == q.comp && q'.sent == q.sent && q'.enq == q.enq
  {
    Q.RetireHeadKeeps(q, outcome);
  }

  lemma {:induction false} RetireLoopCore(q: Queues, b: Buffers, streaming: bool, f: nat, eof: nat, on: bool)
    requires Q.QInv(q, on) && f == q.deq
    ensures var q' := RetireLoop(q, b, streaming, f, eof).0;
            && Q.QInv(q', on) && q'.wq == q.wq && q'.pending == q.pending
            && q'.deq == q.deq && q'.comp == q.comp && q'.sent == q.sent && q'.enq == q.enq
    decreases |q.running|
  {
    hide Q.QInv, B.JobDone;
    if q.running != [] {
      var r := q.running[0];
      var req := Q.At(q, r);
      if req.frameSeq == f {
        RetireOneCore(q, if streaming then Finished else Silent, on);
      } else if req.frameSeq < f {
        var o := if streaming then Dropped else Silent;
        RetireOneCore(q, o, on);
        RetireLoopCore(Q.RetireHead(q, o), B.JobDone(b, streaming, r, req, ERROR, eof), streaming, f, eof, on);
      }
    }
  }

  lemma {:induction false} EventCore(s: State, i: Irq)
    requires Core(s)
    ensures Core(HandleEvent(s, i))
    ensures var s' := HandleEvent(s, i);
            s'.q.deq == s.q.deq && s'.q.comp == s.q.comp && s'.st == s.st && s'.fr == s.fr
  {
    hide Q.QInv, StreamOk, RetireLoop, Q.Dispatch, B.RingTake;
    if i.swDone {
      var s1 := if i.hwDone && i.aaoDone then DequeueFrame(s, MetaOut0, s.q.deq, s.fr.meta0, i.aaoFbc, i.now) else s;
      var s2 := if i.afoDone then DequeueFrame(s1, MetaOut1, s1.q.deq, s1.fr.meta1, i.afoFbc, i.now) else s1;
      var s3 := DequeueFrame(s2, MetaOut0, s2.q.deq, s2.fr.meta0, i.aaoFbcSw, i.now);
      RetireLoopCore(s3.q, s3.b, s3.st.streaming, s3.q.deq, i.now, s.st.pipelineOn);
      var s4 := DequeueReqFrame(s3, s3.q.deq, i.now);
      TryQueueCore(s4);
    }
  }

  lemma {:induction false} StampSofKeeps(q: Queues, f: nat, now: nat, on: bool)
    requires Q.QInv(q, on)
    ensures var q' := StampSof(q, f, now);
            && Q.QInv(q', on)
            && q' == q.(heap := q'.heap) && q'.heap.Keys == q.heap.Keys
            && forall r :: r in q.heap ==> q'.heap[r] == q.heap[r].(timestamp := q'.heap[r].timestamp)
  {
  }

  lemma {:induction false} SofCore(s: State, i: Irq)
    requires Core(s) && s.q.deq <= i.frame <= s.q.comp
    ensures Core(HandleSof(s, i))
  {
    hide Q.QInv, StreamOk, StampSof;
    ReportKeeps(s.q, i.frame, s.st.pipelineOn);
    StampSofKeeps(s.q.(deq := i.frame), i.frame, i.now, s.st.pipelineOn);
  }

  /** A reported frame that is composed and not older than the last one. */
  lemma {:induction false} ReportKeeps(q: Queues, f: nat, on: bool)
    requires Q.QInv(q, on) && q.deq <= f <= q.comp
    ensures Q.QInv(q.(deq := f), on)
  {
    hide Q.MemOk, Q.FramesOk;
    SameMem(q, f);
  }

  lemma {:induction false} SameMem(q: Queues, f: nat)
    requires Q.MemOk(q) && Q.FramesOk(q)
    ensures Q.MemOk(q.(deq := f)) && Q.FramesOk(q.(deq := f))
  {
  }

  lemma {:induction false} IrqCore(s: State, i: Irq)
    requires Core(s) && Legal(s, EvIrq(i))
    ensures Core(HandleIrq(s, i))
  {
    EventCore(s, i);
    if i.sof { SofCore(HandleEvent(s, i), i); }
  }

  // ---- buffer and request submission -------------------------------------

  lemma {:induction false} EnqueueNoRequestCore(s: State, x: Buf, alloc: Alloc)
    requires Core(s) && (alloc.Ptr? ==> alloc.id !in s.q.heap)
    ensures Core(EnqueueNoRequest(s, x, alloc))
  {
    assert alloc.Ptr? ==> alloc.id !in s.q.pending && alloc.id !in s.q.running;
    hide StreamOk, Q.QInv, Q.Dispatch;
    if x.node == MainOut && alloc.Ptr? {
      Q.SubmitKeeps(s.q, s.st.pipelineOn, alloc.id, SyntheticRequest(x));
      TryQueueCore(s.(q := Q.Submit(s.q, alloc.id, SyntheticRequest(x))));
    }
  }

  lemma {:induction false} ReqQueueCore(s: State, r: ReqId, xs: seq<Buf>)
    requires Core(s) && r !in s.q.pending && r !in s.q.running
    ensures Core(ReqQueue(s, r, xs))
  {
    var req := Q.At(s.q, r).(synthetic := false, bufs := xs);
    Q.SubmitKeeps(s.q, s.st.pipelineOn, r, req);
    var b := GiveStarted(BindAll(s.b, xs, r), s.st.started, xs);
    TryQueueCore(s.(b := b, q := Q.Submit(s.q, r, req)));
  }

  // ---- start -------------------------------------------------------------

  /** The addresses still to come are fresh when the first one is used up. */
  lemma {:induction false} FreshRest(used: set<ReqId>, used': set<ReqId>, allocs: seq<Alloc>)
    requires FreshAllocs(used, allocs) && allocs != []
    requires used' == used || (allocs[0].Ptr? && used' == used + {allocs[0].id})
    ensures FreshAllocs(used', allocs[1..])
  {
  }

  /** Before the stream is on, registering a buffer only grows the pending list. */
  lemma {:induction false} RegisterOne(s: State, x: Buf, alloc: Alloc, on: bool)
    requires Q.QInv(s.q, on) && !s.st.streaming && (alloc.Ptr? ==> alloc.id !in s.q.heap)
    ensures var s' := EnqueueNoRequest(s, x, alloc);
            && Q.QInv(s'.q, on) && s'.st == s.st && s'.cfg == s.cfg
            && s'.q.running == s.q.running && s'.q.wq == s.q.wq
            && (s'.q.heap.Keys == s.q.heap.Keys || (alloc.Ptr? && s'.q.heap.Keys == s.q.heap.Keys + {alloc.id}))
  {
    hide Q.QInv;
    if x.node == MainOut && alloc.Ptr? {
      FreshNotLive(s.q, on, alloc.id);
      Q.SubmitKeeps(s.q, on, alloc.id, SyntheticRequest(x));
    }
  }

  lemma {:induction false} FreshNotLive(q: Queues, on: bool, r: ReqId)
    requires Q.QInv(q, on) && r !in q.heap
    ensures !Live(q, r) && r !in q.pending && r !in q.running
  {
  }

  lemma {:induction false} EnqueueEachQueues(s: State, xs: seq<Buf>, allocs: seq<Alloc>, on: bool)
    requires |allocs| == |xs| && FreshAllocs(s.q.heap.Keys, allocs)
    requires Q.QInv(s.q, on) && !s.st.streaming
    ensures var s' := EnqueueEach(s, xs, allocs);
            && Q.QInv(s'.q, on) && s'.st == s.st && s'.cfg == s.cfg
            && s'.q.running == s.q.running && s'.q.wq == s.q.wq
    decreases |xs|
  {
    hide Q.QInv, EnqueueNoRequest;
    if xs != [] {
      var s1 := EnqueueNoRequest(s, xs[0], allocs[0]);
      RegisterOne(s, xs[0], allocs[0], on);
      FreshRest(s.q.heap.Keys, s1.q.heap.Keys, allocs);
      hide FreshAllocs;
      EnqueueEachQueues(s1, xs[1..], allocs[1..], on);
    }
  }

  /** The stream machine at the point where the hardware is ready: pipelineOn runs
      ahead of started while the first node starts. */
  ghost predicate Starting(c: Config, st: Stream, n: NodeId) {
    && n in c.enabled && n !in st.started
    && st.pipelineOn && !st.streaming
    && StreamOk(c, st.(pipelineOn := st.started != {}))
    && st.enabledCount == |c.enabled|
    && (st.stopped == {} ==> st.dmas != {})
    && (st.dmas == {} || st.dmas == c.enabled - {MetaIn0}) && (st.wqAlive <==> st.dmas != {})
    && (st.started == {} ==> st.stopped == {})
  }

  lemma {:induction false} LaterStart(s: State, n: NodeId)
    requires CfgOk(s.cfg) && StreamOk(s.cfg, s.st) && s.st.pipelineOn
    requires n in s.cfg.enabled && n !in s.st.started
    ensures Starting(s.cfg, s.st, n)
    ensures s.st.streamCount + 1 >= s.st.enabledCount <==> StartsLast(s, n)
  {
  }

  lemma {:induction false} FirstStart(s: State, n: NodeId)
    requires CfgOk(s.cfg) && StreamOk(s.cfg, s.st) && !s.st.pipelineOn && n in s.cfg.enabled
    ensures var s1 := HwInit(InitStream(s.(st := s.st.(pipelineOn := true))));
            && Starting(s1.cfg, s1.st, n) && s1.st.started == {}
            && (s1.st.streamCount + 1 >= s1.st.enabledCount <==> StartsLast(s, n))
  {
  }

  lemma {:induction false} StartingOutcomes(c: Config, st: Stream, n: NodeId)
    requires Starting(c, st, n)
    ensures st.streamCount + 1 < st.enabledCount ==>
              StreamOk(c, st.(streamCount := st.streamCount + 1, started := st.started + {n}))
    ensures st.streamCount + 1 >= st.enabledCount ==>
              StreamOk(c, st.(streamCount := st.streamCount + 1, started := st.started + {n},
                              seninfOn := true, sensorOn := true, streaming := true))
    ensures st.streamCount == 0 ==> StreamOk(c, st.(pipelineOn := false, stopped := {}))
    ensures st.streamCount != 0 ==> StreamOk(c, st)
    ensures st.streamCount == 0 <==> st.started == {}
    ensures !st.seninfOn && !st.sensorOn
  {
    FullCount(st.started, c.enabled);
    FullCount(st.started + {n}, c.enabled);
    assert |st.started + {n}| == |st.started| + 1;
  }

  /** The stream machine after the end of a start. */
  function AfterFinish(st: Stream, n: NodeId, o: CioOutcome): Stream {
    if st.streamCount + 1 < st.enabledCount then st.(streamCount := st.streamCount + 1, started := st.started + {n})
    else if o == CioOk then
      st.(streamCount := st.streamCount + 1, started := st.started + {n},
          seninfOn := true, sensorOn := true, streaming := true)
    else if st.streamCount == 0 then st.(pipelineOn := false, stopped := {})
    else st
  }

  /** The end of a start, one part of the state at a time. */
  lemma {:induction false} FinishIs(s: State, n: NodeId, o: CioOutcome)
    requires !s.st.streaming && !s.st.seninfOn && !s.st.sensorOn
    ensures var last := s.st.streamCount + 1 >= s.st.enabledCount;
            FinishStart(s, n, o)
            == State(s.cfg, if last && o == CioOk then Q.Dispatch(s.q) else s.q,
                     if last && o != CioOk then B.ReturnAll(s.b, n, QUEUED) else s.b, AfterFinish(s.st, n, o), s.fr)
  {
    hide Q.Dispatch, B.ReturnAll, CioStreamOn;
    if s.st.streamCount + 1 >= s.st.enabledCount {
      if o == CioOk { GoodStreamOn(CountUp(s)); } else { FailedStreamOn(CountUp(s), o); }
    }
  }

  lemma {:induction false} GoodStreamOn(s: State)
    ensures CioStreamOn(s, CioOk)
            == s.(st := s.st.(seninfOn := true, sensorOn := true, streaming := true), q := Q.Dispatch(s.q))
  {
    hide Q.Dispatch;
  }

  /** A stream-on that fails leaves the stream machine as it was. */
  lemma {:induction false} FailedStreamOn(s: State, o: CioOutcome)
    requires !s.st.seninfOn && !s.st.sensorOn && o != CioOk
    ensures CioStreamOn(s, o) == s
  {
  }

  lemma {:induction false} FinishStartCore(s: State, n: NodeId, o: CioOutcome)
    requires CfgOk(s.cfg) && Q.QInv(s.q, true) && s.q.wq == []
    requires Starting(s.cfg, s.st, n)
    requires s.st.started == {} ==> Q.QInv(s.q, false)
    ensures Core(FinishStart(s, n, o))
  {
    hide Q.QInv, FinishStart, Q.Dispatch, B.ReturnAll;
    StartingOutcomes(s.cfg, s.st, n);
    hide StreamOk;
    FinishIs(s, n, o);
    if s.st.streamCount + 1 >= s.st.enabledCount && o == CioOk { Q.DispatchKeeps(s.q); }
  }

  lemma {:induction false} StartTailCore(s: State, n: NodeId, env: StartEnv)
    requires CfgOk(s.cfg) && Q.QInv(s.q, true) && s.q.wq == []
    requires FreshAllocs(s.q.heap.Keys, env.allocs)
    requires n !in s.cfg.viaRequests ==> |env.allocs| == |s.b.lists[n]|
    requires Starting(s.cfg, s.st, n)
    requires s.st.started == {} ==> s.q.running == [] && s.q.retired == []
    ensures Core(StartTail(s, n, env))
  {
    if n !in s.cfg.viaRequests {
      EnqueueEachQueues(s, s.b.lists[n], env.allocs, true);
      if s.st.started == {} { EnqueueEachQueues(s, s.b.lists[n], env.allocs, false); }
    }
    hide Starting, FinishStart;
    FinishStartCore(Register(s, n, env.allocs), n, env.cio);
  }

  lemma {:induction false} StartCore(s: State, n: NodeId, env: StartEnv)
    requires Core(s) && Legal(s, EvStart(n, env))
    ensures Core(Start(s, n, env))
  {
    hide Q.QInv, StartTail, StreamOk, HandedOver, FreshAllocs, HwInit, InitStream, Starting;
    if n in s.cfg.enabled {
      if s.st.pipelineOn {
        LaterStart(s, n);
        NothingQueued(s, n);
        StartTailCore(s, n, env);
      } else if env.pipelineOk && env.hwOk {
        FirstReady(s, n);
        StartTailCore(HwInit(InitStream(s.(st := s.st.(pipelineOn := true)))), n, env);
      } else if env.pipelineOk {
        FirstAborted(s, n);
      }
    }
  }

  lemma {:induction false} NothingQueued(s: State, n: NodeId)
    requires Core(s) && n in s.cfg.enabled && n !in s.st.started
    ensures s.q.wq == []
    ensures s.st.pipelineOn ==> s.st.started != {}
  {
    hide Q.QInv;
  }

  lemma {:induction false} FirstReady(s: State, n: NodeId)
    requires Core(s) && !s.st.pipelineOn && n in s.cfg.enabled && n !in s.st.started
    ensures var s1 := HwInit(InitStream(s.(st := s.st.(pipelineOn := true))));
            && Starting(s1.cfg, s1.st, n) && Q.QInv(s1.q, true) && s1.q.wq == [] && s1.q.running == [] && s1.q.retired == []
            && s1.q.heap == s.q.heap && s1.q.pending == s.q.pending && s1.q.running == s.q.running
            && s1.b == s.b && s1.cfg == s.cfg && s1.st.started == s.st.started
  {
    NothingQueued(s, n);
    Q.ResetKeeps(s.q);
    assert s.q.running == [] && s.q.retired == [];
    hide Q.QInv;
    FirstStart(s, n);
    hide StreamOk, Starting;
  }

  /** The hardware could not be initialised: the pipeline goes down again. */
  lemma {:induction false} FirstAborted(s: State, n: NodeId)
    requires Core(s) && !s.st.pipelineOn && n in s.cfg.enabled && n !in s.st.started
    ensures var s1 := InitStream(s.(st := s.st.(pipelineOn := true)));
            s1.st.streamCount == 0 && Core(GiveBack(PipelineStop(s1), n))
  {
    NothingQueued(s, n);
    hide B.ReturnAll;
  }

  // ---- stop --------------------------------------------------------------

  /** The stream machine after a node stopped. */
  function Stopped(st: Stream, n: NodeId): Stream {
    var all := st.streamCount == st.enabledCount;
    var st1 := if all && st.streaming
      then st.(sensorOn := false, seninfOn := false, streaming := false, wqAlive := false) else st;
    st1.(dmas := if all then {} else st.dmas, streamCount := st.streamCount - 1,
         started := st.started - {n}, stopped := st.stopped + {n})
  }

  lemma {:induction false} StoppedOk(c: Config, st: Stream, n: NodeId)
    requires StreamOk(c, st) && n in st.started
    ensures !Stopped(st, n).streaming
    ensures Stopped(st, n).streamCount != 0 ==> StreamOk(c, Stopped(st, n))
    ensures Stopped(st, n).streamCount == 0 ==>
              StreamOk(c, Stopped(st, n).(pipelineOn := false, stopped := {}, cancelled := {}))
  {
    FullCount(st.started, c.enabled);
    assert |st.started - {n}| == |st.started| - 1;
  }

  function StoppedStream(st: Stream, n: NodeId): Stream {
    var st1 := Stopped(st, n);
    if st1.streamCount != 0 then st1 else st1.(pipelineOn := false, stopped := {}, cancelled := {})
  }

  function StoppedQueues(q: Queues, st: Stream): Queues {
    var q1 := if st.streamCount == st.enabledCount && st.streaming then Q.Drain(q) else q;
    if st.streamCount - 1 != 0 then q1 else Q.Cleanup(q1)
  }

  /** A stop, one part of the state at a time. */
  lemma {:induction false} StopIs(s: State, n: NodeId)
    ensures Stop(s, n) == State(s.cfg, StoppedQueues(s.q, s.st), B.ReturnAll(s.b, n, ERROR), StoppedStream(s.st, n), s.fr)
  {
    hide Q.Drain, Q.Cleanup, B.ReturnAll;
  }

  lemma {:induction false} StoppedKeeps(q: Queues, st: Stream, on: bool)
    requires Q.QInv(q, on) && (q.wq != [] ==> st.streaming && st.streamCount == st.enabledCount)
    ensures var q' := StoppedQueues(q, st);
            && Q.QInv(q', on && st.streamCount - 1 != 0) && q'.wq == []
            && (st.streamCount - 1 != 0 ==>
                  q'.heap == q.heap && q'.pending == q.pending && q'.running == q.running && q'.jobCount == q.jobCount)
            && (st.streamCount - 1 == 0 ==> q'.pending == [] && q'.running == [])
  {
    hide Q.QInv, Q.Drain, Q.Cleanup;
    Q.DrainKeeps(q, on);
    var q1 := if st.streamCount == st.enabledCount && st.streaming then Q.Drain(q) else q;
    Q.CleanupKeeps(q1, on);
    CleanupIdle(q1);
  }

  /** What a stop finds: only a full stream has queued work. */
  lemma {:induction false} StopReady(s: State, n: NodeId)
    requires Core(s) && n in s.st.started
    ensures s.st.pipelineOn && Q.QInv(s.q, true) && s.st.streamCount == |s.st.started|
    ensures s.st.streaming ==> s.st.streamCount == s.st.enabledCount
    ensures s.q.wq != [] ==> s.st.streaming
  {
    hide Q.QInv;
    FullCount(s.st.started, s.cfg.enabled);
  }

  lemma {:induction false} CleanupIdle(q: Queues)
    ensures Q.Cleanup(q).wq == q.wq
  {
  }

  lemma {:induction false} StopCore(s: State, n: NodeId)
    requires Core(s) && n in s.st.started
    ensures Core(Stop(s, n))
  {
    hide Q.QInv, Stop, StoppedQueues, B.ReturnAll;
    StoppedOk(s.cfg, s.st, n);
    StopReady(s, n);
    hide StreamOk;
    StoppedKeeps(s.q, s.st, true);
    StopIs(s, n);
  }

  // ---- all runs ----------------------------------------------------------

  lemma {:induction false} WorkerCore(s: State)
    requires Core(s)
    ensures Core(Worker(s))
  {
    if s.q.wq != [] { Q.SendKeeps(s.q, s.st.pipelineOn); }
  }

  lemma {:induction false} ComposerCore(s: State, m: ScpMsg)
    requires Core(s) && Legal(s, EvComposer(m))
    ensures Core(ComposerAck(s, m))
  {
  }

  lemma {:induction false} CancelCore(s: State, n: NodeId)
    requires Core(s)
    ensures Core(CancelQueue(s, n))
  {
    hide Q.QInv;
  }

  lemma {:induction false} StepCore(s: State, e: Event)
    requires Core(s) && Legal(s, e)
    ensures Core(Step(s, e))
  {
    hide Core, HandedOver, FreshAllocs;
    match e
    case EvReqQueue(r, xs) => hide ReqQueue; ReqQueueCore(s, r, xs);
    case EvBufQueue(x, alloc) =>
      BuffersApart(s, B.Give(s.b, x));
      hide EnqueueNoRequest;
      EnqueueNoRequestCore(s.(b := B.Give(s.b, x)), x, alloc);
    case EvWorker => hide Worker; WorkerCore(s);
    case EvComposer(m) => hide ComposerAck; ComposerCore(s, m);
    case EvIrq(i) => hide HandleIrq; IrqCore(s, i);
    case EvStart(n, env) => hide Start; StartCore(s, n, env);
    case EvStop(n) => hide Stop; StopCore(s, n);
    case EvCancel(n) => CancelCore(s, n);
  }
}
