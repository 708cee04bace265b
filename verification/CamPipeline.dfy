/** The entry points of the Pass-1 driver as steps of one state machine. Each step
    is one locked region or one vb2, SCP or interrupt callback. */
module CamPipeline {
  import opened CamTypes
  import B = CamBuffers
  import Q = CamQueues

  // ---- scheduler ---------------------------------------------------------

  /** mtk_cam_dev_req_try_queue. */
  function TryQueue(s: State): State {
    if s.st.streaming then s.(q := Q.Dispatch(s.q)) else s
  }

  /** The loop of mtk_cam_dev_dequeue_req_frame: older frames are dropped, the frame
      itself is finished, and the first newer one ends the walk. */
  function RetireLoop(q: Queues, b: Buffers, streaming: bool, f: nat, eof: nat): (Queues, Buffers)
    decreases |q.running|
  {
    if q.running == [] then (q, b)
    else
      var r := q.running[0];
      var req := Q.At(q, r);
      if req.frameSeq == f then
        (Q.RetireHead(q, if streaming then Finished else Silent), B.JobDone(b, streaming, r, req, DONE, eof))
      else if req.frameSeq < f then
        RetireLoop(Q.RetireHead(q, if streaming then Dropped else Silent),
                   B.JobDone(b, streaming, r, req, ERROR, eof), streaming, f, eof)
      else (q, b)
  }

  function DequeueReqFrame(s: State, f: nat, eof: nat): State {
    var (q, b) := RetireLoop(s.q, s.b, s.st.streaming, f, eof);
    s.(q := q, b := b)
  }

  // ---- buffers -----------------------------------------------------------

  function EnqMeta(fr: Frames, n: NodeId): nat {
    if n == MetaOut0 then fr.enqMeta0 else fr.enqMeta1
  }

  /** mtk_isp_enqueue for META_OUT_0 and META_OUT_1. */
  function MetaEnqueue(s: State, x: Buf): State {
    if s.st.dmas == {} then s
    else if x.node == MetaOut0 then
      s.(fr := s.fr.(enqMeta0 := s.fr.enqMeta0 + 1), b := s.b.(seqNo := s.b.seqNo[x := s.fr.enqMeta0 + 1]))
    else
      s.(fr := s.fr.(enqMeta1 := s.fr.enqMeta1 + 1), b := s.b.(seqNo := s.b.seqNo[x := s.fr.enqMeta1 + 1]))
  }

  datatype Alloc = Null | Ptr(id: ReqId)

  function SyntheticRequest(x: Buf): Request {
    Request(true, [x], 0, 0)
  }

  /** mtk_cam_enqueue_no_request; alloc is what kzalloc returned. */
  function EnqueueNoRequest(s: State, x: Buf, alloc: Alloc): State {
    if x.node != MainOut then MetaEnqueue(s, x)
    else match alloc
      case Null => s.(b := B.Vb2Done(s.b, x, ERROR, Unstamped))
      case Ptr(id) => TryQueue(s.(q := Q.Submit(s.q, id, SyntheticRequest(x))))
  }

  function EnqueueEach(s: State, xs: seq<Buf>, allocs: seq<Alloc>): State
    requires |allocs| == |xs|
    decreases |xs|
  {
    if xs == [] then s
    else EnqueueEach(EnqueueNoRequest(s, xs[0], allocs[0]), xs[1..], allocs[1..])
  }

  /** mtk_cam_vb2_buf_queue. */
  function BufQueue(s: State, x: Buf, alloc: Alloc): State {
    var s1 := s.(b := B.Give(s.b, x));
    if x.node !in s.cfg.viaRequests && x.node in s.st.started then EnqueueNoRequest(s1, x, alloc) else s1
  }

  /** vb2_request_queue hands over the buffers whose queue is streaming. */
  function GiveStarted(b: Buffers, started: set<NodeId>, xs: seq<Buf>): Buffers
    decreases |xs|
  {
    if xs == [] then b
    else GiveStarted(if xs[0].node in started then B.Give(b, xs[0]) else b, started, xs[1..])
  }

  function BindAll(b: Buffers, xs: seq<Buf>, r: ReqId): Buffers {
    b.(bound := map x | x in b.bound.Keys + (set y | y in xs) :: if x in xs then r else b.bound[x])
  }

  /** mtk_cam_req_queue for a request with the buffers xs. */
  function ReqQueue(s: State, r: ReqId, xs: seq<Buf>): State {
    var b := GiveStarted(BindAll(s.b, xs, r), s.st.started, xs);
    var req := Q.At(s.q, r).(synthetic := false, bufs := xs);
    TryQueue(s.(b := b, q := Q.Submit(s.q, r, req)))
  }

  /** mtk_cam_dev_dequeue_frame. */
  function DequeueFrame(s: State, n: NodeId, frame: nat, seqNo: nat, fbc: nat, now: nat): State {
    if n !in s.cfg.enabled || !s.st.streaming then s
    else
      var limit := if fbc % 128 == 0 then EnqMeta(s.fr, n) else seqNo;
      s.(b := B.RingTake(s.b, n, limit, frame, now))
  }

  // ---- composer and interrupt --------------------------------------------

  /** isp_tx_frame_worker, run by the ordered workqueue. */
  function Worker(s: State): State {
    if s.q.wq == [] then s else s.(q := Q.Send(s.q))
  }

  /** A message from the SCP: long enough, an acknowledgement of a frame, and its number. */
  datatype ScpMsg = ScpMsg(longEnough: bool, isAck: bool, ofFrame: bool, frame: nat)

  /** isp_composer_handler. */
  function ComposerAck(s: State, m: ScpMsg): State {
    if m.longEnough && m.isAck && m.ofFrame then s.(q := s.q.(comp := m.frame)) else s
  }

  /** Registers read by the interrupt handler, and the clock. */
  datatype Irq = Irq(sof: bool, hwDone: bool, swDone: bool, aaoDone: bool, afoDone: bool,
                     frame: nat, meta0: nat, meta1: nat, aaoFbc: nat, aaoFbcSw: nat, afoFbc: nat, now: nat)

  /** isp_irq_handle_event. */
  function HandleEvent(s: State, i: Irq): State {
    var s1 := if i.hwDone && i.aaoDone then DequeueFrame(s, MetaOut0, s.q.deq, s.fr.meta0, i.aaoFbc, i.now) else s;
    var s2 := if i.afoDone then DequeueFrame(s1, MetaOut1, s1.q.deq, s1.fr.meta1, i.afoFbc, i.now) else s1;
    if i.swDone then
      var s3 := DequeueFrame(s2, MetaOut0, s2.q.deq, s2.fr.meta0, i.aaoFbcSw, i.now);
      TryQueue(DequeueReqFrame(s3, s3.q.deq, i.now))
    else s2
  }

  /** Store the start-of-frame time in the running request with number f. */
  function StampSof(q: Queues, f: nat, now: nat): Queues {
    var k := Q.FindFrame(q, q.running, f);
    if k < 0 then q
    else q.(heap := q.heap[q.running[k] := Q.At(q, q.running[k]).(timestamp := now)])
  }

  /** isp_irq_handle_sof. */
  function HandleSof(s: State, i: Irq): State {
    var q := StampSof(s.q.(deq := i.frame), i.frame, i.now);
    var fr := s.fr.(sofCount := (s.fr.sofCount + 1) % 256, meta0 := i.meta0, meta1 := i.meta1,
                    lastSof := i.now, sofs := s.fr.sofs + {(i.frame, i.now)});
    if s.q.comp <= i.frame then s.(q := q, fr := fr)
    else s.(q := q, fr := fr.(cqOffset := CQ_ADDRESS_OFFSET * (i.frame % CQ_BUFFER_COUNT)))
  }

  /** isp_irq_cam. */
  function HandleIrq(s: State, i: Irq): State {
    var s1 := HandleEvent(s, i);
    if i.sof then HandleSof(s1, i) else s1
  }

  // ---- streaming ---------------------------------------------------------

  /** mtk_cam_dev_init_stream. */
  function InitStream(s: State): State {
    s.(st := s.st.(enabledCount := |s.cfg.enabled|, streamCount := 0, dmas := s.cfg.enabled - {MetaIn0}),
       q := s.q.(jobCount := 0))
  }

  /** mtk_isp_hw_init, once the remote processor has booted and the composer is up. */
  function HwInit(s: State): State {
    s.(st := s.st.(wqAlive := true), q := Q.ResetCounters(s.q),
       fr := s.fr.(meta0 := 0, meta1 := 0, enqMeta0 := 0, enqMeta1 := 0, sofCount := 0, sofs := {}, logBase := |s.b.log|))
  }

  datatype CioOutcome = NoSeninf | NoSensor | SeninfFails | SensorFails | ConfigFails | CioOk

  /** mtk_cam_cio_stream_on. */
  function CioStreamOn(s: State, o: CioOutcome): State {
    match o
    case NoSeninf => s
    case NoSensor => s
    case SeninfFails => s
    case SensorFails =>
      var on := s.(st := s.st.(seninfOn := true));
      on.(st := on.st.(seninfOn := false))
    case ConfigFails =>
      var on := s.(st := s.st.(seninfOn := true, sensorOn := true));
      on.(st := on.st.(sensorOn := false, seninfOn := false))
    case CioOk => TryQueue(s.(st := s.st.(seninfOn := true, sensorOn := true, streaming := true)))
  }

  /** mtk_cam_cio_stream_off, with the workqueue drained by mtk_isp_hw_release. */
  function CioStreamOff(s: State): State {
    s.(st := s.st.(sensorOn := false, seninfOn := false, streaming := false, wqAlive := false),
       q := Q.Drain(s.q))
  }

  /** What the callees of start_streaming return. */
  datatype StartEnv = StartEnv(pipelineOk: bool, hwOk: bool, cio: CioOutcome, allocs: seq<Alloc>)

  function GiveBack(s: State, n: NodeId): State {
    s.(b := B.ReturnAll(s.b, n, QUEUED))
  }

  /** In non-request mode the buffers queued so far are registered at start. */
  function Register(s: State, n: NodeId, allocs: seq<Alloc>): State
    requires n !in s.cfg.viaRequests ==> |allocs| == |s.b.lists[n]|
  {
    if n in s.cfg.viaRequests then s else EnqueueEach(s, s.b.lists[n], allocs)
  }

  function CountUp(s: State): State {
    s.(st := s.st.(streamCount := s.st.streamCount + 1))
  }

  function MarkStarted(s: State, n: NodeId): State {
    s.(st := s.st.(started := s.st.started + {n}))
  }

  /** The end of mtk_cam_vb2_start_streaming; the last enabled node calls s_stream(1). */
  function FinishStart(s: State, n: NodeId, o: CioOutcome): State {
    var s1 := CountUp(s);
    if s1.st.streamCount < s1.st.enabledCount || s1.st.streaming then MarkStarted(s1, n)
    else if o == CioOk then MarkStarted(CioStreamOn(s1, o), n)
    else
      var s2 := CioStreamOn(s1, o);
      var s3 := s2.(st := s2.st.(streamCount := s2.st.streamCount - 1));
      GiveBack(if s3.st.streamCount == 0 then PipelineStop(s3) else s3, n)
  }

  function StartTail(s: State, n: NodeId, env: StartEnv): State
    requires n !in s.cfg.viaRequests ==> |env.allocs| == |s.b.lists[n]|
  {
    FinishStart(Register(s, n, env.allocs), n, env.cio)
  }

  function PipelineStop(s: State): State {
    s.(st := s.st.(pipelineOn := false, stopped := {}))
  }

  /** mtk_cam_vb2_start_streaming. */
  function Start(s: State, n: NodeId, env: StartEnv): State
    requires n !in s.cfg.viaRequests ==> |env.allocs| == |s.b.lists[n]|
  {
    if n !in s.cfg.enabled then GiveBack(s, n)
    else if s.st.pipelineOn then StartTail(s, n, env)
    else if !env.pipelineOk then GiveBack(s, n)
    else
      var s1 := InitStream(s.(st := s.st.(pipelineOn := true)));
      if env.hwOk then StartTail(HwInit(s1), n, env)
      else GiveBack(if s1.st.streamCount == 0 then PipelineStop(s1) else s1, n)
  }

  /** mtk_cam_vb2_stop_streaming, cleanup included. */
  function Stop(s: State, n: NodeId): State {
    var s1 := if s.st.streamCount == s.st.enabledCount then
                var off := if s.st.streaming then CioStreamOff(s) else s;
                off.(st := off.st.(dmas := {}))
              else s;
    var s2 := s1.(b := B.ReturnAll(s1.b, n, ERROR),
                  st := s1.st.(streamCount := s1.st.streamCount - 1,
                               started := s1.st.started - {n}, stopped := s1.st.stopped + {n}));
    if s2.st.streamCount != 0 then s2
    else PipelineStop(s2.(q := Q.Cleanup(s2.q), st := s2.st.(cancelled := {})))
  }

  /** vb2 cancels a queue that has not started, on STREAMOFF, REQBUFS or close, and after a
      stop: the buffers leave their requests, and the driver is told nothing that it acts
      on. */
  function CancelQueue(s: State, n: NodeId): State {
    s.(b := B.Cancel(s.b, n), st := s.st.(cancelled := s.st.cancelled + {n}))
  }

  // ---- runs --------------------------------------------------------------

  datatype Event =
    | EvReqQueue(r: ReqId, bufs: seq<Buf>)
    | EvBufQueue(buf: Buf, alloc: Alloc)
    | EvWorker
    | EvComposer(msg: ScpMsg)
    | EvIrq(irq: Irq)
    | EvStart(node: NodeId, env: StartEnv)
    | EvStop(node: NodeId)
    | EvCancel(node: NodeId)

  /** Requests that are on one of the two job lists. */
  predicate Live(q: Queues, r: ReqId) {
    r in q.pending || r in q.running
  }

  /** Every buffer of the request has come back, so user space may queue it again. */
  ghost predicate Idle(b: Buffers, r: ReqId) {
    forall x :: x in b.bound ==> b.bound[x] != r
  }

  /** What vb2, the media core, the SCP and the hardware guarantee about a call. */
  ghost predicate Contract(s: State, e: Event) {
    match e
    case EvReqQueue(r, xs) =>
      && Idle(s.b, r)
      && Distinct(xs)
      && forall x :: x in xs ==> x.node in s.cfg.viaRequests && x !in s.b.bound && !B.Owned(s.b, x)
    case EvBufQueue(x, alloc) =>
      && !B.Owned(s.b, x)
      && (x.node in s.cfg.viaRequests ==> x in s.b.bound && x.node !in s.st.started)
      && (alloc.Ptr? ==> alloc.id !in s.q.heap)
    case EvWorker => true
    case EvComposer(m) =>
      m.longEnough && m.isAck && m.ofFrame ==> s.q.comp <= m.frame <= s.q.sent
    case EvIrq(i) =>
      i.sof ==> s.q.deq <= i.frame <= s.q.comp
    case EvStart(n, env) =>
      && n !in s.st.started
      && (n !in s.cfg.viaRequests ==> |env.allocs| == |s.b.lists[n]|)
      && FreshAllocs(s.q.heap.Keys, env.allocs)
      && HandedOver(s, n)
    case EvStop(n) => n in s.st.started
    case EvCancel(n) => n !in s.st.started && s.b.lists[n] == []
  }

  /** A request is not queued while the driver still has it on a list. Nothing enforces
      this: a request that came back because a node stopped may still be listed. */
  predicate Unlisted(s: State, e: Event) {
    e.EvReqQueue? ==> !Live(s.q, e.r)
  }

  ghost predicate Legal(s: State, e: Event) {
    Contract(s, e) && Unlisted(s, e)
  }

  ghost predicate FreshAllocs(used: set<ReqId>, allocs: seq<Alloc>) {
    && (forall i :: 0 <= i < |allocs| && allocs[i].Ptr? ==> allocs[i].id !in used)
    && (forall i, j :: 0 <= i < j < |allocs| && allocs[i].Ptr? && allocs[j].Ptr? ==> allocs[i].id != allocs[j].id)
  }

  /** vb2 hands every queued buffer to the driver before it calls start_streaming. */
  ghost predicate HandedOver(s: State, n: NodeId) {
    forall r, x :: Live(s.q, r) && x in Q.At(s.q, r).bufs ==>
      x.node == n && x in s.b.bound && s.b.bound[x] == r ==> B.Owned(s.b, x)
  }

  /** kzalloc is called for the main stream node in non-request mode. */
  predicate Allocates(s: State, n: NodeId) {
    n == MainOut && n !in s.cfg.viaRequests
  }

  /** Starting n would start the last enabled node, so s_stream(1) is called. */
  predicate StartsLast(s: State, n: NodeId) {
    n in s.cfg.enabled && if s.st.pipelineOn then s.st.streamCount + 1 >= s.st.enabledCount
                          else 1 >= |s.cfg.enabled|
  }

  /** start_streaming gets as far as registering the buffers queued so far. */
  predicate Registers(s: State, n: NodeId, env: StartEnv) {
    n in s.cfg.enabled && (s.st.pipelineOn || (env.pipelineOk && env.hwOk))
  }

  predicate AllAllocated(allocs: seq<Alloc>) {
    forall i :: 0 <= i < |allocs| ==> allocs[i].Ptr?
  }

  /** No buffer still bound to a running request numbered up to f is missing from the
      list of a node whose link is disabled. */
  predicate NoneMissing(c: Config, q: Queues, b: Buffers, f: nat) {
    forall r, x ::
      r in q.running && Q.At(q, r).frameSeq <= f && x in Q.At(q, r).bufs ==> !Missing(c, b, r, Q.At(q, r), x)
  }

  /** A buffer the request would return whose node's link is disabled and that is on no list. */
  predicate Missing(c: Config, b: Buffers, r: ReqId, req: Request, x: Buf) {
    B.Holds(b, r, req, x) && x.node !in c.enabled && !B.Owned(b, x)
  }

  /** The guards on which the accounting of one entry point depends: kzalloc succeeds
      where it is called, and no request that retires has a buffer of a disabled node that
      was never handed over. */
  ghost predicate Accounted(s: State, e: Event) {
    match e
    case EvBufQueue(x, alloc) => Allocates(s, x.node) && x.node in s.st.started ==> alloc.Ptr?
    case EvIrq(i) => i.swDone && s.st.streaming ==> NoneMissing(s.cfg, s.q, s.b, s.q.deq)
    case EvStart(n, env) => Registers(s, n, env) && Allocates(s, n) ==> AllAllocated(env.allocs)
    case _ => true
  }

  /** No request of the driver is left on the lists. */
  ghost predicate NoLeftover(q: Queues) {
    forall r :: Live(q, r) ==> !Q.At(q, r).synthetic
  }

  /** The buffers that a start registers get a request each, and no other request of the
      driver is there. */
  ghost predicate CleanStart(s: State, n: NodeId, env: StartEnv) {
    Registers(s, n, env) && Allocates(s, n) ==> AllAllocated(env.allocs) && NoLeftover(s.q)
  }

  /** Starting n turns the stream on with a workqueue that was destroyed: a node of this
      session has stopped after all were started, which cleared enabled_dmas. */
  predicate DeadRestart(s: State, n: NodeId, env: StartEnv) {
    s.st.pipelineOn && s.st.dmas == {} && StartsLast(s, n) && env.cio == CioOk
  }

  /** The further conditions under which buffer ownership is kept: each entry point is
      accounted for, the main stream does not start over requests the driver left behind,
      and the stream does not come on with a destroyed workqueue. */
  ghost predicate Benign(s: State, e: Event) {
    && Accounted(s, e)
    && (e.EvStart? ==> CleanStart(s, e.node, e.env) && !DeadRestart(s, e.node, e.env))
  }

  function Step(s: State, e: Event): State
    requires Legal(s, e)
  {
    match e
    case EvReqQueue(r, xs) => ReqQueue(s, r, xs)
    case EvBufQueue(x, alloc) => BufQueue(s, x, alloc)
    case EvWorker => Worker(s)
    case EvComposer(m) => ComposerAck(s, m)
    case EvIrq(i) => HandleIrq(s, i)
    case EvStart(n, env) => Start(s, n, env)
    case EvStop(n) => Stop(s, n)
    case EvCancel(n) => CancelQueue(s, n)
  }

  /** Which nodes may be used without requests: the ring numbering of
      mtk_isp_enqueue only covers the first two meta outputs. */
  ghost predicate CfgOk(c: Config) {
    && MainOut in c.enabled
    && forall n :: n in c.enabled && n !in c.viaRequests ==> n == MainOut || n == MetaOut0 || n == MetaOut1
  }

  function Initial(c: Config): State {
    State(c,
          Queues(map[], [], [], 0, [], 0, 0, 0, 0, [], []),
          Buffers(NoBuffers(), map[], map[], multiset{}, []),
          Stream(false, false, false, false, false, {}, {}, {}, 0, 0, {}),
          Frames(0, 0, 0, 0, 0, 0, 0, {}, 0))
  }
}
