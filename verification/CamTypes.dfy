/** Vocabulary shared by the camera modules: nodes, buffers, requests and the
    state that mtk_cam.c and mtk_cam-hw.c keep between entry points. */
module CamTypes {
  /** The seven video nodes of Pass 1 (mtk_cam.h:31-40). */
  datatype NodeId = MetaIn0 | MainOut | BinOut | MetaOut0 | MetaOut1 | MetaOut2 | MetaOut3

  /** A vb2 buffer is identified by its queue and its index in that queue. */
  datatype Buf = Buf(node: NodeId, index: nat)

  /** Address of a struct mtk_cam_dev_request. */
  type ReqId = nat

  datatype Vb2State = DONE | ERROR | QUEUED

  /** What job_done and dequeue_frame write into a buffer before returning it. */
  datatype Stamp = Unstamped | Stamp(sequence: nat, timestamp: nat)

  /** One call of vb2_buffer_done. */
  datatype Completion = Completion(buf: Buf, state: Vb2State, stamp: Stamp)

  /** struct mtk_cam_dev_request. A synthetic request holds the one buffer sbuf;
      a user request holds the buffer objects it was queued with. */
  datatype Request = Request(synthetic: bool, bufs: seq<Buf>, frameSeq: nat, timestamp: nat)

  /** How a request left the running list. Silent: the stream was already off. */
  datatype Outcome = Finished | Dropped | Silent
  datatype Retired = Retired(id: ReqId, frame: nat, outcome: Outcome)

  type Lists = m: map<NodeId, seq<Buf>> | forall n: NodeId :: n in m
    witness NoBuffers()

  const ALL_NODES: set<NodeId> := {MetaIn0, MainOut, BinOut, MetaOut0, MetaOut1, MetaOut2, MetaOut3}

  lemma {:induction false} EveryNode(n: NodeId)
    ensures n in ALL_NODES
  {
    match n
    case MetaIn0 => case MainOut => case BinOut => case MetaOut0 =>
    case MetaOut1 => case MetaOut2 => case MetaOut3 =>
  }

  lemma {:induction false} AllNodes()
    ensures forall n: NodeId :: n in ALL_NODES
  {
    forall n: NodeId ensures n in ALL_NODES { EveryNode(n); }
  }

  function NoBuffers(): (m: map<NodeId, seq<Buf>>)
    ensures forall n: NodeId :: n in m && m[n] == []
  {
    AllNodes();
    map n: NodeId | n in ALL_NODES :: []
  }

  /** What does not change during a run: the enabled links and, per node,
      whether its queue is used through the Request API. */
  datatype Config = Config(enabled: set<NodeId>, viaRequests: set<NodeId>)

  /** The node lists (buf_list), the request each buffer is bound to, the meta
      sequence number of each buffer, and the two histories: every buffer handed to
      buf_queue and every vb2_buffer_done call. */
  datatype Buffers = Buffers(
    lists: Lists,
    bound: map<Buf, ReqId>,
    seqNo: map<Buf, nat>,
    given: multiset<Buf>,
    log: seq<Completion>)

  /** Request memory, the two job lists, the ordered workqueue and the frame
      counters; submitted and retired are histories since the last cleanup. */
  datatype Queues = Queues(
    heap: map<ReqId, Request>,
    pending: seq<ReqId>,
    running: seq<ReqId>,
    jobCount: int,
    wq: seq<ReqId>,
    enq: nat,
    sent: nat,
    comp: nat,
    deq: nat,
    submitted: seq<ReqId>,
    retired: seq<Retired>)

  /** The stream machine. started is vb2's view of each queue; stopped is the history of
      the nodes stopped since the pipeline was started, cancelled that of the nodes whose
      queue vb2 cancelled since the job lists were last cleaned up. */
  datatype Stream = Stream(
    pipelineOn: bool,
    streaming: bool,
    sensorOn: bool,
    seninfOn: bool,
    wqAlive: bool,
    started: set<NodeId>,
    stopped: set<NodeId>,
    cancelled: set<NodeId>,
    enabledCount: nat,
    streamCount: int,
    dmas: set<NodeId>)

  /** Values the interrupt handler saves or writes. sofs is the history of (frame, time)
      pairs seen at start of frame since the hardware was initialised, logBase the number
      of completions before that. */
  datatype Frames = Frames(
    meta0: nat,
    meta1: nat,
    enqMeta0: nat,
    enqMeta1: nat,
    sofCount: nat,
    cqOffset: nat,
    lastSof: nat,
    sofs: set<(nat, nat)>,
    logBase: nat)

  datatype State = State(cfg: Config, q: Queues, b: Buffers, st: Stream, fr: Frames)

  const MAX_RUNNING_JOBS := 3
  const CQ_BUFFER_COUNT := 3
  const CQ_ADDRESS_OFFSET := 0x640

  predicate Distinct<T(==)>(s: seq<T>) {
    forall i, j :: 0 <= i < j < |s| ==> s[i] != s[j]
  }

  /** list_del on a list without repetitions. */
  function Remove<T(==)>(s: seq<T>, x: T): seq<T> {
    if s == [] then [] else if s[0] == x then s[1..] else [s[0]] + Remove(s[1..], x)
  }

  lemma {:induction false} RemoveMembers<T>(s: seq<T>, x: T)
    requires Distinct(s)
    ensures Distinct(Remove(s, x))
    ensures forall y :: y in Remove(s, x) <==> y in s && y != x
  {
    if s != [] {
      var t := s[1..];
      RemoveMembers(t, x);
      assert forall y :: y in s <==> y == s[0] || y in t;
      assert s[0] !in t;
      if s[0] != x {
        var r := [s[0]] + Remove(t, x);
        forall i, j | 0 <= i < j < |r| ensures r[i] != r[j] {
          assert r[j] in Remove(t, x);
        }
      }
    }
  }
}
