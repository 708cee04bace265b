/** What interrupts do: the numbers a start of frame saves decide what the next done
    interrupts take off the rings, and the requests that retire come back with their own
    frame and time. */
module CamInterrupts {
  import opened CamTypes
  import opened CamPipeline
  import opened CamCore
  import opened CamOwnership
  import opened CamRequests
  import opened CamTheorems
  import opened CamRing
  import opened CamExact
  import opened CamLimits
  import opened CamRequeue
  import CamFailures
  import B = CamBuffers
  import Q = CamQueues

  // ---- a start of frame and the next done interrupts ---------------------

  /** The FBC count that the handler reads for the node is zero. */
  predicate ZeroCount(i: Irq, n: NodeId) {
    if n == MetaOut0 then (i.hwDone && i.aaoDone && i.aaoFbc % 128 == 0) || (i.swDone && i.aaoFbcSw % 128 == 0)
    else i.afoDone && i.afoFbc % 128 == 0
  }

  /** The number of the node's last finished meta frame that was saved at start of frame. */
  function Saved(fr: Frames, n: NodeId): nat {
    if n == MetaOut0 then fr.meta0 else fr.meta1
  }

  /** The number of the node's last finished meta frame in the register. */
  function Reported(i: Irq, n: NodeId): nat {
    if n == MetaOut0 then i.meta0 else i.meta1
  }

  /** From s0 to s only rings were dequeued: of the ring m, everything if all, and otherwise
      what is numbered up to limit. */
  ghost predicate RingLeft(s0: State, s: State, m: NodeId, all: bool, limit: int) {
    && s == s0.(b := s.b) && B.ListsOk(s.b) && RingOk(s) && s.b.seqNo == s0.b.seqNo
    && forall x :: x in s.b.lists[m] <==> x in s0.b.lists[m] && !all && B.SeqNo(s0.b, x) > limit
  }

  function Max(a: int, b: int): int {
    if a < b then b else a
  }

  lemma {:induction false} RingLeftStep(s0: State, s: State, m: NodeId, all: bool, limit: int,
                                        n: NodeId, frame: nat, seqNo: nat, fbc: nat, now: nat)
    requires RingLeft(s0, s, m, all, limit) && IsRing(s.cfg, m) && m in s.cfg.enabled && m in s.st.started
    requires s.st.streaming && s.st.dmas != {}
    ensures RingLeft(s0, DequeueFrame(s, n, frame, seqNo, fbc, now), m,
                     all || (m == n && fbc % 128 == 0), if m == n then Max(limit, seqNo) else limit)
  {
    hide DequeueFrame, B.ListsOk, RingOk;
    var s' := DequeueFrame(s, n, frame, seqNo, fbc, now);
    RingOther(s, n, frame, seqNo, fbc, now);
    RingDistinct(s, m);
    DequeueFrameRing(s, n, frame, seqNo, fbc, now);
    if m == n {
      RingTaken(s, n, frame, seqNo, fbc, now);
    }
  }

  lemma {:induction false} RingDistinct(s: State, m: NodeId)
    requires B.ListsOk(s.b) && RingOk(s) && IsRing(s.cfg, m) && m in s.st.started && s.st.dmas != {}
    ensures Numbered(s.b, s.b.lists[m], EnqMeta(s.fr, m)) && Distinct(s.b.lists[m])
  {
  }

  /** One call of dequeue_frame, by membership. */
  lemma {:induction false} RingTaken(s: State, n: NodeId, frame: nat, seqNo: nat, fbc: nat, now: nat)
    requires Numbered(s.b, s.b.lists[n], EnqMeta(s.fr, n)) && Distinct(s.b.lists[n])
    requires n in s.cfg.enabled && s.st.streaming
    ensures var b' := DequeueFrame(s, n, frame, seqNo, fbc, now).b;
            && b'.seqNo == s.b.seqNo
            && forall x :: x in b'.lists[n] <==> x in s.b.lists[n] && fbc % 128 != 0 && B.SeqNo(s.b, x) > seqNo
  {
    hide Numbered, B.RingTake, B.SeqNo, B.Dequeued;
    var limit := if fbc % 128 == 0 then EnqMeta(s.fr, n) else seqNo;
    var b' := B.RingTake(s.b, n, limit, frame, now);
    RingTakeExact(s.b, n, EnqMeta(s.fr, n), limit, frame, now);
    RingTakeParts(s.b, n, limit, frame, now);
    SuffixMembers(s.b.lists[n], b'.lists[n]);
  }

  lemma {:induction false} SuffixMembers(l: seq<Buf>, l': seq<Buf>)
    requires |l'| <= |l| && l' == l[|l| - |l'|..]
    ensures forall x :: x in l' ==> x in l
  {
  }

  lemma {:induction false} RingLeftNone(s: State, m: NodeId)
    requires B.ListsOk(s.b) && RingOk(s)
    ensures RingLeft(s, s, m, false, -1)
  {
  }

  /** What the done part of an interrupt leaves on a ring, before requests retire. */
  lemma {:induction false} BetweenLeft(s: State, i: Irq, m: NodeId)
    requires B.ListsOk(s.b) && RingOk(s) && IsRing(s.cfg, m) && m in s.cfg.enabled && m in s.st.started
    requires s.st.streaming && s.st.dmas != {}
    ensures RingLeft(s, Between(s, i), m, ZeroCount(i, m), if Dequeues(i, m) then Saved(s.fr, m) else -1)
  {
    hide DequeueFrame, RingLeft, B.ListsOk, RingOk, Between;
    BetweenIs(s, i);
    RingLeftNone(s, m);
    var s1, s2 := AfterAao(s, i), AfterAfo(s, i);
    var t1 := i.hwDone && i.aaoDone;
    RingLeftStep(s, s, m, false, -1, MetaOut0, s.q.deq, s.fr.meta0, i.aaoFbc, i.now);
    var a1, l1 := t1 && m == MetaOut0 && i.aaoFbc % 128 == 0, if t1 && m == MetaOut0 then s.fr.meta0 else -1;
    assert RingLeft(s, s1, m, a1, l1);
    SameRest(s, s1, m, a1, l1);
    RingLeftStep(s, s1, m, a1, l1, MetaOut1, s1.q.deq, s1.fr.meta1, i.afoFbc, i.now);
    var a2 := a1 || (i.afoDone && m == MetaOut1 && i.afoFbc % 128 == 0);
    var l2 := if i.afoDone && m == MetaOut1 then Max(l1, s.fr.meta1) else l1;
    assert RingLeft(s, s2, m, a2, l2);
    SameRest(s, s2, m, a2, l2);
    RingLeftStep(s, s2, m, a2, l2, MetaOut0, s2.q.deq, s2.fr.meta0, i.aaoFbcSw, i.now);
  }

  lemma {:induction false} SameRest(s0: State, s: State, m: NodeId, all: bool, limit: int)
    requires RingLeft(s0, s, m, all, limit)
    ensures s.q == s0.q && s.st == s0.st && s.cfg == s0.cfg && s.fr == s0.fr
  {
  }

  /** Retiring requests leaves the rings. */
  lemma {:induction false} RingsAfterIrq(s: State, i: Irq, m: NodeId)
    requires Own(s) && Accounted(s, EvIrq(i)) && IsRing(s.cfg, m)
    ensures HandleIrq(s, i).b.lists[m] == Between(s, i).b.lists[m]
    ensures HandleIrq(s, i).b.seqNo == Between(s, i).b.seqNo
  {
    hide Core, B.Conserved, B.ListsOk, Held, HandleIrq, RingOk, RequestsOk, CamTime.TimeOk, RetireLoop, Between, AfterRings, Q.MemOk,
      NoneMissing;
    if i.swDone {
      BetweenOwned(s, i);
      IrqRetires(s, i);
      var s3 := Between(s, i);
      RetireLoopRings(s3.cfg, s3.q, s3.b, s3.st.started, s3.st.streaming, s3.q.deq, i.now);
    } else {
      IrqQuiet(s, i);
    }
  }

  lemma {:induction false} IrqQuiet(s: State, i: Irq)
    requires !i.swDone
    ensures HandleIrq(s, i).b == Between(s, i).b
  {
    hide HandleEvent, StampSof;
  }

  lemma {:induction false} IrqRetires(s: State, i: Irq)
    requires i.swDone
    ensures var s3 := Between(s, i);
            HandleIrq(s, i).b == RetireLoop(s3.q, s3.b, s3.st.streaming, s3.q.deq, i.now).1
  {
    hide DequeueFrame, RetireLoop, Q.Dispatch, StampSof;
  }

  lemma {:induction false} BetweenOwned(s: State, i: Irq)
    requires Own(s) && Accounted(s, EvIrq(i)) && i.swDone
    ensures var s3 := Between(s, i);
            && Held(s3.cfg, s3.q, s3.b, s3.st.started) && B.BufInv(s3.b) && Q.MemOk(s3.q)
            && (s3.st.streaming ==> s3.st.started == s3.cfg.enabled && MainOut in s3.st.started
                                    && NoneMissing(s3.cfg, s3.q, s3.b, s3.q.deq))
            && s3 == s.(b := s3.b)
  {
    hide Own, Core, Held, B.BufInv, AfterRings, Q.MemOk, NoneMissing, RequestsOk;
    OwnStream(s);
    AfterRingsBound(s, i) by { OwnRequests(s); }
    if s.st.streaming { EventMissing(s, i); }
  }

  lemma {:induction false} OwnStream(s: State)
    requires Own(s)
    ensures Q.MemOk(s.q) && Held(s.cfg, s.q, s.b, s.st.started) && B.BufInv(s.b)
    ensures s.st.streaming ==> s.st.started == s.cfg.enabled && MainOut in s.st.started
  {
    hide Held, B.BufInv, Q.FramesOk, Q.HistOk, Q.CountOk, Q.MemOk, RequestsOk, RingOk, CamTime.TimeOk;
  }

  lemma {:induction false} OwnRequests(s: State)
    requires Own(s)
    ensures RequestsOk(s)
  {
  }

  /** A done interrupt and a ring: with the node's done bit the buffers numbered up to the
      saved number leave, all of them when the node's FBC count is zero, and nothing leaves
      without it. */
  lemma {:induction false} RingAtDone(s: State, i: Irq, m: NodeId, x: Buf)
    requires Own(s) && Accounted(s, EvIrq(i)) && s.st.streaming && IsRing(s.cfg, m) && m in s.cfg.enabled
    ensures var s' := HandleIrq(s, i);
            x in s'.b.lists[m] <==>
              x in s.b.lists[m] && (Dequeues(i, m) ==> !ZeroCount(i, m) && B.SeqNo(s.b, x) > Saved(s.fr, m))
  {
    hide Core, B.Conserved, Held, HandleIrq, Between, RequestsOk, CamTime.TimeOk, B.SeqNo, RingLeft;
    StreamStarted(s, m);
    RingsAfterIrq(s, i, m);
    BetweenLeft(s, i, m);
    LeftMembers(s, Between(s, i), m, ZeroCount(i, m), if Dequeues(i, m) then Saved(s.fr, m) else -1, x);
  }

  lemma {:induction false} LeftMembers(s0: State, s: State, m: NodeId, all: bool, limit: int, x: Buf)
    requires RingLeft(s0, s, m, all, limit)
    ensures x in s.b.lists[m] <==> x in s0.b.lists[m] && !all && B.SeqNo(s0.b, x) > limit
  {
  }

  lemma {:induction false} StreamStarted(s: State, m: NodeId)
    requires Own(s) && s.st.streaming && m in s.cfg.enabled
    ensures m in s.st.started && s.st.dmas != {} && B.ListsOk(s.b) && RingOk(s)
  {
    hide Q.QInv, Held;
  }

  /** A start of frame saves the two numbers of its registers. */
  lemma {:induction false} SofSaves(s: State, i: Irq, m: NodeId)
    requires i.sof
    ensures Saved(HandleIrq(s, i).fr, m) == Reported(i, m)
  {
    hide HandleEvent, StampSof;
  }

  /** Events between two starts of frame of one session. */
  predicate BetweenSofs(run: seq<Event>) {
    forall k :: 0 <= k < |run| ==> !run[k].EvStart? && !(run[k].EvIrq? && run[k].irq.sof)
  }

  lemma {:induction false} SavedStays(s: State, e: Event, m: NodeId)
    requires Legal(s, e) && !e.EvStart? && !(e.EvIrq? && e.irq.sof)
    ensures Saved(Step(s, e).fr, m) == Saved(s.fr, m)
  {
    hide Legal, Stop, HandleIrq, Q.Dispatch, GiveStarted;
    match e
    case EvIrq(i) => QuietIrqFrames(s, i);
    case EvStop(n) => StopIs(s, n);
    case _ =>
  }

  lemma {:induction false} QuietIrqFrames(s: State, i: Irq)
    requires !i.sof
    ensures HandleIrq(s, i).fr == s.fr
  {
    hide RetireLoop, Q.Dispatch, B.RingTake;
  }

  lemma {:induction false} RunSaved(s: State, run: seq<Event>, m: NodeId)
    requires RunOk(s, run) && BetweenSofs(run)
    ensures Saved(Exec(s, run).fr, m) == Saved(s.fr, m)
    decreases |run|
  {
    if run != [] {
      hide Step, Legal;
      SavedStays(s, run[0], m);
      assert forall k :: 0 <= k < |run[1..]| ==> run[1..][k] == run[k + 1];
      RunSaved(Step(s, run[0]), run[1..], m);
    }
  }

  /** A start of frame, anything but another one, and a done interrupt: what stays on a ring
      is what is numbered above the number that the start of frame reported for this very
      ring; with a zero FBC count nothing stays, and without the done bit everything. */
  lemma {:induction false} SofThenDone(s: State, i1: Irq, run: seq<Event>, i2: Irq, m: NodeId, x: Buf)
    requires Own(s) && Legal(s, EvIrq(i1)) && Benign(s, EvIrq(i1)) && i1.sof
    requires RunOk(Step(s, EvIrq(i1)), run) && BenignRun(Step(s, EvIrq(i1)), run) && BetweenSofs(run)
    requires var s2 := Exec(Step(s, EvIrq(i1)), run);
             s2.st.streaming && Accounted(s2, EvIrq(i2)) && IsRing(s2.cfg, m) && m in s2.cfg.enabled
    ensures var s2 := Exec(Step(s, EvIrq(i1)), run);
            x in HandleIrq(s2, i2).b.lists[m] <==>
              x in s2.b.lists[m] && (Dequeues(i2, m) ==> !ZeroCount(i2, m) && B.SeqNo(s2.b, x) > Reported(i1, m))
  {
    hide Own, Benign, HandleIrq, Exec, RunOk, BenignRun, B.SeqNo;
    var s1 := Step(s, EvIrq(i1));
    StepOwn(s, EvIrq(i1));
    SofSaves(s, i1, m);
    RunOwn(s1, run);
    RunSaved(s1, run, m);
    hide Legal, Step;
    RingAtDone(Exec(s1, run), i2, m, x);
  }

  // ---- requests that retire ----------------------------------------------

  /** While the stream is off an interrupt returns no buffer. */
  lemma {:induction false} IrqWhileOff(s: State, i: Irq)
    requires !s.st.streaming
    ensures HandleIrq(s, i).b == s.b
  {
    hide RetireLoop, Q.Dispatch, StampSof;
    LoopWhileOff(s.q, s.b, s.q.deq, i.now);
  }

  lemma {:induction false} LoopWhileOff(q: Queues, b: Buffers, f: nat, eof: nat)
    ensures RetireLoop(q, b, false, f, eof).1 == b
    decreases |q.running|
  {
    if q.running != [] && Q.At(q, q.running[0]).frameSeq < f { LoopWhileOff(Q.RetireHead(q, Silent), b, f, eof); }
  }

  /** What is held before the rings are dequeued, and not returned by them, is held after. */
  lemma {:induction false} StillHeld(s: State, i: Irq, r: ReqId, x: Buf)
    requires Own(s) && i.swDone && B.Holds(s.b, r, Q.At(s.q, r), x) && !ReturnsEarly(s, i, x)
    ensures var s3 := Between(s, i); B.Holds(s3.b, r, Q.At(s3.q, r), x)
  {
    hide Core, Held, Between, RungBy, B.ListsOk, SeqOk, Q.MemOk, SynthMain;
    OwnParts(s);
    BetweenSame(s, i);
    BetweenRung(s, i);
    RungByIs(i, x.node);
    assert Bound(s.b, r, x) ==> Bound(Between(s, i).b, r, x);
  }

  /** A done interrupt returns each buffer of each request numbered up to the reported frame,
      unless dequeue_frame returns it first: DONE for that frame and ERROR for an older one,
      with the number of its request, and the start time of its frame or, for an output
      buffer, the time of the interrupt. */
  lemma {:induction false} RetiredAtInterrupt(s: State, i: Irq, j: nat, x: Buf)
    requires Own(s) && Accounted(s, EvIrq(i)) && s.st.streaming && i.swDone && j < |s.q.running|
    requires var r := s.q.running[j];
             Q.At(s.q, r).frameSeq <= s.q.deq && B.Holds(s.b, r, Q.At(s.q, r), x) && !ReturnsEarly(s, i, x)
    ensures var req := Q.At(s.q, s.q.running[j]);
            LoggedSince(s.b.log, HandleIrq(s, i).b.log,
                        Completion(x, if req.frameSeq == s.q.deq then DONE else ERROR,
                                   Stamp(req.frameSeq, if x.node == MetaIn0 then i.now else req.timestamp)))
  {
    hide Core, HandleIrq, Between, RetireLoop, B.BufInv, Held, RequestsOk, RingOk, CamTime.TimeOk, B.Holds, Q.MemOk, Q.FramesOk, NoneMissing,
      ReturnsEarly;
    var r, req := s.q.running[j], Q.At(s.q, s.q.running[j]);
    BetweenOwned(s, i);
    BetweenGrows(s, i);
    StillHeld(s, i, r, x);
    IrqRetires(s, i);
    OwnFrames(s);
    var s3 := Between(s, i);
    RetireLoopMarks(s3.cfg, s3.q, s3.b, s3.st.started, s3.q.deq, i.now, j, x);
    MarkIs(s, r, x, i.now);
    CamFailures.RetireLoopGrows(s3.q, s3.b, true, s3.q.deq, i.now);
    LoggedLater(s.b.log, s3.b.log, HandleIrq(s, i).b.log,
                Completion(x, if req.frameSeq == s.q.deq then DONE else ERROR, B.StampOf(req, x, i.now)));
  }

  lemma {:induction false} OwnFrames(s: State)
    requires Own(s)
    ensures Q.MemOk(s.q) && Q.FramesOk(s.q)
  {
    hide Held;
  }

  /** The stamp of a held buffer: a request of the driver never holds an output buffer. */
  lemma {:induction false} MarkIs(s: State, r: ReqId, x: Buf, eof: nat)
    requires Own(s) && r in s.q.running && B.Holds(s.b, r, Q.At(s.q, r), x)
    ensures var req := Q.At(s.q, r);
            B.StampOf(req, x, eof) == Stamp(req.frameSeq, if x.node == MetaIn0 then eof else req.timestamp)
  {
    hide Core, B.BufInv, RequestsOk, RingOk, CamTime.TimeOk;
    assert Live(s.q, r) && ReqHeld(s.cfg, s.b, s.st.started, r, Q.At(s.q, r));
  }

  lemma {:induction false} BetweenGrows(s: State, i: Irq)
    requires Own(s)
    ensures s.b.log <= Between(s, i).b.log
  {
    hide DequeueFrame, Own, B.ListsOk, Between;
    OwnParts(s);
    BetweenIs(s, i);
    var s1, s2 := AfterAao(s, i), AfterAfo(s, i);
    RingOther(s, MetaOut0, s.q.deq, s.fr.meta0, i.aaoFbc, i.now);
    RingOther(s1, MetaOut1, s1.q.deq, s1.fr.meta1, i.afoFbc, i.now);
    RingOther(s2, MetaOut0, s2.q.deq, s2.fr.meta0, i.aaoFbcSw, i.now);
  }

  // ---- counting frames ---------------------------------------------------

  function IsSof(e: Event): nat {
    if e.EvIrq? && e.irq.sof then 1 else 0
  }

  /** What an 8-bit counter shows. */
  function Byte(n: nat): nat {
    n % 256
  }

  function SofsIn(run: seq<Event>): nat {
    if run == [] then 0 else IsSof(run[0]) + SofsIn(run[1..])
  }

  lemma {:induction false} StepSofCount(s: State, e: Event)
    requires Legal(s, e) && !e.EvStart? && s.fr.sofCount < 256
    ensures Step(s, e).fr.sofCount == Byte(s.fr.sofCount + IsSof(e))
  {
    hide Legal, Stop, Q.Dispatch, GiveStarted, HandleEvent, StampSof;
    match e
    case EvIrq(i) => EventFrames(s, i);
    case EvStop(n) => StopIs(s, n);
    case _ =>
  }

  lemma {:induction false} EventFrames(s: State, i: Irq)
    ensures HandleEvent(s, i).fr == s.fr
  {
    hide RetireLoop, Q.Dispatch, B.RingTake;
  }

  /** The frame count is the number of starts of frame in the run, in eight bits. */
  lemma {:induction false} SofCounts(s: State, run: seq<Event>)
    requires RunOk(s, run) && s.fr.sofCount < 256 && forall k :: 0 <= k < |run| ==> !run[k].EvStart?
    ensures Exec(s, run).fr.sofCount == Byte(s.fr.sofCount + SofsIn(run))
    decreases |run|
  {
    hide Step, Legal, IsSof, Byte;
    if run == [] {
      ByteSmall(s.fr.sofCount);
    } else {
      ByteSmall(s.fr.sofCount + IsSof(run[0]));
      StepSofCount(s, run[0]);
      assert forall k :: 0 <= k < |run[1..]| ==> run[1..][k] == run[k + 1];
      SofCounts(Step(s, run[0]), run[1..]);
      ModStep(s.fr.sofCount + IsSof(run[0]), SofsIn(run[1..]));
    }
  }

  lemma {:induction false} ModStep(a: nat, b: nat)
    ensures Byte(Byte(a) + b) == Byte(a + b)
  {
  }

  lemma {:induction false} ByteSmall(n: nat)
    ensures Byte(n) < 256 && (n < 256 ==> Byte(n) == n)
  {
  }
}
