/** Buffer ownership across start_streaming and stop_streaming. */
module CamSessions {
  import opened CamTypes
  import opened CamPipeline
  import opened CamCore
  import opened CamOwnership
  import B = CamBuffers
  import Q = CamQueues

  /** Returning a whole node leaves every other node's buffers where they are. */
  lemma {:induction false} ReturnAllHeld(c: Config, q: Queues, b: Buffers, started: set<NodeId>,
                      n: NodeId, state: Vb2State)
    requires B.BufInv(b) && Held(c, q, b, started) && n !in started
    ensures var b' := B.ReturnAll(b, n, state);
            B.BufInv(b') && Held(c, q, b', started)
  {
    B.ReturnAllKeeps(b, n, state);
    var b' := B.ReturnAll(b, n, state);
    forall r | Live(q, r) ensures ReqHeld(c, b', started, r, Q.At(q, r)) {
      assert ReqHeld(c, b, started, r, Q.At(q, r));
    }
  }

  /** A node that stops takes its buffers out of what must be held. */
  lemma {:induction false} StopNodeHeld(c: Config, q: Queues, b: Buffers, started: set<NodeId>, n: NodeId)
    requires Held(c, q, b, started)
    ensures Held(c, q, b, started - {n})
  {
    forall r | Live(q, r) ensures ReqHeld(c, b, started - {n}, r, Q.At(q, r)) {
      assert ReqHeld(c, b, started, r, Q.At(q, r));
    }
  }

  lemma {:induction false} NothingLive(c: Config, q: Queues, b: Buffers, started: set<NodeId>)
    requires q.pending == [] && q.running == []
    ensures Held(c, q, b, started)
  {
  }

  lemma {:induction false} DrainSame(q: Queues, on: bool)
    requires Q.QInv(q, on)
    ensures SameRequests(q, Q.Drain(q))
  {
    Q.DrainKeeps(q, on);
  }

  lemma {:induction false} StopHeld(s: State, n: NodeId)
    requires Core(s) && n in s.st.started
    requires B.BufInv(s.b) && Held(s.cfg, s.q, s.b, s.st.started)
    ensures var s' := Stop(s, n);
            B.BufInv(s'.b) && Held(s'.cfg, s'.q, s'.b, s'.st.started)
  {
    var q1 := if s.st.streamCount == s.st.enabledCount && s.st.streaming then Q.Drain(s.q) else s.q;
    DrainSame(s.q, s.st.pipelineOn);
    HeldFrame(s.cfg, s.q, q1, s.b, s.st.started);
    hide B.BufInv, Held, Core, SameRequests, Q.Drain, B.ReturnAll;
    var started := s.st.started - {n};
    StopNodeHeld(s.cfg, q1, s.b, s.st.started, n);
    ReturnAllHeld(s.cfg, q1, s.b, started, n, ERROR);
    var b' := B.ReturnAll(s.b, n, ERROR);
    NothingLive(s.cfg, Q.Cleanup(q1), b', started);
  }

  // ---- start -------------------------------------------------------------

  /** Before n starts, its bound buffers are handed over and no request of the driver is
      left for it, so n may be counted as started already. */
  lemma {:induction false} StartNodeHeld(s: State, n: NodeId)
    requires Held(s.cfg, s.q, s.b, s.st.started) && HandedOver(s, n)
    requires n !in s.st.started && (Allocates(s, n) ==> NoLeftover(s.q))
    ensures Held(s.cfg, s.q, s.b, s.st.started + {n})
    ensures n == MainOut ==> forall r :: Live(s.q, r) ==> !Q.At(s.q, r).synthetic
  {
    forall r | Live(s.q, r)
      ensures ReqHeld(s.cfg, s.b, s.st.started + {n}, r, Q.At(s.q, r))
      ensures n == MainOut ==> !Q.At(s.q, r).synthetic
    {
      assert ReqHeld(s.cfg, s.b, s.st.started, r, Q.At(s.q, r));
    }
  }

  /** Registering the main stream's buffers makes one held request for each. */
  lemma {:induction false} EnqueueMainEachHeld(s: State, xs: seq<Buf>, allocs: seq<Alloc>, started: set<NodeId>)
    requires |allocs| == |xs| && FreshAllocs(s.q.heap.Keys, allocs)
    requires forall i :: 0 <= i < |allocs| ==> allocs[i].Ptr?
    requires !s.st.streaming && Q.MemOk(s.q) && Held(s.cfg, s.q, s.b, started)
    requires MainOut in started && MainOut !in s.cfg.viaRequests && Distinct(xs)
    requires forall x :: x in xs ==> x.node == MainOut && B.Owned(s.b, x)
    requires forall r, x :: Live(s.q, r) && Q.At(s.q, r).synthetic && x in xs ==> x !in Q.At(s.q, r).bufs
    ensures var s' := EnqueueEach(s, xs, allocs);
            && Held(s'.cfg, s'.q, s'.b, started)
            && s'.b == s.b && s'.fr == s.fr
    decreases |xs|
  {
    if xs != [] {
      var x, id := xs[0], allocs[0].id;
      assert xs == [x] + xs[1..];
      var q1 := Q.Submit(s.q, id, SyntheticRequest(x));
      SyntheticHeld(s.cfg, s.q, s.b, started, id, x);
      SubmitMem(s.q, id, SyntheticRequest(x));
      forall r, y | Live(q1, r) && Q.At(q1, r).synthetic && y in xs[1..] ensures y !in Q.At(q1, r).bufs {
        if r != id {
          assert Live(s.q, r) && Q.At(q1, r) == Q.At(s.q, r) && y in xs;
        } else {
          var j :| 0 <= j < |xs[1..]| && xs[1..][j] == y;
          assert xs[j + 1] == y && y != x;
        }
      }
      EnqueueMainEachHeld(s.(q := q1), xs[1..], allocs[1..], started);
    }
  }

  lemma {:induction false} EnqueueMetaEachHeld(s: State, xs: seq<Buf>, allocs: seq<Alloc>, started: set<NodeId>)
    requires |allocs| == |xs| && forall x :: x in xs ==> x.node != MainOut
    requires Held(s.cfg, s.q, s.b, started) && B.BufInv(s.b)
    ensures var s' := EnqueueEach(s, xs, allocs);
            && Held(s'.cfg, s'.q, s'.b, started) && B.BufInv(s'.b)
            && s'.b == s.b.(seqNo := s'.b.seqNo) && s'.q == s.q
    decreases |xs|
  {
    if xs != [] {
      var s1 := MetaEnqueue(s, xs[0]);
      assert s1.b == s.b.(seqNo := s1.b.seqNo);
      HeldMono(s.cfg, s.q, s.b, s1.b, started);
      EnqueueMetaEachHeld(s1, xs[1..], allocs[1..], started);
    }
  }

  lemma {:induction false} RegisterHeld(s: State, n: NodeId, allocs: seq<Alloc>)
    requires !s.st.streaming && Q.MemOk(s.q) && B.BufInv(s.b)
    requires Held(s.cfg, s.q, s.b, s.st.started + {n})
    requires n == MainOut ==> forall r :: Live(s.q, r) ==> !Q.At(s.q, r).synthetic
    requires n !in s.cfg.viaRequests ==> |allocs| == |s.b.lists[n]|
    requires Allocates(s, n) ==> forall i :: 0 <= i < |allocs| ==> allocs[i].Ptr?
    requires FreshAllocs(s.q.heap.Keys, allocs)
    ensures var s' := Register(s, n, allocs);
            Held(s'.cfg, s'.q, s'.b, s'.st.started + {n}) && B.BufInv(s'.b)
    ensures var s' := Register(s, n, allocs);
            s'.st == s.st && s'.cfg == s.cfg && s'.b == s.b.(seqNo := s'.b.seqNo)
  {
    if n !in s.cfg.viaRequests {
      EachFrame(s, s.b.lists[n], allocs);
      if n == MainOut {
        EnqueueMainEachHeld(s, s.b.lists[n], allocs, s.st.started + {n});
      } else {
        EnqueueMetaEachHeld(s, s.b.lists[n], allocs, s.st.started + {n});
      }
    }
  }

  lemma {:induction false} EachFrame(s: State, xs: seq<Buf>, allocs: seq<Alloc>)
    requires |allocs| == |xs| && !s.st.streaming
    ensures var s' := EnqueueEach(s, xs, allocs); s'.st == s.st && s'.cfg == s.cfg
    decreases |xs|
  {
    if xs != [] { EachFrame(EnqueueNoRequest(s, xs[0], allocs[0]), xs[1..], allocs[1..]); }
  }

  lemma {:induction false} FinishStartHeld(s: State, n: NodeId, o: CioOutcome)
    requires Starting(s.cfg, s.st, n) && Q.MemOk(s.q) && B.BufInv(s.b)
    requires Held(s.cfg, s.q, s.b, s.st.started + {n})
    ensures var s' := FinishStart(s, n, o);
            B.BufInv(s'.b) && Held(s'.cfg, s'.q, s'.b, s'.st.started)
  {
    hide B.BufInv, Held, Q.MemOk, StreamOk;
    if s.st.streamCount + 1 >= s.st.enabledCount {
      hide Q.Dispatch;
      var s1 := CountUp(s);
      if o == CioOk {
        TryQueueHeld(s1.(st := s1.st.(seninfOn := true, sensorOn := true, streaming := true,
                                      started := s1.st.started + {n})));
      } else {
        FailedFinishHeld(s, n, o);
      }
    }
  }

  lemma {:induction false} StartingOff(c: Config, st: Stream, n: NodeId)
    requires Starting(c, st, n)
    ensures !st.seninfOn && !st.sensorOn && !st.streaming && n !in st.started
  {
  }

  /** When stream-on fails the node is not started and its buffers are given back. */
  lemma {:induction false} FailedFinishHeld(s: State, n: NodeId, o: CioOutcome)
    requires Starting(s.cfg, s.st, n) && B.BufInv(s.b) && Held(s.cfg, s.q, s.b, s.st.started + {n})
    requires s.st.streamCount + 1 >= s.st.enabledCount && o != CioOk
    ensures var s' := FinishStart(s, n, o);
            && B.BufInv(s'.b) && Held(s'.cfg, s'.q, s'.b, s'.st.started)
            && s'.b == B.ReturnAll(s.b, n, QUEUED) && s'.q == s.q
  {
    hide B.BufInv, Held, StreamOk, Starting, B.ReturnAll;
    StartingOff(s.cfg, s.st, n);
    FailedStreamOn(CountUp(s), o);
    hide CioStreamOn;
    StopNodeHeld(s.cfg, s.q, s.b, s.st.started + {n}, n);
    assert s.st.started + {n} - {n} == s.st.started;
    ReturnAllHeld(s.cfg, s.q, s.b, s.st.started, n, QUEUED);
  }

  /** start_streaming from the point where the hardware is ready. */
  lemma {:induction false} StartTailHeld(s: State, n: NodeId, env: StartEnv)
    requires Starting(s.cfg, s.st, n) && Q.QInv(s.q, true) && B.BufInv(s.b)
    requires Held(s.cfg, s.q, s.b, s.st.started) && HandedOver(s, n)
    requires n !in s.cfg.viaRequests ==> |env.allocs| == |s.b.lists[n]|
    requires Allocates(s, n) ==> AllAllocated(env.allocs) && NoLeftover(s.q)
    requires FreshAllocs(s.q.heap.Keys, env.allocs)
    ensures var s' := StartTail(s, n, env);
            B.BufInv(s'.b) && Held(s'.cfg, s'.q, s'.b, s'.st.started)
  {
    StartNodeHeld(s, n);
    if n !in s.cfg.viaRequests {
      EnqueueEachQueues(s, s.b.lists[n], env.allocs, true);
    }
    var s1 := Register(s, n, env.allocs);
    assert Q.MemOk(s1.q);
    RegisterHeld(s, n, env.allocs);
    hide Held, B.BufInv, Starting, Q.MemOk, Q.QInv;
    FinishStartHeld(s1, n, env.cio);
  }

  /** The hardware could not be initialised: the buffers go back as QUEUED. */
  lemma {:induction false} FailedInitHeld(s: State, n: NodeId)
    requires Core(s) && !s.st.pipelineOn && n !in s.st.started
    requires B.BufInv(s.b) && Held(s.cfg, s.q, s.b, s.st.started)
    ensures var s' := GiveBack(PipelineStop(InitStream(s.(st := s.st.(pipelineOn := true)))), n);
            B.BufInv(s'.b) && Held(s'.cfg, s'.q, s'.b, s'.st.started)
  {
    var q1 := s.q.(jobCount := 0);
    HeldFrame(s.cfg, s.q, q1, s.b, s.st.started);
    hide Held, B.BufInv, Q.QInv, B.ReturnAll, StreamOk;
    ReturnAllHeld(s.cfg, q1, s.b, s.st.started, n, QUEUED);
  }

  /** Initialising the hardware touches no list and no request. */
  lemma {:induction false} SameHeld(s: State, s': State, n: NodeId)
    requires Held(s.cfg, s.q, s.b, s.st.started) && HandedOver(s, n)
    requires s'.cfg == s.cfg && s'.b == s.b && s'.st.started == s.st.started
    requires s'.q.heap == s.q.heap && s'.q.pending == s.q.pending && s'.q.running == s.q.running
    ensures Held(s'.cfg, s'.q, s'.b, s'.st.started) && HandedOver(s', n) && (NoLeftover(s.q) ==> NoLeftover(s'.q))
  {
    SameByLists(s.q, s'.q);
    HeldFrame(s.cfg, s.q, s'.q, s.b, s.st.started);
    hide Held;
    forall r, x | Live(s'.q, r) && x in Q.At(s'.q, r).bufs
      ensures x.node == n && x in s'.b.bound && s'.b.bound[x] == r ==> B.Owned(s'.b, x)
    {
      assert Live(s.q, r);
    }
    if NoLeftover(s.q) {
      forall r | Live(s'.q, r) ensures !Q.At(s'.q, r).synthetic { assert Live(s.q, r); }
    }
  }

  lemma {:induction false} SameByLists(q: Queues, q': Queues)
    requires q'.heap == q.heap && q'.pending == q.pending && q'.running == q.running
    ensures SameRequests(q, q')
  {
  }

  /** The first node of a session. */
  lemma {:induction false} FirstStartHeld(s: State, n: NodeId, env: StartEnv)
    requires Core(s) && HandedOver(s, n) && FreshAllocs(s.q.heap.Keys, env.allocs)
    requires n in s.cfg.enabled && n !in s.st.started && !s.st.pipelineOn
    requires n !in s.cfg.viaRequests ==> |env.allocs| == |s.b.lists[n]|
    requires Allocates(s, n) ==> AllAllocated(env.allocs) && NoLeftover(s.q)
    requires B.BufInv(s.b) && Held(s.cfg, s.q, s.b, s.st.started)
    ensures var s' := StartTail(HwInit(InitStream(s.(st := s.st.(pipelineOn := true)))), n, env);
            B.BufInv(s'.b) && Held(s'.cfg, s'.q, s'.b, s'.st.started)
  {
    hide Core, Held, B.BufInv, Q.QInv, HandedOver, StartTail, Starting, StreamOk, HwInit, InitStream, NoLeftover,
      FreshAllocs, AllAllocated;
    FirstReady(s, n);
    SameHeld(s, HwInit(InitStream(s.(st := s.st.(pipelineOn := true)))), n);
    StartTailHeld(HwInit(InitStream(s.(st := s.st.(pipelineOn := true)))), n, env);
  }

  lemma {:induction false} StartHeld(s: State, n: NodeId, env: StartEnv)
    requires Core(s) && Legal(s, EvStart(n, env)) && CleanStart(s, n, env)
    requires B.BufInv(s.b) && Held(s.cfg, s.q, s.b, s.st.started)
    ensures var s' := Start(s, n, env);
            B.BufInv(s'.b) && Held(s'.cfg, s'.q, s'.b, s'.st.started)
  {
    if n in s.cfg.enabled && s.st.pipelineOn { LaterStart(s, n); }
    hide Held, B.BufInv, Q.QInv, HandedOver, B.ReturnAll, StartTail, Starting, StreamOk;
    ReturnAllHeld(s.cfg, s.q, s.b, s.st.started, n, QUEUED);
    if n in s.cfg.enabled {
      if s.st.pipelineOn {
        StartTailHeld(s, n, env);
      } else if env.pipelineOk {
        if env.hwOk { FirstStartHeld(s, n, env); } else { FailedInitHeld(s, n); }
      }
    }
  }
}
