/** Nodes that are started again while other nodes keep going. */
module CamRestarts {
  import opened CamTypes
  import opened CamPipeline
  import opened CamCore
  import opened CamRequests
  import opened CamTheorems
  import opened CamRetries
  import B = CamBuffers
  import Q = CamQueues

  // ---- starting a node again ---------------------------------------------

  /** Stopping any node of a streaming driver and starting it again while another one keeps
      going ends up streaming on a workqueue that was destroyed. */
  lemma {:induction false} RestartUsesDeadWorkqueue(s: State, n: NodeId, env: StartEnv)
    requires Core(s) && s.st.streaming && n in s.cfg.enabled && |s.cfg.enabled| > 1
    requires env.cio == CioOk && (n !in s.cfg.viaRequests ==> env.allocs == [])
    ensures Stop(s, n).b.lists[n] == [] && DeadRestart(Stop(s, n), n, env)
    ensures var st := Start(Stop(s, n), n, env).st; st.streaming && !st.wqAlive
  {
    StopCore(s, n);
    FullCount(s.st.started, s.cfg.enabled);
    StopAll(s, n);
    hide Stop, Start, Core;
    RestartExact(Stop(s, n), n, env);
  }

  lemma {:induction false} StopAll(s: State, n: NodeId)
    requires Core(s) && s.st.streaming && n in s.st.started && |s.cfg.enabled| > 1
    ensures var s' := Stop(s, n);
            && s'.cfg == s.cfg && s'.st.pipelineOn && s'.st.dmas == {} && s'.b.lists[n] == [] && n !in s'.st.started
            && s'.st.streamCount + 1 >= s'.st.enabledCount
            && s'.q.jobCount == s.q.jobCount && s'.q.pending == s.q.pending && s'.q.running == s.q.running && s'.q.wq == []
            && s'.q.heap == s.q.heap
  {
    FullCount(s.st.started, s.cfg.enabled);
    Q.DrainKeeps(s.q, true);
    hide Q.Drain, Q.QInv;
  }

  lemma {:induction false} DispatchWork(q: Queues)
    ensures |q.wq| <= |Q.Dispatch(q).wq|
    ensures q.wq == [] ==> (Q.Dispatch(q).wq != [] <==> q.pending != [] && q.jobCount < MAX_RUNNING_JOBS)
    decreases |q.pending|
  {
    if q.pending != [] && q.jobCount < MAX_RUNNING_JOBS { DispatchWork(Q.DispatchOne(q)); }
  }

  /** The last node of the main stream, with one buffer to register. */
  lemma {:induction false} LastStart(s: State, x: Buf, env: StartEnv)
    requires s.st.pipelineOn && !s.st.streaming && s.st.streamCount + 1 >= s.st.enabledCount
    requires MainOut in s.cfg.enabled && MainOut !in s.cfg.viaRequests && s.b.lists[MainOut] == [x] && x.node == MainOut
    requires env.cio == CioOk && |env.allocs| == 1 && env.allocs[0].Ptr?
    ensures var s' := Start(s, MainOut, env);
            && s'.st.streaming && s'.st.wqAlive == s.st.wqAlive
            && s'.q == Q.Dispatch(Q.Submit(s.q, env.allocs[0].id, SyntheticRequest(x)))
  {
    assert [x][1..] == [] && env.allocs[1..] == [];
    assert EnqueueEach(s, [x], env.allocs) == EnqueueNoRequest(s, x, env.allocs[0]);
    hide EnqueueEach, Q.Dispatch;
  }

  /** With the main stream used without requests, a buffer queued in between is put on that
      workqueue at once exactly when fewer than three jobs run. */
  lemma {:induction false} RestartQueuesWork(s: State, x: Buf, env: StartEnv)
    requires Core(s) && s.st.streaming && |s.cfg.enabled| > 1 && MainOut !in s.cfg.viaRequests && x.node == MainOut
    requires env.cio == CioOk && |env.allocs| == 1 && env.allocs[0].Ptr?
    ensures BufQueue(Stop(s, MainOut), x, Null).b.lists[MainOut] == [x]
    ensures var s' := Start(BufQueue(Stop(s, MainOut), x, Null), MainOut, env);
            && s'.st.streaming && !s'.st.wqAlive
            && (s'.q.wq != [] <==> |s.q.running| < MAX_RUNNING_JOBS)
  {
    assert MainOut in s.st.started && s.q.jobCount == |s.q.running| && s.st.streaming;
    StopAll(s, MainOut);
    var s1 := Stop(s, MainOut);
    hide Stop, Start, Core, EnqueueNoRequest;
    var s2 := BufQueue(s1, x, Null);
    assert s2 == s1.(b := B.Give(s1.b, x));
    LastStart(s2, x, env);
    DispatchWork(Q.Submit(s1.q, env.allocs[0].id, SyntheticRequest(x)));
    hide Q.Dispatch;
  }

  // ---- one node ----------------------------------------------------------

  /** With one enabled node, as in the default topology, no node is ever stopped while the
      pipeline is up, so the stream never comes on with a destroyed workqueue. */
  lemma {:induction false} AloneNeverRestarts(c: Config, run: seq<Event>, n: NodeId, env: StartEnv)
    requires CfgOk(c) && |c.enabled| == 1 && RunOk(Initial(c), run)
    ensures var s := Exec(Initial(c), run); s.st.stopped == {} && !DeadRestart(s, n, env)
  {
    InitialCore(c);
    RunAlone(Initial(c), run);
    RunCore(Initial(c), run);
    hide Exec, RunOk, Q.QInv;
  }

  lemma {:induction false} RunAlone(s: State, run: seq<Event>)
    requires Core(s) && |s.cfg.enabled| == 1 && s.st.stopped == {} && RunOk(s, run)
    ensures Exec(s, run).st.stopped == {}
    decreases |run|
  {
    if run != [] {
      StepCore(s, run[0]);
      StepConfig(s, run[0]);
      StepAlone(s, run[0]);
      hide Core, Legal, Step;
      RunAlone(Step(s, run[0]), run[1..]);
    }
  }

  lemma {:induction false} StepAlone(s: State, e: Event)
    requires Core(s) && |s.cfg.enabled| == 1 && s.st.stopped == {} && Legal(s, e)
    ensures Step(s, e).st.stopped == {}
  {
    hide Core, Q.Dispatch, Start, Stop, HandleIrq, HandedOver, FreshAllocs, GiveStarted;
    match e
    case EvStart(n, env) => StartStopped(s, n, env);
    case EvStop(n) => StopAlone(s, n);
    case EvCancel(n) =>
    case EvIrq(i) => IrqStream(s, i);
    case _ =>
  }

  lemma {:induction false} OneStarted(s: State, n: NodeId)
    requires Core(s) && |s.cfg.enabled| == 1 && n in s.st.started
    ensures s.st.streamCount == 1
  {
    hide Q.QInv;
    FullCount({n}, s.cfg.enabled);
    FullCount({n}, s.st.started);
    FullCount(s.st.started, s.cfg.enabled);
  }

  lemma {:induction false} StopAlone(s: State, n: NodeId)
    requires Core(s) && |s.cfg.enabled| == 1 && n in s.st.started
    ensures Stop(s, n).st.stopped == {}
  {
    hide Core, Stop, StoppedQueues, B.ReturnAll, Q.QInv;
    StopReady(s, n);
    OneStarted(s, n);
    StopIs(s, n);
  }

  lemma {:induction false} FinishStopped(s: State, n: NodeId, o: CioOutcome)
    requires s.st.stopped == {} && !s.st.streaming && !s.st.seninfOn && !s.st.sensorOn
    ensures FinishStart(s, n, o).st.stopped == {}
  {
    hide FinishStart;
    FinishIs(s, n, o);
  }

  lemma {:induction false} StartStopped(s: State, n: NodeId, env: StartEnv)
    requires Core(s) && n !in s.st.started && s.st.stopped == {} && (n !in s.cfg.viaRequests ==> |env.allocs| == |s.b.lists[n]|)
    ensures Start(s, n, env).st.stopped == {}
  {
    hide Core, FinishStart, Register, B.ReturnAll, Base;
    if Registers(s, n, env) {
      BaseOff(s, n);
      SameBase(s);
      RegisterSame(Base(s), n, env.allocs);
      StartIsTail(s, n, env);
      hide Start;
      FinishStopped(Register(Base(s), n, env.allocs), n, env.cio);
    }
  }
}
