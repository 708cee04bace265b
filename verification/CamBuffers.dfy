/** The node buffer lists and the buffer histories: list_add_tail in buf_queue,
    list_del plus vb2_buffer_done on the four ways back to vb2. */
module CamBuffers {
  import opened CamTypes

  /** How often x has been returned. */
  function DoneCount(log: seq<Completion>, x: Buf): nat {
    if log == [] then 0
    else DoneCount(log[..|log| - 1], x) + if log[|log| - 1].buf == x then 1 else 0
  }

  lemma {:induction false} DoneCountSnoc(log: seq<Completion>, c: Completion, x: Buf)
    ensures DoneCount(log + [c], x) == DoneCount(log, x) + if c.buf == x then 1 else 0
  {
    assert (log + [c])[..|log|] == log;
  }

  /** Returning the elements of a list without repetitions counts each of them once. */
  lemma {:induction false} DoneCountAppend(log: seq<Completion>, cs: seq<Completion>, l: seq<Buf>, x: Buf)
    requires Distinct(l) && |cs| == |l| && forall i :: 0 <= i < |l| ==> cs[i].buf == l[i]
    ensures DoneCount(log + cs, x) == DoneCount(log, x) + if x in l then 1 else 0
  {
    hide DoneCount;
    if l == [] {
      assert log + cs == log;
    } else {
      var k := |l| - 1;
      DoneCountAppend(log, cs[..k], l[..k], x);
      DoneCountSnoc(log + cs[..k], cs[k], x);
      assert log + cs == (log + cs[..k]) + [cs[k]];
      LastMember(l, x);
    }
  }

  lemma {:induction false} LastMember(l: seq<Buf>, x: Buf)
    requires Distinct(l) && l != []
    ensures var k := |l| - 1; (x in l <==> x in l[..k] || x == l[k]) && !(x in l[..k] && x == l[k])
  {
    assert l == l[..|l| - 1] + [l[|l| - 1]];
  }

  predicate Owned(b: Buffers, x: Buf) {
    x in b.lists[x.node]
  }

  ghost predicate ListsOk(b: Buffers) {
    forall n: NodeId :: Distinct(b.lists[n]) && forall x :: x in b.lists[n] ==> x.node == n
  }

  /** Every buffer handed over has come back exactly once, unless the driver still
      has it on its list, in which case it has come back once less. */
  ghost predicate Conserved(b: Buffers) {
    forall x: Buf :: b.given[x] == DoneCount(b.log, x) + if Owned(b, x) then 1 else 0
  }

  ghost predicate BufInv(b: Buffers) {
    ListsOk(b) && Conserved(b)
  }

  // ---- buf_queue ---------------------------------------------------------

  function Give(b: Buffers, x: Buf): Buffers {
    b.(lists := b.lists[x.node := b.lists[x.node] + [x]], given := b.given + multiset{x})
  }

  lemma {:induction false} GiveLists(b: Buffers, x: Buf)
    requires ListsOk(b) && !Owned(b, x)
    ensures ListsOk(Give(b, x))
    ensures forall y :: Owned(Give(b, x), y) <==> Owned(b, y) || y == x
  {
  }

  lemma {:induction false} GiveKeeps(b: Buffers, x: Buf)
    requires BufInv(b) && !Owned(b, x)
    ensures BufInv(Give(b, x))
    ensures forall y :: Owned(Give(b, x), y) <==> Owned(b, y) || y == x
  {
    GiveLists(b, x);
  }

  // ---- vb2_buffer_done and list_del --------------------------------------

  function ListDel(b: Buffers, x: Buf): Buffers {
    b.(lists := b.lists[x.node := Remove(b.lists[x.node], x)])
  }

  /** vb2 unbinds a finished buffer from its request; a buffer given back as
      QUEUED stays bound. */
  function Vb2Done(b: Buffers, x: Buf, state: Vb2State, stamp: Stamp): Buffers {
    b.(log := b.log + [Completion(x, state, stamp)],
       bound := if state == QUEUED then b.bound else b.bound - {x})
  }

  function Complete(b: Buffers, x: Buf, state: Vb2State, stamp: Stamp): Buffers {
    Vb2Done(ListDel(b, x), x, state, stamp)
  }

  lemma {:induction false} ListDelLists(b: Buffers, x: Buf)
    requires ListsOk(b)
    ensures ListsOk(ListDel(b, x))
    ensures forall y :: Owned(ListDel(b, x), y) <==> Owned(b, y) && y != x
  {
    RemoveMembers(b.lists[x.node], x);
  }

  lemma {:induction false} CompleteKeeps(b: Buffers, x: Buf, state: Vb2State, stamp: Stamp)
    requires BufInv(b) && Owned(b, x)
    ensures BufInv(Complete(b, x, state, stamp))
    ensures forall y :: Owned(Complete(b, x, state, stamp), y) <==> Owned(b, y) && y != x
  {
    ListDelLists(b, x);
    var b1, b' := ListDel(b, x), Complete(b, x, state, stamp);
    assert b'.lists == b1.lists;
    forall y ensures b'.given[y] == DoneCount(b'.log, y) + if Owned(b', y) then 1 else 0 {
      DoneCountSnoc(b.log, Completion(x, state, stamp), y);
      assert Owned(b', y) == Owned(b1, y);
    }
  }

  /** Returning a buffer without taking it off its list: what happens on the
      allocation-failure path. */
  lemma {:induction false} DoneWithoutDelBreaks(b: Buffers, x: Buf, state: Vb2State, stamp: Stamp)
    requires BufInv(b) && Owned(b, x)
    ensures !Conserved(Vb2Done(b, x, state, stamp))
  {
    var b' := Vb2Done(b, x, state, stamp);
    DoneCountSnoc(b.log, Completion(x, state, stamp), x);
    assert b'.given[x] != DoneCount(b'.log, x) + if Owned(b', x) then 1 else 0;
  }

  // ---- job_done ----------------------------------------------------------

  /** job_done stamps output buffers with the current time and capture buffers with
      the time of the request's own start of frame. */
  function StampOf(req: Request, x: Buf, eof: nat): Stamp {
    Stamp(req.frameSeq, if !req.synthetic && x.node == MetaIn0 then eof else req.timestamp)
  }

  /** The objects job_done walks: sbuf, or the buffers still bound to the request. */
  predicate Holds(b: Buffers, r: ReqId, req: Request, x: Buf) {
    x in req.bufs && (req.synthetic || (x in b.bound && b.bound[x] == r))
  }

  function CompleteAll(b: Buffers, r: ReqId, req: Request, todo: seq<Buf>, state: Vb2State, eof: nat): Buffers
    decreases |todo|
  {
    if todo == [] then b
    else
      var x := todo[0];
      var b1 := if req.synthetic || (x in b.bound && b.bound[x] == r)
        then Complete(b, x, state, StampOf(req, x, eof)) else b;
      CompleteAll(b1, r, req, todo[1..], state, eof)
  }

  function JobDone(b: Buffers, streaming: bool, r: ReqId, req: Request, state: Vb2State, eof: nat): Buffers {
    if !streaming then b else CompleteAll(b, r, req, req.bufs, state, eof)
  }

  /** The buffers of todo that job_done will return. */
  function Hits(b: Buffers, r: ReqId, req: Request, todo: seq<Buf>): set<Buf> {
    set x | x in todo && (req.synthetic || (x in b.bound && b.bound[x] == r))
  }

  lemma {:induction false} HitsStep(b: Buffers, b1: Buffers, r: ReqId, req: Request, todo: seq<Buf>)
    requires todo != []
    requires b1.bound == if todo[0] in Hits(b, r, req, todo) then b.bound - {todo[0]} else b.bound
    requires req.synthetic ==> |todo| <= 1
    ensures todo[0] in Hits(b, r, req, todo) ==>
              Hits(b, r, req, todo) == {todo[0]} + Hits(b1, r, req, todo[1..])
    ensures todo[0] !in Hits(b, r, req, todo) ==>
              Hits(b, r, req, todo) == Hits(b1, r, req, todo[1..])
  {
    assert todo == [todo[0]] + todo[1..];
  }

  /** The walk of job_done may be stopped after any buffer and resumed: what it still
      has to return stays on the lists. */
  lemma {:induction false} CompleteAllStep(b: Buffers, r: ReqId, req: Request, todo: seq<Buf>, state: Vb2State, eof: nat)
    requires BufInv(b) && todo != [] && (req.synthetic ==> |todo| <= 1) && state != QUEUED
    requires forall x :: x in Hits(b, r, req, todo) ==> Owned(b, x)
    ensures var x := todo[0];
            var hit := req.synthetic || (x in b.bound && b.bound[x] == r);
            var b1 := if hit then Complete(b, x, state, StampOf(req, x, eof)) else b;
            && (hit ==> x in b.lists[x.node])
            && BufInv(b1)
            && (forall y :: y in Hits(b1, r, req, todo[1..]) ==> Owned(b1, y))
            && CompleteAll(b, r, req, todo, state, eof) == CompleteAll(b1, r, req, todo[1..], state, eof)
  {
    var x := todo[0];
    if x in Hits(b, r, req, todo) {
      assert Owned(b, x);
      var b1 := Complete(b, x, state, StampOf(req, x, eof));
      CompleteKeeps(b, x, state, StampOf(req, x, eof));
      HitsStep(b, b1, r, req, todo);
      hide BufInv, Complete;
    } else {
      HitsStep(b, b, r, req, todo);
    }
  }

  lemma {:induction false} CompleteAllKeeps(b: Buffers, r: ReqId, req: Request, todo: seq<Buf>,
                                            state: Vb2State, eof: nat)
    requires BufInv(b) && state != QUEUED
    requires req.synthetic ==> |todo| <= 1
    requires forall x :: x in Hits(b, r, req, todo) ==> Owned(b, x)
    ensures var b' := CompleteAll(b, r, req, todo, state, eof);
            && BufInv(b')
            && forall y :: Owned(b', y) <==> Owned(b, y) && y !in Hits(b, r, req, todo)
    decreases |todo|
  {
    if todo != [] {
      var x := todo[0];
      if x in Hits(b, r, req, todo) {
        var b1 := Complete(b, x, state, StampOf(req, x, eof));
        HitsStep(b, b1, r, req, todo);
        CompleteKeeps(b, x, state, StampOf(req, x, eof));
        assert x !in Hits(b1, r, req, todo[1..]);
        CompleteAllKeeps(b1, r, req, todo[1..], state, eof);
      } else {
        HitsStep(b, b, r, req, todo);
        CompleteAllKeeps(b, r, req, todo[1..], state, eof);
      }
    }
  }

  /** Only the lists of the returned buffers' own nodes change. */
  lemma {:induction false} CompleteAllFrame(b: Buffers, r: ReqId, req: Request, todo: seq<Buf>,
                                            state: Vb2State, eof: nat)
    requires state != QUEUED
    requires req.synthetic ==> |todo| <= 1
    ensures var b' := CompleteAll(b, r, req, todo, state, eof);
            && b'.bound == b.bound - Hits(b, r, req, todo)
            && b'.given == b.given && b'.seqNo == b.seqNo
            && forall n :: (forall x :: x in Hits(b, r, req, todo) ==> x.node != n) ==> b'.lists[n] == b.lists[n]
    decreases |todo|
  {
    if todo != [] {
      var x := todo[0];
      if x in Hits(b, r, req, todo) {
        var b1 := Complete(b, x, state, StampOf(req, x, eof));
        HitsStep(b, b1, r, req, todo);
        CompleteAllFrame(b1, r, req, todo[1..], state, eof);
      } else {
        HitsStep(b, b, r, req, todo);
        CompleteAllFrame(b, r, req, todo[1..], state, eof);
      }
    }
  }

  // ---- vb2's cancel of a queue -------------------------------------------

  /** Every buffer of the node leaves the request it is bound to. */
  function Cancel(b: Buffers, n: NodeId): Buffers {
    b.(bound := map x | x in b.bound && x.node != n :: b.bound[x])
  }

  // ---- return_all_buffers ------------------------------------------------

  function Returned(l: seq<Buf>, state: Vb2State): (r: seq<Completion>)
    ensures |r| == |l|
    ensures forall i :: 0 <= i < |l| ==> r[i] == Completion(l[i], state, Unstamped)
  {
    seq(|l|, i requires 0 <= i < |l| => Completion(l[i], state, Unstamped))
  }

  /** The whole list of a node comes back, in order, and nothing else moves. */
  function ReturnAll(b: Buffers, n: NodeId, state: Vb2State): Buffers {
    b.(lists := b.lists[n := []],
       log := b.log + Returned(b.lists[n], state),
       bound := if state == QUEUED then b.bound else b.bound - (set x | x in b.lists[n]))
  }

  /** Take the head of a list off it and return it. */
  function ReturnHead(b: Buffers, n: NodeId, state: Vb2State, stamp: Stamp): Buffers
    requires b.lists[n] != []
  {
    Vb2Done(b.(lists := b.lists[n := b.lists[n][1..]]), b.lists[n][0], state, stamp)
  }

  lemma {:induction false} OverwriteTwice(m: Lists, n: NodeId, v: seq<Buf>, w: seq<Buf>)
    ensures m[n := v][n := w] == m[n := w]
  {
  }

  lemma {:induction false} OverwriteSame(m: Lists, n: NodeId)
    ensures m[n := m[n]] == m
  {
  }

  lemma {:induction false} UnbindHeadThenRest(bound: map<Buf, ReqId>, l: seq<Buf>)
    requires l != []
    ensures bound - {l[0]} - (set x | x in l[1..]) == bound - (set x | x in l)
  {
    assert l == [l[0]] + l[1..];
  }

  lemma {:induction false} ReturnedCons(l: seq<Buf>, state: Vb2State)
    requires l != []
    ensures Returned(l, state) == [Completion(l[0], state, Unstamped)] + Returned(l[1..], state)
  {
  }

  lemma {:induction false} AppendHeadThenRest(log: seq<Completion>, c: Completion, rest: seq<Completion>)
    ensures (log + [c]) + rest == log + ([c] + rest)
  {
  }

  lemma {:induction false} ReturnAllStep(b: Buffers, n: NodeId, state: Vb2State)
    requires b.lists[n] != []
    ensures ReturnAll(ReturnHead(b, n, state, Unstamped), n, state) == ReturnAll(b, n, state)
  {
    hide Returned;
    var l := b.lists[n];
    OverwriteTwice(b.lists, n, l[1..], []);
    UnbindHeadThenRest(b.bound, l);
    ReturnedCons(l, state);
    AppendHeadThenRest(b.log, Completion(l[0], state, Unstamped), Returned(l[1..], state));
  }

  lemma {:induction false} ReturnAllEnd(b: Buffers, n: NodeId, state: Vb2State)
    requires b.lists[n] == []
    ensures ReturnAll(b, n, state) == b
  {
    OverwriteSame(b.lists, n);
  }

  lemma {:induction false} ReturnAllKeeps(b: Buffers, n: NodeId, state: Vb2State)
    requires BufInv(b)
    ensures BufInv(ReturnAll(b, n, state))
  {
    hide DoneCount, Returned;
    var b', l := ReturnAll(b, n, state), b.lists[n];
    ReturnAllLists(b, n, state);
    forall y ensures b'.given[y] == DoneCount(b'.log, y) + if Owned(b', y) then 1 else 0 {
      DoneCountAppend(b.log, Returned(l, state), l, y);
    }
  }

  lemma {:induction false} ReturnAllLists(b: Buffers, n: NodeId, state: Vb2State)
    requires ListsOk(b)
    ensures var b' := ReturnAll(b, n, state);
            ListsOk(b') && forall y :: Owned(b', y) <==> Owned(b, y) && y !in b.lists[n]
  {
    hide Returned;
  }

  /** What returning a node's list does, part by part. */
  lemma {:induction false} ReturnAllWhole(b: Buffers, n: NodeId, state: Vb2State)
    ensures var b' := ReturnAll(b, n, state);
            && b'.lists[n] == [] && b'.log == b.log + Returned(b.lists[n], state)
            && b'.given == b.given && forall m: NodeId :: m != n ==> b'.lists[m] == b.lists[m]
  {
  }

  // ---- the meta ring -----------------------------------------------------

  /** seq_no of a buffer; zero until the first mtk_isp_enqueue. */
  function SeqNo(b: Buffers, x: Buf): nat {
    if x in b.seqNo then b.seqNo[x] else 0
  }

  /** Length of the longest prefix whose sequence numbers do not exceed limit. */
  function PrefixLen(b: Buffers, l: seq<Buf>, limit: nat): (k: nat)
    ensures k <= |l|
    ensures forall i :: 0 <= i < k ==> SeqNo(b, l[i]) <= limit
    ensures k < |l| ==> SeqNo(b, l[k]) > limit
  {
    if l == [] || SeqNo(b, l[0]) > limit then 0
    else
      var k1 := PrefixLen(b, l[1..], limit);
      assert forall i :: 0 < i < k1 + 1 ==> l[i] == l[1..][i - 1];
      k1 + 1
  }

  function Dequeued(l: seq<Buf>, frame: nat, now: nat): (r: seq<Completion>)
    ensures |r| == |l|
    ensures forall i :: 0 <= i < |l| ==> r[i] == Completion(l[i], DONE, Stamp(frame + i, now))
  {
    seq(|l|, i requires 0 <= i < |l| => Completion(l[i], DONE, Stamp(frame + i, now)))
  }

  /** Exactly the prefix within the limit leaves the ring, in order, stamped with
      consecutive frame numbers. */
  function RingTake(b: Buffers, n: NodeId, limit: nat, frame: nat, now: nat): Buffers {
    var l := b.lists[n];
    var k := PrefixLen(b, l, limit);
    b.(lists := b.lists[n := l[k..]],
       log := b.log + Dequeued(l[..k], frame, now),
       bound := b.bound - (set x | x in l[..k]))
  }

  lemma {:induction false} PrefixLenFrame(b: Buffers, b1: Buffers, l: seq<Buf>, limit: nat)
    requires b.seqNo == b1.seqNo
    ensures PrefixLen(b, l, limit) == PrefixLen(b1, l, limit)
  {
  }

  lemma {:induction false} RingPieces(l: seq<Buf>, k: nat, frame: nat, now: nat)
    requires 1 <= k <= |l|
    ensures l[1..][k - 1..] == l[k..]
    ensures l[..k][1..] == l[1..][..k - 1] && l[..k][0] == l[0]
    ensures Dequeued(l[..k], frame, now)
            == [Completion(l[0], DONE, Stamp(frame, now))] + Dequeued(l[1..][..k - 1], frame + 1, now)
  {
  }

  lemma {:induction false} RingTakeStep(b: Buffers, n: NodeId, limit: nat, frame: nat, now: nat)
    requires b.lists[n] != [] && SeqNo(b, b.lists[n][0]) <= limit
    ensures RingTake(ReturnHead(b, n, DONE, Stamp(frame, now)), n, limit, frame + 1, now)
            == RingTake(b, n, limit, frame, now)
  {
    var l := b.lists[n];
    var k := PrefixLen(b, l, limit);
    var b1 := ReturnHead(b, n, DONE, Stamp(frame, now));
    PrefixLenFrame(b, b1, l[1..], limit);
    assert PrefixLen(b1, b1.lists[n], limit) == k - 1;
    hide PrefixLen, Dequeued;
    RingPieces(l, k, frame, now);
    OverwriteTwice(b.lists, n, l[1..], l[k..]);
    UnbindHeadThenRest(b.bound, l[..k]);
    AppendHeadThenRest(b.log, Completion(l[0], DONE, Stamp(frame, now)), Dequeued(l[1..][..k - 1], frame + 1, now));
  }

  lemma {:induction false} RingTakeEnd(b: Buffers, n: NodeId, limit: nat, frame: nat, now: nat)
    requires b.lists[n] == [] || SeqNo(b, b.lists[n][0]) > limit
    ensures RingTake(b, n, limit, frame, now) == b
  {
    OverwriteSame(b.lists, n);
    assert b.lists[n][0..] == b.lists[n] && b.lists[n][..0] == [];
    assert b.log + Dequeued([], frame, now) == b.log;
  }

  lemma {:induction false} SplitDistinct(l: seq<Buf>, k: nat)
    requires Distinct(l) && k <= |l|
    ensures Distinct(l[..k]) && Distinct(l[k..])
    ensures forall y :: y in l[k..] <==> y in l && y !in l[..k]
  {
    assert l == l[..k] + l[k..];
  }

  lemma {:induction false} RingTakeLists(b: Buffers, n: NodeId, limit: nat, frame: nat, now: nat)
    requires ListsOk(b)
    ensures ListsOk(RingTake(b, n, limit, frame, now))
    ensures forall y :: Owned(RingTake(b, n, limit, frame, now), y)
                        <==> Owned(b, y) && y !in b.lists[n][..PrefixLen(b, b.lists[n], limit)]
  {
    SplitDistinct(b.lists[n], PrefixLen(b, b.lists[n], limit));
  }

  lemma {:induction false} RingTakeKeeps(b: Buffers, n: NodeId, limit: nat, frame: nat, now: nat)
    requires BufInv(b)
    ensures BufInv(RingTake(b, n, limit, frame, now))
  {
    RingTakeLists(b, n, limit, frame, now);
    var b' := RingTake(b, n, limit, frame, now);
    var l := b.lists[n];
    var k := PrefixLen(b, l, limit);
    forall y ensures b'.given[y] == DoneCount(b'.log, y) + if Owned(b', y) then 1 else 0 {
      DoneCountAppend(b.log, Dequeued(l[..k], frame, now), l[..k], y);
      assert y in l[..k] ==> y in l && Owned(b, y);
    }
  }
}
