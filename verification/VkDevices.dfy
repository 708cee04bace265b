/** The layer's list of live devices: a linked list pushed at the head, searched from the
    head and unlinked through a pointer to the link, against a map of the live devices. */
module VkDevices {
  import opened Basics

  /** A device's dispatch key and the functions the layer keeps for it. */
  datatype Entry = Entry(key: nat, dispatch: nat)

  // ---- the list as a sequence --------------------------------------------

  /** device_for: the first entry with the key. */
  function Find(s: seq<Entry>, key: nat): (i: nat)
    ensures i <= |s| && (i < |s| ==> s[i].key == key) && forall j :: 0 <= j < i ==> s[j].key != key
  {
    if s == [] then 0 else if s[0].key == key then 0
    else
      var i := Find(s[1..], key);
      assert forall j :: 0 < j < |s| ==> s[j] == s[1..][j - 1];
      i + 1
  }

  function DispatchOf(s: seq<Entry>, key: nat): Option<nat> {
    if Find(s, key) < |s| then Some(s[Find(s, key)].dispatch) else None
  }

  function Remove(s: seq<Entry>, key: nat): seq<Entry> {
    if Find(s, key) < |s| then s[..Find(s, key)] + s[Find(s, key) + 1..] else s
  }

  // ---- against a map -----------------------------------------------------

  /** A device created, by the loader's and the next layer's leave, or destroyed. */
  datatype Op = Create(ok: bool, key: nat, dispatch: nat) | Destroy(key: nat)

  function ListStep(s: seq<Entry>, op: Op): seq<Entry> {
    match op
    case Create(ok, key, dispatch) => if ok then [Entry(key, dispatch)] + s else s
    case Destroy(key) => Remove(s, key)
  }

  function MapStep(m: map<nat, nat>, op: Op): map<nat, nat> {
    match op
    case Create(ok, key, dispatch) => if ok then m[key := dispatch] else m
    case Destroy(key) => m - {key}
  }

  predicate DistinctKeys(s: seq<Entry>) {
    forall i, j :: 0 <= i < j < |s| ==> s[i].key != s[j].key
  }

  /** The list answers every lookup as the map does. */
  ghost predicate Agree(s: seq<Entry>, m: map<nat, nat>) {
    DistinctKeys(s) && forall key :: DispatchOf(s, key) == if key in m then Some(m[key]) else None
  }

  /** Two live devices never share a dispatch table. */
  predicate LoaderOk(m: map<nat, nat>, ops: seq<Op>)
    decreases |ops|
  {
    ops != [] ==> (ops[0].Create? && ops[0].ok ==> ops[0].key !in m) && LoaderOk(MapStep(m, ops[0]), ops[1..])
  }

  function ListRun(s: seq<Entry>, ops: seq<Op>): seq<Entry>
    decreases |ops|
  {
    if ops == [] then s else ListRun(ListStep(s, ops[0]), ops[1..])
  }

  function MapRun(m: map<nat, nat>, ops: seq<Op>): map<nat, nat>
    decreases |ops|
  {
    if ops == [] then m else MapRun(MapStep(m, ops[0]), ops[1..])
  }

  lemma {:induction false} FindIs(s: seq<Entry>, key: nat, i: nat)
    requires i <= |s| && (i < |s| ==> s[i].key == key) && forall j :: 0 <= j < i ==> s[j].key != key
    ensures Find(s, key) == i
  {
    var k := Find(s, key);
    assert k < |s| ==> s[k].key == key;
  }

  lemma {:induction false} FindPushed(s: seq<Entry>, e: Entry, key: nat)
    ensures DispatchOf([e] + s, key) == if e.key == key then Some(e.dispatch) else DispatchOf(s, key)
  {
    var t := [e] + s;
    if e.key == key {
      FindIs(t, key, 0);
    } else {
      FindIs(t, key, Find(s, key) + 1);
    }
  }

  lemma {:induction false} FindRemoved(s: seq<Entry>, gone: nat, key: nat)
    requires DistinctKeys(s)
    ensures DispatchOf(Remove(s, gone), key) == if key == gone then None else DispatchOf(s, key)
    ensures DistinctKeys(Remove(s, gone))
  {
    var g, i, t := Find(s, gone), Find(s, key), Remove(s, gone);
    if g < |s| {
      if key == gone {
        FindIs(t, key, |t|);
      } else if i < g {
        FindIs(t, key, i);
      } else if i > g {
        FindIs(t, key, i - 1);
      }
    }
  }

  lemma {:induction false} StepAgrees(s: seq<Entry>, m: map<nat, nat>, op: Op)
    requires Agree(s, m) && (op.Create? && op.ok ==> op.key !in m)
    ensures Agree(ListStep(s, op), MapStep(m, op))
  {
    hide DispatchOf, Remove;
    var s2, m2 := ListStep(s, op), MapStep(m, op);
    match op
    case Create(ok, key, dispatch) =>
      if ok {
        KeyUnused(s, m, key);
        forall k ensures DispatchOf(s2, k) == if k in m2 then Some(m2[k]) else None {
          FindPushed(s, Entry(key, dispatch), k);
        }
      }
    case Destroy(key) =>
      FindRemoved(s, key, key);
      forall k ensures DispatchOf(s2, k) == if k in m2 then Some(m2[k]) else None {
        FindRemoved(s, key, k);
      }
  }

  lemma {:induction false} KeyUnused(s: seq<Entry>, m: map<nat, nat>, key: nat)
    requires Agree(s, m) && key !in m
    ensures forall i :: 0 <= i < |s| ==> s[i].key != key
  {
    assert DispatchOf(s, key) == None;
  }

  /** After any sequence of creations and destructions the list is the map. */
  lemma {:induction false} RunAgrees(s: seq<Entry>, m: map<nat, nat>, ops: seq<Op>)
    requires Agree(s, m) && LoaderOk(m, ops)
    ensures Agree(ListRun(s, ops), MapRun(m, ops))
    decreases |ops|
  {
    hide Agree, ListStep, MapStep;
    if ops != [] {
      StepAgrees(s, m, ops[0]);
      RunAgrees(ListStep(s, ops[0]), MapStep(m, ops[0]), ops[1..]);
    }
  }

  // ---- the list in memory ------------------------------------------------

  /** struct device_data. */
  class Device {
    const key: nat
    const dispatch: nat
    var next: Device?

    constructor (k: nat, d: nat, n: Device?)
      ensures key == k && dispatch == d && next == n
    {
      key, dispatch, next := k, d, n;
    }
  }

  ghost function EntriesOf(ns: seq<Device>): (s: seq<Entry>)
    ensures |s| == |ns| && forall i :: 0 <= i < |ns| ==> s[i] == Entry(ns[i].key, ns[i].dispatch)
  {
    seq(|ns|, i requires 0 <= i < |ns| => Entry(ns[i].key, ns[i].dispatch))
  }

  /** The static list head. */
  class Devices {
    var head: Device?
    ghost var nodes: seq<Device>

    /** nodes are the distinct nodes of the chain from the head. */
    ghost predicate Valid()
      reads this, nodes
    {
      && (forall i, j :: 0 <= i < j < |nodes| ==> nodes[i] != nodes[j])
      && head == NodeAt(0)
      && forall i :: 0 <= i < |nodes| ==> nodes[i].next == NodeAt(i + 1)
    }

    ghost function NodeAt(i: nat): Device?
      reads this
    {
      if i < |nodes| then nodes[i] else null
    }

    ghost function Entries(): (s: seq<Entry>)
      reads this
      ensures |s| == |nodes|
    {
      EntriesOf(nodes)
    }

    constructor ()
      ensures Valid() && Entries() == []
    {
      head, nodes := null, [];
    }

    /** device_for. */
    method DeviceFor(key: nat) returns (d: Device?, ghost at: nat)
      requires Valid()
      ensures at == Find(Entries(), key) && d == NodeAt(at)
      ensures d == null <==> forall n :: n in nodes ==> n.key != key
      ensures d != null ==> d in nodes && d.key == key
    {
      hide Find;
      d, at := head, 0;
      while d != null
        invariant at <= |nodes| && d == NodeAt(at)
        invariant forall j :: 0 <= j < at ==> nodes[j].key != key
        decreases |nodes| - at
      {
        if d.key == key { break; }
        d := d.next;
        at := at + 1;
      }
      FindIs(Entries(), key, at);
    }

    method Push(data: Device)
      requires Valid() && data !in nodes && data.next == head
      modifies this
      ensures Valid() && nodes == [data] + old(nodes)
    {
      ghost var rest := nodes;
      head := data;
      nodes := [data] + nodes;
      assert forall i :: 0 < i < |nodes| ==> nodes[i] == rest[i - 1];
      forall i | 0 <= i < |nodes| ensures nodes[i].next == NodeAt(i + 1) {
        if i > 0 { assert nodes[i].next == rest[i - 1].next; }
      }
    }

    /** create_device: what the loader's chain, the next layer and calloc give decides
        whether a node is pushed. */
    method CreateDevice(chain: bool, created: bool, memory: bool, key: nat, dispatch: nat) returns (ok: bool)
      requires Valid()
      modifies this
      ensures Valid() && ok == (chain && created && memory)
      ensures Entries() == ListStep(old(Entries()), Create(ok, key, dispatch))
    {
      hide Valid, EntriesOf;
      if !chain || !created || !memory { return false; }
      var data := new Device(key, dispatch, head);
      EntriesPushed(nodes, data);
      Push(data);
      ok := true;
    }

    /** Walk the links to the one that points at data: the head, or prev's. */
    method FindLink(data: Device, ghost at: nat) returns (prev: Device?)
      requires Valid() && at < |nodes| && nodes[at] == data
      ensures prev == if at == 0 then null else nodes[at - 1]
    {
      prev := null;
      var cur := head;
      ghost var i := 0;
      while cur != data
        invariant i <= at && cur == NodeAt(i) && prev == if i == 0 then null else nodes[i - 1]
        decreases at - i
      {
        prev := cur;
        cur := cur.next;
        i := i + 1;
      }
      assert i == at;
    }

    /** The head is the link to data. */
    method UnlinkHead(data: Device)
      requires Valid() && |nodes| > 0 && nodes[0] == data
      modifies this
      ensures Valid() && nodes == old(nodes)[1..]
    {
      head := data.next;
      nodes := nodes[1..];
      assert forall i :: 0 <= i < |nodes| ==> nodes[i] == old(nodes)[i + 1];
    }

    /** prev's next is the link to data. */
    method UnlinkAfter(prev: Device, data: Device, ghost at: nat)
      requires Valid() && 0 < at < |nodes| && nodes[at] == data && prev == nodes[at - 1]
      modifies this, prev
      ensures Valid() && nodes == old(nodes)[..at] + old(nodes)[at + 1..]
    {
      prev.next := data.next;
      nodes := nodes[..at] + nodes[at + 1..];
      assert forall i :: 0 <= i < at ==> nodes[i] == old(nodes)[i];
      assert forall i :: at <= i < |nodes| ==> nodes[i] == old(nodes)[i + 1];
    }

    /** Make the link to data skip it. */
    method Unlink(prev: Device?, data: Device, ghost at: nat)
      requires Valid() && at < |nodes| && nodes[at] == data && prev == if at == 0 then null else nodes[at - 1]
      modifies this, nodes
      ensures Valid() && nodes == old(nodes)[..at] + old(nodes)[at + 1..]
    {
      hide Valid;
      if prev == null {
        UnlinkHead(data);
        assert old(nodes)[..0] + old(nodes)[1..] == old(nodes)[1..];
      } else {
        UnlinkAfter(prev, data, at);
      }
    }

    /** destroy_device. */
    method DestroyDevice(key: nat) returns (found: bool)
      requires Valid()
      modifies this, nodes
      ensures Valid() && found == (Find(old(Entries()), key) < |old(Entries())|)
      ensures Entries() == ListStep(old(Entries()), Destroy(key))
    {
      hide Find, Valid, EntriesOf;
      var data, at := DeviceFor(key);
      if data == null { return false; }
      var prev := FindLink(data, at);
      EntriesRemoved(nodes, at);
      Unlink(prev, data, at);
      found := true;
    }
  }

  lemma {:induction false} EntriesPushed(ns: seq<Device>, d: Device)
    ensures EntriesOf([d] + ns) == [Entry(d.key, d.dispatch)] + EntriesOf(ns)
  {
  }

  lemma {:induction false} EntriesRemoved(ns: seq<Device>, at: nat)
    requires at < |ns|
    ensures EntriesOf(ns[..at] + ns[at + 1..]) == EntriesOf(ns)[..at] + EntriesOf(ns)[at + 1..]
  {
  }
}
