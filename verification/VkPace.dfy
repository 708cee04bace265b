/** Present pacing of the Vulkan layer: a table of swapchains and the spacing of their
    presents. */
module VkPace {
  import opened Basics

  const SLOTS: nat := 16
  const SECOND: nat := 1_000_000_000

  /** struct timespec, as the monotonic clock gives it. */
  datatype Time = Time(sec: nat, nsec: nat) {
    predicate Valid() { nsec < SECOND }

    function Ns(): nat { sec * SECOND + nsec }
  }

  /** swapchain is 0 in an unused slot; last.sec is 0 until a present was recorded. */
  datatype Slot = Slot(swapchain: nat, last: Time)

  const UNUSED := Slot(0, Time(0, 0))

  /** One present: the first swapchain of the call, if any, the clock before, and the
      clock after the sleep if the layer sleeps. */
  datatype Present = Present(count: nat, key: nat, now: Time, later: Time)

  /** The environment of the process: the interval in microseconds, and whether
      MALI_PRESENT_DEBUG is set. */
  datatype Env = Env(interval: int, debug: bool)

  /** C's division by 1000, which cuts towards zero. */
  function DivTrunc1000(x: int): int {
    if x >= 0 then x / 1000 else -((-x) / 1000)
  }

  /** Microseconds from a to b as the layer computes them. */
  function Waited(a: Time, b: Time): int {
    (b.sec - a.sec) * 1_000_000 + DivTrunc1000(b.nsec - a.nsec)
  }

  /** Index of the first slot with a swapchain; SLOTS if there is none. */
  function FindKey(seen: seq<Slot>, key: nat): (i: nat)
    ensures i <= |seen|
    ensures i < |seen| ==> seen[i].swapchain == key
    ensures forall j :: 0 <= j < i ==> seen[j].swapchain != key
  {
    if seen == [] then 0 else if seen[0].swapchain == key then 0
    else
      var i := FindKey(seen[1..], key);
      assert forall j :: 0 < j < |seen| ==> seen[j] == seen[1..][j - 1];
      i + 1
  }

  /** The slot a present uses: its own, else the first unused one; SLOTS if none is left. */
  function SlotFor(seen: seq<Slot>, key: nat): (i: nat)
    ensures i <= |seen|
  {
    if FindKey(seen, key) < |seen| then FindKey(seen, key) else FindKey(seen, 0)
  }

  /** Whether the layer sleeps before recording. */
  predicate Sleeps(env: Env, last: Time, now: Time) {
    last.sec != 0 && env.interval > 0 && Waited(last, now) < env.interval
  }

  /** The nanoseconds asked of nanosleep, if it is called. */
  function Asked(env: Env, last: Time, now: Time): Option<int> {
    if Sleeps(env, last, now) then Some((env.interval - Waited(last, now)) * 1000) else None
  }

  /** The time recorded for a present. */
  function Recorded(env: Env, last: Time, p: Present): Time {
    if Sleeps(env, last, p.now) then p.later else p.now
  }

  datatype Record = Record(key: nat, time: Time)

  /** pace: the new table, and what was recorded. */
  function Pace(env: Env, seen: seq<Slot>, p: Present): (r: (seq<Slot>, Option<Record>))
    ensures |r.0| == |seen|
  {
    var i := SlotFor(seen, p.key);
    if p.count == 0 || (env.interval <= 0 && !env.debug) || i == |seen| then (seen, None)
    else
      var t := Recorded(env, seen[i].last, p);
      (seen[i := Slot(p.key, t)], Some(Record(p.key, t)))
  }

  // ---- the bound ---------------------------------------------------------

  /** The sleep of (interval - waited) microseconds: nanosleep refuses a tv_nsec of a
      second or more and returns at once, otherwise it sleeps at least that long. */
  predicate SleepOk(env: Env, last: Time, p: Present) {
    match Asked(env, last, p.now)
    case None => true
    case Some(rest) => p.later.Ns() >= if 0 <= rest < SECOND then p.now.Ns() + rest else p.now.Ns()
  }

  /** A sleep that ends when it should. */
  predicate SleepExact(env: Env, last: Time, p: Present) {
    match Asked(env, last, p.now)
    case None => true
    case Some(rest) => p.later.Ns() == if 0 <= rest < SECOND then p.now.Ns() + rest else p.now.Ns()
  }

  /** The computed microseconds are less than one microsecond above the real time, in
      spite of the cut of a negative nanosecond difference. */
  lemma {:induction false} WaitedBounds(a: Time, b: Time)
    requires a.Valid() && b.Valid() && a.Ns() <= b.Ns()
    ensures Waited(a, b) >= 0
    ensures b.Ns() - a.Ns() - 999 <= 1000 * Waited(a, b) <= b.Ns() - a.Ns() + 999
  {
    var x := b.nsec - a.nsec;
    assert x - 999 <= 1000 * DivTrunc1000(x) <= x + 999;
    assert b.Ns() - a.Ns() == (b.sec - a.sec) * SECOND + x;
  }

  /** Two recorded presents of one swapchain are at least the interval apart, less 999
      nanoseconds. */
  lemma {:induction false} Spacing(env: Env, last: Time, p: Present)
    requires 0 < env.interval < 1_000_000 && last.sec != 0
    requires last.Valid() && p.now.Valid() && last.Ns() <= p.now.Ns() && SleepOk(env, last, p)
    ensures Recorded(env, last, p).Ns() >= last.Ns() + 1000 * env.interval - 999
  {
    WaitedBounds(last, p.now);
  }

  /** Nor is more asked than is needed: with sleeps that end on time a present is recorded when
      it comes, or at most 999 nanoseconds after the interval. */
  lemma {:induction false} NotDelayed(env: Env, last: Time, p: Present)
    requires 0 < env.interval < 1_000_000 && last.sec != 0
    requires last.Valid() && p.now.Valid() && last.Ns() <= p.now.Ns() && SleepExact(env, last, p)
    ensures Recorded(env, last, p).Ns() == p.now.Ns() || Recorded(env, last, p).Ns() <= last.Ns() + 1000 * env.interval + 999
    ensures p.now.Ns() >= last.Ns() + 1000 * env.interval + 999 ==> Recorded(env, last, p) == p.now
  {
    WaitedBounds(last, p.now);
  }

  /** The bound for one reading of the clocks. */
  predicate BoundAt(env: Env, last: Time, p: Present) {
    last.sec != 0 && last.Valid() && p.now.Valid() && last.Ns() <= p.now.Ns() && SleepOk(env, last, p)
    ==> Recorded(env, last, p).Ns() >= last.Ns() + 1000 * env.interval - 999
  }

  ghost predicate BoundHolds(env: Env) {
    forall last: Time, p: Present :: BoundAt(env, last, p)
  }

  /** An interval of a second or more: two presents at once are not spaced at all, because
      the sleep is refused. */
  lemma {:induction false} LongIntervalFails(env: Env)
    requires env.interval >= 1_000_000
    ensures var t := Time(1, 0); !BoundAt(env, t, Present(1, 1, t, t))
  {
    LongAt(env, Time(1, 0));
  }

  lemma {:induction false} LongAt(env: Env, t: Time)
    requires env.interval >= 1_000_000 && t.sec != 0 && t.Valid()
    ensures !BoundAt(env, t, Present(1, 1, t, t))
  {
    var p := Present(1, 1, t, t);
    NoWait(t);
    hide Time.Ns, Time.Valid, Waited;
    assert SleepOk(env, t, p);
    assert Recorded(env, t, p) == t;
  }

  lemma {:induction false} NoWait(t: Time)
    ensures Waited(t, t) == 0
  {
  }

  /** The bound holds for all clocks exactly for intervals below a second. */
  lemma {:induction false} BoundExact(env: Env)
    requires env.interval > 0
    ensures BoundHolds(env) <==> env.interval < 1_000_000
  {
    hide BoundAt;
    if env.interval < 1_000_000 {
      forall last: Time, p: Present ensures BoundAt(env, last, p) {
        BoundBelowSecond(env, last, p);
      }
    } else {
      LongIntervalFails(env);
    }
  }

  lemma {:induction false} BoundBelowSecond(env: Env, last: Time, p: Present)
    requires 0 < env.interval < 1_000_000
    ensures BoundAt(env, last, p)
  {
    hide SleepOk, Recorded, Time.Ns, Time.Valid;
    if last.sec != 0 && last.Valid() && p.now.Valid() && last.Ns() <= p.now.Ns() && SleepOk(env, last, p) {
      Spacing(env, last, p);
    }
  }

  /** The bound for everything that can follow a present recorded at last. */
  ghost predicate BoundFrom(env: Env, last: Time) {
    forall p: Present :: FollowsWith(env, last, p)
  }

  predicate FollowsWith(env: Env, last: Time, p: Present) {
    last.Valid() && p.now.Valid() && last.Ns() <= p.now.Ns() && SleepOk(env, last, p)
    ==> Recorded(env, last, p).Ns() >= last.Ns() + 1000 * env.interval - 999
  }

  /** A present recorded in the first second of the clock is taken for none: what follows it
      is spaced exactly when it was recorded later than that. */
  lemma {:induction false} FirstSecondExact(env: Env, last: Time)
    requires 0 < env.interval < 1_000_000 && last.Valid()
    ensures BoundFrom(env, last) <==> last.sec != 0
  {
    if last.sec != 0 {
      forall p: Present ensures FollowsWith(env, last, p) {
        hide SleepOk, Recorded, Time.Ns, Time.Valid;
        if last.Valid() && p.now.Valid() && last.Ns() <= p.now.Ns() && SleepOk(env, last, p) { Spacing(env, last, p); }
      }
    } else {
      hide BoundFrom;
      FirstSecondFails(env, last);
      if BoundFrom(env, last) { FollowsAll(env, last, AfterSleep(env, last)); }
    }
  }

  lemma {:induction false} FollowsAll(env: Env, last: Time, p: Present)
    requires BoundFrom(env, last)
    ensures FollowsWith(env, last, p)
  {
  }

  /** A second present at the same time, after which the layer would sleep long enough. */
  function AfterSleep(env: Env, last: Time): Present {
    Present(1, 1, last, Time(last.sec + 1, last.nsec))
  }

  lemma {:induction false} FirstSecondFails(env: Env, last: Time)
    requires 0 < env.interval < 1_000_000 && last.Valid() && last.sec == 0
    ensures !FollowsWith(env, last, AfterSleep(env, last))
  {
    NoWait(last);
    hide Waited;
    assert SleepOk(env, last, AfterSleep(env, last));
  }

  // ---- whole runs --------------------------------------------------------

  /** Each swapchain has at most one slot, and unused slots have no time. */
  predicate TableOk(seen: seq<Slot>) {
    && |seen| == SLOTS
    && (forall i, j :: 0 <= i < j < |seen| && seen[i].swapchain != 0 ==> seen[i].swapchain != seen[j].swapchain)
    && (forall i :: 0 <= i < |seen| && seen[i].swapchain == 0 ==> seen[i] == UNUSED)
  }

  /** Records of a slot's swapchain are not later than the slot's time. */
  predicate SlotCovers(s: Slot, r: Record) {
    r.key == s.swapchain ==> r.time.Ns() <= s.last.Ns()
  }

  predicate Covered(seen: seq<Slot>, log: seq<Record>) {
    && (forall i, k :: 0 <= i < |seen| && 0 <= k < |log| ==> SlotCovers(seen[i], log[k]))
    && (forall k :: 0 <= k < |log| ==> log[k].time.Valid())
    && (forall k :: 0 <= k < |log| ==> FindKey(seen, log[k].key) < |seen|)
  }

  /** All times in the table come from the clock. */
  predicate TimesOk(seen: seq<Slot>, clock: nat) {
    forall i :: 0 <= i < |seen| && seen[i].swapchain != 0 ==>
      seen[i].last.Valid() && seen[i].last.Ns() <= clock
  }

  /** Any two recorded presents of one swapchain are far enough apart, if the earlier one was
      not recorded in the first second of the clock. */
  predicate Spaced(env: Env, log: seq<Record>) {
    forall i, j :: 0 <= i < j < |log| && log[i].key == log[j].key && log[i].time.sec != 0 ==>
      log[j].time.Ns() >= log[i].time.Ns() + 1000 * env.interval - 999
  }

  predicate PaceInv(env: Env, seen: seq<Slot>, log: seq<Record>, clock: nat) {
    TableOk(seen) && Covered(seen, log) && TimesOk(seen, clock) && Spaced(env, log)
      && forall k :: 0 <= k < |log| ==> log[k].key != 0
  }

  /** A present as the system delivers it: a real swapchain, a clock that never goes back,
      and a sleep that is not cut short. */
  predicate PresentOk(env: Env, seen: seq<Slot>, clock: nat, p: Present) {
    && p.key != 0 && p.now.Valid() && p.later.Valid() && clock <= p.now.Ns() <= p.later.Ns()
    && (forall i :: 0 <= i < |seen| && seen[i].swapchain == p.key ==> SleepOk(env, seen[i].last, p))
  }

  function AfterLog(log: seq<Record>, r: Option<Record>): seq<Record> {
    if r.None? then log else log + [r.value]
  }

  lemma {:induction false} FindKeyIs(seen: seq<Slot>, key: nat, i: nat)
    requires i < |seen| && seen[i].swapchain == key
    ensures FindKey(seen, key) < |seen|
  {
    assert seen[i].swapchain == key;
  }

  /** Slots stay distinct, and a swapchain that has one keeps it. */
  lemma {:induction false} PaceTable(env: Env, seen: seq<Slot>, p: Present)
    requires TableOk(seen) && p.key != 0
    ensures TableOk(Pace(env, seen, p).0)
    ensures forall i :: 0 <= i < |seen| && seen[i].swapchain != 0 ==> Pace(env, seen, p).0[i].swapchain == seen[i].swapchain
  {
    var i := SlotFor(seen, p.key);
    if FindKey(seen, p.key) == |seen| && i < |seen| {
      assert seen[i].swapchain == 0;
      assert forall j :: 0 <= j < |seen| ==> seen[j].swapchain != p.key;
    } else if i < |seen| {
      assert seen[i].swapchain == p.key;
    }
  }

  /** The time recorded, against the slot the present uses. */
  lemma {:induction false} RecordedTime(env: Env, seen: seq<Slot>, clock: nat, p: Present, i: nat)
    requires TableOk(seen) && TimesOk(seen, clock) && PresentOk(env, seen, clock, p)
    requires i < |seen| && (seen[i].swapchain == p.key || seen[i].swapchain == 0)
    ensures var t := Recorded(env, seen[i].last, p);
            && t.Valid() && p.now.Ns() <= t.Ns()
            && (seen[i].swapchain == p.key && seen[i].last.sec != 0 && 0 < env.interval < 1_000_000 ==>
                  t.Ns() >= seen[i].last.Ns() + 1000 * env.interval - 999)
  {
    if seen[i].swapchain == p.key && seen[i].last.sec != 0 && 0 < env.interval < 1_000_000 {
      Spacing(env, seen[i].last, p);
    }
  }

  lemma {:induction false} LaterSecond(a: Time, b: Time)
    requires a.Valid() && b.Valid() && a.sec != 0 && a.Ns() <= b.Ns()
    ensures b.sec != 0
  {
  }

  lemma {:induction false} StepCovered(seen: seq<Slot>, log: seq<Record>, clock: nat, key: nat, t: Time, i: nat)
    requires TableOk(seen) && Covered(seen, log) && TimesOk(seen, clock)
    requires i < |seen| && key != 0 && clock <= t.Ns() && t.Valid()
    requires seen[i].swapchain == key || (seen[i].swapchain == 0 && FindKey(seen, key) == |seen|)
    requires forall k :: 0 <= k < |log| ==> log[k].key != 0
    ensures Covered(seen[i := Slot(key, t)], log + [Record(key, t)])
  {
    hide Time.Ns;
    var s, l := seen[i := Slot(key, t)], log + [Record(key, t)];
    forall j, k | 0 <= j < |s| && 0 <= k < |l| ensures SlotCovers(s[j], l[k]) {
      if k < |log| {
        assert SlotCovers(seen[j], log[k]) && SlotCovers(seen[i], log[k]);
        KeyPlaced(seen, log, k);
        assert FindKey(seen, log[k].key) < |seen|;
      }
    }
    forall k | 0 <= k < |l| ensures FindKey(s, l[k].key) < |s| {
      if k < |log| {
        var j := FindKey(seen, log[k].key);
        assert s[j].swapchain == log[k].key;
        FindKeyIs(s, l[k].key, j);
      } else {
        FindKeyIs(s, key, i);
      }
    }
  }

  lemma {:induction false} KeyPlaced(seen: seq<Slot>, log: seq<Record>, k: nat)
    requires Covered(seen, log) && k < |log|
    ensures FindKey(seen, log[k].key) < |seen| && seen[FindKey(seen, log[k].key)].swapchain == log[k].key
  {
  }

  lemma {:induction false} StepSpaced(env: Env, seen: seq<Slot>, log: seq<Record>, key: nat, t: Time, i: nat)
    requires Covered(seen, log) && Spaced(env, log) && i < |seen| && seen[i].last.Valid()
    requires seen[i].swapchain == key && seen[i].last.sec != 0 ==> t.Ns() >= seen[i].last.Ns() + 1000 * env.interval - 999
    requires seen[i].swapchain != key ==> FindKey(seen, key) == |seen|
    ensures Spaced(env, log + [Record(key, t)])
  {
    hide Time.Ns;
    var l := log + [Record(key, t)];
    forall a, b | 0 <= a < b < |l| && l[a].key == l[b].key && l[a].time.sec != 0
      ensures l[b].time.Ns() >= l[a].time.Ns() + 1000 * env.interval - 999
    {
      if b == |log| {
        KeyPlaced(seen, log, a);
        assert SlotCovers(seen[i], log[a]);
        LaterSecond(log[a].time, seen[i].last);
      }
    }
  }

  function ClockAfter(env: Env, seen: seq<Slot>, clock: nat, p: Present): nat {
    var r := Pace(env, seen, p).1;
    if r.None? then clock else r.value.time.Ns()
  }

  /** Every present keeps the invariant. */
  lemma {:induction false} PaceKeeps(env: Env, seen: seq<Slot>, log: seq<Record>, clock: nat, p: Present)
    requires 0 < env.interval < 1_000_000 && PaceInv(env, seen, log, clock) && PresentOk(env, seen, clock, p)
    ensures PaceInv(env, Pace(env, seen, p).0, AfterLog(log, Pace(env, seen, p).1), ClockAfter(env, seen, clock, p))
  {
    hide Time.Ns, Recorded, Covered, Spaced, FindKey;
    PaceTable(env, seen, p);
    var i := SlotFor(seen, p.key);
    if p.count != 0 && i < |seen| {
      var t := Recorded(env, seen[i].last, p);
      SlotIs(seen, p.key);
      RecordedTime(env, seen, clock, p, i);
      StepCovered(seen, log, clock, p.key, t, i);
      StepSpaced(env, seen, log, p.key, t, i);
    }
  }

  lemma {:induction false} SlotIs(seen: seq<Slot>, key: nat)
    ensures var i := SlotFor(seen, key);
            i < |seen| ==> seen[i].swapchain == key || (seen[i].swapchain == 0 && FindKey(seen, key) == |seen|)
  {
  }

  /** A run of presents from an empty table. */
  predicate RunOk(env: Env, seen: seq<Slot>, clock: nat, ps: seq<Present>)
    decreases |ps|
  {
    ps != [] ==>
      && PresentOk(env, seen, clock, ps[0])
      && RunOk(env, Pace(env, seen, ps[0]).0, ClockAfter(env, seen, clock, ps[0]), ps[1..])
  }

  function Log(env: Env, seen: seq<Slot>, log: seq<Record>, ps: seq<Present>): seq<Record>
    decreases |ps|
  {
    if ps == [] then log else Log(env, Pace(env, seen, ps[0]).0, AfterLog(log, Pace(env, seen, ps[0]).1), ps[1..])
  }

  lemma {:induction false} RunKeeps(env: Env, seen: seq<Slot>, log: seq<Record>, clock: nat, ps: seq<Present>)
    requires 0 < env.interval < 1_000_000 && PaceInv(env, seen, log, clock) && RunOk(env, seen, clock, ps)
    ensures Spaced(env, Log(env, seen, log, ps))
    decreases |ps|
  {
    hide Pace, AfterLog, ClockAfter, PresentOk, Spaced;
    if ps == [] {
      InvSpaced(env, seen, log, clock);
    } else {
      PaceKeeps(env, seen, log, clock, ps[0]);
      RunKeeps(env, Pace(env, seen, ps[0]).0, AfterLog(log, Pace(env, seen, ps[0]).1),
               ClockAfter(env, seen, clock, ps[0]), ps[1..]);
    }
  }

  lemma {:induction false} InvSpaced(env: Env, seen: seq<Slot>, log: seq<Record>, clock: nat)
    requires PaceInv(env, seen, log, clock)
    ensures Spaced(env, log)
  {
  }

  function Empty(): (s: seq<Slot>)
    ensures |s| == SLOTS
  {
    seq(SLOTS, i => UNUSED)
  }

  /** Over every run, any two recorded presents of one swapchain are at least the interval
      less 999 nanoseconds apart, once the clock shows a second. */
  lemma {:induction false} RunSpaced(env: Env, clock: nat, ps: seq<Present>)
    requires 0 < env.interval < 1_000_000 && RunOk(env, Empty(), clock, ps)
    ensures Spaced(env, Log(env, Empty(), [], ps))
  {
    hide RunOk, Log;
    assert PaceInv(env, Empty(), [], clock);
    RunKeeps(env, Empty(), [], clock, ps);
  }

  /** A present is not recorded if and only if it names no swapchain, or the layer has nothing
      to do, or sixteen other swapchains have the slots; otherwise its own slot gets its time
      and no other changes. */
  lemma {:induction false} TurnedAway(env: Env, seen: seq<Slot>, p: Present)
    requires TableOk(seen) && p.key != 0
    ensures Pace(env, seen, p).1.None? <==>
              || p.count == 0 || (env.interval <= 0 && !env.debug)
              || forall i :: 0 <= i < SLOTS ==> seen[i].swapchain != 0 && seen[i].swapchain != p.key
    ensures Pace(env, seen, p).1.None? ==> Pace(env, seen, p).0 == seen
    ensures Pace(env, seen, p).1.Some? ==> OneSlot(seen, Pace(env, seen, p).0, p.key, Pace(env, seen, p).1.value)
  {
    if Pace(env, seen, p).1.Some? {
      var i := SlotFor(seen, p.key);
      SlotIs(seen, p.key);
      assert seen[i].swapchain == p.key || seen[i].swapchain == 0;
      assert SlotGets(seen, Pace(env, seen, p).0, i, Pace(env, seen, p).1.value);
    }
  }

  predicate SlotGets(seen: seq<Slot>, seen': seq<Slot>, i: nat, r: Record) {
    && |seen'| == |seen| && i < |seen| && seen'[i] == Slot(r.key, r.time)
    && forall j :: 0 <= j < |seen| && j != i ==> seen'[j] == seen[j]
  }

  predicate OneSlot(seen: seq<Slot>, seen': seq<Slot>, key: nat, r: Record) {
    r.key == key && exists i :: 0 <= i < |seen| && SlotGets(seen, seen', i, r)
  }

  // ---- the static table --------------------------------------------------

  /** The function's static array. */
  class Pacer {
    const seen: array<Slot>

    constructor ()
      ensures fresh(seen) && seen[..] == Empty()
    {
      seen := new Slot[SLOTS](i => UNUSED);
      new;
      assert seen[..] == Empty();
    }

    /** One search for the key and the first unused slot. */
    method Search(key: nat) returns (i: nat, slot: nat)
      ensures i == FindKey(seen[..], key)
      ensures i == seen.Length ==> slot == FindKey(seen[..], 0)
    {
      hide FindKey;
      i, slot := 0, seen.Length;
      while i < seen.Length
        invariant 0 <= i <= seen.Length
        invariant forall j :: 0 <= j < i ==> seen[j].swapchain != key
        invariant slot == seen.Length || (slot < i && seen[slot].swapchain == 0)
        invariant forall j :: 0 <= j < i && j < slot ==> seen[j].swapchain != 0
      {
        if seen[i].swapchain == key { break; }
        if seen[i].swapchain == 0 && slot == seen.Length { slot := i; }
        i := i + 1;
      }
      FirstAt(seen[..], key, i);
      if i == seen.Length { FirstAt(seen[..], 0, slot); }
    }

    /** pace. now and later are what the two clock readings give; sleep is what nanosleep is
        asked for. */
    method PacePresent(env: Env, p: Present) returns (sleep: Option<int>)
      modifies seen
      ensures seen[..] == Pace(env, old(seen[..]), p).0
      ensures var r := Pace(env, old(seen[..]), p).1;
              sleep == if r.None? then None else Asked(env, old(seen[..])[SlotFor(old(seen[..]), p.key)].last, p.now)
    {
      hide FindKey, Recorded;
      sleep := None;
      if p.count == 0 { return; }
      if env.interval <= 0 && !env.debug { return; }
      var i, slot := Search(p.key);
      if i == seen.Length {
        if slot == seen.Length { return; }
        i := slot;
        seen[i] := seen[i].(swapchain := p.key);
      }
      var now := p.now;
      if seen[i].last.sec != 0 {
        var waited := Waited(seen[i].last, now);
        if env.interval > 0 && waited < env.interval {
          sleep := Some((env.interval - waited) * 1000);
          now := p.later;
        }
      }
      RecordedIs(env, seen[i].last, p, now);
      seen[i] := seen[i].(last := now);
    }
  }

  lemma {:induction false} FirstAt(seen: seq<Slot>, key: nat, i: nat)
    requires i <= |seen| && (i < |seen| ==> seen[i].swapchain == key)
    requires forall j :: 0 <= j < i ==> seen[j].swapchain != key
    ensures FindKey(seen, key) == i
  {
    var k := FindKey(seen, key);
    assert k < |seen| ==> seen[k].swapchain == key;
  }

  lemma {:induction false} RecordedIs(env: Env, last: Time, p: Present, now: Time)
    requires now == if last.sec != 0 && env.interval > 0 && Waited(last, p.now) < env.interval then p.later else p.now
    ensures Recorded(env, last, p) == now
  {
    hide Waited;
  }
}
