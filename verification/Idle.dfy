/**
 The idle watcher: what one pass does to every agent, why an agent in use is never paused, and when an agent out of
 use is. Times and durations are nanoseconds.
 */
module Idle {
  import opened Wrappers
  import opened TtlMap
  import opened Keys
  import opened Float64
  import MergePatch
  import Handlers

  const SECOND := 1_000_000_000

  const STOPPED_AT := "orchestrator.dev/stopped-at"
  const STOP_REASON := "orchestrator.dev/stop-reason"

  // The part of an Agent that the watcher reads and writes; a duration of zero in the spec means no override.
  datatype Item = Item(paused: bool, idleTimeout: int, annotations: map<string, string>)

  datatype Verdict = Skip | Seed | Keep | Pause

  function EffectiveTimeout(idleTimeout: int, global: int): int {
    if idleTimeout > 0 then idleTimeout * SECOND else global
  }

  // The time in an activity record; only numbers are understood.
  function StampOf(v: Value): Option<int> {
    match v
    case Int64(n) => Some(n)
    case Float64(n) => Some(n)
    case Text(_) => None
  }

  // What a store returns for what was put into it.
  function ReadBack(v: Value, redis: bool): Value {
    if redis then JsonRoundTrip(v) else v
  }

  function Judge(paused: bool, timeout: int, read: Option<Value>, now: int): Verdict {
    if paused || timeout == 0 then Skip
    else if read.None? || StampOf(read.value).None? then Seed
    else if now - StampOf(read.value).value < timeout then Keep
    else Pause
  }

  // One agent as the stores hold it.
  datatype Tracked = Tracked(item: Item, record: Option<Value>)

  function ReadRecord(record: Option<Value>, redis: bool): Option<Value> {
    match record
    case None => None
    case Some(v) => Some(ReadBack(v, redis))
  }

  function TagAt(tags: map<string, string>, key: string): Option<string> {
    if key in tags then Some(tags[key]) else None
  }

  function PatchTag(stored: map<string, string>, read: map<string, string>, key: string, value: string)
    : map<string, string>
  {
    if TagAt(read, key) == Some(value) then stored else stored[key := value]
  }

  // The effect of the pausing patch, computed from the listed item, on the item stored by then.
  function PausedItem(stored: Item, listed: Item, stamp: string): Item {
    Item(MergePatch.Patched(stored.paused, listed.paused, true), stored.idleTimeout,
         PatchTag(PatchTag(stored.annotations, listed.annotations, STOPPED_AT, stamp),
                  listed.annotations, STOP_REASON, "idle-timeout"))
  }

  // The item is what the object says.
  predicate Shows(j: MergePatch.Json, item: Item) {
    && (item.paused <==> Handlers.Get(j, MergePatch.Paused) == Handlers.TRUE)
    && ShowsTag(j, MergePatch.StoppedAt, item, STOPPED_AT)
    && ShowsTag(j, MergePatch.StopReason, item, STOP_REASON)
  }

  predicate ShowsTag(j: MergePatch.Json, f: MergePatch.Field, item: Item, key: string) {
    match TagAt(item.annotations, key)
    case None => Handlers.Get(j, f).Null?
    case Some(v) => Handlers.Get(j, f) == MergePatch.Atom(v)
  }

  /** PausedItem is the watcher's merge patch: the request PauseIdle, from the listed object to the stored one. */
  lemma PausedItemIsThePatch(read: MergePatch.Json, after: MergePatch.Json, stored: MergePatch.Json,
                             listed: Item, item: Item, stamp: string)
    requires Handlers.IsAgent(read)
    requires Handlers.Edited(read, after, Handlers.Wanted(Handlers.PauseIdle(stamp), read))
    requires Shows(read, listed) && Shows(stored, item)
    ensures after.Obj? && Shows(MergePatch.Apply(stored, MergePatch.Diff(read, after)), PausedItem(item, listed, stamp))
  {
    hide Handlers.Get, Handlers.IsAgent, Handlers.FieldsEdited, Handlers.SameElsewhere;
    var req := Handlers.PauseIdle(stamp);
    assert after.Obj? by {
      EditedIsObject(read, after, req);
    }
    Handlers.SentAt(read, after, req, stored, MergePatch.Paused);
    Handlers.SentAt(read, after, req, stored, MergePatch.StoppedAt);
    Handlers.SentAt(read, after, req, stored, MergePatch.StopReason);
    assert STOPPED_AT != STOP_REASON;
  }

  lemma EditedIsObject(read: MergePatch.Json, after: MergePatch.Json, req: Handlers.Request)
    requires Handlers.IsAgent(read) && Handlers.Edited(read, after, Handlers.Wanted(req, read))
    ensures read.Obj? && after.Obj?
  {
  }

  function VerdictOn(listed: Item, record: Option<Value>, global: int, redis: bool, now: int): Verdict {
    Judge(listed.paused, EffectiveTimeout(listed.idleTimeout, global), ReadRecord(record, redis), now)
  }

  // A pass over one agent; listed is what List returned for it, later the clock when the agent's turn comes.
  function Pass(a: Tracked, listed: Item, global: int, redis: bool, now: int, later: int, stamp: string): Tracked {
    match VerdictOn(listed, a.record, global, redis, now)
    case Seed => a.(record := Some(Int64(later)))
    case Pause => a.(item := PausedItem(a.item, listed, stamp))
    case _ => a
  }

  // When the turn of an agent comes, and how that moment is written.
  datatype Turn = Turn(agent: Agent, clock: int, stamp: string)

  class Watcher {
    const globalTimeout: int
    const redis: bool
    var stored: map<Agent, Item>
    var cache: map<Agent, Value>

    constructor (globalTimeout: int, redis: bool)
      ensures this.globalTimeout == globalTimeout && this.redis == redis && stored == map[] && cache == map[]
    {
      this.globalTimeout, this.redis := globalTimeout, redis;
      stored, cache := map[], map[];
    }

    function RecordOf(a: Agent): Option<Value>
      reads this
    {
      if a in cache then Some(cache[a]) else None
    }

    function Track(a: Agent): Tracked
      reads this
      requires a in stored
    {
      Tracked(stored[a], RecordOf(a))
    }

    method TouchActivity(a: Agent, clock: int)
      modifies this`cache
      ensures cache == old(cache)[a := Int64(clock)]
    {
      cache := cache[a := Int64(clock)];
    }

    // The edit of the listed item, sent as a patch to whatever is stored; an agent that is gone is left alone.
    method PauseAgent(a: Agent, listed: Item, stamp: string)
      modifies this`stored
      ensures stored
              == if a in old(stored) then old(stored)[a := PausedItem(old(stored)[a], listed, stamp)] else old(stored)
    {
      if a !in stored {
        return;
      }
      var item := stored[a];
      if !listed.paused {
        item := item.(paused := true);
      }
      if !(STOPPED_AT in listed.annotations && listed.annotations[STOPPED_AT] == stamp) {
        item := item.(annotations := item.annotations[STOPPED_AT := stamp]);
      }
      if !(STOP_REASON in listed.annotations && listed.annotations[STOP_REASON] == "idle-timeout") {
        item := item.(annotations := item.annotations[STOP_REASON := "idle-timeout"]);
      }
      stored := stored[a := item];
    }

    /**
     One pass over the listed agents: each is treated by itself, on the record it had when the pass began. The list may
     be older than what is stored, and agents in it may be gone.
     */
    method Check(turns: seq<Turn>, listed: map<Agent, Item>, now: int)
      requires forall i | 0 <= i < |turns| :: turns[i].agent in listed
      requires forall i, j | 0 <= i < j < |turns| :: turns[i].agent != turns[j].agent
      modifies this`stored, this`cache
      ensures stored.Keys == old(stored).Keys
      ensures forall i | 0 <= i < |turns| && turns[i].agent in stored ::
                Track(turns[i].agent)
                == Pass(old(Track(turns[i].agent)), listed[turns[i].agent], globalTimeout, redis, now,
                        turns[i].clock, turns[i].stamp)
      ensures forall a | a in stored && (forall i | 0 <= i < |turns| :: turns[i].agent != a) ::
                Track(a) == old(Track(a))
    {
      for i := 0 to |turns|
        invariant stored.Keys == old(stored).Keys
        invariant forall j | 0 <= j < i && turns[j].agent in stored ::
                    Track(turns[j].agent)
                    == Pass(old(Track(turns[j].agent)), listed[turns[j].agent], globalTimeout, redis, now,
                            turns[j].clock, turns[j].stamp)
        invariant forall a | a in stored && (forall j | 0 <= j < i :: turns[j].agent != a) :: Track(a) == old(Track(a))
      {
        var a := turns[i].agent;
        assert a in stored ==> Track(a) == old(Track(a));
        CheckAgent(a, listed[a], now, turns[i].clock, turns[i].stamp);
        hide Pass;
      }
    }

    // The body of the loop.
    method CheckAgent(a: Agent, listed: Item, now: int, clock: int, stamp: string)
      modifies this`stored, this`cache
      ensures stored.Keys == old(stored).Keys
      ensures a in stored ==> Track(a) == Pass(old(Track(a)), listed, globalTimeout, redis, now, clock, stamp)
      ensures forall b | b in stored && b != a :: Track(b) == old(Track(b))
    {
      if listed.paused {
        return;
      }
      var timeout := globalTimeout;
      if listed.idleTimeout > 0 {
        timeout := listed.idleTimeout * SECOND;
      }
      if timeout == 0 {
        return;
      }
      if a !in cache {
        TouchActivity(a, clock);
        return;
      }
      var last;
      match ReadBack(cache[a], redis) {
        case Int64(n) => last := n;
        case Float64(n) => last := n;
        case Text(_) =>
          TouchActivity(a, clock);
          return;
      }
      if now - last < timeout {
        return;
      }
      PauseAgent(a, listed, stamp);
    }
  }

  /**
   A pass pauses exactly the agents that were listed unpaused, have a timeout, and a time stamp that old, where the
   timeout is the spec's in seconds, or the global one; it leaves the timeout and all annotations but its two as they
   are stored by then.
   */
  lemma PassPausesIff(a: Tracked, listed: Item, global: int, redis: bool, now: int, later: int, stamp: string)
    ensures var b := Pass(a, listed, global, redis, now, later, stamp);
            var timeout := if listed.idleTimeout > 0 then listed.idleTimeout * 1_000_000_000 else global;
            && (!a.item.paused ==>
                  (b.item.paused <==>
                   && !listed.paused && timeout != 0 && a.record.Some? && StampOf(ReadBack(a.record.value, redis)).Some?
                   && now - StampOf(ReadBack(a.record.value, redis)).value >= timeout))
            && b.item.idleTimeout == a.item.idleTimeout
            && (forall k | k != "orchestrator.dev/stopped-at" && k != "orchestrator.dev/stop-reason" ::
                  (k in b.item.annotations <==> k in a.item.annotations)
                  && (k in a.item.annotations ==> b.item.annotations[k] == a.item.annotations[k]))
  {
    hide JsonRoundTrip;
  }

  /** In memory the time stamp is the one that was touched, to the nanosecond. */
  lemma PassPausesInMemoryIff(a: Tracked, listed: Item, global: int, now: int, later: int, stamp: string, v: int)
    requires !a.item.paused && a.record == Some(Int64(v))
    ensures var timeout := if listed.idleTimeout > 0 then listed.idleTimeout * 1_000_000_000 else global;
            Pass(a, listed, global, false, now, later, stamp).item.paused
            <==> !listed.paused && timeout != 0 && now - v >= timeout
  {
    PassPausesIff(a, listed, global, false, now, later, stamp);
  }

  /** What a pause writes, when the listed object did not have it. */
  lemma PauseMarks(a: Tracked, listed: Item, global: int, redis: bool, now: int, later: int, stamp: string)
    requires !a.item.paused && Pass(a, listed, global, redis, now, later, stamp).item.paused
    ensures var b := Pass(a, listed, global, redis, now, later, stamp).item;
            && (TagAt(listed.annotations, "orchestrator.dev/stopped-at") != Some(stamp) ==>
                  TagAt(b.annotations, "orchestrator.dev/stopped-at") == Some(stamp))
            && (TagAt(listed.annotations, "orchestrator.dev/stop-reason") != Some("idle-timeout") ==>
                  TagAt(b.annotations, "orchestrator.dev/stop-reason") == Some("idle-timeout"))
  {
    hide JsonRoundTrip;
  }

  /** A pass seeds exactly the agents that it watches and that have no number on record, and pauses none of them. */
  lemma PassSeedsIff(a: Tracked, listed: Item, global: int, redis: bool, now: int, later: int, stamp: string)
    ensures var b := Pass(a, listed, global, redis, now, later, stamp);
            if !listed.paused && (listed.idleTimeout > 0 || global != 0) && (a.record.None? || a.record.value.Text?)
            then b == a.(record := Some(Int64(later)))
            else b.record == a.record
  {
    hide Round;
  }

  // ---- Rounding and the verdict ----

  predicate InRange(n: int) {
    0x1000_0000_0000_0000 <= n < 0x2000_0000_0000_0000
  }

  function Slack(redis: bool): nat {
    if redis then 128 else 0
  }

  /** What comes back from the store is off by at most the slack. */
  lemma ReadBackError(n: int, redis: bool)
    requires redis ==> InRange(n)
    ensures StampOf(ReadBack(Int64(n), redis)).Some?
    ensures var x := StampOf(ReadBack(Int64(n), redis)).value;
            n - Slack(redis) <= x <= n + Slack(redis)
  {
    if redis {
      TimestampError(n);
    }
  }

  /** Rounding changes the verdict only when the idle time is within 128 ns of the timeout. */
  lemma VerdictAgrees(paused: bool, timeout: int, n: int, now: int)
    requires InRange(n)
    requires Judge(paused, timeout, Some(ReadBack(Int64(n), true)), now) != Judge(paused, timeout, Some(Int64(n)), now)
    ensures timeout - 128 <= now - n <= timeout + 128
  {
    ReadBackError(n, true);
    hide JsonRoundTrip;
  }

  /** Exactly: the verdicts differ when the timeout expires between the rounded and the exact record. */
  lemma VerdictDiffersIff(timeout: int, n: nat, now: int)
    requires timeout != 0
    ensures Judge(false, timeout, Some(ReadBack(Int64(n), true)), now) != Judge(false, timeout, Some(Int64(n)), now)
            <==> Round(n) <= now - timeout < n || n <= now - timeout < Round(n)
  {
  }

  /** A later touch never reads back as an earlier time. */
  lemma ReadBackMonotone(m: nat, n: nat, redis: bool)
    requires m <= n
    ensures StampOf(ReadBack(Int64(m), redis)).value <= StampOf(ReadBack(Int64(n), redis)).value
  {
    RoundMonotone(m, n);
  }

  // ---- Safety: an agent in use is never paused ----

  // Where the watcher is with this agent: between passes, after now was taken, or about to write a seed.
  datatype Pc = Resting | Began(now: int, timeout: int) | Seeding

  // lastTouch is the latest time stamp that a request has written, and the creation time before that. The global
  // timeout does not change.
  datatype State = State(record: Option<Value>, pc: Pc, clock: int, lastTouch: int, paused: bool, global: int)

  // Every step carries the time at which it takes effect; a write carries the time stamp taken before it.
  datatype Step =
    | Touch(stamp: int, t: int)
    | Clear(t: int)
    | Begin(t: int, idleTimeout: int)    // what the listed spec says, in seconds
    | Look(t: int)
    | WriteSeed(stamp: int, t: int)

  // Time passes, and a write comes at most delay after its time stamp was taken.
  predicate Possible(s: State, step: Step, delay: nat) {
    && s.clock <= step.t
    && match step
       case Touch(stamp, t) => t - delay <= stamp <= t
       case Clear(_) => true
       case Begin(_, _) => s.pc.Resting?
       case Look(_) => s.pc.Began?
       case WriteSeed(stamp, t) => s.pc.Seeding? && t - delay <= stamp <= t
  }

  function After(s: State, step: Step, redis: bool): State {
    var u := s.(clock := step.t);
    match step
    case Touch(stamp, _) =>
      u.(record := Some(Int64(stamp)), lastTouch := if s.lastTouch < stamp then stamp else s.lastTouch)
    case Clear(_) => u.(record := None)
    case Begin(t, idleTimeout) => u.(pc := Began(t, EffectiveTimeout(idleTimeout, s.global)))
    case WriteSeed(stamp, _) => u.(record := Some(Int64(stamp)), pc := Resting)
    case Look(_) =>
      if !s.pc.Began? then u else
      var read := match s.record case None => None case Some(v) => Some(ReadBack(v, redis));
      match Judge(s.paused, s.pc.timeout, read, s.pc.now)
      case Seed => u.(pc := Seeding)
      case Pause => u.(pc := Resting, paused := true)
      case _ => u.(pc := Resting)
  }

  function Run(s: State, steps: seq<Step>, redis: bool): State
    decreases |steps|
  {
    if steps == [] then s else Run(After(s, steps[0], redis), steps[1..], redis)
  }

  predicate IsRun(s: State, steps: seq<Step>, delay: nat, redis: bool)
    decreases |steps|
  {
    steps == [] || (Possible(s, steps[0], delay) && IsRun(After(s, steps[0], redis), steps[1..], delay, redis))
  }

  // The last touch is younger than the timeout, which is the spec's in seconds or else the global one; that leaves room
  // for the delay of writes and for rounding. Without a timeout any age will do.
  predicate Recent(s: State, now: int, idleTimeout: int, delay: nat, redis: bool) {
    var timeout := if idleTimeout > 0 then idleTimeout * 1_000_000_000 else s.global;
    timeout != 0 ==> now - s.lastTouch < timeout - delay - if redis then 128 else 0
  }

  // Whenever a pass takes the time, a request has written a recent time stamp.
  predicate InUse(s: State, steps: seq<Step>, delay: nat, redis: bool)
    decreases |steps|
  {
    steps == []
    || (&& (steps[0].Begin? ==> Recent(s, steps[0].t, steps[0].idleTimeout, delay, redis))
        && InUse(After(s, steps[0], redis), steps[1..], delay, redis))
  }

  // Time stamps are of these decades.
  predicate Dated(steps: seq<Step>) {
    forall i | 0 <= i < |steps| :: match steps[i]
      case Touch(stamp, _) => InRange(stamp)
      case WriteSeed(stamp, _) => InRange(stamp)
      case _ => true
  }

  // The record is no older than the latest touch, up to the delay of writes; and the pass under way will keep the
  // agent.
  predicate Fresh(s: State, delay: nat, redis: bool) {
    && s.lastTouch <= s.clock
    && (s.record.Some? ==> s.record.value.Int64? && s.record.value.n >= s.lastTouch - delay
                           && (redis ==> InRange(s.record.value.n)))
    && (s.pc.Began? && s.pc.timeout != 0 ==> s.pc.now - s.lastTouch < s.pc.timeout - delay - Slack(redis))
  }

  lemma LookKeeps(s: State, delay: nat, redis: bool)
    requires Fresh(s, delay, redis) && s.pc.Began? && !s.paused && s.record.Some?
    ensures Judge(s.paused, s.pc.timeout, Some(ReadBack(s.record.value, redis)), s.pc.now) in {Skip, Keep}
  {
    ReadBackError(s.record.value.n, redis);
    hide ReadBack, InRange;
  }

  lemma StepStaysFresh(s: State, step: Step, delay: nat, redis: bool)
    requires Fresh(s, delay, redis) && !s.paused && Possible(s, step, delay)
    requires redis ==> Dated([step])
    requires step.Begin? ==> Recent(s, step.t, step.idleTimeout, delay, redis)
    ensures Fresh(After(s, step, redis), delay, redis) && !After(s, step, redis).paused
  {
    if redis {
      assert [step][0] == step;
    }
    if step.Look? && s.record.Some? {
      LookKeeps(s, delay, redis);
    }
    hide ReadBack, InRange;
  }

  /**
   However touches, cache clears and passes interleave, an agent that is in use is never paused. In memory with atomic
   touches, in use means: touched less than the timeout before every pass. Redis costs another 128 ns.
   */
  lemma {:induction false} AgentInUseIsNeverPaused(s: State, steps: seq<Step>, delay: nat, redis: bool)
    requires Fresh(s, delay, redis) && !s.paused
    requires IsRun(s, steps, delay, redis) && InUse(s, steps, delay, redis)
    requires redis ==> Dated(steps)
    ensures !Run(s, steps, redis).paused
    decreases |steps|
  {
    if steps != [] {
      if redis {
        assert steps[0] == [steps[0]][0];
      }
      StepStaysFresh(s, steps[0], delay, redis);
      AgentInUseIsNeverPaused(After(s, steps[0], redis), steps[1..], delay, redis);
    }
  }

  // An agent without record, created at the given time.
  function Created(c: int, global: int): State {
    State(None, Resting, c, c, false, global)
  }

  /** In particular from its creation on. */
  lemma NewAgentInUseIsNeverPaused(c: int, global: int, steps: seq<Step>, delay: nat, redis: bool)
    requires IsRun(Created(c, global), steps, delay, redis) && InUse(Created(c, global), steps, delay, redis)
    requires redis ==> Dated(steps)
    ensures !Run(Created(c, global), steps, redis).paused
  {
    AgentInUseIsNeverPaused(Created(c, global), steps, delay, redis);
  }

  /**
   The bound is exact in memory: a pass that takes the time when the last touch is a whole timeout old pauses the agent,
   a touch that comes after that moment but before the look saves it.
   */
  lemma BoundIsExact(c: int, global: int, v: int, p: int, q: int, idle: int)
    requires c <= v && (idle > 0 || global > 0)
    requires p == v + (if idle > 0 then idle * 1_000_000_000 else global) <= q
    ensures Run(Created(c, global), [Touch(v, v), Begin(p, idle), Look(q)], false).paused
    ensures IsRun(Created(c, global), [Touch(v, v), Begin(p, idle), Look(q)], 0, false)
    ensures !Run(Created(c, global), [Touch(v, v), Begin(p, idle), Touch(q, q), Look(q)], false).paused
  {
    var s0, s1 := Created(c, global), After(Created(c, global), Touch(v, v), false);
    var s2 := After(s1, Begin(p, idle), false);
    var s3 := After(s2, Touch(q, q), false);
    RunOne(s0, Touch(v, v), [Begin(p, idle), Look(q)]);
    RunOne(s1, Begin(p, idle), [Look(q)]);
    RunOne(s2, Look(q), []);
    RunOne(s0, Touch(v, v), [Begin(p, idle), Touch(q, q), Look(q)]);
    RunOne(s1, Begin(p, idle), [Touch(q, q), Look(q)]);
    RunOne(s2, Touch(q, q), [Look(q)]);
    RunOne(s3, Look(q), []);
  }

  lemma RunOne(s: State, step: Step, rest: seq<Step>)
    ensures Run(s, [step] + rest, false) == Run(After(s, step, false), rest, false)
    ensures IsRun(s, [step] + rest, 0, false)
            <==> Possible(s, step, 0) && IsRun(After(s, step, false), rest, 0, false)
  {
    assert ([step] + rest)[1..] == rest;
  }

  // ---- Liveness: an agent out of use is paused, and when ----

  // The agent after the ticks first, first + interval, ..., with instantaneous passes and nobody touching it.
  function Ticks(a: Tracked, global: int, redis: bool, first: int, interval: nat, n: nat): Tracked {
    if n == 0 then a
    else
      var b := Ticks(a, global, redis, first, interval, n - 1);
      Pass(b, b.item, global, redis, first + (n - 1) * interval, first + (n - 1) * interval, "")
  }

  /** It is paused after n ticks exactly when one of them came a timeout or more after the record. */
  lemma {:induction false} PausedIff(a: Tracked, global: int, redis: bool, first: int, interval: nat, n: nat, x: int)
    requires !a.item.paused && ReadRecord(a.record, redis).Some?
    requires StampOf(ReadRecord(a.record, redis).value) == Some(x)
    requires a.item.idleTimeout > 0 || global > 0
    ensures var b := Ticks(a, global, redis, first, interval, n);
            && b.record == a.record && b.item.idleTimeout == a.item.idleTimeout
            && (b.item.paused <==>
                && n > 0
                && first + (n - 1) * interval
                   >= x + if a.item.idleTimeout > 0 then a.item.idleTimeout * 1_000_000_000 else global)
    decreases n
  {
    if n > 0 {
      PausedIff(a, global, redis, first, interval, n - 1, x);
      TickGrows(n, interval);
      hide ReadBack, StampOf;
    }
  }

  lemma TickGrows(n: nat, interval: nat)
    requires n > 0
    ensures n == 1 || (n - 1) * interval == (n - 2) * interval + interval
  {
  }

  // The first tick at or after a moment comes less than an interval after it.
  lemma FirstTickAfter(first: int, interval: nat, moment: int) returns (n: nat)
    requires interval > 0 && first < moment + interval
    ensures n > 0 && moment <= first + (n - 1) * interval < moment + interval
    ensures n == 1 || first + (n - 2) * interval < moment
  {
    n := 1;
    while first + (n - 1) * interval < moment
      invariant n > 0 && first + (n - 1) * interval < moment + interval
      invariant n == 1 || first + (n - 2) * interval < moment
      decreases moment - (first + (n - 1) * interval)
    {
      TickGrows(n + 1, interval);
      n := n + 1;
    }
  }

  /**
   An untouched agent is paused by the first tick that comes a timeout after its record, which is less than a timeout
   and an interval after it, and by no earlier one. Redis shifts the record by at most 128 ns.
   */
  lemma PausedInTime(a: Tracked, global: int, redis: bool, first: int, interval: nat, v: int, timeout: int)
    returns (n: nat)
    requires !a.item.paused && a.record == Some(Int64(v)) && (redis ==> InRange(v)) && interval > 0
    requires timeout == (if a.item.idleTimeout > 0 then a.item.idleTimeout * 1_000_000_000 else global) > 0
    requires first < v - (if redis then 128 else 0) + timeout + interval
    ensures n > 0
    ensures Ticks(a, global, redis, first, interval, n).item.paused
    ensures !Ticks(a, global, redis, first, interval, n - 1).item.paused
    ensures var p, slack := first + (n - 1) * interval, if redis then 128 else 0;
            v + timeout - slack <= p < v + timeout + interval + slack
  {
    ReadBackError(v, redis);
    var x := StampOf(ReadBack(Int64(v), redis)).value;
    n := FirstTickAfter(first, interval, x + timeout);
    PausedIff(a, global, redis, first, interval, n, x);
    PausedIff(a, global, redis, first, interval, n - 1, x);
    hide Ticks, ReadBack;
  }

  lemma {:induction false} TicksSplit(a: Tracked, global: int, redis: bool, first: int, interval: nat, n: nat)
    ensures Ticks(a, global, redis, first, interval, n + 1)
            == Ticks(Pass(a, a.item, global, redis, first, first, ""), global, redis, first + interval, interval, n)
    decreases n
  {
    if n > 0 {
      TicksSplit(a, global, redis, first, interval, n - 1);
      SameTick(first, interval, n);
    }
    hide Pass;
  }

  lemma SameTick(first: int, interval: nat, n: nat)
    requires n > 0
    ensures first + n * interval == first + interval + (n - 1) * interval
  {
  }

  /**
   Without a record the first tick seeds one, so the agent is paused within a timeout and two intervals of creation.
   */
  lemma PausedInTimeAfterCreation(a: Tracked, global: int, redis: bool, first: int, interval: nat, c: int,
                                  timeout: int)
    returns (n: nat)
    requires !a.item.paused && a.record.None? && interval > 0 && c <= first < c + interval && (redis ==> InRange(first))
    requires timeout == if a.item.idleTimeout > 0 then a.item.idleTimeout * 1_000_000_000 else global
    requires timeout > if redis then 128 else 0
    ensures Ticks(a, global, redis, first, interval, n).item.paused
    ensures n > 0 && first + (n - 1) * interval < c + timeout + 2 * interval + if redis then 128 else 0
  {
    var b := Pass(a, a.item, global, redis, first, first, "");
    assert b == a.(record := Some(Int64(first)));
    var k := PausedInTime(b, global, redis, first + interval, interval, first, timeout);
    TicksSplit(a, global, redis, first, interval, k);
    n := k + 1;
    TickGrows(n, interval);
    hide Ticks;
  }
}
