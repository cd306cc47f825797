/**
 The in-memory cache under concurrency, one critical section at a time.

 Every operation first looks the agent's inner map up under the outer lock and later works on it under the inner
 lock; between the two anything may happen, including a ClearAgent that detaches the inner map. Each key carries,
 as history, the order in which its operations are taken to have happened. The operations on one inner map form an
 epoch and the ClearAgent that detached the map closes the epoch, so an operation that was caught on a detached map
 falls just before that ClearAgent.

 Keys are those that agentKey makes; Keys.AgentKeyInjective shows that agents do not share them.

 Times come from one clock that does not go back. A step takes effect at its time, but looks at the clock within it may
 be earlier and fall between or before the steps of other threads: those of Set outside any lock at any time since its
 invocation, and those of a critical section that only reads, or of a GC sweep, at any time since the inner map was last
 written, because readers overlap.
 */
module CacheConcurrency {
  import opened Wrappers
  import opened TtlMap

  type Key = string

  datatype Op =
    | Set(key: Key, field: string, value: Value, ttl: int)
    | Get(key: Key, field: string)       // Get and GetEntry
    | Delete(key: Key, field: string)
    | List(key: Key)
    | Clear(key: Key)

  datatype Where =
    | Invoked
    | Missed                             // Set found no inner map under the read lock
    | Holds(p: nat)                      // has a pointer to an inner map
    | Stamped(p: nat, entry: Entry)      // Set has built its entry

  // since is the time of the invocation, invoked its position among all steps.
  datatype Thread = Thread(op: Op, invoked: nat, since: int, at: Where)

  datatype Outcome =
    | Stored(entry: Entry)
    | Saw(found: Option<Entry>, readAt: int)
    | Listed(fields: Fields, from: int)
    | Done

  datatype Event = Event(op: Op, outcome: Outcome, invoked: nat, since: int, done: nat, until: int)

  // The operations on one inner map, in order, and the Clear that detached it.
  datatype Epoch = Epoch(events: seq<Event>, end: Option<Event>)

  datatype Home = Home(key: Key, epoch: nat)

  datatype State = State(
    agents: map<Key, nat>,               // the outer map: key -> pointer
    heap: seq<Fields>,                   // the inner maps
    written: seq<int>,                   // when each was last written
    threads: map<nat, Thread>,
    now: int,
    clock: nat,                          // number of steps so far
    // history
    homes: seq<Home>,                    // for each inner map its key and epoch
    order: map<Key, seq<Epoch>>,
    finished: seq<Event>)                // completed operations as they completed

  function Init(): State {
    State(map[], [], [], map[], 0, 0, [], map[], [])
  }

  function EpochsOf(order: map<Key, seq<Epoch>>, k: Key): seq<Epoch> {
    if k in order then order[k] else [Epoch([], None)]
  }

  datatype Action =
    | Invoke(tid: nat, op: Op)
    | Lookup(tid: nat)                                       // under the outer read lock
    | CreateInner(tid: nat)                                  // under the outer write lock, with the double check
    | Stamp(tid: nat, created: int, stamped: int)            // the two time.Now() calls of Set
    | Work(tid: nat, from: int, listed: Fields)              // under the inner lock, which a reader has held since from
    | ClearAgent(tid: nat)                                   // under the outer write lock
    | Sweep(p: nat, from: int, dropped: set<string>)         // one inner map of a GC pass

  predicate Enabled(s: State, a: Action, t: int) {
    && s.now <= t
    && match a
       case Invoke(tid, _) => tid !in s.threads
       case Lookup(tid) => tid in s.threads && s.threads[tid].at.Invoked? && !s.threads[tid].op.Clear?
       case CreateInner(tid) => tid in s.threads && s.threads[tid].at.Missed?
       case Stamp(tid, created, stamped) =>
         && tid in s.threads && s.threads[tid].at.Holds? && s.threads[tid].op.Set?
         && s.threads[tid].since <= created <= stamped <= t
       case Work(tid, from, listed) =>
         && tid in s.threads
         && (if s.threads[tid].op.Set? then s.threads[tid].at.Stamped? else s.threads[tid].at.Holds?)
         && s.threads[tid].at.p < |s.heap| && s.threads[tid].at.p < |s.written|
         && s.threads[tid].since <= from <= t && s.written[s.threads[tid].at.p] <= from
         && (s.threads[tid].op.List? ==> ListedFrom(s.heap[s.threads[tid].at.p], listed, from, t))
       case ClearAgent(tid) => tid in s.threads && s.threads[tid].at.Invoked? && s.threads[tid].op.Clear?
       case Sweep(p, from, dropped) =>
         p < |s.heap| && p < |s.written| && s.written[p] <= from <= t && SweptFrom(s.heap[p], dropped, from, t)
  }

  // A loop over the entries that tests each one at some time between from and to.
  predicate ListedFrom(held: Fields, listed: Fields, from: int, to: int) {
    && (forall f | f in listed :: f in held && listed[f] == held[f] && !Expired(held[f], from))
    && (forall f | f in held && !Expired(held[f], to) :: f in listed)
  }

  predicate SweptFrom(held: Fields, dropped: set<string>, from: int, to: int) {
    && (forall f | f in dropped :: f in held && Expired(held[f], to))
    && (forall f | f in held && Expired(held[f], from) :: f in dropped)
  }

  function Tick(s: State, t: int): State {
    s.(now := t, clock := s.clock + 1)
  }

  function MoveTo(s: State, tid: nat, at: Where): State
    requires tid in s.threads
  {
    s.(threads := s.threads[tid := s.threads[tid].(at := at)])
  }

  function EventOf(s: State, tid: nat, outcome: Outcome, t: int): Event
    requires tid in s.threads
  {
    var th := s.threads[tid];
    Event(th.op, outcome, th.invoked, th.since, s.clock, t)
  }

  // One event more at the end of epoch e.
  function Extended(es: seq<Epoch>, e: nat, ev: Event): seq<Epoch>
    requires e < |es|
  {
    es[e := es[e].(events := es[e].events + [ev])]
  }

  // The current epoch closed by a Clear, and a new one.
  function Closed(es: seq<Epoch>, ev: Event): seq<Epoch>
    requires es != []
  {
    es[|es| - 1 := es[|es| - 1].(end := Some(ev))] + [Epoch([], None)]
  }

  // The operation takes effect as the last event of the given epoch, and returns.
  function Finish(s: State, tid: nat, epoch: nat, ev: Event): State
    requires epoch < |EpochsOf(s.order, ev.op.key)|
  {
    var es := EpochsOf(s.order, ev.op.key);
    s.(threads := s.threads - {tid},
       order := s.order[ev.op.key := Extended(es, epoch, ev)],
       finished := s.finished + [ev])
  }

  // Clear closes the current epoch and opens a new one.
  function FinishClear(s: State, tid: nat, ev: Event): State
    requires EpochsOf(s.order, ev.op.key) != []
  {
    var es := EpochsOf(s.order, ev.op.key);
    s.(threads := s.threads - {tid},
       order := s.order[ev.op.key := Closed(es, ev)],
       finished := s.finished + [ev])
  }

  function MissOutcome(op: Op, s: State, t: int): Outcome {
    match op
    case Get(_, _) => Saw(None, t)
    case List(_) => Listed(map[], t)
    case _ => Done
  }

  function WorkOutcome(th: Thread, held: Fields, listed: Fields, from: int): Outcome
    requires th.op.Set? ==> th.at.Stamped?
  {
    match th.op
    case Set(_, _, _, _) => Stored(th.at.entry)
    case Get(_, field) => Saw(Read(held, field, from), from)
    case List(_) => Listed(listed, from)
    case _ => Done
  }

  function WorkOn(th: Thread, held: Fields): Fields
    requires th.op.Set? ==> th.at.Stamped?
  {
    match th.op
    case Set(_, field, _, _) => held[field := th.at.entry]
    case Delete(_, field) => held - {field}
    case _ => held
  }

  predicate Structured(s: State) {
    && |s.homes| == |s.heap| == |s.written|
    && (forall p | 0 <= p < |s.written| :: s.written[p] <= s.now)
    && (forall k | k in s.order :: s.order[k] != [])
    && (forall p | 0 <= p < |s.homes| :: s.homes[p].epoch < |EpochsOf(s.order, s.homes[p].key)|)
    && (forall tid | tid in s.threads && (s.threads[tid].at.Holds? || s.threads[tid].at.Stamped?) ::
          && s.threads[tid].at.p < |s.homes|
          && s.homes[s.threads[tid].at.p].key == s.threads[tid].op.key)
  }

  function Step(s: State, a: Action, t: int): State
    requires Structured(s) && Enabled(s, a, t)
  {
    match a
    case Invoke(tid, op) => Tick(s.(threads := s.threads[tid := Thread(op, s.clock, t, Invoked)]), t)
    case Lookup(tid) =>
      var op := s.threads[tid].op;
      if op.key in s.agents then Tick(MoveTo(s, tid, Holds(s.agents[op.key])), t)
      else if op.Set? then Tick(MoveTo(s, tid, Missed), t)
      else Tick(Finish(s, tid, |EpochsOf(s.order, op.key)| - 1, EventOf(s, tid, MissOutcome(op, s, t), t)), t)
    case CreateInner(tid) =>
      var key := s.threads[tid].op.key;
      if key in s.agents then Tick(MoveTo(s, tid, Holds(s.agents[key])), t)
      else
        Tick(MoveTo(s, tid, Holds(|s.heap|)), t).(
          agents := s.agents[key := |s.heap|],
          heap := s.heap + [map[]],
          written := s.written + [t],
          homes := s.homes + [Home(key, |EpochsOf(s.order, key)| - 1)])
    case Stamp(tid, created, stamped) =>
      var op := s.threads[tid].op;
      Tick(MoveTo(s, tid, Stamped(s.threads[tid].at.p, NewEntry(op.value, op.ttl, created, stamped))), t)
    case Work(tid, from, listed) =>
      var th := s.threads[tid];
      var held := s.heap[th.at.p];
      Tick(Finish(s, tid, s.homes[th.at.p].epoch, EventOf(s, tid, WorkOutcome(th, held, listed, from), t)), t).(
        heap := s.heap[th.at.p := WorkOn(th, held)],
        written := if th.op.Set? || th.op.Delete? then s.written[th.at.p := t] else s.written)
    case ClearAgent(tid) =>
      Tick(FinishClear(s, tid, EventOf(s, tid, Done, t)), t).(agents := s.agents - {s.threads[tid].op.key})
    case Sweep(p, _, dropped) => Tick(s, t).(heap := s.heap[p := s.heap[p] - dropped], written := s.written[p := t])
  }

  // ------------------------------------------------------------------ the sequential specification

  // One operation on the plain TTL map of one agent: what it returns is right, and when it looked was during the call.
  predicate Legal(m: Fields, ev: Event) {
    && ev.since <= ev.until
    && match ev.op
       case Set(_, field, value, ttl) =>
         && ev.outcome.Stored?
         && var e := ev.outcome.entry;
            && e.value == value
            && ev.since <= e.createdAt <= ev.until
            && (e.expiresAt.Some? <==> ttl > 0)
            && (ttl > 0 ==> e.createdAt + ttl <= e.expiresAt.value <= ev.until + ttl)
       case Get(_, field) =>
         && ev.outcome.Saw?
         && ev.since <= ev.outcome.readAt <= ev.until
         && ev.outcome.found == Read(m, field, ev.outcome.readAt)
       case List(_) =>
         && ev.outcome.Listed?
         && ev.since <= ev.outcome.from
         && ListedFrom(m, ev.outcome.fields, ev.outcome.from, ev.until)
       case _ => ev.outcome.Done?
  }

  function Effect(m: Fields, ev: Event): Fields {
    match ev.op
    case Set(_, field, _, _) => if ev.outcome.Stored? then m[field := ev.outcome.entry] else m
    case Delete(_, field) => m - {field}
    case Clear(_) => map[]
    case _ => m
  }

  function Replay(m: Fields, events: seq<Event>): Fields {
    if events == [] then m else Effect(Replay(m, events[..|events| - 1]), events[|events| - 1])
  }

  predicate LegalFrom(m: Fields, events: seq<Event>) {
    forall i | 0 <= i < |events| :: Legal(Replay(m, events[..i]), events[i])
  }

  // No operation is ordered before one that had returned when it was invoked.
  predicate RespectsRealTime(events: seq<Event>) {
    forall i, j | 0 <= i < j < |events| :: events[i].invoked <= events[j].done
  }

  function ItemsOf(e: Epoch): seq<Event> {
    e.events + (if e.end.Some? then [e.end.value] else [])
  }

  function Linearization(es: seq<Epoch>): seq<Event> {
    if es == [] then [] else Linearization(es[..|es| - 1]) + ItemsOf(es[|es| - 1])
  }

  // ------------------------------------------------------------------ the history of one key

  predicate TimedEvent(ev: Event, clock: nat) {
    ev.invoked <= ev.done < clock
  }

  // Facts about epoch e that hold by itself.
  predicate EpochOk(e: Epoch, clock: nat) {
    && LegalFrom(map[], e.events)
    && InTurn(e.events, clock)
    && (e.end.Some? ==>
          && TimedEvent(e.end.value, clock) && e.end.value.op.Clear? && Legal(map[], e.end.value)
          && forall i | 0 <= i < |e.events| :: e.events[i].invoked <= e.end.value.done)
  }

  // Everything in epoch e completed after Clear c.
  predicate Follows(c: Event, e: Epoch) {
    && (forall i | 0 <= i < |e.events| :: c.done <= e.events[i].done)
    && (e.end.Some? ==> c.done <= e.end.value.done)
  }

  predicate HistoryOk(es: seq<Epoch>, clock: nat) {
    && es != []
    && (forall i | 0 <= i < |es| :: EpochOk(es[i], clock) && (es[i].end.Some? <==> i < |es| - 1))
    && (forall i, j | 0 <= i < j < |es| :: Follows(es[i].end.value, es[j]))
  }

  lemma LegalFromAppend(m: Fields, events: seq<Event>, ev: Event)
    requires LegalFrom(m, events) && Legal(Replay(m, events), ev)
    ensures LegalFrom(m, events + [ev])
    ensures Replay(m, events + [ev]) == Effect(Replay(m, events), ev)
  {
    hide Legal, Effect;
    var longer := events + [ev];
    assert longer[..|events|] == events;
    forall i | 0 <= i < |longer|
      ensures Legal(Replay(m, longer[..i]), longer[i])
    {
      if i < |events| {
        assert longer[..i] == events[..i];
      }
    }
  }

  // The events took place one after the other, none of them a Clear.
  predicate InTurn(events: seq<Event>, clock: nat) {
    && (forall i | 0 <= i < |events| :: TimedEvent(events[i], clock) && !events[i].op.Clear?)
    && (forall i, j | 0 <= i < j < |events| :: events[i].done <= events[j].done)
  }

  lemma InTurnAppend(events: seq<Event>, clock: nat, ev: Event)
    requires InTurn(events, clock) && !ev.op.Clear? && ev.invoked <= ev.done == clock
    ensures InTurn(events + [ev], clock + 1)
  {
    forall i | 0 <= i < |events|
      ensures TimedEvent(events[i], clock)
    {
    }
  }

  lemma AppendKeepsEpoch(e: Epoch, clock: nat, ev: Event)
    requires EpochOk(e, clock)
    requires Legal(Replay(map[], e.events), ev) && !ev.op.Clear? && ev.invoked <= ev.done == clock
    requires e.end.Some? ==> ev.invoked <= e.end.value.done
    ensures EpochOk(e.(events := e.events + [ev]), clock + 1)
  {
    LegalFromAppend(map[], e.events, ev);
    InTurnAppend(e.events, clock, ev);
    hide Legal, LegalFrom, Replay, Effect, InTurn;
  }

  lemma EpochOkLater(e: Epoch, clock: nat)
    requires EpochOk(e, clock)
    ensures EpochOk(e, clock + 1)
  {
    hide Legal, LegalFrom;
    assert forall i | 0 <= i < |e.events| :: TimedEvent(e.events[i], clock) ==> TimedEvent(e.events[i], clock + 1);
  }

  lemma HistoryOkLater(es: seq<Epoch>, clock: nat)
    requires HistoryOk(es, clock)
    ensures HistoryOk(es, clock + 1)
  {
    hide EpochOk, Follows;
    forall i | 0 <= i < |es|
      ensures EpochOk(es[i], clock + 1)
    {
      EpochOkLater(es[i], clock);
    }
  }

  lemma AppendKeepsFollows(c: Event, e: Epoch, ev: Event)
    requires Follows(c, e) && c.done <= ev.done
    ensures Follows(c, e.(events := e.events + [ev]))
  {
  }

  // An operation lands in epoch e, detached or not.
  lemma AppendKeepsHistory(es: seq<Epoch>, clock: nat, e: nat, ev: Event)
    requires HistoryOk(es, clock) && e < |es|
    requires Legal(Replay(map[], es[e].events), ev) && !ev.op.Clear? && ev.invoked <= ev.done == clock
    requires es[e].end.Some? ==> ev.invoked <= es[e].end.value.done
    ensures HistoryOk(Extended(es, e, ev), clock + 1)
  {
    AppendKeepsEpoch(es[e], clock, ev);
    var es' := Extended(es, e, ev);
    forall i | 0 <= i < |es'|
      ensures EpochOk(es'[i], clock + 1)
    {
      if i != e {
        EpochOkLater(es[i], clock);
      }
    }
    forall i, j | 0 <= i < j < |es'|
      ensures Follows(es'[i].end.value, es'[j])
    {
      assert EpochOk(es[i], clock) && Follows(es[i].end.value, es[j]);
      if j == e {
        assert TimedEvent(es[i].end.value, clock);
        AppendKeepsFollows(es[i].end.value, es[e], ev);
      }
    }
    hide EpochOk, Follows;
  }

  lemma EndKeepsEpoch(e: Epoch, clock: nat, ev: Event)
    requires EpochOk(e, clock) && e.end.None?
    requires ev.op.Clear? && Legal(map[], ev) && ev.invoked <= ev.done == clock
    ensures EpochOk(e.(end := Some(ev)), clock + 1)
  {
    EpochOkLater(e, clock);
    hide Legal, LegalFrom;
    forall i | 0 <= i < |e.events|
      ensures e.events[i].invoked <= ev.done
    {
      assert TimedEvent(e.events[i], clock);
    }
  }

  // A Clear ends the current epoch and opens the next.
  lemma ClearKeepsHistory(es: seq<Epoch>, clock: nat, ev: Event)
    requires HistoryOk(es, clock)
    requires ev.op.Clear? && Legal(map[], ev) && ev.invoked <= ev.done == clock
    ensures HistoryOk(Closed(es, ev), clock + 1)
  {
    var n := |es| - 1;
    var es' := Closed(es, ev);
    EndKeepsEpoch(es[n], clock, ev);
    assert EpochOk(Epoch([], None), clock + 1);
    forall i | 0 <= i < |es'|
      ensures EpochOk(es'[i], clock + 1)
    {
      if i < n {
        EpochOkLater(es[i], clock);
      }
    }
    forall i, j | 0 <= i < j < |es'|
      ensures Follows(es'[i].end.value, es'[j])
    {
      if j <= n {
        assert EpochOk(es[i], clock) && Follows(es[i].end.value, es[j]);
        assert TimedEvent(es[i].end.value, clock);
      }
    }
    hide EpochOk, Follows;
  }

  // ------------------------------------------------------------------ the linearization of a good history

  lemma {:induction false} ReplayAppend(m: Fields, xs: seq<Event>, ys: seq<Event>)
    ensures Replay(m, xs + ys) == Replay(Replay(m, xs), ys)
    decreases |ys|
  {
    hide Effect;
    if ys == [] {
      assert xs + ys == xs;
    } else {
      var n := |ys| - 1;
      assert (xs + ys)[..|xs| + n] == xs + ys[..n];
      ReplayAppend(m, xs, ys[..n]);
    }
  }

  lemma LegalAppend(m: Fields, xs: seq<Event>, ys: seq<Event>)
    requires LegalFrom(m, xs) && LegalFrom(Replay(m, xs), ys)
    ensures LegalFrom(m, xs + ys)
  {
    hide Legal, Replay;
    forall i | 0 <= i < |xs + ys|
      ensures Legal(Replay(m, (xs + ys)[..i]), (xs + ys)[i])
    {
      if i < |xs| {
        assert (xs + ys)[..i] == xs[..i];
      } else {
        assert (xs + ys)[..i] == xs + ys[..i - |xs|];
        ReplayAppend(m, xs, ys[..i - |xs|]);
      }
    }
  }

  lemma ItemsLegal(e: Epoch, clock: nat)
    requires EpochOk(e, clock)
    ensures LegalFrom(map[], ItemsOf(e))
    ensures e.end.Some? ==> Replay(map[], ItemsOf(e)) == map[]
  {
    if e.end.Some? {
      var c := e.end.value;
      assert Legal(Replay(map[], e.events), c);
      LegalFromAppend(map[], e.events, c);
    } else {
      assert ItemsOf(e) == e.events;
    }
  }

  lemma {:induction false} LinearizationLegal(es: seq<Epoch>, clock: nat)
    requires forall i | 0 <= i < |es| :: EpochOk(es[i], clock) && (i < |es| - 1 ==> es[i].end.Some?)
    ensures LegalFrom(map[], Linearization(es))
    ensures es != [] && es[|es| - 1].end.Some? ==> Replay(map[], Linearization(es)) == map[]
    decreases |es|
  {
    if es != [] {
      var n := |es| - 1;
      hide EpochOk, LegalFrom, Replay;
      LinearizationLegal(es[..n], clock);
      assert Replay(map[], Linearization(es[..n])) == map[] by {
        if n == 0 {
          ReplayNothing();
        }
      }
      ItemsLegal(es[n], clock);
      LegalAppend(map[], Linearization(es[..n]), ItemsOf(es[n]));
      ReplayAppend(map[], Linearization(es[..n]), ItemsOf(es[n]));
    }
  }

  lemma ReplayNothing()
    ensures Replay(map[], []) == map[]
  {
  }

  predicate InvokedBy(events: seq<Event>, bound: nat) {
    forall i | 0 <= i < |events| :: events[i].invoked <= bound
  }

  predicate DoneFrom(events: seq<Event>, bound: nat) {
    forall i | 0 <= i < |events| :: bound <= events[i].done
  }

  lemma RealTimeAppend(xs: seq<Event>, ys: seq<Event>, bound: nat)
    requires RespectsRealTime(xs) && RespectsRealTime(ys) && InvokedBy(xs, bound) && DoneFrom(ys, bound)
    ensures RespectsRealTime(xs + ys)
  {
  }

  lemma ItemsRealTime(e: Epoch, clock: nat)
    requires EpochOk(e, clock)
    ensures RespectsRealTime(ItemsOf(e))
    ensures e.end.Some? ==> InvokedBy(ItemsOf(e), e.end.value.done)
  {
    hide LegalFrom, Legal;
    forall i, j | 0 <= i < j < |e.events|
      ensures e.events[i].invoked <= e.events[j].done
    {
      assert TimedEvent(e.events[i], clock);
    }
  }

  lemma FollowingItems(c: Event, e: Epoch)
    requires Follows(c, e)
    ensures DoneFrom(ItemsOf(e), c.done)
  {
  }

  lemma {:induction false} LinearizationRealTime(es: seq<Epoch>, clock: nat)
    requires forall i | 0 <= i < |es| :: EpochOk(es[i], clock) && (i < |es| - 1 ==> es[i].end.Some?)
    requires forall i, j | 0 <= i < j < |es| :: Follows(es[i].end.value, es[j])
    ensures RespectsRealTime(Linearization(es))
    ensures es != [] && es[|es| - 1].end.Some? ==> InvokedBy(Linearization(es), es[|es| - 1].end.value.done)
    decreases |es|
  {
    if es != [] {
      var n := |es| - 1;
      LinearizationRealTime(es[..n], clock);
      ItemsRealTime(es[n], clock);
      if n > 0 {
        var c := es[n - 1].end.value;
        assert Follows(c, es[n]);
        FollowingItems(c, es[n]);
        hide EpochOk, RespectsRealTime;
        RealTimeAppend(Linearization(es[..n]), ItemsOf(es[n]), c.done);
      } else {
        assert Linearization(es) == ItemsOf(es[0]);
      }
    }
  }

  lemma {:induction false} LinearizationContains(es: seq<Epoch>, e: nat, ev: Event)
    requires e < |es|
    ensures multiset(Linearization(Extended(es, e, ev)))
            == multiset(Linearization(es)) + multiset{ev}
    decreases |es|
  {
    var n := |es| - 1;
    var es' := Extended(es, e, ev);
    var before, before' := Linearization(es[..n]), Linearization(es'[..n]);
    assert Linearization(es) == before + ItemsOf(es[n]);
    assert Linearization(es') == before' + ItemsOf(es'[n]);
    if e < n {
      assert es'[..n] == Extended(es[..n], e, ev);
      LinearizationContains(es[..n], e, ev);
      assert multiset(before') == multiset(before) + multiset{ev} && es'[n] == es[n];
    } else {
      assert es'[..n] == es[..n];
      ItemsGain(es[n], ev);
      assert before' == before;
    }
    hide Linearization, ItemsOf;
    MultisetOfParts(before', ItemsOf(es'[n]));
    MultisetOfParts(before, ItemsOf(es[n]));
  }

  lemma MultisetOfParts<T>(a: seq<T>, b: seq<T>)
    ensures multiset(a + b) == multiset(a) + multiset(b)
  {
  }

  lemma ItemsGain(e: Epoch, ev: Event)
    ensures multiset(ItemsOf(e.(events := e.events + [ev]))) == multiset(ItemsOf(e)) + multiset{ev}
  {
  }

  lemma {:induction false} LastEpoch(es: seq<Epoch>)
    requires es != []
    ensures Linearization(es) == Linearization(es[..|es| - 1]) + ItemsOf(es[|es| - 1])
  {
  }

  lemma {:induction false} LinearizationOfClear(es: seq<Epoch>, ev: Event)
    requires es != [] && es[|es| - 1].end.None?
    ensures Linearization(Closed(es, ev)) == Linearization(es) + [ev]
  {
    var n := |es| - 1;
    var es' := Closed(es, ev);
    var closed := es'[..n + 1];
    assert closed[..n] == es[..n] && es'[n + 1] == Epoch([], None);
    assert ItemsOf(closed[n]) == ItemsOf(es[n]) + [ev] && ItemsOf(es'[n + 1]) == [];
    hide Linearization, ItemsOf;
    LastEpoch(es');
    LastEpoch(closed);
    LastEpoch(es);
  }

  // ------------------------------------------------------------------ the invariant of the interleaving

  function Epochs(s: State, k: Key): seq<Epoch> {
    EpochsOf(s.order, k)
  }

  // The epoch of an inner map is the current one exactly while the outer map points to it.
  predicate MapsOk(s: State) {
    && Structured(s)
    && (forall k | k in s.agents :: s.agents[k] < |s.homes| && s.homes[s.agents[k]] == Home(k, |Epochs(s, k)| - 1))
    && (forall p | 0 <= p < |s.homes| && s.homes[p].epoch == |Epochs(s, s.homes[p].key)| - 1 ::
          s.homes[p].key in s.agents && s.agents[s.homes[p].key] == p)
    && (forall p, q | 0 <= p < q < |s.homes| :: s.homes[p] != s.homes[q])
  }

  // Each inner map stands for the replay of its epoch; with no inner map the current epoch has stored nothing.
  ghost predicate ContentsOk(s: State) {
    && Structured(s)
    && (forall p | 0 <= p < |s.heap| ::
          Stands(s.heap[p], Replay(map[], Epochs(s, s.homes[p].key)[s.homes[p].epoch].events), s.written[p]))
    && (forall k: Key | k !in s.agents :: Replay(map[], Epochs(s, k)[|Epochs(s, k)| - 1].events) == map[])
  }

  predicate Fits(th: Thread, now: int) {
    && th.op.Set? && th.at.Stamped?
    && var e := th.at.entry;
       && e.value == th.op.value
       && th.since <= e.createdAt <= now
       && (e.expiresAt.Some? <==> th.op.ttl > 0)
       && (th.op.ttl > 0 ==> e.createdAt + th.op.ttl <= e.expiresAt.value <= now + th.op.ttl)
  }

  predicate ThreadOk(s: State, th: Thread) {
    && th.invoked <= s.clock && th.since <= s.now
    && (th.at.Stamped? ==> Fits(th, s.now))
    && (th.at.Missed? ==> th.op.Set?)
    && (th.at.Holds? || th.at.Stamped? ==>
          && !th.op.Clear?
          && th.at.p < |s.homes| && s.homes[th.at.p].key == th.op.key
          && s.homes[th.at.p].epoch < |Epochs(s, th.op.key)|
          && var end := Epochs(s, th.op.key)[s.homes[th.at.p].epoch].end;
             end.Some? ==> th.invoked <= end.value.done)
  }

  predicate ThreadsOk(s: State) {
    forall tid | tid in s.threads :: ThreadOk(s, s.threads[tid])
  }

  predicate HistoriesOk(s: State) {
    forall k | k in s.order :: HistoryOk(s.order[k], s.clock)
  }

  ghost predicate Inv(s: State) {
    MapsOk(s) && ContentsOk(s) && ThreadsOk(s) && HistoriesOk(s)
  }

  // ------------------------------------------------------------------ every step keeps it

  // How one step may change what a waiting thread depends on.
  ghost predicate Grows(s: State, s': State) {
    && s'.clock == s.clock + 1 && s.now <= s'.now
    && |s.homes| <= |s'.homes| && (forall p | 0 <= p < |s.homes| :: s'.homes[p] == s.homes[p])
    && (forall k: Key | true :: EpochsGrow(Epochs(s, k), Epochs(s', k), s.clock))
  }

  predicate EpochsGrow(es: seq<Epoch>, es': seq<Epoch>, clock: nat) {
    && |es| <= |es'|
    && forall e | 0 <= e < |es| ::
         es'[e].end == es[e].end || (es[e].end.None? && es'[e].end.Some? && es'[e].end.value.done == clock)
  }

  lemma ThreadOkGrows(s: State, s': State, th: Thread)
    requires ThreadOk(s, th) && Grows(s, s')
    ensures ThreadOk(s', th)
  {
    assert EpochsGrow(Epochs(s, th.op.key), Epochs(s', th.op.key), s.clock);
    hide EpochsOf;
  }

  lemma ThreadsGrow(s: State, s': State, moved: nat)
    requires ThreadsOk(s) && Grows(s, s')
    requires forall tid | tid in s'.threads && tid != moved :: tid in s.threads && s'.threads[tid] == s.threads[tid]
    requires moved in s'.threads ==> ThreadOk(s', s'.threads[moved])
    ensures ThreadsOk(s')
  {
    hide ThreadOk, Grows;
    forall tid | tid in s'.threads && tid != moved
      ensures ThreadOk(s', s'.threads[tid])
    {
      ThreadOkGrows(s, s', s.threads[tid]);
    }
  }

  lemma HistoriesLater(s: State, s': State)
    requires HistoriesOk(s) && s'.order == s.order && s'.clock == s.clock + 1
    ensures HistoriesOk(s')
  {
    hide HistoryOk;
    forall k | k in s.order
      ensures HistoryOk(s.order[k], s'.clock)
    {
      HistoryOkLater(s.order[k], s.clock);
    }
  }

  lemma ContentsLater(s: State, s': State)
    requires ContentsOk(s)
    requires s'.agents == s.agents && s'.heap == s.heap && s'.written == s.written && s'.homes == s.homes
        && s'.order == s.order && s.now <= s'.now
    requires Structured(s')
    ensures ContentsOk(s')
  {
    hide Replay;
  }

  // s' differs from s in one thread and the time.
  ghost predicate OnlyMoved(s: State, s': State, moved: nat) {
    && s'.agents == s.agents && s'.heap == s.heap && s'.written == s.written && s'.homes == s.homes
    && s'.order == s.order
    && s.now <= s'.now && s'.clock == s.clock + 1
    && (forall tid | tid in s'.threads && tid != moved :: tid in s.threads && s'.threads[tid] == s.threads[tid])
    && (moved in s'.threads ==> ThreadOk(s', s'.threads[moved]))
  }

  lemma MoveKeepsMaps(s: State, s': State, moved: nat)
    requires MapsOk(s) && OnlyMoved(s, s', moved)
    ensures MapsOk(s')
  {
    hide ThreadOk;
    if moved in s'.threads && (s'.threads[moved].at.Holds? || s'.threads[moved].at.Stamped?) {
      HolderHasHome(s', s'.threads[moved]);
    }
  }

  // A step that only moves one thread along.
  lemma MoveKeepsInv(s: State, s': State, moved: nat)
    requires Inv(s) && OnlyMoved(s, s', moved)
    ensures Inv(s')
  {
    hide HistoriesOk, Replay, ThreadOk, MapsOk, ContentsOk;
    ThreadsGrow(s, s', moved);
    hide ThreadsOk;
    HistoriesLater(s, s');
    MoveKeepsMaps(s, s', moved);
    MapsAreStructured(s');
    ContentsLater(s, s');
  }

  lemma HolderHasHome(s: State, th: Thread)
    requires ThreadOk(s, th) && (th.at.Holds? || th.at.Stamped?)
    ensures th.at.p < |s.homes| && s.homes[th.at.p].key == th.op.key
  {
  }

  // The current epoch of any key is open.
  lemma CurrentEpochOpen(s: State, k: Key)
    requires HistoriesOk(s)
    ensures Epochs(s, k) != [] && Epochs(s, k)[|Epochs(s, k)| - 1].end.None?
    ensures HistoryOk(Epochs(s, k), s.clock)
  {
    if k !in s.order {
      assert EpochOk(Epoch([], None), s.clock);
    }
  }

  // A pointer just read from the outer map belongs to the current epoch.
  lemma AttachedThreadOk(s: State, s': State, th: Thread)
    requires MapsOk(s) && HistoriesOk(s) && th.op.key in s.agents && !th.op.Clear?
    requires th.at == Holds(s.agents[th.op.key]) && th.invoked <= s.clock && th.since <= s.now
    requires s'.homes == s.homes && s'.order == s.order && s'.clock == s.clock + 1 && s.now <= s'.now
    ensures ThreadOk(s', th)
  {
    CurrentEpochOpen(s, th.op.key);
    hide HistoriesOk, HistoryOk, EpochsOf;
  }

  lemma FittingStamp(s: State, th: Thread, created: int, stamped: int, t: int)
    requires ThreadOk(s, th) && th.op.Set? && th.at.Holds? && th.since <= created <= stamped <= t
    ensures Fits(th.(at := Stamped(th.at.p, NewEntry(th.op.value, th.op.ttl, created, stamped))), t)
  {
  }

  lemma StampKeepsInv(s: State, a: Action, t: int)
    requires Inv(s) && Enabled(s, a, t) && a.Stamp?
    ensures Inv(Step(s, a, t))
  {
    assert ThreadOk(s, s.threads[a.tid]);
    FittingStamp(s, s.threads[a.tid], a.created, a.stamped, t);
    assert Structured(s);
    hide MapsOk, ContentsOk, HistoriesOk, ThreadsOk, EpochsOf, Structured, Fits;
    MoveKeepsInv(s, Step(s, a, t), a.tid);
  }

  lemma InvokeKeepsInv(s: State, a: Action, t: int)
    requires Inv(s) && Enabled(s, a, t) && a.Invoke?
    ensures Inv(Step(s, a, t))
  {
    assert Structured(s);
    hide MapsOk, ContentsOk, HistoriesOk, ThreadsOk, EpochsOf, Structured;
    MoveKeepsInv(s, Step(s, a, t), a.tid);
  }

  lemma LookupHitKeepsInv(s: State, a: Action, t: int)
    requires Inv(s) && Enabled(s, a, t)
    requires (a.Lookup? || a.CreateInner?) && s.threads[a.tid].op.key in s.agents
    ensures Inv(Step(s, a, t))
  {
    var th := s.threads[a.tid];
    assert ThreadOk(s, th);
    AttachedThreadOk(s, Step(s, a, t), th.(at := Holds(s.agents[th.op.key])));
    assert Structured(s);
    hide MapsOk, ContentsOk, HistoriesOk, ThreadsOk, EpochsOf, Structured;
    MoveKeepsInv(s, Step(s, a, t), a.tid);
  }

  lemma LookupMissSetKeepsInv(s: State, a: Action, t: int)
    requires Inv(s) && Enabled(s, a, t) && a.Lookup? && s.threads[a.tid].op.Set? && s.threads[a.tid].op.key !in s.agents
    ensures Inv(Step(s, a, t))
  {
    assert ThreadOk(s, s.threads[a.tid]);
    assert Structured(s);
    hide MapsOk, ContentsOk, HistoriesOk, ThreadsOk, EpochsOf, Structured;
    MoveKeepsInv(s, Step(s, a, t), a.tid);
  }

  // ---- steps in which an operation takes effect

  // s' is s after ev took effect at the end of epoch e of its key, apart from the contents of the inner maps.
  ghost predicate Took(s: State, tid: nat, e: nat, ev: Event, s': State) {
    var es := Epochs(s, ev.op.key);
    && e < |es|
    && s'.agents == s.agents && s'.homes == s.homes && |s'.heap| == |s.heap|
    && |s'.written| == |s.written| && (forall p | 0 <= p < |s'.written| :: s'.written[p] <= s'.now)
    && s'.threads == s.threads - {tid}
    && s'.order == s.order[ev.op.key := Extended(es, e, ev)]
    && s'.clock == s.clock + 1 && s.now <= s'.now
  }

  // ev may be the last event of epoch e.
  ghost predicate MayEnd(s: State, e: nat, ev: Event) {
    var es := Epochs(s, ev.op.key);
    && e < |es|
    && Legal(Replay(map[], es[e].events), ev) && !ev.op.Clear?
    && ev.invoked <= ev.done == s.clock
    && (es[e].end.Some? ==> ev.invoked <= es[e].end.value.done)
  }

  lemma TookKeepsHistories(s: State, tid: nat, e: nat, ev: Event, s': State)
    requires HistoriesOk(s) && Took(s, tid, e, ev, s') && MayEnd(s, e, ev)
    ensures HistoriesOk(s')
  {
    CurrentEpochOpen(s, ev.op.key);
    AppendKeepsHistory(Epochs(s, ev.op.key), s.clock, e, ev);
    hide HistoryOk, Legal, Replay, Extended, HistoriesOk, EpochsOf;
    OneHistoryChanges(s, s', ev.op.key);
  }

  lemma TookGrows(s: State, tid: nat, e: nat, ev: Event, s': State)
    requires Took(s, tid, e, ev, s')
    ensures Grows(s, s')
  {
    forall k: Key
      ensures EpochsGrow(Epochs(s, k), Epochs(s', k), s.clock)
    {
    }
  }

  lemma TookKeepsMaps(s: State, tid: nat, e: nat, ev: Event, s': State)
    requires MapsOk(s) && Took(s, tid, e, ev, s')
    ensures MapsOk(s')
  {
    assert forall k: Key :: |Epochs(s', k)| == |Epochs(s, k)|;
    hide EpochsOf;
  }

  lemma TookKeepsThreads(s: State, tid: nat, e: nat, ev: Event, s': State)
    requires ThreadsOk(s) && Took(s, tid, e, ev, s')
    ensures ThreadsOk(s')
  {
    TookGrows(s, tid, e, ev, s');
    hide Grows, ThreadOk, Took;
    assert s'.threads == s.threads - {tid} by {
      TookThreads(s, tid, e, ev, s');
    }
    ThreadsGrow(s, s', tid);
  }

  lemma TookThreads(s: State, tid: nat, e: nat, ev: Event, s': State)
    requires Took(s, tid, e, ev, s')
    ensures s'.threads == s.threads - {tid}
  {
  }

  lemma ReplayOfAppend(m: Fields, events: seq<Event>, ev: Event)
    ensures Replay(m, events + [ev]) == Effect(Replay(m, events), ev)
  {
    assert (events + [ev])[..|events|] == events;
  }

  lemma TookLeavesOtherEpochs(s: State, tid: nat, e: nat, ev: Event, s': State, k: Key, i: nat)
    requires Took(s, tid, e, ev, s') && i < |Epochs(s, k)| && (k != ev.op.key || i != e)
    ensures |Epochs(s', k)| == |Epochs(s, k)| && Epochs(s', k)[i] == Epochs(s, k)[i]
  {
  }

  lemma TookExtendsEpoch(s: State, tid: nat, e: nat, ev: Event, s': State)
    requires Took(s, tid, e, ev, s')
    ensures |Epochs(s', ev.op.key)| == |Epochs(s, ev.op.key)|
    ensures e < |Epochs(s, ev.op.key)|
    ensures Replay(map[], Epochs(s', ev.op.key)[e].events) == Effect(Replay(map[], Epochs(s, ev.op.key)[e].events), ev)
  {
    ReplayOfAppend(map[], Epochs(s, ev.op.key)[e].events, ev);
    hide Replay, Effect;
  }

  // With no inner map attached, the current epoch of k' still has stored nothing.
  lemma TookKeepsUnattached(s: State, tid: nat, e: nat, ev: Event, s': State, k': Key)
    requires Structured(s) && ContentsOk(s) && Took(s, tid, e, ev, s') && k' !in s.agents
    requires k' == ev.op.key && e == |Epochs(s, k')| - 1 ==> Effect(map[], ev) == map[]
    ensures Epochs(s', k') != [] && Replay(map[], Epochs(s', k')[|Epochs(s', k')| - 1].events) == map[]
  {
    var last := |Epochs(s, k')| - 1;
    if k' == ev.op.key && e == last {
      TookExtendsEpoch(s, tid, e, ev, s');
    } else {
      TookLeavesOtherEpochs(s, tid, e, ev, s', k', last);
    }
    hide Replay, Effect, EpochsOf;
  }

  // The inner map of epoch e is p; the others are as before.
  lemma TookStands(s: State, tid: nat, e: nat, ev: Event, s': State, p: nat, q: nat)
    requires MapsOk(s) && ContentsOk(s) && Took(s, tid, e, ev, s')
    requires p < |s.homes| && s.homes[p] == Home(ev.op.key, e) && q < |s.heap|
    requires q != p ==> s'.heap[q] == s.heap[q] && s'.written[q] == s.written[q]
    requires Stands(s'.heap[p], Effect(Replay(map[], Epochs(s, ev.op.key)[e].events), ev), s'.written[p])
    ensures s'.homes[q].epoch < |Epochs(s', s'.homes[q].key)|
    ensures Stands(s'.heap[q], Replay(map[], Epochs(s', s'.homes[q].key)[s'.homes[q].epoch].events), s'.written[q])
  {
    hide Replay, Effect, EpochsOf;
    if q != p {
      assert s.homes[q] != s.homes[p];
      TookLeavesOtherEpochs(s, tid, e, ev, s', s.homes[q].key, s.homes[q].epoch);
    } else {
      TookExtendsEpoch(s, tid, e, ev, s');
    }
    hide Stands;
  }

  lemma TookKeepsContents(s: State, tid: nat, e: nat, ev: Event, s': State, p: nat)
    requires MapsOk(s) && ContentsOk(s) && Took(s, tid, e, ev, s') && Structured(s')
    requires p < |s.homes| && s.homes[p] == Home(ev.op.key, e)
    requires forall q | 0 <= q < |s.heap| && q != p :: s'.heap[q] == s.heap[q] && s'.written[q] == s.written[q]
    requires Stands(s'.heap[p], Effect(Replay(map[], Epochs(s, ev.op.key)[e].events), ev), s'.written[p])
    ensures ContentsOk(s')
  {
    hide Replay, Effect, EpochsOf, Stands;
    forall q | 0 <= q < |s'.heap|
      ensures Stands(s'.heap[q], Replay(map[], Epochs(s', s'.homes[q].key)[s'.homes[q].epoch].events), s'.written[q])
    {
      TookStands(s, tid, e, ev, s', p, q);
    }
    forall k': Key | k' !in s'.agents
      ensures Epochs(s', k') != [] && Replay(map[], Epochs(s', k')[|Epochs(s', k')| - 1].events) == map[]
    {
      if k' == ev.op.key {
        assert e != |Epochs(s, k')| - 1;
      }
      TookKeepsUnattached(s, tid, e, ev, s', k');
    }
  }

  // An operation that found no inner map stores nothing, so the empty current epoch stays empty.
  lemma MissKeepsContents(s: State, tid: nat, e: nat, ev: Event, s': State)
    requires MapsOk(s) && ContentsOk(s) && Took(s, tid, e, ev, s') && Structured(s')
    requires ev.op.key !in s.agents && e == |Epochs(s, ev.op.key)| - 1 && s'.heap == s.heap && s'.written == s.written
    requires Effect(map[], ev) == map[]
    ensures ContentsOk(s')
  {
    hide Replay, Effect, EpochsOf;
    forall q | 0 <= q < |s'.heap|
      ensures Stands(s'.heap[q], Replay(map[], Epochs(s', s'.homes[q].key)[s'.homes[q].epoch].events), s'.written[q])
    {
      assert s.homes[q] != Home(ev.op.key, e);
      TookLeavesOtherEpochs(s, tid, e, ev, s', s.homes[q].key, s.homes[q].epoch);
    }
    forall k': Key | k' !in s'.agents
      ensures Epochs(s', k') != [] && Replay(map[], Epochs(s', k')[|Epochs(s', k')| - 1].events) == map[]
    {
      TookKeepsUnattached(s, tid, e, ev, s', k');
    }
  }

  lemma MapsAreStructured(s: State)
    requires MapsOk(s)
    ensures Structured(s)
  {
  }

  lemma MissIsLegal(th: Thread, s: State, t: int)
    requires s.now <= t && th.since <= s.now && !th.op.Set? && !th.op.Clear?
    ensures var ev := Event(th.op, MissOutcome(th.op, s, t), th.invoked, th.since, s.clock, t);
            Legal(map[], ev) && Effect(map[], ev) == map[]
  {
  }

  lemma MissedEventMayEnd(s: State, tid: nat, t: int)
    requires Structured(s) && ContentsOk(s) && ThreadsOk(s) && HistoriesOk(s) && s.now <= t && tid in s.threads
    requires s.threads[tid].op.key !in s.agents && !s.threads[tid].op.Set? && !s.threads[tid].op.Clear?
    ensures var ev := EventOf(s, tid, MissOutcome(s.threads[tid].op, s, t), t);
            MayEnd(s, |Epochs(s, ev.op.key)| - 1, ev) && Effect(map[], ev) == map[]
  {
    var k := s.threads[tid].op.key;
    assert ThreadOk(s, s.threads[tid]);
    MissIsLegal(s.threads[tid], s, t);
    CurrentEpochOpen(s, k);
    assert Replay(map[], Epochs(s, k)[|Epochs(s, k)| - 1].events) == map[];
    hide ContentsOk, HistoriesOk, HistoryOk, EpochsOf, Structured, ThreadOk, ThreadsOk, Legal, Effect, Replay,
        MissOutcome;
  }

  lemma MissChanges(s: State, a: Action, t: int)
    requires Structured(s) && Enabled(s, a, t)
    requires a.Lookup? && !s.threads[a.tid].op.Set? && s.threads[a.tid].op.key !in s.agents
    ensures var s', ev := Step(s, a, t), EventOf(s, a.tid, MissOutcome(s.threads[a.tid].op, s, t), t);
            && Took(s, a.tid, |Epochs(s, ev.op.key)| - 1, ev, s')
            && s'.heap == s.heap && s'.written == s.written
  {
    hide MissOutcome, Extended;
  }

  lemma LookupMissKeepsInv(s: State, a: Action, t: int)
    requires Inv(s) && Enabled(s, a, t) && a.Lookup? && !s.threads[a.tid].op.Set?
        && s.threads[a.tid].op.key !in s.agents
    ensures Inv(Step(s, a, t))
  {
    var s' := Step(s, a, t);
    var ev := EventOf(s, a.tid, MissOutcome(s.threads[a.tid].op, s, t), t);
    var e := |Epochs(s, ev.op.key)| - 1;
    MapsAreStructured(s);
    MissChanges(s, a, t);
    MissedEventMayEnd(s, a.tid, t);
    assert ev.op == s.threads[a.tid].op;
    hide MapsOk, ContentsOk, HistoriesOk, ThreadsOk, Structured, Legal, Replay, Effect, MissOutcome;
    hide MayEnd, Took, EpochsOf, Epochs, Step, EventOf;
    TookKeepsHistories(s, a.tid, e, ev, s');
    TookKeepsMaps(s, a.tid, e, ev, s');
    TookKeepsThreads(s, a.tid, e, ev, s');
    MapsAreStructured(s');
    MissKeepsContents(s, a.tid, e, ev, s');
  }

  // What the critical section on an inner map does is right for the full map that the inner map stands for.
  lemma WorkIsLegal(th: Thread, held: Fields, m: Fields, written: int, from: int, listed: Fields, clock: nat, t: int)
    requires Stands(held, m, written) && written <= from <= t && th.since <= from && !th.op.Clear?
    requires th.op.Set? ==> Fits(th, t)
    requires th.op.List? ==> ListedFrom(held, listed, from, t)
    ensures var ev := Event(th.op, WorkOutcome(th, held, listed, from), th.invoked, th.since, clock, t);
            Legal(m, ev) && Stands(WorkOn(th, held), Effect(m, ev), if th.op.Set? || th.op.Delete? then t else written)
  {
    StandsReadsAlike(held, m, written, from, if th.op.Get? then th.op.field else "");
    assert forall f | f in held :: f in m && held[f] == m[f];
  }

  // What is known of a thread that is about to work on an inner map, be it attached or orphaned.
  lemma WorkerKnows(s: State, a: Action, t: int)
    requires Inv(s) && Enabled(s, a, t) && a.Work?
    ensures var th := s.threads[a.tid];
            var p := th.at.p;
            && p < |s.homes| && |s.heap| == |s.homes| == |s.written| && s.homes[p].key == th.op.key
            && ThreadOk(s, th)
            && Stands(s.heap[p], Replay(map[], Epochs(s, th.op.key)[s.homes[p].epoch].events), s.written[p])
  {
    hide ThreadOk, Stands, Replay, HistoriesOk;
    assert ThreadOk(s, s.threads[a.tid]);
  }

  // What Work changes.
  lemma WorkChanges(s: State, a: Action, t: int)
    requires Structured(s) && Enabled(s, a, t) && a.Work?
    ensures var th, s' := s.threads[a.tid], Step(s, a, t);
            var p := th.at.p;
            && Took(s, a.tid, s.homes[p].epoch, EventOf(s, a.tid, WorkOutcome(th, s.heap[p], a.listed, a.from), t), s')
            && s'.heap == s.heap[p := WorkOn(th, s.heap[p])]
            && s'.written == if th.op.Set? || th.op.Delete? then s.written[p := t] else s.written
  {
    hide WorkOutcome, WorkOn;
  }

  lemma WorkMayEnd(s: State, a: Action, t: int)
    requires Inv(s) && Enabled(s, a, t) && a.Work?
    ensures var th := s.threads[a.tid];
            var p := th.at.p;
            && p < |s.homes| && |s.heap| == |s.homes| == |s.written|
            && s.homes[p].key == th.op.key && s.homes[p].epoch < |Epochs(s, th.op.key)|
            && var ev := EventOf(s, a.tid, WorkOutcome(th, s.heap[p], a.listed, a.from), t);
               && MayEnd(s, s.homes[p].epoch, ev)
               && Stands(WorkOn(th, s.heap[p]),
                         Effect(Replay(map[], Epochs(s, th.op.key)[s.homes[p].epoch].events), ev),
                         if th.op.Set? || th.op.Delete? then t else s.written[p])
  {
    hide MapsOk, ContentsOk, HistoriesOk, ThreadsOk, Legal, Replay, Effect, WorkOutcome, WorkOn, Stands, ListedFrom,
      EpochsOf;
    WorkerKnows(s, a, t);
    var th := s.threads[a.tid];
    var p := th.at.p;
    WorkIsLegal(th, s.heap[p], Replay(map[], Epochs(s, th.op.key)[s.homes[p].epoch].events), s.written[p], a.from,
                a.listed, s.clock, t);
  }

  // Work ends the epoch of its inner map with an event that is legal there.
  lemma WorkTakes(s: State, a: Action, t: int) returns (p: nat, e: nat, ev: Event)
    requires Inv(s) && Enabled(s, a, t) && a.Work?
    ensures MayEnd(s, e, ev) && Took(s, a.tid, e, ev, Step(s, a, t))
    ensures p < |s.homes| && |s.heap| == |s.homes| == |s.written| && s.homes[p] == Home(ev.op.key, e)
    ensures var s' := Step(s, a, t);
            && (forall q | 0 <= q < |s.heap| && q != p :: s'.heap[q] == s.heap[q] && s'.written[q] == s.written[q])
            && Stands(s'.heap[p], Effect(Replay(map[], Epochs(s, ev.op.key)[e].events), ev), s'.written[p])
  {
    hide MapsOk, ContentsOk, HistoriesOk, ThreadsOk, ThreadOk, MayEnd, Legal, Replay, Effect, WorkOutcome, WorkOn,
      Stands, ListedFrom, Step, Took, Structured, Epochs, Fits;
    WorkMayEnd(s, a, t);
    InvIsStructured(s);
    WorkChanges(s, a, t);
    var th := s.threads[a.tid];
    p := th.at.p;
    e := s.homes[p].epoch;
    ev := EventOf(s, a.tid, WorkOutcome(th, s.heap[p], a.listed, a.from), t);
    assert ev.op == th.op && s.homes[p] == Home(th.op.key, e);
  }

  lemma InvIsStructured(s: State)
    requires Inv(s)
    ensures Structured(s)
  {
  }

  lemma WorkKeepsInv(s: State, a: Action, t: int)
    requires Inv(s) && Enabled(s, a, t) && a.Work?
    ensures Inv(Step(s, a, t))
  {
    var s' := Step(s, a, t);
    var p, e, ev := WorkTakes(s, a, t);
    hide Took, MayEnd, EpochsOf, Step, Enabled, MapsOk, ContentsOk, HistoriesOk, ThreadsOk, Effect, Replay, Stands;
    MapsAreStructured(s);
    TookKeepsHistories(s, a.tid, e, ev, s');
    TookKeepsMaps(s, a.tid, e, ev, s');
    TookKeepsThreads(s, a.tid, e, ev, s');
    MapsAreStructured(s');
    TookKeepsContents(s, a.tid, e, ev, s', p);
  }

  // ---- creating, detaching and sweeping an inner map

  lemma CreateChanges(s: State, a: Action, t: int)
    requires Structured(s) && Enabled(s, a, t) && a.CreateInner? && s.threads[a.tid].op.key !in s.agents
    ensures var s', k := Step(s, a, t), s.threads[a.tid].op.key;
            && Epochs(s, k) != [] && s.now <= s'.now && s'.order == s.order
            && s'.heap == s.heap + [map[]] && s'.written == s.written + [t] && s'.now == t
            && s'.homes == s.homes + [Home(k, |Epochs(s, k)| - 1)]
            && s'.agents == s.agents[k := |s.heap|]
            && s'.threads == s.threads[a.tid := s.threads[a.tid].(at := Holds(|s.heap|))]
  {
  }

  lemma HasEpoch(s: State, k: Key)
    requires Structured(s)
    ensures Epochs(s, k) != []
  {
  }

  // A new inner map for the current epoch of k, which had none.
  lemma OneMoreMap(s: State, s': State, k: Key)
    requires MapsOk(s) && k !in s.agents && s'.order == s.order && Structured(s')
    requires s'.homes == s.homes + [Home(k, |Epochs(s, k)| - 1)] && s'.agents == s.agents[k := |s.homes|]
    ensures MapsOk(s')
  {
    hide EpochsOf, Structured;
    MapsAreStructured(s);
    HasEpoch(s, k);
    assert forall j: Key :: Epochs(s', j) == Epochs(s, j);
    forall p | 0 <= p < |s.homes|
      ensures s.homes[p] != Home(k, |Epochs(s, k)| - 1) && s'.homes[p] == s.homes[p]
    {
    }
  }

  lemma CreateKeepsStructured(s: State, a: Action, t: int)
    requires Structured(s) && Enabled(s, a, t) && a.CreateInner? && s.threads[a.tid].op.key !in s.agents
    ensures Structured(Step(s, a, t))
  {
    CreateChanges(s, a, t);
    assert Epochs(s, s.threads[a.tid].op.key) != [];
    hide EpochsOf, Step, Enabled;
  }

  lemma CreateKeepsMaps(s: State, a: Action, t: int)
    requires MapsOk(s) && Enabled(s, a, t) && a.CreateInner? && s.threads[a.tid].op.key !in s.agents
    ensures MapsOk(Step(s, a, t))
  {
    MapsAreStructured(s);
    CreateChanges(s, a, t);
    CreateKeepsStructured(s, a, t);
    assert |s.heap| == |s.homes|;
    hide EpochsOf, Step, Enabled, MapsOk, Structured, Epochs;
    OneMoreMap(s, Step(s, a, t), s.threads[a.tid].op.key);
  }

  lemma CreateKeepsContents(s: State, a: Action, t: int)
    requires MapsOk(s) && ContentsOk(s) && Enabled(s, a, t) && a.CreateInner? && s.threads[a.tid].op.key !in s.agents
    requires Structured(Step(s, a, t))
    ensures ContentsOk(Step(s, a, t))
  {
    hide Replay, EpochsOf, Step, Enabled, Stands, MapsOk;
    InvolvedIn(s, a, t);
    var s' := Step(s, a, t);
    var k := s.threads[a.tid].op.key;
    CreateChanges(s, a, t);
    StandsForNothing(t);
    assert Replay(map[], Epochs(s, k)[|Epochs(s, k)| - 1].events) == map[];
    forall p | 0 <= p < |s'.heap|
      ensures Stands(s'.heap[p], Replay(map[], Epochs(s', s'.homes[p].key)[s'.homes[p].epoch].events), s'.written[p])
    {
      if p < |s.heap| {
        assert s'.heap[p] == s.heap[p] && s'.homes[p] == s.homes[p] && s'.written[p] == s.written[p];
      }
    }
  }

  // The action's thread is there.
  lemma InvolvedIn(s: State, a: Action, t: int)
    requires Enabled(s, a, t) && a.CreateInner?
    ensures a.tid in s.threads
  {
  }

  lemma StandsForNothing(t: int)
    ensures Stands(map[], map[], t)
  {
  }

  lemma CreateKeepsThreads(s: State, a: Action, t: int)
    requires MapsOk(s) && ThreadsOk(s) && HistoriesOk(s) && Enabled(s, a, t)
    requires a.CreateInner? && s.threads[a.tid].op.key !in s.agents
    ensures ThreadsOk(Step(s, a, t))
  {
    var s' := Step(s, a, t);
    var th := s.threads[a.tid];
    assert ThreadOk(s, th);
    CurrentEpochOpen(s, th.op.key);
    assert ThreadOk(s', s'.threads[a.tid]) by {
      hide HistoriesOk, HistoryOk, EpochsOf, MapsOk;
      assert s'.homes[|s.heap|].key == th.op.key by {
        assert |s.homes| == |s.heap| by {
          MapsAreStructured(s);
        }
      }
      MapsAreStructured(s);
    }
    assert Grows(s, s') by {
      hide HistoriesOk, HistoryOk;
      MapsAreStructured(s);
    }
    hide ThreadOk, Grows, HistoriesOk, HistoryOk, MapsOk;
    ThreadsGrow(s, s', a.tid);
  }

  lemma CreateKeepsInv(s: State, a: Action, t: int)
    requires Inv(s) && Enabled(s, a, t) && a.CreateInner? && s.threads[a.tid].op.key !in s.agents
    ensures Inv(Step(s, a, t))
  {
    hide MapsOk, ContentsOk, ThreadsOk, HistoriesOk;
    MapsAreStructured(s);
    CreateKeepsMaps(s, a, t);
    MapsAreStructured(Step(s, a, t));
    CreateKeepsContents(s, a, t);
    CreateKeepsThreads(s, a, t);
    HistoriesLater(s, Step(s, a, t));
  }

  // What a Clear does to the epochs.
  lemma ClearedEpochs(s: State, a: Action, t: int, k: Key)
    requires Structured(s) && Enabled(s, a, t) && a.ClearAgent?
    ensures var es, es' := Epochs(s, k), Epochs(Step(s, a, t), k);
            var key := s.threads[a.tid].op.key;
            && es != []
            && (k != key ==> es' == es)
            && (k == key ==>
                  es' == Closed(es, EventOf(s, a.tid, Done, t)))
  {
  }

  lemma ClearChangesMaps(s: State, a: Action, t: int)
    requires Structured(s) && Enabled(s, a, t) && a.ClearAgent?
    ensures var s', key := Step(s, a, t), s.threads[a.tid].op.key;
            && s'.homes == s.homes && |s'.heap| == |s.heap| && s'.written == s.written && s.now <= s'.now
            && s'.threads == s.threads - {a.tid}
            && s'.agents == s.agents - {key}
            && (forall k | k in s'.order :: s'.order[k] != [])
            && (forall k: Key :: |Epochs(s', k)| == |Epochs(s, k)| + (if k == key then 1 else 0))
  {
    var s' := Step(s, a, t);
    forall k: Key
      ensures |Epochs(s', k)| == |Epochs(s, k)| + (if k == s.threads[a.tid].op.key then 1 else 0)
    {
      ClearedEpochs(s, a, t, k);
    }
    forall k | k in s'.order
      ensures s'.order[k] != []
    {
      ClearedEpochs(s, a, t, k);
    }
    hide EpochsOf;
  }

  lemma ClearKeepsMaps(s: State, a: Action, t: int)
    requires MapsOk(s) && Enabled(s, a, t) && a.ClearAgent?
    ensures MapsOk(Step(s, a, t))
  {
    ClearChangesMaps(s, a, t);
    hide EpochsOf, Step, Enabled;
  }

  lemma ClearedEvents(s: State, a: Action, t: int, k: Key)
    requires Structured(s) && Enabled(s, a, t) && a.ClearAgent?
    ensures var es, es' := Epochs(s, k), Epochs(Step(s, a, t), k);
            && |es| <= |es'| && es' != []
            && (forall e | 0 <= e < |es| :: es'[e].events == es[e].events)
            && (if k == s.threads[a.tid].op.key then es'[|es'| - 1].events == [] else es' == es)
  {
    ClearedEpochs(s, a, t, k);
  }

  lemma ClearKeepsContents(s: State, a: Action, t: int)
    requires Structured(s) && ContentsOk(s) && Enabled(s, a, t) && a.ClearAgent?
    requires Structured(Step(s, a, t))
    ensures ContentsOk(Step(s, a, t))
  {
    var s' := Step(s, a, t);
    ReplayNothing();
    assert s'.heap == s.heap && s'.written == s.written && s'.homes == s.homes;
    assert s'.agents == s.agents - {s.threads[a.tid].op.key};
    forall p | 0 <= p < |s'.heap|
      ensures Stands(s'.heap[p], Replay(map[], Epochs(s', s'.homes[p].key)[s'.homes[p].epoch].events), s'.written[p])
    {
      ClearedEvents(s, a, t, s.homes[p].key);
      hide Replay, EpochsOf, Step, Stands;
    }
    forall k: Key | k !in s'.agents
      ensures Epochs(s', k) != [] && Replay(map[], Epochs(s', k)[|Epochs(s', k)| - 1].events) == map[]
    {
      ClearedEvents(s, a, t, k);
      hide Replay, EpochsOf, Step, Stands;
    }
    hide Replay, EpochsOf, Step, Stands;
  }

  lemma ClearGrows(s: State, a: Action, t: int)
    requires MapsOk(s) && HistoriesOk(s) && Enabled(s, a, t) && a.ClearAgent? && Structured(s)
    ensures Grows(s, Step(s, a, t))
  {
    var s' := Step(s, a, t);
    ClearChangesMaps(s, a, t);
    forall k: Key
      ensures EpochsGrow(Epochs(s, k), Epochs(s', k), s.clock)
    {
      ClearedEpochs(s, a, t, k);
      CurrentEpochOpen(s, k);
      hide HistoryOk, HistoriesOk, EpochsOf, MapsOk, Structured;
    }
    hide EpochsGrow, Epochs, MapsOk, HistoriesOk, Structured;
  }

  lemma ClearKeepsThreads(s: State, a: Action, t: int)
    requires MapsOk(s) && ThreadsOk(s) && HistoriesOk(s) && Enabled(s, a, t) && a.ClearAgent?
    ensures ThreadsOk(Step(s, a, t))
  {
    MapsAreStructured(s);
    ClearGrows(s, a, t);
    ClearChangesMaps(s, a, t);
    hide ThreadOk, Grows, HistoriesOk, MapsOk, Structured, Step, Enabled, Epochs;
    ThreadsGrow(s, Step(s, a, t), a.tid);
  }

  lemma ClearChangesOrder(s: State, a: Action, t: int)
    requires Structured(s) && Enabled(s, a, t) && a.ClearAgent?
    ensures var s', key, ev := Step(s, a, t), s.threads[a.tid].op.key, EventOf(s, a.tid, Done, t);
            var es := Epochs(s, key);
            && es != [] && s'.clock == s.clock + 1
            && s'.order == s.order[key := Closed(es, ev)]
  {
  }

  lemma ClearKeepsHistories(s: State, a: Action, t: int)
    requires Structured(s) && ThreadsOk(s) && HistoriesOk(s) && Enabled(s, a, t) && a.ClearAgent?
    ensures HistoriesOk(Step(s, a, t))
  {
    var key, ev := s.threads[a.tid].op.key, EventOf(s, a.tid, Done, t);
    ClearChangesOrder(s, a, t);
    assert ThreadOk(s, s.threads[a.tid]);
    assert ev.op.Clear? && Legal(map[], ev) && ev.invoked <= ev.done == s.clock;
    CurrentEpochOpen(s, key);
    hide Structured, Step, HistoriesOk, ThreadsOk, ThreadOk, Legal, HistoryOk, EpochsOf, Epochs, EventOf, Enabled,
        Closed;
    ClearKeepsHistory(Epochs(s, key), s.clock, ev);
    OneHistoryChanges(s, Step(s, a, t), key);
  }

  lemma OneHistoryChanges(s: State, s': State, key: Key)
    requires HistoriesOk(s) && s'.clock == s.clock + 1
    requires key in s'.order && s'.order == s.order[key := s'.order[key]] && HistoryOk(s'.order[key], s'.clock)
    ensures HistoriesOk(s')
  {
    hide HistoryOk;
    forall k | k in s'.order
      ensures HistoryOk(s'.order[k], s'.clock)
    {
      if k != key {
        HistoryOkLater(s.order[k], s.clock);
      }
    }
  }

  lemma ClearKeepsInv(s: State, a: Action, t: int)
    requires Inv(s) && Enabled(s, a, t) && a.ClearAgent?
    ensures Inv(Step(s, a, t))
  {
    hide MapsOk, ContentsOk, ThreadsOk, HistoriesOk;
    MapsAreStructured(s);
    ClearKeepsMaps(s, a, t);
    MapsAreStructured(Step(s, a, t));
    ClearKeepsContents(s, a, t);
    ClearKeepsThreads(s, a, t);
    ClearKeepsHistories(s, a, t);
  }

  lemma SweepStands(held: Fields, m: Fields, dropped: set<string>, written: int, from: int, to: int)
    requires Stands(held, m, written) && written <= from <= to && SweptFrom(held, dropped, from, to)
    ensures Stands(held - dropped, m, to)
  {
  }

  lemma SweepKeepsMaps(s: State, a: Action, t: int)
    requires MapsOk(s) && Enabled(s, a, t) && a.Sweep?
    ensures MapsOk(Step(s, a, t))
  {
    hide EpochsOf, SweptFrom;
  }

  lemma SweepKeepsContents(s: State, a: Action, t: int)
    requires Structured(s) && ContentsOk(s) && Enabled(s, a, t) && a.Sweep? && Structured(Step(s, a, t))
    ensures ContentsOk(Step(s, a, t))
  {
    hide Replay, EpochsOf, SweptFrom;
    var s' := Step(s, a, t);
    forall p | 0 <= p < |s'.heap|
      ensures Stands(s'.heap[p], Replay(map[], Epochs(s', s'.homes[p].key)[s'.homes[p].epoch].events), s'.written[p])
    {
      if p == a.p {
        SweepStands(s.heap[p], Replay(map[], Epochs(s, s.homes[p].key)[s.homes[p].epoch].events), a.dropped,
            s.written[p], a.from, t);
      }
    }
  }

  lemma SweepKeepsInv(s: State, a: Action, t: int)
    requires Inv(s) && Enabled(s, a, t) && a.Sweep?
    ensures Inv(Step(s, a, t))
  {
    hide MapsOk, ContentsOk, ThreadsOk, HistoriesOk, SweptFrom;
    MapsAreStructured(s);
    SweepKeepsMaps(s, a, t);
    MapsAreStructured(Step(s, a, t));
    SweepKeepsContents(s, a, t);
    SweepKeepsThreads(s, a, t);
    HistoriesLater(s, Step(s, a, t));
  }

  lemma SweepKeepsThreads(s: State, a: Action, t: int)
    requires Structured(s) && ThreadsOk(s) && Enabled(s, a, t) && a.Sweep?
    ensures ThreadsOk(Step(s, a, t))
  {
    var s' := Step(s, a, t);
    forall tid | tid in s.threads
      ensures ThreadOk(s', s.threads[tid])
    {
      assert Grows(s, s');
      ThreadOkGrows(s, s', s.threads[tid]);
    }
  }

  /** Every critical section of every operation and of the garbage collector keeps the invariant. */
  lemma StepKeepsInv(s: State, a: Action, t: int)
    requires Inv(s) && Enabled(s, a, t)
    ensures Structured(s) && Inv(Step(s, a, t))
  {
    hide ContentsOk, ThreadsOk, HistoriesOk, EpochsOf, ListedFrom, SweptFrom;
    MapsAreStructured(s);
    hide MapsOk, Inv, Structured, Step;
    match a
    case Invoke(_, _) => InvokeKeepsInv(s, a, t);
    case Lookup(tid) =>
      if s.threads[tid].op.key in s.agents {
        LookupHitKeepsInv(s, a, t);
      } else if s.threads[tid].op.Set? {
        LookupMissSetKeepsInv(s, a, t);
      } else {
        LookupMissKeepsInv(s, a, t);
      }
    case CreateInner(tid) =>
      if s.threads[tid].op.key in s.agents {
        LookupHitKeepsInv(s, a, t);
      } else {
        CreateKeepsInv(s, a, t);
      }
    case Stamp(_, _, _) => StampKeepsInv(s, a, t);
    case Work(_, _, _) => WorkKeepsInv(s, a, t);
    case ClearAgent(_) => ClearKeepsInv(s, a, t);
    case Sweep(_, _, _) => SweepKeepsInv(s, a, t);
  }

  // ------------------------------------------------------------------ runs

  datatype Timed = Timed(action: Action, time: int)

  ghost predicate IsRun(s: State, steps: seq<Timed>)
    decreases |steps|
  {
    steps == [] ||
    (Structured(s) && Enabled(s, steps[0].action, steps[0].time)
     && IsRun(Step(s, steps[0].action, steps[0].time), steps[1..]))
  }

  ghost function Run(s: State, steps: seq<Timed>): State
    requires IsRun(s, steps)
    decreases |steps|
  {
    if steps == [] then s else Run(Step(s, steps[0].action, steps[0].time), steps[1..])
  }

  function ByKey(events: seq<Event>, k: Key): seq<Event> {
    if events == [] then []
    else ByKey(events[..|events| - 1], k) + (if events[|events| - 1].op.key == k then [events[|events| - 1]] else [])
  }

  // The linearization of each key consists of exactly the operations on that key that have returned.
  ghost predicate Accounted(s: State) {
    forall k: Key :: multiset(Linearization(Epochs(s, k))) == multiset(ByKey(s.finished, k))
  }

  lemma ByKeyAppend(events: seq<Event>, ev: Event, k: Key)
    ensures ByKey(events + [ev], k) == ByKey(events, k) + (if ev.op.key == k then [ev] else [])
  {
    assert (events + [ev])[..|events|] == events;
  }

  lemma LinearizationOfNothing()
    ensures Linearization([Epoch([], None)]) == []
  {
    assert [Epoch([], None)][..0] == [];
  }

  predicate Returns(s: State, a: Action)
    requires a.Lookup? ==> a.tid in s.threads
  {
    a.Work? || a.ClearAgent? || (a.Lookup? && s.threads[a.tid].op.key !in s.agents && !s.threads[a.tid].op.Set?)
  }

  lemma QuietKeeps(s: State, a: Action, t: int)
    requires Structured(s) && Enabled(s, a, t) && !Returns(s, a)
    ensures Step(s, a, t).order == s.order && Step(s, a, t).finished == s.finished
  {
    hide EpochsOf, ListedFrom, SweptFrom;
  }

  lemma QuietStep(s: State, a: Action, t: int)
    requires Accounted(s) && Structured(s) && Enabled(s, a, t) && !Returns(s, a)
    ensures Accounted(Step(s, a, t))
  {
    hide Linearization, EpochsOf, Structured, Enabled, Step, Returns;
    QuietKeeps(s, a, t);
    assert forall k: Key :: Epochs(Step(s, a, t), k) == Epochs(s, k);
  }

  lemma LookupReturns(s: State, a: Action, t: int)
    requires Accounted(s) && Structured(s) && Enabled(s, a, t) && a.Lookup? && Returns(s, a)
    requires Epochs(s, s.threads[a.tid].op.key) != []
    ensures Accounted(Step(s, a, t))
  {
    hide Linearization, MissOutcome, Accounted;
    var ev := EventOf(s, a.tid, MissOutcome(s.threads[a.tid].op, s, t), t);
    EventIsAccounted(s, |Epochs(s, ev.op.key)| - 1, ev, Step(s, a, t));
  }

  lemma WorkReturns(s: State, a: Action, t: int)
    requires Accounted(s) && Structured(s) && Enabled(s, a, t) && a.Work?
    ensures Accounted(Step(s, a, t))
  {
    hide Linearization, WorkOutcome, WorkOn, ListedFrom, Accounted;
    var th := s.threads[a.tid];
    var ev := EventOf(s, a.tid, WorkOutcome(th, s.heap[th.at.p], a.listed, a.from), t);
    EventIsAccounted(s, s.homes[th.at.p].epoch, ev, Step(s, a, t));
  }

  // A step either appends one returned operation, to some epoch of its key or as a Clear, or returns nothing.
  lemma StepReturns(s: State, a: Action, t: int)
    requires HistoriesOk(s) && Structured(s) && Accounted(s) && Enabled(s, a, t)
    ensures Accounted(Step(s, a, t))
  {
    hide Accounted, HistoriesOk, Step, ListedFrom, SweptFrom;
    if !Returns(s, a) {
      QuietStep(s, a, t);
    } else if a.ClearAgent? {
      ClearIsAccounted(s, a, t);
    } else if a.Lookup? {
      CurrentEpochOpen(s, s.threads[a.tid].op.key);
      LookupReturns(s, a, t);
    } else {
      WorkReturns(s, a, t);
    }
  }

  lemma OrderChanged(s: State, s': State, key: Key, es: seq<Epoch>)
    requires s'.order == s.order[key := es]
    ensures Epochs(s', key) == es
    ensures forall k: Key | k != key :: Epochs(s', k) == Epochs(s, k)
  {
  }

  lemma EventIsAccounted(s: State, e: nat, ev: Event, s': State)
    requires Accounted(s) && e < |Epochs(s, ev.op.key)| && s'.finished == s.finished + [ev]
    requires s'.order == s.order[ev.op.key := Extended(Epochs(s, ev.op.key), e, ev)]
    ensures Accounted(s')
  {
    OrderChanged(s, s', ev.op.key, Extended(Epochs(s, ev.op.key), e, ev));
    LinearizationContains(Epochs(s, ev.op.key), e, ev);
    hide Linearization, Accounted, Extended, Epochs;
    OneMoreAccounted(s, s', ev);
  }

  lemma ClearedLinearization(s: State, a: Action, t: int)
    requires HistoriesOk(s) && Structured(s) && Enabled(s, a, t) && a.ClearAgent?
    ensures var s', ev := Step(s, a, t), EventOf(s, a.tid, Done, t);
            && s'.finished == s.finished + [ev]
            && Linearization(Epochs(s', ev.op.key)) == Linearization(Epochs(s, ev.op.key)) + [ev]
            && forall k: Key | k != ev.op.key :: Epochs(s', k) == Epochs(s, k)
  {
    var ev := EventOf(s, a.tid, Done, t);
    CurrentEpochOpen(s, ev.op.key);
    LinearizationOfClear(Epochs(s, ev.op.key), ev);
    ClearChangesOrder(s, a, t);
    hide HistoriesOk, HistoryOk, Linearization, Structured, Closed;
  }

  // One operation more has returned, and one more is in the order of its key.
  lemma OneMoreAccounted(s: State, s': State, ev: Event)
    requires Accounted(s) && s'.finished == s.finished + [ev]
    requires multiset(Linearization(Epochs(s', ev.op.key)))
        == multiset(Linearization(Epochs(s, ev.op.key))) + multiset{ev}
    requires forall k: Key | k != ev.op.key :: Epochs(s', k) == Epochs(s, k)
    ensures Accounted(s')
  {
    hide Epochs, Linearization;
    forall k: Key
      ensures multiset(Linearization(Epochs(s', k))) == multiset(ByKey(s'.finished, k))
    {
      ByKeyAppend(s.finished, ev, k);
      assert multiset(Linearization(Epochs(s, k))) == multiset(ByKey(s.finished, k));
    }
  }

  lemma ClearIsAccounted(s: State, a: Action, t: int)
    requires HistoriesOk(s) && Accounted(s) && Structured(s) && Enabled(s, a, t) && a.ClearAgent?
    ensures Accounted(Step(s, a, t))
  {
    var ev := EventOf(s, a.tid, Done, t);
    ClearedLinearization(s, a, t);
    hide HistoriesOk, Structured, Step, Enabled, Epochs, Linearization, Accounted, EventOf;
    assert multiset(Linearization(Epochs(s, ev.op.key)) + [ev])
        == multiset(Linearization(Epochs(s, ev.op.key))) + multiset{ev};
    OneMoreAccounted(s, Step(s, a, t), ev);
  }

  lemma InvInit()
    ensures Inv(Init()) && Accounted(Init())
  {
    LinearizationOfNothing();
  }

  lemma InvHasHistories(s: State)
    requires Inv(s)
    ensures HistoriesOk(s)
  {
  }

  lemma {:induction false} InvOverRuns(s: State, steps: seq<Timed>)
    requires Inv(s) && Accounted(s) && IsRun(s, steps)
    ensures Inv(Run(s, steps)) && Accounted(Run(s, steps))
    decreases |steps|
  {
    hide Inv, Accounted, Step, Enabled, Structured;
    if steps != [] {
      StepKeepsInv(s, steps[0].action, steps[0].time);
      InvHasHistories(s);
      StepReturns(s, steps[0].action, steps[0].time);
      InvOverRuns(Step(s, steps[0].action, steps[0].time), steps[1..]);
    }
  }

  /**
   Linearizability. In every run, and for every key, there is one order of exactly the operations that have returned
   such that every result is what the plain TTL map gives in that order, and no operation comes before one that had
   returned when it was invoked. List gives, as the plain map allows it, at most what was live when its loop began and
   at least what was live when it ended.
   */
  lemma Linearizable(steps: seq<Timed>, k: Key)
    requires IsRun(Init(), steps)
    ensures var s := Run(Init(), steps);
            var order := Linearization(Epochs(s, k));
            && LegalFrom(map[], order)
            && RespectsRealTime(order)
            && multiset(order) == multiset(ByKey(s.finished, k))
  {
    hide IsRun, Run, Init;
    InvInit();
    InvOverRuns(Init(), steps);
    var s := Run(Init(), steps);
    CurrentEpochOpen(s, k);
    hide Inv, EpochsOf;
    HistoryLinearizes(Epochs(s, k), s.clock);
    assert Accounted(s);
  }

  lemma HistoryLinearizes(es: seq<Epoch>, clock: nat)
    requires HistoryOk(es, clock)
    ensures LegalFrom(map[], Linearization(es)) && RespectsRealTime(Linearization(es))
  {
    LinearizationLegal(es, clock);
    LinearizationRealTime(es, clock);
  }

  // ------------------------------------------------------------------ what a legal order means for a reader

  predicate Affects(ev: Event, field: string) {
    (ev.op.Set? && ev.op.field == field) || (ev.op.Delete? && ev.op.field == field) || ev.op.Clear?
  }

  // i is the last event that affects the field, or there is none and i is the number of events.
  predicate LastToAffect(events: seq<Event>, field: string, i: nat) {
    && i <= |events| && (i < |events| ==> Affects(events[i], field))
    && forall j | 0 <= j < |events| && (i == |events| || i < j) :: !Affects(events[j], field)
  }

  // The entry that the last Set of the field put there, when nothing removed it since.
  predicate LeftBehind(events: seq<Event>, i: nat) {
    i < |events| && events[i].op.Set? && events[i].outcome.Stored?
  }

  lemma {:induction false} ReplayIsLastWrite(events: seq<Event>, field: string, i: nat)
    requires LastToAffect(events, field, i)
    requires i < |events| && events[i].op.Set? ==> events[i].outcome.Stored?
    ensures field in Replay(map[], events) <==> LeftBehind(events, i)
    ensures LeftBehind(events, i) ==> Replay(map[], events)[field] == events[i].outcome.entry
    decreases |events|
  {
    if events != [] {
      var n := |events| - 1;
      if i != n {
        ReplayIsLastWrite(events[..n], field, if i == |events| then n else i);
      }
    }
  }

  /**
   In a legal order a Get returns the entry of the last Set of its field, with that Set's value, until its time has
   passed; and nothing when a Delete of the field or a Clear came after it, or when there was none.
   */
  lemma GetSeesLastWrite(order: seq<Event>, j: nat, i: nat)
    requires LegalFrom(map[], order) && j < |order| && order[j].op.Get?
    requires LastToAffect(order[..j], order[j].op.field, i)
    ensures order[j].outcome.Saw?
    ensures i < j && order[i].op.Set? ==>
              && order[i].outcome.Stored? && order[i].outcome.entry.value == order[i].op.value
              && var e := order[i].outcome.entry;
                 order[j].outcome.found
                 == if e.expiresAt == None || order[j].outcome.readAt <= e.expiresAt.value then Some(e) else None
    ensures i == j || !order[i].op.Set? ==> order[j].outcome.found == None
  {
    hide Replay, Effect;
    assert Legal(Replay(map[], order[..j]), order[j]);
    if i < j {
      assert Legal(Replay(map[], order[..i]), order[i]);
      assert order[..j][i] == order[i];
    }
    ReplayIsLastWrite(order[..j], order[j].op.field, i);
  }

  /** A List returns what was set last and is live when its loop ends, and nothing that was not live when it began. */
  lemma ListSeesLastWrites(order: seq<Event>, j: nat, field: string, i: nat)
    requires LegalFrom(map[], order) && j < |order| && order[j].op.List?
    requires LastToAffect(order[..j], field, i)
    ensures order[j].outcome.Listed?
    ensures i < j && order[i].op.Set? ==>
              && order[i].outcome.Stored? && order[i].outcome.entry.value == order[i].op.value
              && var e, listed := order[i].outcome.entry, order[j].outcome;
                 && (e.expiresAt == None || order[j].until <= e.expiresAt.value ==> field in listed.fields)
                 && (field in listed.fields ==>
                       listed.fields[field] == e && (e.expiresAt == None || listed.from <= e.expiresAt.value))
    ensures i == j || !order[i].op.Set? ==> field !in order[j].outcome.fields
  {
    hide Replay, Effect;
    assert Legal(Replay(map[], order[..j]), order[j]);
    if i < j {
      assert Legal(Replay(map[], order[..i]), order[i]);
      assert order[..j][i] == order[i];
    }
    ReplayIsLastWrite(order[..j], field, i);
  }
}
