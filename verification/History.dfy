/**
 The event history of agents. The in-memory store appends to Go slices, sharing buffers with what it had before, and
 cuts them by re-slicing; the Redis store pushes to a list and trims it. Both must list the newest events appended
 since the agent's last Clear.
 */
module History {
  import opened Keys

  const SECOND := 1_000_000_000

  datatype Event = Event(time: int, kind: string, reason: string, message: string)

  // What happened to the store so far.
  datatype Op = Appended(agent: Agent, event: Event) | Cleared(agent: Agent)

  // Namespaces are DNS labels.
  predicate Slashless(a: Agent) {
    '/' !in a.namespace
  }

  // The events of one agent since its last Clear, oldest first.
  function Log(ops: seq<Op>, a: Agent): seq<Event> {
    if ops == [] then []
    else
      var before, op := Log(ops[..|ops| - 1], a), ops[|ops| - 1];
      if op.agent != a then before
      else match op
        case Appended(_, e) => before + [e]
        case Cleared(_) => []
  }

  // All events of one agent, whatever was cleared.
  function Events(ops: seq<Op>, a: Agent): seq<Event> {
    if ops == [] then []
    else (if ops[0].agent == a && ops[0].Appended? then [ops[0].event] else []) + Events(ops[1..], a)
  }

  lemma {:induction false} EventsSplit(ops: seq<Op>, more: seq<Op>, a: Agent)
    ensures Events(ops + more, a) == Events(ops, a) + Events(more, a)
  {
    if ops == [] {
      assert ops + more == more;
    } else {
      assert (ops + more)[1..] == ops[1..] + more;
      EventsSplit(ops[1..], more, a);
    }
  }

  /** The log is what was appended after the last Clear of this agent, or from the start when there was none. */
  lemma {:induction false} LogIsSinceLastClear(ops: seq<Op>, a: Agent, i: nat)
    requires i <= |ops|
    requires i == 0 || ops[i - 1] == Cleared(a)
    requires forall j | i <= j < |ops| :: ops[j] != Cleared(a)
    ensures Log(ops, a) == Events(ops[i..], a)
    decreases |ops|
  {
    if i == |ops| {
      assert ops[i..] == [];
    } else {
      var n := |ops| - 1;
      LogIsSinceLastClear(ops[..n], a, i);
      assert ops[i..] == ops[..n][i..] + [ops[n]];
      EventsSplit(ops[..n][i..], [ops[n]], a);
      assert [ops[n]][1..] == [];
      assert Events([ops[n]], a) == if ops[n].agent == a then [ops[n].event] else [];
    }
  }

  function Last<T>(s: seq<T>, n: nat): seq<T> {
    if |s| <= n then s else s[|s| - n..]
  }

  // listed is the newest events of the log, n at most, oldest first.
  predicate IsNewest(listed: seq<Event>, log: seq<Event>, n: nat) {
    && |listed| == (if |log| < n then |log| else n)
    && forall i | 0 <= i < |listed| :: listed[i] == log[|log| - |listed| + i]
  }

  lemma LastIsNewest(log: seq<Event>, n: nat)
    ensures IsNewest(Last(log, n), log, n)
  {
    var l := Last(log, n);
    assert |l| == if |log| < n then |log| else n;
    hide Last;
    forall i | 0 <= i < |l|
      ensures l[i] == log[|log| - |l| + i]
    {
      LastAt(log, n, i);
    }
  }

  lemma LastAt(log: seq<Event>, n: nat, i: nat)
    requires i < |Last(log, n)|
    ensures i < |log| && |Last(log, n)| <= |log| && Last(log, n)[i] == log[|log| - |Last(log, n)| + i]
  {
  }

  /** Trimming after every append is as good as trimming the whole log once. */
  lemma TrimEveryTime<T>(s: seq<T>, e: T, n: nat)
    requires n >= 1
    ensures Last(Last(s, n) + [e], n) == Last(s + [e], n)
  {
    if |s| > n {
      assert Last(s, n) + [e] == (s + [e])[|s| - n..];
    }
  }

  function Cap(maxEntries: int): (n: nat)
    ensures n >= 1
  {
    if maxEntries <= 0 then 1000 else maxEntries
  }

  // ---- In memory ----

  // A Go slice: a window on a buffer, which may reach beyond the window's end.
  datatype Slice = Slice(buf: array<Event>, off: nat, len: nat)

  function Contents(s: Slice): seq<Event>
    reads s.buf
    requires s.off + s.len <= s.buf.Length
  {
    s.buf[s.off..s.off + s.len]
  }

  // append: in place when the buffer has room after the window, else into a new buffer with some spare room.
  method GoAppend(s: Slice, e: Event, spare: nat) returns (r: Slice)
    requires s.off + s.len <= s.buf.Length
    modifies s.buf
    ensures r.off + r.len <= r.buf.Length
    ensures r.buf == s.buf || fresh(r.buf)
    ensures Contents(r) == old(Contents(s)) + [e]
  {
    if s.off + s.len < s.buf.Length {
      s.buf[s.off + s.len] := e;
      r := Slice(s.buf, s.off, s.len + 1);
    } else {
      var buf := new Event[s.len + 1 + spare](_ => e);
      forall i | 0 <= i < s.len {
        buf[i] := s.buf[s.off + i];
      }
      r := Slice(buf, 0, s.len + 1);
    }
  }

  // One append with the cut that follows it: the window moves to the last max events.
  method AppendAndCut(s: Slice, e: Event, max: nat, spare: nat) returns (r: Slice)
    requires s.off + s.len <= s.buf.Length
    modifies s.buf
    ensures r.off + r.len <= r.buf.Length
    ensures r.buf == s.buf || fresh(r.buf)
    ensures Contents(r) == Last(old(Contents(s)) + [e], max)
  {
    r := GoAppend(s, e, spare);
    if r.len > max {
      r := Slice(r.buf, r.off + (r.len - max), max);
    }
  }

  function MemoryKey(a: Agent): string {
    AgentKey(a.namespace, a.name)
  }

  lemma MemoryKeysApart(a: Agent, b: Agent)
    requires Slashless(a) && Slashless(b)
    ensures MemoryKey(a) == MemoryKey(b) <==> a == b
  {
    AgentKeyInjective(a.namespace, a.name, b.namespace, b.name);
  }

  function ListAt(lists: map<string, seq<Event>>, key: string): seq<Event> {
    if key in lists then lists[key] else []
  }

  // The window lies inside its buffer and shows the text.
  ghost predicate Shows(s: Slice, text: seq<Event>)
    reads s.buf
  {
    s.off + s.len <= s.buf.Length && Contents(s) == text
  }

  // The store holds, for each agent, the newest events of its log.
  ghost predicate Keeps(held: map<string, seq<Event>>, ops: seq<Op>, max: nat) {
    forall a | Slashless(a) :: ListAt(held, MemoryKey(a)) == Last(Log(ops, a), max)
  }

  lemma KeepsAfterAppend(held: map<string, seq<Event>>, ops: seq<Op>, max: nat, a: Agent, e: Event)
    requires Keeps(held, ops, max) && Slashless(a) && max >= 1
    ensures Keeps(held[MemoryKey(a) := Last(ListAt(held, MemoryKey(a)) + [e], max)], ops + [Appended(a, e)], max)
  {
    var ops' := ops + [Appended(a, e)];
    assert ops'[..|ops'| - 1] == ops;
    TrimEveryTime(Log(ops, a), e, max);
    forall b | Slashless(b)
      ensures ListAt(held[MemoryKey(a) := Last(ListAt(held, MemoryKey(a)) + [e], max)], MemoryKey(b))
          == Last(Log(ops', b), max)
    {
      MemoryKeysApart(a, b);
      hide MemoryKey, Last;
    }
  }

  lemma KeepsAfterClear(held: map<string, seq<Event>>, ops: seq<Op>, max: nat, a: Agent)
    requires Keeps(held, ops, max) && Slashless(a)
    ensures Keeps(held - {MemoryKey(a)}, ops + [Cleared(a)], max)
  {
    var ops' := ops + [Cleared(a)];
    assert ops'[..|ops'| - 1] == ops;
    forall b | Slashless(b)
      ensures ListAt(held - {MemoryKey(a)}, MemoryKey(b)) == Last(Log(ops', b), max)
    {
      MemoryKeysApart(a, b);
      hide MemoryKey;
    }
  }

  // What the windows show, and which key uses which buffer.
  datatype View = View(held: map<string, seq<Event>>, owner: map<array<Event>, string>)

  class InMemoryHistory {
    var events: map<string, Slice>
    const maxEntries: nat
    ghost var view: View
    ghost var ops: seq<Op>

    // No two keys share a buffer.
    ghost predicate Apart()
      reads this`events, this`view, view.owner.Keys
    {
      && (forall k :: k in events <==> k in view.held)
      && (forall k | k in events :: events[k].buf in view.owner && view.owner[events[k].buf] == k)
      && (forall k | k in events :: Shows(events[k], view.held[k]))
    }

    ghost predicate Valid()
      reads this, view.owner.Keys
    {
      maxEntries >= 1 && Apart() && Keeps(view.held, ops, maxEntries)
    }

    constructor (max: int)
      ensures Valid() && ops == [] && maxEntries == (if max <= 0 then 1000 else max) && view.owner == map[]
    {
      events := map[];
      maxEntries := Cap(max);
      view := View(map[], map[]);
      ops := [];
    }

    // m.events[key]; a missing key gives the zero slice.
    method SliceAt(key: string) returns (s: Slice)
      requires Apart()
      ensures s.off + s.len <= s.buf.Length && Contents(s) == ListAt(view.held, key)
      ensures if key in events then s == events[key] else fresh(s.buf)
    {
      if key in events {
        s := events[key];
      } else {
        var none := new Event[0];
        s := Slice(none, 0, 0);
      }
    }

    // m.events[key] = r, when r uses its own buffer.
    method Install(key: string, r: Slice, ghost text: seq<Event>)
      requires Shows(r, text)
      requires forall k :: k in events <==> k in view.held
      requires forall k | k in events && k != key ::
                 events[k].buf in view.owner && view.owner[events[k].buf] == k && Shows(events[k], view.held[k])
      requires r.buf in view.owner ==> view.owner[r.buf] == key
      modifies this`events, this`view
      ensures Apart() && view == View(old(view.held)[key := text], old(view.owner)[r.buf := key])
    {
      hide Shows;
      view := View(view.held[key := text], view.owner[r.buf := key]);
      events := events[key := r];
    }

    // m.events[key] = append(...), cut to the limit.
    method Push(key: string, e: Event, spare: nat)
      requires Apart()
      modifies this`events, this`view, view.owner.Keys
      ensures Apart() && fresh(view.owner.Keys - old(view.owner.Keys))
      ensures view.held == old(view.held)[key := Last(ListAt(old(view.held), key) + [e], maxEntries)]
    {
      var s := SliceAt(key);
      hide Last, ListAt;
      assert forall k | k in events && k != key :: events[k].buf != s.buf;
      var r := AppendAndCut(s, e, maxEntries, spare);
      Install(key, r, Contents(r));
    }

    method Append(a: Agent, e: Event, spare: nat)
      requires Valid() && Slashless(a)
      modifies this, view.owner.Keys
      ensures Valid() && ops == old(ops) + [Appended(a, e)]
      ensures fresh(view.owner.Keys - old(view.owner.Keys))
    {
      KeepsAfterAppend(view.held, ops, maxEntries, a, e);
      ops := ops + [Appended(a, e)];
      Push(MemoryKey(a), e, spare);
    }

    method List(a: Agent) returns (result: array<Event>)
      requires Valid() && Slashless(a)
      ensures fresh(result)
      ensures result[..] == Last(Log(ops, a), maxEntries)
      ensures IsNewest(result[..], Log(ops, a), maxEntries)
    {
      hide IsNewest, Log, Last;
      LastIsNewest(Log(ops, a), maxEntries);
      var key := MemoryKey(a);
      assert ListAt(view.held, key) == Last(Log(ops, a), maxEntries);
      if key !in events || events[key].len == 0 {
        result := new Event[0];
        return;
      }
      var s := events[key];
      result := new Event[s.len](i requires 0 <= i < s.len reads s.buf => s.buf[s.off + i]);
      assert result[..] == Contents(s);
    }

    method Clear(a: Agent)
      requires Valid() && Slashless(a)
      modifies this`events, this`view, this`ops
      ensures Valid() && ops == old(ops) + [Cleared(a)] && view.owner == old(view.owner)
    {
      KeepsAfterClear(view.held, ops, maxEntries, a);
      ops := ops + [Cleared(a)];
      view := view.(held := view.held - {MemoryKey(a)});
      events := events - {MemoryKey(a)};
    }
  }

  /** A list already returned keeps its contents while more events are appended and trimmed. */
  method ListedStays(h: InMemoryHistory, a: Agent, later: seq<(Agent, Event, nat)>) returns (listed: array<Event>)
    requires h.Valid() && Slashless(a)
    requires forall i | 0 <= i < |later| :: Slashless(later[i].0)
    modifies h, h.view.owner.Keys
    ensures listed[..] == Last(Log(old(h.ops), a), h.maxEntries)
    ensures h.Valid() && |h.ops| == |old(h.ops)| + |later|
  {
    listed := h.List(a);
    ghost var expected := listed[..];
    for i := 0 to |later|
      invariant h.Valid() && |h.ops| == |old(h.ops)| + i
      invariant fresh(h.view.owner.Keys - old(h.view.owner.Keys)) && listed !in h.view.owner.Keys
      invariant listed[..] == expected
    {
      h.Append(later[i].0, later[i].1, later[i].2);
    }
  }

  // ---- Redis ----

  // metav1.Time is written with whole seconds.
  function Stored(e: Event): Event {
    e.(time := e.time / SECOND * SECOND)
  }

  /** The stored event is the event, at the whole second in which it happened. */
  lemma StoredKeeps(e: Event)
    ensures IsInSeconds(Stored(e), e)
  {
  }

  function StoredAll(s: seq<Event>): (r: seq<Event>)
    ensures |r| == |s| && forall i | 0 <= i < |s| :: r[i] == Stored(s[i])
  {
    seq(|s|, i requires 0 <= i < |s| => Stored(s[i]))
  }

  // Redis counts a negative index from the end.
  function FromEnd(i: int, n: nat): int {
    if i >= 0 then i else if n + i < 0 then 0 else n + i
  }

  function LRange(l: seq<Event>, start: int, stop: int): seq<Event> {
    var i, j := FromEnd(start, |l|), if stop < 0 then |l| + stop else stop;
    if i > j || i >= |l| then [] else l[i..(if j >= |l| then |l| else j + 1)]
  }

  lemma LTrimKeepsLast(l: seq<Event>, n: nat)
    requires n >= 1
    ensures LRange(l, -(n as int), -1) == Last(l, n)
    ensures LRange(l, 0, -1) == l
  {
  }

  function RedisKey(a: Agent): string {
    HistoryKey(a.namespace, a.name)
  }

  lemma RedisKeysApart(a: Agent, b: Agent)
    requires Slashless(a) && Slashless(b)
    ensures RedisKey(a) == RedisKey(b) <==> a == b
  {
    IndexAndHistoryKeysInjective(a.namespace, a.name, b.namespace, b.name);
  }

  // The loop that unmarshals the items; the model's items are events already.
  method ReadAll(items: seq<Event>) returns (events: seq<Event>)
    ensures events == items
  {
    events := [];
    for i := 0 to |items|
      invariant events == items[..i]
    {
      events := events + [items[i]];
    }
  }

  // The same with the time of each event cut to the second.
  predicate IsNewestInSeconds(listed: seq<Event>, log: seq<Event>, n: nat) {
    && |listed| == (if |log| < n then |log| else n)
    && forall i | 0 <= i < |listed| :: IsInSeconds(listed[i], log[|log| - |listed| + i])
  }

  predicate IsInSeconds(stored: Event, e: Event) {
    && stored.kind == e.kind && stored.reason == e.reason && stored.message == e.message
    && stored.time % 1_000_000_000 == 0 && stored.time <= e.time < stored.time + 1_000_000_000
  }

  lemma StoredIsNewest(log: seq<Event>, n: nat)
    ensures IsNewestInSeconds(StoredAll(Last(log, n)), log, n)
  {
    hide Stored, IsInSeconds, Last;
    LastIsNewest(log, n);
    forall e: Event ensures IsInSeconds(Stored(e), e) {
      StoredKeeps(e);
    }
  }

  class RedisHistory {
    var lists: map<string, seq<Event>>
    const maxEntries: nat
    ghost var ops: seq<Op>

    ghost predicate Valid()
      reads this
    {
      && maxEntries >= 1
      && forall a | Slashless(a) :: ListAt(lists, RedisKey(a)) == StoredAll(Last(Log(ops, a), maxEntries))
    }

    constructor (max: int)
      ensures Valid() && ops == [] && maxEntries == if max <= 0 then 1000 else max
    {
      lists := map[];
      maxEntries := Cap(max);
      ops := [];
    }

    method Append(a: Agent, e: Event)
      requires Valid() && Slashless(a)
      modifies this
      ensures Valid() && ops == old(ops) + [Appended(a, e)]
    {
      var k := RedisKey(a);
      ghost var was := Last(Log(ops, a), maxEntries);
      TrimEveryTime(Log(ops, a), e, maxEntries);
      StoredAppend(was, e, maxEntries);
      assert ListAt(lists, k) == StoredAll(was);
      LTrimKeepsLast(ListAt(lists, k) + [Stored(e)], maxEntries);
      lists := lists[k := ListAt(lists, k) + [Stored(e)]];
      lists := lists[k := LRange(lists[k], -(maxEntries as int), -1)];
      ops := ops + [Appended(a, e)];
      assert ops[..|ops| - 1] == old(ops);
      assert lists[k] == StoredAll(Last(Log(ops, a), maxEntries));
      forall b | Slashless(b)
        ensures ListAt(lists, RedisKey(b)) == StoredAll(Last(Log(ops, b), maxEntries))
      {
        RedisKeysApart(a, b);
        hide RedisKey, Last, StoredAll, LRange;
      }
    }

    method List(a: Agent) returns (events: seq<Event>)
      requires Valid() && Slashless(a)
      ensures events == StoredAll(Last(Log(ops, a), maxEntries))
      ensures IsNewestInSeconds(events, Log(ops, a), maxEntries)
    {
      hide IsNewestInSeconds, LRange, Last, StoredAll, Log, RedisKey;
      StoredIsNewest(Log(ops, a), maxEntries);
      var held := ListAt(lists, RedisKey(a));
      LTrimKeepsLast(held, maxEntries);
      assert held == StoredAll(Last(Log(ops, a), maxEntries));
      events := ReadAll(LRange(held, 0, -1));
    }

    method Clear(a: Agent)
      requires Valid() && Slashless(a)
      modifies this
      ensures Valid() && ops == old(ops) + [Cleared(a)]
    {
      lists := lists - {RedisKey(a)};
      ops := ops + [Cleared(a)];
      assert ops[..|ops| - 1] == old(ops);
      forall b | Slashless(b)
        ensures ListAt(lists, RedisKey(b)) == StoredAll(Last(Log(ops, b), maxEntries))
      {
        RedisKeysApart(a, b);
        hide RedisKey;
      }
    }
  }

  lemma StoredAppend(s: seq<Event>, e: Event, n: nat)
    ensures StoredAll(s) + [Stored(e)] == StoredAll(s + [e])
    ensures StoredAll(Last(s + [e], n)) == Last(StoredAll(s + [e]), n)
  {
  }

  /** After the same operations, both stores list the same events, once times are written with whole seconds. */
  method StoresAgree(h: InMemoryHistory, r: RedisHistory, more: seq<Op>, spare: nat, a: Agent)
    returns (listed: array<Event>, stored: seq<Event>)
    requires h.Valid() && r.Valid() && h.maxEntries == r.maxEntries && h.ops == r.ops
    requires Slashless(a) && forall i | 0 <= i < |more| :: Slashless(more[i].agent)
    modifies h, h.view.owner.Keys, r
    ensures h.Valid() && r.Valid() && h.ops == r.ops == old(h.ops) + more
    ensures StoredAll(listed[..]) == stored == StoredAll(stored)
    ensures |stored| == if |Log(h.ops, a)| < h.maxEntries then |Log(h.ops, a)| else h.maxEntries
  {
    PerformAll(h, r, more, spare);
    listed := h.List(a);
    stored := r.List(a);
    StoredTwice(Last(Log(h.ops, a), h.maxEntries));
    hide StoredAll;
  }

  method PerformAll(h: InMemoryHistory, r: RedisHistory, more: seq<Op>, spare: nat)
    requires h.Valid() && r.Valid() && forall i | 0 <= i < |more| :: Slashless(more[i].agent)
    modifies h, h.view.owner.Keys, r
    ensures h.Valid() && r.Valid() && h.ops == old(h.ops) + more && r.ops == old(r.ops) + more
  {
    hide *;
    for i := 0 to |more|
      invariant h.Valid() && r.Valid() && h.ops == old(h.ops) + more[..i] && r.ops == old(r.ops) + more[..i]
      invariant fresh(h.view.owner.Keys - old(h.view.owner.Keys))
    {
      assert more[..i + 1] == more[..i] + [more[i]];
      PerformBoth(h, r, more[i], spare);
    }
    assert more[..|more|] == more;
  }

  method PerformBoth(h: InMemoryHistory, r: RedisHistory, op: Op, spare: nat)
    requires h.Valid() && r.Valid() && Slashless(op.agent)
    modifies h, h.view.owner.Keys, r
    ensures h.Valid() && r.Valid() && h.ops == old(h.ops) + [op] && r.ops == old(r.ops) + [op]
    ensures fresh(h.view.owner.Keys - old(h.view.owner.Keys))
  {
    hide *;
    match op {
      case Appended(a, e) =>
        h.Append(a, e, spare);
        r.Append(a, e);
      case Cleared(a) =>
        h.Clear(a);
        r.Clear(a);
    }
  }

  lemma StoredTwice(s: seq<Event>)
    ensures StoredAll(StoredAll(s)) == StoredAll(s)
  {
    assert forall e: Event :: Stored(Stored(e)) == Stored(e);
  }
}
