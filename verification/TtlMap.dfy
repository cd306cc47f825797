/** The plain map from fields to entries with an optional expiry, which both cache stores stand for. */
module TtlMap {
  import opened Wrappers

  // What a cache holds: the idle watcher's int64, the float64 that JSON makes of it (always a whole number here), or
  // any other value.
  datatype Value = Int64(n: int) | Float64(n: int) | Text(s: string)

  datatype Entry = Entry(value: Value, createdAt: int, expiresAt: Option<int>)

  type Fields = map<string, Entry>

  // A new entry; without a positive time to live it does not expire. The two times are those of two looks at the clock.
  function NewEntry(value: Value, ttl: int, created: int, stamped: int): Entry {
    Entry(value, created, if ttl > 0 then Some(stamped + ttl) else None)
  }

  // Strictly after the deadline.
  predicate Expired(e: Entry, now: int) {
    e.expiresAt.Some? && now > e.expiresAt.value
  }

  function Read(m: Fields, field: string, now: int): Option<Entry> {
    if field in m && !Expired(m[field], now) then Some(m[field]) else None
  }

  function LiveFields(m: Fields, now: int): Fields {
    map f | f in m && !Expired(m[f], now) :: m[f]
  }

  // held is m without some entries that have expired by now.
  predicate Stands(held: Fields, m: Fields, now: int) {
    && (forall f | f in held :: f in m && held[f] == m[f])
    && (forall f | f in m && f !in held :: Expired(m[f], now))
  }

  /** A store that dropped only expired entries answers every read like the full map, now and at any later time. */
  lemma StandsReadsAlike(held: Fields, m: Fields, now: int, later: int, field: string)
    requires Stands(held, m, now) && now <= later
    ensures Read(held, field, later) == Read(m, field, later)
    ensures LiveFields(held, later) == LiveFields(m, later)
    ensures Stands(held, m, later)
  {
  }

  /** What was set is read until its time to live has passed, with its times, and for ever when it has none. */
  lemma ReadOfSet(m: Fields, field: string, value: Value, ttl: int, t: int, u: int)
    ensures Read(m[field := NewEntry(value, ttl, t, t)], field, u)
            == if ttl <= 0 then Some(Entry(value, t, None))
               else if u <= t + ttl then Some(Entry(value, t, Some(t + ttl)))
               else None
    ensures forall g | g != field :: Read(m[field := NewEntry(value, ttl, t, t)], g, u) == Read(m, g, u)
    ensures forall g :: Read(m - {field}, g, u) == if g == field then None else Read(m, g, u)
  {
  }

  // The entry is there and its time has not passed.
  predicate IsLive(m: Fields, field: string, u: int) {
    field in m && (m[field].expiresAt == None || u <= m[field].expiresAt.value)
  }

  /** Reading and listing find exactly what is live. */
  lemma ReadsWhatIsLive(m: Fields, field: string, u: int)
    ensures Read(m, field, u) == if IsLive(m, field, u) then Some(m[field]) else None
    ensures field in LiveFields(m, u) <==> IsLive(m, field, u)
    ensures field in LiveFields(m, u) ==> LiveFields(m, u)[field] == m[field]
  {
  }
}
