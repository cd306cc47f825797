/** The part of Redis that the cache and the history rely on: one key space, deadlines, and the commands used. */
module RedisServer {
  import opened Wrappers
  import opened TtlMap

  datatype Datum = Str(entry: Entry) | Members(fields: set<string>)

  datatype Slot = Slot(datum: Datum, deadline: Option<int>)

  type Server = map<string, Slot>

  // A key is gone once its deadline has passed.
  predicate Due(deadline: Option<int>, t: int) {
    deadline.Some? && t > deadline.value
  }

  function Find(s: Server, key: string, t: int): Option<Slot> {
    if key in s && !Due(s[key].deadline, t) then Some(s[key]) else None
  }

  function Get(s: Server, key: string, t: int): Option<Entry> {
    match Find(s, key, t)
    case Some(Slot(Str(e), _)) => Some(e)
    case _ => None
  }

  function SMembers(s: Server, key: string, t: int): set<string> {
    match Find(s, key, t)
    case Some(Slot(Members(fs), _)) => fs
    case _ => {}
  }

  // SET with an expiry when ttl is positive; whatever was there before goes.
  function SetKey(s: Server, key: string, e: Entry, ttl: int, t: int): Server {
    s[key := Slot(Str(e), if ttl > 0 then Some(t + ttl) else None)]
  }

  function SAdd(s: Server, key: string, f: string, t: int): Server {
    match Find(s, key, t)
    case None => s[key := Slot(Members({f}), None)]
    case Some(Slot(Members(fs), d)) => s[key := Slot(Members(fs + {f}), d)]
    case _ => s
  }

  function Expire(s: Server, key: string, d: int, t: int): Server {
    match Find(s, key, t)
    case None => s
    case Some(slot) => s[key := slot.(deadline := Some(t + d))]
  }

  // Removing the last member removes the key.
  function SRem(s: Server, key: string, f: string, t: int): Server {
    match Find(s, key, t)
    case Some(Slot(Members(fs), d)) => WithMembers(s, key, fs - {f}, d)
    case _ => s
  }

  function WithMembers(s: Server, key: string, fs: set<string>, d: Option<int>): Server {
    if fs == {} then s - {key} else s[key := Slot(Members(fs), d)]
  }

  function Del(s: Server, keys: set<string>): Server {
    s - keys
  }
}
