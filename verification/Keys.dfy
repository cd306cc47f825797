/** The keys under which the stores keep what belongs to one agent. */
module Keys {
  datatype Agent = Agent(namespace: string, name: string)

  function AgentKey(namespace: string, name: string): string {
    namespace + "/" + name
  }

  function FieldKey(namespace: string, name: string, field: string): string {
    "cache:" + namespace + "/" + name + ":" + field
  }

  function IndexKey(namespace: string, name: string): string {
    "cache-idx:" + namespace + "/" + name
  }

  function HistoryKey(namespace: string, name: string): string {
    "history:" + namespace + "/" + name
  }

  // The first separator ends the first part, when that part does not contain it.
  lemma {:induction false} SplitAtSeparator(a: string, b: string, c: string, d: string, sep: char)
    requires sep !in a && sep !in c && a + [sep] + b == c + [sep] + d
    ensures a == c && b == d
    decreases |a|
  {
    var s, t := a + [sep] + b, c + [sep] + d;
    assert s[0] == if a == [] then sep else a[0];
    assert t[0] == if c == [] then sep else c[0];
    if a == [] {
      assert b == s[1..] == t[1..] == d;
    } else {
      assert a[1..] + [sep] + b == s[1..] == t[1..] == c[1..] + [sep] + d;
      SplitAtSeparator(a[1..], b, c[1..], d, sep);
    }
  }

  /** Agents do not share a key, as long as namespaces contain no slash. */
  lemma AgentKeyInjective(ns: string, name: string, ns': string, name': string)
    requires '/' !in ns && '/' !in ns'
    ensures AgentKey(ns, name) == AgentKey(ns', name') <==> ns == ns' && name == name'
  {
    if AgentKey(ns, name) == AgentKey(ns', name') {
      SplitAtSeparator(ns, name, ns', name', '/');
    }
  }

  lemma SamePrefix(prefix: string, s: string, t: string)
    requires prefix + s == prefix + t
    ensures s == t
  {
    assert s == (prefix + s)[|prefix|..];
    assert t == (prefix + t)[|prefix|..];
  }

  /** The index and history keys tell agents apart too. */
  lemma IndexAndHistoryKeysInjective(ns: string, name: string, ns': string, name': string)
    requires '/' !in ns && '/' !in ns'
    ensures IndexKey(ns, name) == IndexKey(ns', name') <==> ns == ns' && name == name'
    ensures HistoryKey(ns, name) == HistoryKey(ns', name') <==> ns == ns' && name == name'
  {
    assert IndexKey(ns, name) == "cache-idx:" + AgentKey(ns, name);
    assert IndexKey(ns', name') == "cache-idx:" + AgentKey(ns', name');
    assert HistoryKey(ns, name) == "history:" + AgentKey(ns, name);
    assert HistoryKey(ns', name') == "history:" + AgentKey(ns', name');
    if IndexKey(ns, name) == IndexKey(ns', name') {
      SamePrefix("cache-idx:", AgentKey(ns, name), AgentKey(ns', name'));
      AgentKeyInjective(ns, name, ns', name');
    }
    if HistoryKey(ns, name) == HistoryKey(ns', name') {
      SamePrefix("history:", AgentKey(ns, name), AgentKey(ns', name'));
      AgentKeyInjective(ns, name, ns', name');
    }
  }

  /** A field key determines namespace, name and field, when names contain no colon. The field is arbitrary. */
  lemma FieldKeyInjective(ns: string, name: string, field: string, ns': string, name': string, field': string)
    requires '/' !in ns && '/' !in ns' && ':' !in name && ':' !in name'
    ensures FieldKey(ns, name, field) == FieldKey(ns', name', field') <==> ns == ns' && name == name' && field == field'
  {
    if FieldKey(ns, name, field) == FieldKey(ns', name', field') {
      var r, r' := name + [':'] + field, name' + [':'] + field';
      assert FieldKey(ns, name, field) == "cache:" + (ns + ['/'] + r);
      assert FieldKey(ns', name', field') == "cache:" + (ns' + ['/'] + r');
      SamePrefix("cache:", ns + ['/'] + r, ns' + ['/'] + r');
      SplitAtSeparator(ns, r, ns', r', '/');
      SplitAtSeparator(name, field, name', field', ':');
    }
  }

  lemma SplitFieldKeys(ns: string, name: string, field: string, ns': string, name': string, field': string)
    requires '/' !in ns && '/' !in ns'
    ensures FieldKey(ns, name, field) == FieldKey(ns', name', field')
            <==> ns == ns' && name + ":" + field == name' + ":" + field'
  {
    var r, r' := name + ":" + field, name' + ":" + field';
    assert FieldKey(ns, name, field) == "cache:" + (ns + ['/'] + r);
    assert FieldKey(ns', name', field') == "cache:" + (ns' + ['/'] + r');
    if FieldKey(ns, name, field) == FieldKey(ns', name', field') {
      SamePrefix("cache:", ns + ['/'] + r, ns' + ['/'] + r');
      SplitAtSeparator(ns, r, ns', r', '/');
    }
  }

  // The names are equal, or one continues the other after a colon.
  predicate NamesMeet(name: string, name': string) {
    name == name' || name + ":" <= name' || name' + ":" <= name
  }

  lemma MeetingNames(name: string, field: string, name': string, field': string)
    requires name + ":" + field == name' + ":" + field' && |name| <= |name'|
    ensures name == name' || name + ":" <= name'
  {
    var s := name + ":" + field;
    assert name == s[..|name|] && name' == s[..|name'|];
    if |name| < |name'| {
      assert name'[..|name| + 1] == s[..|name| + 1] == name + ":";
    }
  }

  lemma FieldsToMeetIn(ns: string, name: string, name': string) returns (field: string, field': string)
    requires name == name' || name + ":" <= name'
    ensures FieldKey(ns, name, field) == FieldKey(ns, name', field')
  {
    field' := "";
    if name == name' {
      field := "";
    } else {
      field := name'[|name| + 1..] + ":";
      assert name + ":" + field == name' + ":" + field' by {
        assert name' == name + ":" + name'[|name| + 1..];
      }
      assert FieldKey(ns, name, field) == "cache:" + ns + "/" + (name + ":" + field);
      assert FieldKey(ns, name', field') == "cache:" + ns + "/" + (name' + ":" + field');
    }
  }

  /**
   Two agents can meet in some field key exactly when they share the namespace and the name, or one name continues the
   other after a colon. Kubernetes forbids such names, but the cache requests do not look the Agent up.
   */
  lemma AgentsMeetIff(ns: string, name: string, ns': string, name': string)
    requires '/' !in ns && '/' !in ns'
    ensures (exists field, field' :: FieldKey(ns, name, field) == FieldKey(ns', name', field'))
            <==> ns == ns' && NamesMeet(name, name')
  {
    if exists field, field' :: FieldKey(ns, name, field) == FieldKey(ns', name', field') {
      var field, field' :| FieldKey(ns, name, field) == FieldKey(ns', name', field');
      SplitFieldKeys(ns, name, field, ns', name', field');
      if |name| <= |name'| {
        MeetingNames(name, field, name', field');
      } else {
        MeetingNames(name', field', name, field);
      }
    }
    if ns == ns' && NamesMeet(name, name') {
      if name == name' || name + ":" <= name' {
        var field, field' := FieldsToMeetIn(ns, name, name');
      } else {
        var field', field := FieldsToMeetIn(ns, name', name);
      }
    }
  }

  /** The three families of Redis keys never meet, whatever the parts are. */
  lemma FamiliesDisjoint(ns: string, name: string, field: string, ns': string, name': string)
    ensures FieldKey(ns, name, field) != IndexKey(ns', name')
    ensures FieldKey(ns, name, field) != HistoryKey(ns', name')
    ensures IndexKey(ns, name) != HistoryKey(ns', name')
  {
    assert FieldKey(ns, name, field)[5] == ':' && IndexKey(ns', name')[5] == '-';
    assert FieldKey(ns, name, field)[0] == 'c' && IndexKey(ns, name)[0] == 'c' && HistoryKey(ns', name')[0] == 'h';
  }
}
