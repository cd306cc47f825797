/**
 How a list of environment variables stands in the JSON of an Agent: an array of objects, or nothing when it is empty.
 */
module EnvJson {
  import opened Wrappers
  import opened MergePatch
  import AgentTypes

  type EnvVar = AgentTypes.EnvVar

  function Text(j: Json): string {
    if j.Atom? then j.text else ""
  }

  // Empty values are left out.
  function EncodeVar(v: EnvVar): Json {
    Obj(map["name" := Atom(v.name)]
        + (if v.value == "" then map[] else map["value" := Atom(v.value)])
        + (if v.valueFrom.None? then map[] else map["valueFrom" := Atom(v.valueFrom.value)]))
  }

  function DecodeVar(j: Json): EnvVar {
    AgentTypes.EnvVar(Text(Member(j, "name")), Text(Member(j, "value")),
                      if Member(j, "valueFrom").Atom? then Some(Member(j, "valueFrom").text) else None)
  }

  function Encode(vars: seq<EnvVar>): Json {
    if vars == [] then Null else Array(seq(|vars|, i requires 0 <= i < |vars| => EncodeVar(vars[i])))
  }

  function Decode(j: Json): seq<EnvVar> {
    if j.Array? then seq(|j.items|, i requires 0 <= i < |j.items| => DecodeVar(j.items[i])) else []
  }

  /** The names of a variable's parts; what is empty is left out. */
  lemma VarParts(v: EnvVar)
    ensures Member(EncodeVar(v), "name") == Atom(v.name)
    ensures Member(EncodeVar(v), "value") == if v.value == "" then Null else Atom(v.value)
    ensures Member(EncodeVar(v), "valueFrom") == if v.valueFrom.None? then Null else Atom(v.valueFrom.value)
  {
  }

  /** A list comes back as it was written. */
  lemma DecodeEncode(vars: seq<EnvVar>)
    ensures Decode(Encode(vars)) == vars
    ensures !Encode(vars).Obj? && (vars == [] <==> Encode(vars).Null?)
  {
    forall i | 0 <= i < |vars|
      ensures DecodeVar(EncodeVar(vars[i])) == vars[i]
    {
    }
  }
}
