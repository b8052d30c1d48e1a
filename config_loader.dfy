// The agents' configuration loader: a common configuration merged with an
// agent-specific one, where the agent's values win except that nested sections
// present on both sides are merged section by section; and a check that the
// required sections are present.

module ConfigLoading {
  import opened PyValues

  // ---------------------------------------------------------------- merging

  /** The merge `merge_configs` computes: every key of either side; an override value
      replaces the base value, unless both are dicts, which are merged in turn. */
  function Merged(base: Dict, over: Dict): (m: Dict)
    ensures m.Keys == base.Keys + over.Keys
    decreases Obj(over)
  {
    map k | k in base.Keys + over.Keys ::
      if k !in over then base[k]
      else if k in base && base[k].Obj? && over[k].Obj? then Obj(Merged(base[k].fields, over[k].fields))
      else over[k]
  }

  /** `merge_configs`: a copy of the base into which each override entry is written,
      recursing where both sides hold a dict. */
  method MergeConfigs(base: Dict, over: Dict) returns (merged: Dict)
    ensures merged == Merged(base, over)
    decreases Obj(over)
  {
    merged := base;
    var todo := over.Keys;
    while todo != {}
      invariant todo <= over.Keys
      invariant merged.Keys == base.Keys + (over.Keys - todo)
      invariant forall k :: k in merged ==> merged[k] == (if k in over && k !in todo then Merged(base, over)[k] else base[k])
      decreases todo
    {
      var key :| key in todo;
      var value := over[key];
      if key in merged && merged[key].Obj? && value.Obj? {
        assert merged[key] == base[key];
        var inner := MergeConfigs(merged[key].fields, value.fields);
        merged := merged[key := Obj(inner)];
      } else {
        merged := merged[key := value];
      }
      todo := todo - {key};
    }
  }

  /** `load_agent_config`: the common configuration (empty when its file is absent)
      merged with the agent's; None when the agent's file is absent. */
  function AgentConfig(common: Option<Dict>, agent: Option<Dict>): (c: Option<Dict>)
    ensures c.None? <==> agent.None?
    ensures c.Some? ==> c.value.Keys == agent.value.Keys + (if common.Some? then common.value.Keys else {})
  {
    match agent
    case None => None
    case Some(a) => Some(Merged(if common.Some? then common.value else map[], a))
  }

  // ---------------------------------------------------------------- validation

  datatype Validation =
    | Validated
    /** ValueError naming the first required section the configuration lacks. */
    | MissingSection(section: Value)
    /** A TypeError: the sections cannot be iterated, or one cannot be a key. */
    | Raised

  /** The items `for section in schema.get('required_sections', [])` visits; None
      where the value cannot be iterated. */
  function RequiredSections(schema: Dict): Option<seq<Value>>
  {
    match Get(schema, "required_sections", Arr([]))
    case Arr(items) => Some(items)
    case Str(s) => Some(seq(|s|, i requires 0 <= i < |s| => Str([s[i]])))
    case _ => None
  }

  /** The first failing section check of `sections`, in order. */
  function Checked(config: Dict, sections: seq<Value>): Validation
  {
    if sections == [] then Validated
    else
      var s := sections[0];
      if s.Arr? || s.Obj? then Raised
      else if !s.Str? || s.s !in config then MissingSection(s)
      else Checked(config, sections[1..])
  }

  /** `validate_config`: passes exactly when the required sections can be iterated and
      each is a key of the configuration; a schema without them accepts everything. */
  function ValidateConfig(config: Dict, schema: Dict): (v: Validation)
    ensures v == Validated <==>
      (RequiredSections(schema).Some? &&
       forall i :: 0 <= i < |RequiredSections(schema).value| ==>
         RequiredSections(schema).value[i].Str? && RequiredSections(schema).value[i].s in config)
    ensures "required_sections" !in schema ==> v == Validated
  {
    match RequiredSections(schema)
    case None => Raised
    case Some(sections) => CheckedPasses(config, sections); Checked(config, sections)
  }

  // ---------------------------------------------------------------- properties

  /** Override values win unless both sides hold a dict, which are merged; keys only
      in the base keep their base values. */
  lemma MergedEntries(base: Dict, over: Dict, k: string)
    ensures var m := Merged(base, over);
      (k in base && k !in over ==> m[k] == base[k])
      && (k in over && !(k in base && base[k].Obj? && over[k].Obj?) ==> m[k] == over[k])
      && (k in over && k in base && base[k].Obj? && over[k].Obj? ==> m[k] == Obj(Merged(base[k].fields, over[k].fields)))
  {
  }

  /** An empty override leaves the base, and an empty base gives the override. */
  lemma MergeIdentities(d: Dict)
    ensures Merged(d, map[]) == d
    ensures Merged(map[], d) == d
  {
  }

  /** Merging a configuration into itself changes nothing. */
  lemma {:induction false} MergeSelf(d: Dict)
    ensures Merged(d, d) == d
    decreases Obj(d)
  {
    forall k | k in d && d[k].Obj?
      ensures Merged(d[k].fields, d[k].fields) == d[k].fields
    {
      MergeSelf(d[k].fields);
    }
  }

  /** Applying the same override twice is the same as applying it once. */
  lemma {:induction false} MergeTwice(base: Dict, over: Dict)
    ensures Merged(Merged(base, over), over) == Merged(base, over)
    decreases Obj(over)
  {
    var m := Merged(base, over);
    forall k | k in over && over[k].Obj?
      ensures m[k].Obj? && Merged(m[k].fields, over[k].fields) == m[k].fields
    {
      if k in base && base[k].Obj? {
        MergeTwice(base[k].fields, over[k].fields);
      } else {
        MergeSelf(over[k].fields);
      }
    }
  }

  /** Agent values take precedence over common ones, and common keys the agent does
      not set are kept; without a common file the agent's configuration is used as
      is. */
  lemma AgentPrecedence(common: Dict, agent: Dict, k: string)
    ensures var c := AgentConfig(Some(common), Some(agent)).value;
      (k in agent && !(k in common && common[k].Obj? && agent[k].Obj?) ==> c[k] == agent[k])
      && (k in common && k !in agent ==> c[k] == common[k])
    ensures AgentConfig(None, Some(agent)) == Some(agent)
  {
    MergeIdentities(agent);
  }

  /** Validation passes exactly when every required section is a key of the
      configuration. */
  lemma {:induction false} CheckedPasses(config: Dict, sections: seq<Value>)
    ensures Checked(config, sections) == Validated <==>
      forall i :: 0 <= i < |sections| ==> sections[i].Str? && sections[i].s in config
  {
    if sections != [] {
      CheckedPasses(config, sections[1..]);
      if sections[0].Str? && sections[0].s in config {
        assert forall i :: 1 <= i < |sections| ==> sections[i] == sections[1..][i - 1];
      }
    }
  }

  /** A reported section is the first one missing: it is not a key, and every earlier
      section is. */
  lemma {:induction false} CheckedReportsFirst(config: Dict, sections: seq<Value>, s: Value)
    requires Checked(config, sections) == MissingSection(s)
    ensures exists i :: 0 <= i < |sections| && sections[i] == s && !(s.Str? && s.s in config)
                        && forall j :: 0 <= j < i ==> sections[j].Str? && sections[j].s in config
  {
    var s0 := sections[0];
    if !(s0.Arr? || s0.Obj? || !s0.Str? || s0.s !in config) {
      CheckedReportsFirst(config, sections[1..], s);
      var i :| 0 <= i < |sections[1..]| && sections[1..][i] == s && !(s.Str? && s.s in config)
               && forall j :: 0 <= j < i ==> sections[1..][j].Str? && sections[1..][j].s in config;
      assert sections[i + 1] == s;
      forall j | 0 <= j < i + 1
        ensures sections[j].Str? && sections[j].s in config
      {
        if j > 0 {
          assert sections[j] == sections[1..][j - 1];
        }
      }
    }
  }

}
