/** Merging JSON configuration and expanding cluster variants. */
module ConfigMerge {
  import opened Wrappers

  datatype Json =
    | Null
    | Bool(b: bool)
    | Number(text: string)
    | Str(s: string)
    | Arr(items: seq<Json>)
    | Obj(fields: map<string, Json>)

  // ----- Deep merge --------------------------------------------------------------------------

  /** `patch` laid over `base`: objects merge key by key, anything else in `patch` wins. */
  function Merge(base: Json, patch: Json): Json
    decreases patch
  {
    if base.Obj? && patch.Obj? then Obj(MergeFields(base.fields, patch)) else patch
  }

  function MergeFields(base: map<string, Json>, patch: Json): (fields: map<string, Json>)
    requires patch.Obj?
    ensures fields.Keys == base.Keys + patch.fields.Keys
    decreases patch, 0
  {
    map k | k in base.Keys + patch.fields.Keys :: MergedField(base, patch, k)
  }

  function MergedField(base: map<string, Json>, patch: Json, k: string): Json
    requires patch.Obj? && (k in base || k in patch.fields)
    decreases patch, 0, 0
  {
    if k !in patch.fields then base[k]
    else if !patch.fields[k].Obj? then patch.fields[k]
    else Merge(if k in base then base[k] else Obj(map[]), patch.fields[k])
  }

  /** The loop over the patch's keys, in whatever order they come. */
  method DeepMerge(base: Json, patch: Json) returns (merged: Json)
    ensures merged == Merge(base, patch)
    decreases patch
  {
    if !base.Obj? || !patch.Obj? {
      return patch;
    }
    var fields, todo := base.fields, patch.fields.Keys;
    while todo != {}
      invariant PartlyMerged(base.fields, patch, fields, todo)
      decreases |todo|
    {
      var k :| k in todo;
      var v := patch.fields[k];
      if v.Obj? {
        v := DeepMerge(if k in fields then fields[k] else Obj(map[]), v);
      }
      MergeOneMore(base.fields, patch, fields, todo, k);
      fields := fields[k := v];
      todo := todo - {k};
    }
    AllMerged(base.fields, patch, fields);
    return Obj(fields);
  }

  /** Every key of the patch but those in `todo` has been merged into `fields`. */
  ghost predicate PartlyMerged(base: map<string, Json>, patch: Json, fields: map<string, Json>, todo: set<string>)
    requires patch.Obj?
  {
    && todo <= patch.fields.Keys
    && fields.Keys == base.Keys + (patch.fields.Keys - todo)
    && (forall k :: k in fields && k !in todo ==> fields[k] == MergedField(base, patch, k))
    && (forall k :: k in fields && k in todo ==> k in base && fields[k] == base[k])
  }

  lemma MergeOneMore(base: map<string, Json>, patch: Json, fields: map<string, Json>, todo: set<string>, k: string)
    requires patch.Obj? && PartlyMerged(base, patch, fields, todo) && k in todo
    ensures PartlyMerged(base, patch, fields[k := MergedField(base, patch, k)], todo - {k})
    ensures k in fields <==> k in base
    ensures k in fields ==> fields[k] == base[k]
  {
  }

  lemma AllMerged(base: map<string, Json>, patch: Json, fields: map<string, Json>)
    requires patch.Obj? && PartlyMerged(base, patch, fields, {})
    ensures fields == MergeFields(base, patch)
  {
  }

  /** The value at a path of keys. */
  function At(j: Json, path: seq<string>): Option<Json> {
    if path == [] then Some(j)
    else if j.Obj? && path[0] in j.fields then At(j.fields[path[0]], path[1..])
    else None
  }

  /** Following the path, the patch stays an object until it lacks the next key. */
  predicate Unreached(patch: Json, path: seq<string>) {
    path != [] && patch.Obj? && (path[0] !in patch.fields || Unreached(patch.fields[path[0]], path[1..]))
  }

  lemma MergeAtKey(base: Json, patch: Json, k: string)
    requires base.Obj? && patch.Obj? && (k in base.fields || k in patch.fields)
    ensures Merge(base, patch).Obj? && k in Merge(base, patch).fields
    ensures Merge(base, patch).fields[k] == MergedField(base.fields, patch, k)
  {
  }

  /** The merge, path by path, for all trees: what the patch holds at a path wins, except that two
      objects merge; where the patch is not reached the base value stays, including its absence; and
      below anything else in the patch there is nothing. */
  lemma {:induction false} MergePathwise(base: Json, patch: Json, path: seq<string>)
    ensures At(Merge(base, patch), path) ==
            match At(patch, path)
            case Some(v) =>
              var b := At(base, path);
              Some(if v.Obj? && b.Some? && b.value.Obj? then Merge(b.value, v) else v)
            case None => if Unreached(patch, path) && base.Obj? then At(base, path) else None
    decreases path
  {
    if path != [] && base.Obj? && patch.Obj? {
      var k := path[0];
      if k in patch.fields {
        MergeAtKey(base, patch, k);
        if patch.fields[k].Obj? {
          var b := if k in base.fields then base.fields[k] else Obj(map[]);
          MergePathwise(b, patch.fields[k], path[1..]);
          if k !in base.fields {
            EmptyAt(path[1..]);
            EmptyIsUnit(patch.fields[k]);
          }
        }
      } else if k in base.fields {
        MergeAtKey(base, patch, k);
      }
    }
  }

  lemma EmptyAt(path: seq<string>)
    ensures At(Obj(map[]), path) == if path == [] then Some(Obj(map[])) else None
  {
  }

  /** The empty object is a left unit for object patches and a right unit for object bases. */
  lemma {:induction false} EmptyIsUnit(patch: Json)
    requires patch.Obj?
    ensures Merge(Obj(map[]), patch) == patch
    ensures Merge(patch, Obj(map[])) == patch
    decreases patch
  {
    forall k | k in patch.fields
      ensures MergedField(map[], patch, k) == patch.fields[k]
    {
      if patch.fields[k].Obj? { EmptyIsUnit(patch.fields[k]); }
    }
    assert MergeFields(map[], patch) == patch.fields;
    assert MergeFields(patch.fields, Obj(map[])) == patch.fields;
  }

  /** Applying a patch a second time changes nothing. */
  lemma {:induction false} MergeIsIdempotent(base: Json, patch: Json)
    ensures Merge(Merge(base, patch), patch) == Merge(base, patch)
    decreases patch
  {
    if patch.Obj? {
      var once := Merge(base, patch);
      assert once.fields.Keys == if base.Obj? then base.fields.Keys + patch.fields.Keys else patch.fields.Keys;
      forall k | k in once.fields
        ensures MergedField(once.fields, patch, k) == once.fields[k]
      {
        if k in patch.fields && patch.fields[k].Obj? {
          if base.Obj? {
            MergeAtKey(base, patch, k);
            MergeIsIdempotent(if k in base.fields then base.fields[k] else Obj(map[]), patch.fields[k]);
          } else {
            SelfMerge(patch.fields[k]);
          }
        } else if base.Obj? {
          MergeAtKey(base, patch, k);
        }
      }
      assert MergeFields(once.fields, patch) == once.fields;
    }
  }

  lemma {:induction false} SelfMerge(j: Json)
    ensures Merge(j, j) == j
    decreases j
  {
    if j.Obj? {
      forall k | k in j.fields
        ensures MergedField(j.fields, j, k) == j.fields[k]
      {
        SelfMerge(j.fields[k]);
      }
      assert MergeFields(j.fields, j) == j.fields;
    }
  }

  /** Nothing of `base` shows once `patch` lies over it: below two objects, the patch has every key
      of the base. */
  predicate Covers(patch: Json, base: Json)
    decreases patch
  {
    patch.Obj? && base.Obj? ==>
      forall k :: k in base.fields ==> k in patch.fields && Covers(patch.fields[k], base.fields[k])
  }

  /** Nowhere does a value of `b` that is no object separate two objects of which the upper leaves
      some of the lower visible. */
  predicate Groupable(a: Json, b: Json, c: Json)
    decreases c
  {
    c.Obj? && a.Obj? ==>
      if !b.Obj? then Covers(c, a)
      else forall k :: k in a.fields && k in b.fields && k in c.fields ==>
             Groupable(a.fields[k], b.fields[k], c.fields[k])
  }

  lemma {:induction false} CoveredIff(base: Json, patch: Json)
    ensures Merge(base, patch) == patch <==> Covers(patch, base)
    decreases patch
  {
    if patch.Obj? && base.Obj? {
      forall k | k in base.fields && k in patch.fields
        ensures MergedField(base.fields, patch, k) == patch.fields[k] <==> Covers(patch.fields[k], base.fields[k])
      {
        CoveredIff(base.fields[k], patch.fields[k]);
      }
      forall k | k in patch.fields && k !in base.fields
        ensures MergedField(base.fields, patch, k) == patch.fields[k]
      {
        if patch.fields[k].Obj? { EmptyIsUnit(patch.fields[k]); }
      }
      if Covers(patch, base) {
        assert MergeFields(base.fields, patch) == patch.fields;
      } else if Merge(base, patch) == patch {
        assert MergeFields(base.fields, patch) == patch.fields;
        forall k | k in base.fields
          ensures k in patch.fields && Covers(patch.fields[k], base.fields[k])
        {
          MergeAtKey(base, patch, k);
        }
      }
    }
  }

  /** A field of the merge, where an absent field counts as the empty object below a patch object. */
  lemma FieldIsMerge(base: Json, patch: Json, k: string)
    requires base.Obj? && patch.Obj? && k in patch.fields
    ensures k in Merge(base, patch).fields
    ensures Merge(base, patch).fields[k] == if k in base.fields then Merge(base.fields[k], patch.fields[k]) else patch.fields[k]
  {
    MergeAtKey(base, patch, k);
    if k !in base.fields && patch.fields[k].Obj? { EmptyIsUnit(patch.fields[k]); }
  }

  /** Of three objects, the two groupings can only differ at a key that all three have. */
  lemma GroupedField(a: Json, b: Json, c: Json, k: string)
    requires a.Obj? && b.Obj? && c.Obj? && (k in a.fields || k in b.fields || k in c.fields)
    ensures var l, r := Merge(Merge(a, b), c), Merge(a, Merge(b, c));
            && l.Obj? && r.Obj? && k in l.fields && k in r.fields
            && if k in a.fields && k in b.fields && k in c.fields then
                 && l.fields[k] == Merge(Merge(a.fields[k], b.fields[k]), c.fields[k])
                 && r.fields[k] == Merge(a.fields[k], Merge(b.fields[k], c.fields[k]))
               else l.fields[k] == r.fields[k]
  {
    var ab, bc := Merge(a, b), Merge(b, c);
    if k in b.fields { FieldIsMerge(a, b, k); } else if k in a.fields { MergeAtKey(a, b, k); }
    if k in c.fields { FieldIsMerge(b, c, k); } else if k in b.fields { MergeAtKey(b, c, k); }
    if k in c.fields { FieldIsMerge(ab, c, k); } else { MergeAtKey(ab, c, k); }
    if k in bc.fields { FieldIsMerge(a, bc, k); } else { MergeAtKey(a, bc, k); }
  }

  lemma GroupedKeys(a: Json, b: Json, c: Json)
    requires a.Obj? && b.Obj? && c.Obj?
    ensures Merge(Merge(a, b), c).Obj? && Merge(a, Merge(b, c)).Obj?
    ensures Merge(Merge(a, b), c).fields.Keys == a.fields.Keys + b.fields.Keys + c.fields.Keys
    ensures Merge(a, Merge(b, c)).fields.Keys == a.fields.Keys + b.fields.Keys + c.fields.Keys
  {
  }

  /** The grouping of two patches does not matter if and only if they are groupable. */
  lemma {:induction false} AssociativeIff(a: Json, b: Json, c: Json)
    ensures Merge(Merge(a, b), c) == Merge(a, Merge(b, c)) <==> Groupable(a, b, c)
    decreases c, 1
  {
    if c.Obj? && a.Obj? {
      if !b.Obj? {
        CoveredIff(a, c);
      } else {
        GroupedKeys(a, b, c);
        AssociativeByKey(a, b, c, Merge(Merge(a, b), c).fields, Merge(a, Merge(b, c)).fields);
      }
    }
  }

  lemma AssociativeByKey(a: Json, b: Json, c: Json, l: map<string, Json>, r: map<string, Json>)
    requires a.Obj? && b.Obj? && c.Obj? && Obj(l) == Merge(Merge(a, b), c) && Obj(r) == Merge(a, Merge(b, c))
    requires l.Keys == r.Keys == a.fields.Keys + b.fields.Keys + c.fields.Keys
    ensures l == r <==> Groupable(a, b, c)
    decreases c, 0
  {
    forall k | k in l
      ensures l[k] == r[k] <==> GroupableAt(a, b, c, k)
    {
      GroupedField(a, b, c, k);
      if k in a.fields && k in b.fields && k in c.fields {
        AssociativeIff(a.fields[k], b.fields[k], c.fields[k]);
      }
    }
    SameFieldsIff(a, b, c, l, r);
  }

  predicate GroupableAt(a: Json, b: Json, c: Json, k: string)
    requires a.Obj? && b.Obj? && c.Obj?
  {
    k in a.fields && k in b.fields && k in c.fields ==> Groupable(a.fields[k], b.fields[k], c.fields[k])
  }

  lemma SameFieldsIff(a: Json, b: Json, c: Json, l: map<string, Json>, r: map<string, Json>)
    requires a.Obj? && b.Obj? && c.Obj? && l.Keys == r.Keys == a.fields.Keys + b.fields.Keys + c.fields.Keys
    requires forall k :: k in l ==> (l[k] == r[k] <==> GroupableAt(a, b, c, k))
    ensures l == r <==> Groupable(a, b, c)
  {
    if Groupable(a, b, c) {
      assert forall k :: k in l ==> GroupableAt(a, b, c, k);
    } else {
      var k :| k in a.fields && k in b.fields && k in c.fields && !Groupable(a.fields[k], b.fields[k], c.fields[k]);
      assert !GroupableAt(a, b, c, k);
    }
  }

  /** The smallest failure: a scalar erases what was below it only when it is applied on its own. */
  lemma MergeIsNotAssociative()
    ensures var a, b, c := Obj(map["x" := Obj(map["y" := Null])]), Obj(map["x" := Null]), Obj(map["x" := Obj(map[])]);
            Merge(Merge(a, b), c) != Merge(a, Merge(b, c))
  {
    var a, b, c := Obj(map["x" := Obj(map["y" := Null])]), Obj(map["x" := Null]), Obj(map["x" := Obj(map[])]);
    assert "y" in a.fields["x"].fields && "y" !in c.fields["x"].fields;
    assert !Groupable(a.fields["x"], b.fields["x"], c.fields["x"]);
    AssociativeIff(a, b, c);
  }

  // ----- Variant expansion -------------------------------------------------------------------

  datatype Variant = Variant(name: string, overrides: Json, maxRunning: Option<nat>)

  datatype Expanded = Expanded(name: string, config: Json, maxRunning: Option<nat>)

  datatype Problem = EmptyName | Separator | Duplicate

  datatype Expansion = Ok(clusters: seq<Expanded>) | Err(index: nat, problem: Problem)

  function DbKwarg(driver: string, key: string): Option<string> {
    match (driver, key)
    case ("snowflake", "warehouse") => Some("adbc.snowflake.sql.warehouse")
    case ("snowflake", "role") => Some("adbc.snowflake.sql.role")
    case ("snowflake", "database") => Some("adbc.snowflake.sql.db")
    case ("snowflake", "schema") => Some("adbc.snowflake.sql.schema")
    case ("databricks", "httpPath") => Some("http_path")
    case ("bigquery", "project") => Some("project_id")
    case ("redshift", "workgroup") => Some("workgroup")
    case _ => None
  }

  lemma DbKwargInjective(driver: string, k1: string, k2: string)
    requires DbKwarg(driver, k1).Some? && DbKwarg(driver, k1) == DbKwarg(driver, k2)
    ensures k1 == k2
  {
    var d1, d2 := DbKwarg(driver, k1).value, DbKwarg(driver, k2).value;
    assert |d1| == |d2| && (|d1| > 19 ==> d1[19] == d2[19] && d1[20] == d2[20]);
  }

  /** Every override with an ADBC spelling is stored under it, and nothing else changes. */
  ghost predicate Injected(driver: string, overrides: map<string, Json>, before: map<string, Json>, after: map<string, Json>) {
    && before.Keys <= after.Keys
    && (forall k :: k in overrides && DbKwarg(driver, k).Some? ==>
          DbKwarg(driver, k).value in after && after[DbKwarg(driver, k).value] == overrides[k])
    && (forall d :: d in after ==>
          || (d in before && after[d] == before[d])
          || exists k :: k in overrides && DbKwarg(driver, k) == Some(d))
  }

  method InjectKwargs(driver: string, overrides: map<string, Json>, kwargs: map<string, Json>) returns (after: map<string, Json>)
    ensures Injected(driver, overrides, kwargs, after)
  {
    after := kwargs;
    var todo := overrides.Keys;
    while todo != {}
      invariant todo <= overrides.Keys && kwargs.Keys <= after.Keys
      invariant forall k :: k in overrides && k !in todo && DbKwarg(driver, k).Some? ==>
                  DbKwarg(driver, k).value in after && after[DbKwarg(driver, k).value] == overrides[k]
      invariant forall d :: d in after ==>
                  || (d in kwargs && after[d] == kwargs[d])
                  || exists k :: k in overrides && DbKwarg(driver, k) == Some(d)
      decreases |todo|
    {
      var k :| k in todo;
      var db := DbKwarg(driver, k);
      if db.Some? {
        forall k' | k' in overrides && DbKwarg(driver, k') == db
          ensures k' == k
        {
          DbKwargInjective(driver, k, k');
        }
        after := after[db.value := overrides[k]];
      }
      todo := todo - {k};
    }
  }

  /** The configuration of one variant, in terms of the base and its overrides. */
  ghost predicate Configured(base: Json, driver: string, adbc: bool, overrides: Json, config: Json) {
    if !overrides.Obj? then config == base
    else
      var merged := Merge(base, overrides);
      && merged.Obj? && config.Obj?
      && if !adbc then config == merged
         else
           && config.fields.Keys == merged.fields.Keys + {"dbKwargs"}
           && (forall k :: k in merged.fields && k != "dbKwargs" ==> config.fields[k] == merged.fields[k])
           && if "dbKwargs" in merged.fields && !merged.fields["dbKwargs"].Obj? then
                config.fields["dbKwargs"] == merged.fields["dbKwargs"]
              else
                && config.fields["dbKwargs"].Obj?
                && Injected(driver, overrides.fields,
                            if "dbKwargs" in merged.fields then merged.fields["dbKwargs"].fields else map[],
                            config.fields["dbKwargs"].fields)
  }

  method Configure(base: Json, driver: string, adbc: bool, overrides: Json) returns (config: Json)
    ensures Configured(base, driver, adbc, overrides, config)
    ensures !overrides.Obj? ==> config == base
  {
    config := base;
    if overrides.Obj? {
      config := DeepMerge(config, overrides);
      if adbc {
        var kwargs := if "dbKwargs" in config.fields then config.fields["dbKwargs"] else Obj(map[]);
        if kwargs.Obj? {
          var after := InjectKwargs(driver, overrides.fields, kwargs.fields);
          kwargs := Obj(after);
        }
        config := Obj(config.fields["dbKwargs" := kwargs]);
      }
    }
  }

  /** Under an object of keyword arguments, an override that has an ADBC spelling ends up there. */
  lemma OverrideReachesKwargs(base: Json, driver: string, overrides: Json, config: Json, k: string)
    requires Configured(base, driver, true, overrides, config) && overrides.Obj? && k in overrides.fields
    requires DbKwarg(driver, k).Some? && config.fields["dbKwargs"].Obj?
    ensures At(config, ["dbKwargs", DbKwarg(driver, k).value]) == Some(overrides.fields[k])
  {
    var path := ["dbKwargs", DbKwarg(driver, k).value];
    assert path[1..] == [DbKwarg(driver, k).value] && path[1..][1..] == [];
    var kwargs := config.fields["dbKwargs"];
    assert At(config, path) == At(kwargs, path[1..]) == At(kwargs.fields[path[1]], []);
  }

  /** The keyword arguments of the merged configuration are absent or an object. */
  predicate KwargsUsable(base: map<string, Json>, overrides: map<string, Json>) {
    if "dbKwargs" in overrides then overrides["dbKwargs"].Obj? else "dbKwargs" in base ==> base["dbKwargs"].Obj?
  }

  lemma UsableKwargs(base: Json, overrides: Json, driver: string, config: Json)
    requires base.Obj? && overrides.Obj? && KwargsUsable(base.fields, overrides.fields)
    requires Configured(base, driver, true, overrides, config)
    ensures config.fields["dbKwargs"].Obj?
  {
    if "dbKwargs" in overrides.fields || "dbKwargs" in base.fields { MergeAtKey(base, overrides, "dbKwargs"); }
  }

  /** The override `k` is found in the keyword arguments under `keyword`. */
  predicate Reaches(overrides: map<string, Json>, k: string, config: Json, keyword: string) {
    k in overrides ==> At(config, ["dbKwargs", keyword]) == Some(overrides[k])
  }

  lemma OverrideReaches(base: Json, overrides: Json, config: Json, k: string, keyword: string)
    requires base.Obj? && overrides.Obj? && KwargsUsable(base.fields, overrides.fields)
    requires Configured(base, DriverOf(base), true, overrides, config) && DbKwarg(DriverOf(base), k) == Some(keyword)
    ensures Reaches(overrides.fields, k, config, keyword)
  {
    UsableKwargs(base, overrides, DriverOf(base), config);
    if k in overrides.fields { OverrideReachesKwargs(base, DriverOf(base), overrides, config, k); }
  }

  /** Where the overrides of a Snowflake variant end up. */
  lemma SnowflakeOverrides(base: Json, overrides: Json, config: Json)
    requires base.Obj? && "driver" in base.fields && base.fields["driver"] == Str("snowflake")
    requires overrides.Obj? && KwargsUsable(base.fields, overrides.fields)
    requires Configured(base, DriverOf(base), true, overrides, config)
    ensures Reaches(overrides.fields, "warehouse", config, "adbc.snowflake.sql.warehouse")
    ensures Reaches(overrides.fields, "role", config, "adbc.snowflake.sql.role")
    ensures Reaches(overrides.fields, "database", config, "adbc.snowflake.sql.db")
    ensures Reaches(overrides.fields, "schema", config, "adbc.snowflake.sql.schema")
  {
    OverrideReaches(base, overrides, config, "warehouse", "adbc.snowflake.sql.warehouse");
    OverrideReaches(base, overrides, config, "role", "adbc.snowflake.sql.role");
    OverrideReaches(base, overrides, config, "database", "adbc.snowflake.sql.db");
    OverrideReaches(base, overrides, config, "schema", "adbc.snowflake.sql.schema");
  }

  /** Where those of the other drivers end up. */
  lemma OtherDriverOverrides(base: Json, overrides: Json, config: Json)
    requires base.Obj? && "driver" in base.fields && overrides.Obj? && KwargsUsable(base.fields, overrides.fields)
    requires Configured(base, DriverOf(base), true, overrides, config)
    ensures base.fields["driver"] == Str("databricks") ==> Reaches(overrides.fields, "httpPath", config, "http_path")
    ensures base.fields["driver"] == Str("bigquery") ==> Reaches(overrides.fields, "project", config, "project_id")
    ensures base.fields["driver"] == Str("redshift") ==> Reaches(overrides.fields, "workgroup", config, "workgroup")
  {
    if base.fields["driver"] == Str("databricks") {
      OverrideReaches(base, overrides, config, "httpPath", "http_path");
    } else if base.fields["driver"] == Str("bigquery") {
      OverrideReaches(base, overrides, config, "project", "project_id");
    } else if base.fields["driver"] == Str("redshift") {
      OverrideReaches(base, overrides, config, "workgroup", "workgroup");
    }
  }

  predicate HasSeparator(name: string) {
    exists i :: 0 <= i < |name| - 1 && name[i] == ':' && name[i + 1] == ':'
  }

  /** What is wrong with the name of variant `i`, looked at in list order. */
  function ProblemAt(vs: seq<Variant>, i: nat): Option<Problem>
    requires i < |vs|
  {
    if vs[i].name == "" then Some(EmptyName)
    else if HasSeparator(vs[i].name) then Some(Separator)
    else if exists j :: 0 <= j < i && vs[j].name == vs[i].name then Some(Duplicate)
    else None
  }

  /** A name has the separator if and only if it can be split around it. */
  lemma SeparatorIff(name: string)
    ensures HasSeparator(name) <==> exists a: string, b: string :: name == a + "::" + b
  {
    if HasSeparator(name) {
      var i :| 0 <= i < |name| - 1 && name[i] == ':' && name[i + 1] == ':';
      assert name == name[..i] + "::" + name[i + 2..];
    }
    forall a: string, b: string | name == a + "::" + b ensures HasSeparator(name) {
      assert name[|a|] == ':' && name[|a| + 1] == ':';
    }
  }

  /** No variant is refused if and only if the names are non-empty, free of the separator and
      pairwise different. */
  lemma AcceptableIff(vs: seq<Variant>)
    ensures (forall i :: 0 <= i < |vs| ==> ProblemAt(vs, i).None?) <==>
              && (forall i :: 0 <= i < |vs| ==> vs[i].name != "" && !HasSeparator(vs[i].name))
              && (forall i, j :: 0 <= i < j < |vs| ==> vs[i].name != vs[j].name)
  {
    if forall i :: 0 <= i < |vs| ==> ProblemAt(vs, i).None? {
      forall i | 0 <= i < |vs| ensures vs[i].name != "" && !HasSeparator(vs[i].name) {
        assert ProblemAt(vs, i).None?;
      }
      forall i, j | 0 <= i < j < |vs| ensures vs[i].name != vs[j].name {
        assert ProblemAt(vs, j).None?;
      }
    }
  }

  function DriverOf(base: Json): string {
    if base.Obj? && "driver" in base.fields && base.fields["driver"].Str? then base.fields["driver"].s else ""
  }

  /** Expansion succeeds exactly when every name is acceptable, and then gives one distinctly named
      cluster per variant; otherwise it reports the first offending variant. */
  method Expand(baseName: string, base: Json, engine: string, vs: seq<Variant>) returns (r: Expansion)
    ensures r.Ok? <==> forall i :: 0 <= i < |vs| ==> ProblemAt(vs, i).None?
    ensures r.Err? ==>
              && r.index < |vs| && ProblemAt(vs, r.index) == Some(r.problem)
              && forall i :: 0 <= i < r.index ==> ProblemAt(vs, i).None?
    ensures r.Ok? ==>
              && |r.clusters| == |vs|
              && (forall i :: 0 <= i < |vs| ==>
                    && r.clusters[i].name == baseName + "::" + vs[i].name
                    && r.clusters[i].maxRunning == vs[i].maxRunning
                    && Configured(base, DriverOf(base), engine == "adbc", vs[i].overrides, r.clusters[i].config))
  {
    var seen: set<string>, clusters: seq<Expanded> := {}, [];
    for i := 0 to |vs|
      invariant |clusters| == i
      invariant seen == set j | 0 <= j < i :: vs[j].name
      invariant forall j :: 0 <= j < i ==> ProblemAt(vs, j).None?
      invariant forall j :: 0 <= j < i ==>
                  && clusters[j].name == baseName + "::" + vs[j].name
                  && clusters[j].maxRunning == vs[j].maxRunning
                  && Configured(base, DriverOf(base), engine == "adbc", vs[j].overrides, clusters[j].config)
    {
      var v := vs[i];
      ghost var problem := ProblemAt(vs, i);
      if v.name == "" {
        return Err(i, EmptyName);
      }
      if HasSeparator(v.name) {
        return Err(i, Separator);
      }
      if v.name in seen {
        return Err(i, Duplicate);
      }
      seen := seen + {v.name};
      var config := Configure(base, DriverOf(base), engine == "adbc", v.overrides);
      clusters := clusters + [Expanded(baseName + "::" + v.name, config, v.maxRunning)];
    }
    return Ok(clusters);
  }

  /** Accepted variants expand to different cluster names. */
  lemma ExpandedNamesDistinct(baseName: string, vs: seq<Variant>, i: nat, j: nat)
    requires i < j < |vs| && forall k :: 0 <= k < |vs| ==> ProblemAt(vs, k).None?
    ensures baseName + "::" + vs[i].name != baseName + "::" + vs[j].name
  {
    assert ProblemAt(vs, i).None? && ProblemAt(vs, j).None?;
    NameDeterminesIff(baseName, vs[i].name, baseName, vs[j].name);
  }

  /** The second pair is the first with one colon moved from the variant to the base. */
  predicate Shifted(b1: string, v1: string, b2: string, v2: string) {
    b2 == b1 + ":" && v1 == ":" + v2
  }

  /** Two variants without the separator expand to the same name, under any two bases, if and only
      if base and variant agree or differ by one colon that sits on either side of the separator. */
  lemma NameDeterminesIff(b1: string, v1: string, b2: string, v2: string)
    requires !HasSeparator(v1) && !HasSeparator(v2)
    ensures b1 + "::" + v1 == b2 + "::" + v2 <==>
              (b1 == b2 && v1 == v2) || Shifted(b1, v1, b2, v2) || Shifted(b2, v2, b1, v1)
  {
    if b1 + "::" + v1 == b2 + "::" + v2 {
      if |b1| + 2 <= |b2| { FarSplit(b1, v1, b2, v2); }
      else if |b2| + 2 <= |b1| { FarSplit(b2, v2, b1, v1); }
      else if |b1| <= |b2| { SplitName(b1, v1, b2, v2); }
      else { SplitName(b2, v2, b1, v1); }
    } else {
      ShiftedSame(b1, v1, b2, v2);
      ShiftedSame(b2, v2, b1, v1);
    }
  }

  lemma ShiftedSame(b1: string, v1: string, b2: string, v2: string)
    ensures Shifted(b1, v1, b2, v2) ==> b1 + "::" + v1 == b2 + "::" + v2
  {
  }

  lemma FarSplit(b1: string, v1: string, b2: string, v2: string)
    requires |b1| + 2 <= |b2| && b1 + "::" + v1 == b2 + "::" + v2
    ensures HasSeparator(v1)
  {
    var n1, n2, d := b1 + "::" + v1, b2 + "::" + v2, |b2| - |b1|;
    assert n2[|b2|] == ':' && n2[|b2| + 1] == ':';
    assert v1[d - 2] == n1[|b2|] && v1[d - 1] == n1[|b2| + 1];
  }

  lemma SplitName(b1: string, v1: string, b2: string, v2: string)
    requires |b1| <= |b2| <= |b1| + 1 && b1 + "::" + v1 == b2 + "::" + v2
    ensures (b1 == b2 && v1 == v2) || Shifted(b1, v1, b2, v2)
  {
    var n1, n2 := b1 + "::" + v1, b2 + "::" + v2;
    assert n1[..|b1|] == b1 && n2[..|b2|] == b2 && n1[|b1| + 2..] == v1 && n2[|b2| + 2..] == v2;
    if |b1| < |b2| {
      assert n2[|b2| + 1] == ':' && n1[|b1| + 2] == v1[0];
      assert v1[1..] == v2;
      assert n1[|b1|] == ':' && b2 == n1[..|b1| + 1];
    }
  }
}
