/** Table lookup in the configured catalog, whose tables are enumerated in hash order. */
module StaticCatalog {
  import opened Wrappers
  import opened Sorting

  datatype Schema = Schema(catalog: string, database: string, columns: seq<(string, string, bool)>)

  /** A table under its configured key. */
  datatype Table = Table(key: string, schema: Schema)

  datatype Request = Request(catalog: string, database: string, table: string)

  function Lower(c: char): char {
    if 'A' <= c <= 'Z' then c + 32 as char else c
  }

  predicate EqIgnoreAsciiCase(a: string, b: string) {
    |a| == |b| && forall i :: 0 <= i < |a| ==> Lower(a[i]) == Lower(b[i])
  }

  /** What follows the last dot. */
  function LastSegment(s: string): string {
    if s == "" || s[|s| - 1] == '.' then "" else LastSegment(s[..|s| - 1]) + [s[|s| - 1]]
  }

  lemma {:induction false} LastSegmentOfBare(name: string)
    requires '.' !in name
    ensures LastSegment(name) == name
  {
    if name != "" {
      LastSegmentOfBare(name[..|name| - 1]);
      assert name == name[..|name| - 1] + [name[|name| - 1]];
    }
  }

  /** A qualified name has the same last segment as the bare name after its last dot. */
  lemma {:induction false} LastSegmentOfQualified(prefix: string, name: string)
    requires '.' !in name
    ensures LastSegment(prefix + "." + name) == LastSegment(name) == name
  {
    LastSegmentOfBare(name);
    var whole := prefix + "." + name;
    if name != "" {
      var front := name[..|name| - 1];
      assert whole[..|whole| - 1] == prefix + "." + front;
      LastSegmentOfQualified(prefix, front);
      assert name == front + [name[|name| - 1]];
    }
  }

  /** The second letter is the lower case of the first. */
  predicate CapitalOf(upper: char, lower: char) {
    'A' <= upper <= 'Z' && lower as int == upper as int + 32
  }

  /** Two names agree if and only if each pair of characters is equal or one ASCII letter in two cases. */
  lemma EqualUpToCaseIff(a: string, b: string)
    ensures EqIgnoreAsciiCase(a, b) <==>
              |a| == |b| && forall i :: 0 <= i < |a| ==> a[i] == b[i] || CapitalOf(a[i], b[i]) || CapitalOf(b[i], a[i])
  {
    if |a| == |b| {
      forall i | 0 <= i < |a|
        ensures Lower(a[i]) == Lower(b[i]) <==> a[i] == b[i] || CapitalOf(a[i], b[i]) || CapitalOf(b[i], a[i])
      {
      }
    }
  }

  predicate NamespaceMatches(declared: string, requested: string) {
    declared == "" || requested == "" || EqIgnoreAsciiCase(declared, requested)
  }

  predicate InNamespace(t: Table, catalog: string, database: string) {
    NamespaceMatches(t.schema.catalog, catalog) && NamespaceMatches(t.schema.database, database)
  }

  predicate NameMatches(t: Table, r: Request) {
    t.key == r.table || LastSegment(t.key) == LastSegment(r.table)
  }

  predicate Compatible(t: Table, r: Request) {
    InNamespace(t, r.catalog, r.database) && NameMatches(t, r)
  }

  predicate Names(declared: string, requested: string) {
    declared != "" && EqIgnoreAsciiCase(declared, requested)
  }

  /** How many parts of the declared namespace the request names, then whether the key is exact. */
  function Specificity(t: Table, r: Request): (nat, bool) {
    ((if Names(t.schema.catalog, r.catalog) then 1 else 0) + (if Names(t.schema.database, r.database) then 1 else 0),
     t.key == r.table)
  }

  predicate LessSpecific(a: (nat, bool), b: (nat, bool)) {
    a.0 < b.0 || (a.0 == b.0 && !a.1 && b.1)
  }

  /** The comparison given to `max_by`: specificity first, then the smaller key. */
  predicate AtMost(a: Table, b: Table, r: Request) {
    var sa, sb := Specificity(a, r), Specificity(b, r);
    LessSpecific(sa, sb) || (sa == sb && Text()(b.key, a.key))
  }

  function Candidates(ts: seq<Table>, r: Request): seq<Table> {
    if ts == [] then []
    else Candidates(ts[..|ts| - 1], r) + if Compatible(ts[|ts| - 1], r) then [ts[|ts| - 1]] else []
  }

  /** `Iterator::max_by`: of two equal elements the later one is kept. */
  function MaxBy(ts: seq<Table>, r: Request): Option<Table> {
    if ts == [] then None
    else
      var best, t := MaxBy(ts[..|ts| - 1], r), ts[|ts| - 1];
      if best.Some? && !AtMost(best.value, t, r) then best else Some(t)
  }

  function GetTableSchema(ts: seq<Table>, r: Request): Option<Table> {
    MaxBy(Candidates(ts, r), r)
  }

  lemma AtMostIsOrder(a: Table, b: Table, c: Table, r: Request)
    ensures AtMost(a, b, r) || AtMost(b, a, r)
    ensures AtMost(a, b, r) && AtMost(b, c, r) ==> AtMost(a, c, r)
    ensures AtMost(a, b, r) && AtMost(b, a, r) ==> a.key == b.key
  {
    TextIsTotalOrder();
    assert Text()(a.key, b.key) || Text()(b.key, a.key);
  }

  lemma {:induction false} CandidatesExact(ts: seq<Table>, r: Request)
    ensures forall t :: t in Candidates(ts, r) <==> t in ts && Compatible(t, r)
  {
    if ts != [] {
      CandidatesExact(ts[..|ts| - 1], r);
      assert ts == ts[..|ts| - 1] + [ts[|ts| - 1]];
    }
  }

  lemma {:induction false} MaxByIsGreatest(ts: seq<Table>, r: Request)
    ensures MaxBy(ts, r).None? <==> ts == []
    ensures MaxBy(ts, r).Some? ==> MaxBy(ts, r).value in ts && forall t :: t in ts ==> AtMost(t, MaxBy(ts, r).value, r)
  {
    if ts != [] {
      var front, last := ts[..|ts| - 1], ts[|ts| - 1];
      MaxByIsGreatest(front, r);
      assert ts == front + [last];
      var best := MaxBy(ts, r).value;
      forall t | t in ts
        ensures AtMost(t, best, r)
      {
        if t in front {
          AtMostIsOrder(t, MaxBy(front, r).value, last, r);
          AtMostIsOrder(MaxBy(front, r).value, last, last, r);
        } else {
          AtMostIsOrder(last, best, last, r);
        }
      }
    }
  }

  /** Each key is configured once. */
  ghost predicate DistinctKeys(ts: seq<Table>) {
    forall i, j :: 0 <= i < j < |ts| ==> ts[i].key != ts[j].key
  }

  /** `t` is the table to answer with: compatible with the request, no compatible table is more
      specific, and of those equally specific its key is the least. */
  ghost predicate Chosen(ts: seq<Table>, r: Request, t: Table) {
    && t in ts && Compatible(t, r)
    && forall u :: u in ts && Compatible(u, r) ==>
         && !LessSpecific(Specificity(t, r), Specificity(u, r))
         && (Specificity(t, r) == Specificity(u, r) ==> Text()(t.key, u.key))
  }

  /** The answer is the chosen table, and there is none only if nothing is compatible. */
  lemma LookupIsChosen(ts: seq<Table>, r: Request)
    ensures GetTableSchema(ts, r).None? <==> forall t :: t in ts ==> !Compatible(t, r)
    ensures GetTableSchema(ts, r).Some? ==> Chosen(ts, r, GetTableSchema(ts, r).value)
  {
    CandidatesExact(ts, r);
    MaxByIsGreatest(Candidates(ts, r), r);
    var best := MaxBy(Candidates(ts, r), r);
    if best.Some? {
      assert Chosen(ts, r, best.value);
    } else {
      assert forall t :: t in ts && Compatible(t, r) ==> t in Candidates(ts, r);
    }
  }

  lemma ChosenIsUnique(ts: seq<Table>, r: Request, t: Table, u: Table)
    requires DistinctKeys(ts) && Chosen(ts, r, t) && Chosen(ts, r, u)
    ensures t == u
  {
    TextIsTotalOrder();
    assert t.key == u.key;
    var i :| 0 <= i < |ts| && ts[i] == t;
    var j :| 0 <= j < |ts| && ts[j] == u;
  }

  /** The answer does not depend on the order in which the table map is enumerated. */
  lemma LookupIgnoresEnumerationOrder(ts: seq<Table>, us: seq<Table>, r: Request)
    requires DistinctKeys(ts) && multiset(ts) == multiset(us)
    ensures GetTableSchema(ts, r) == GetTableSchema(us, r)
  {
    forall t
      ensures t in ts <==> t in us
    {
      assert t in ts <==> t in multiset(ts);
      assert t in us <==> t in multiset(us);
    }
    LookupIsChosen(ts, r);
    LookupIsChosen(us, r);
    if GetTableSchema(ts, r).Some? {
      var t, u := GetTableSchema(ts, r).value, GetTableSchema(us, r).value;
      assert Chosen(ts, r, u);
      ChosenIsUnique(ts, r, t, u);
    }
  }

  // ----- What the choice amounts to ----------------------------------------------------------

  /** A table that the request names in full, by key or by what follows the key's last dot, beats
      every table without a namespace and every table of another namespace. */
  lemma NamedTableWins(ts: seq<Table>, r: Request, t: Table, prefix: string, name: string)
    requires t in ts && t.schema.catalog == r.catalog != "" && t.schema.database == r.database != ""
    requires '.' !in name && r.table == name && (t.key == name || t.key == prefix + "." + name)
    ensures GetTableSchema(ts, r).Some?
    ensures var schema := GetTableSchema(ts, r).value.schema;
            schema.catalog != "" && schema.database != "" && |schema.catalog| == |r.catalog| && |schema.database| == |r.database|
  {
    LastSegmentOfBare(name);
    LastSegmentOfQualified(prefix, name);
    assert Compatible(t, r) && Specificity(t, r).0 == 2;
    LookupIsChosen(ts, r);
    assert !LessSpecific(Specificity(GetTableSchema(ts, r).value, r), Specificity(t, r));
  }

  /** A table that declares a namespace other than the one asked for is never the answer. */
  lemma OtherNamespaceNeverAnswers(ts: seq<Table>, r: Request, t: Table)
    requires || (t.schema.catalog != "" && r.catalog != "" && !EqIgnoreAsciiCase(t.schema.catalog, r.catalog))
             || (t.schema.database != "" && r.database != "" && !EqIgnoreAsciiCase(t.schema.database, r.database))
    ensures GetTableSchema(ts, r) != Some(t)
  {
    LookupIsChosen(ts, r);
  }

  /** Of tables without a namespace, one configured under exactly the requested name is the answer. */
  lemma ExactKeyWins(ts: seq<Table>, r: Request, t: Table)
    requires DistinctKeys(ts) && t in ts && t.key == r.table
    requires forall u :: u in ts ==> u.schema.catalog == "" && u.schema.database == ""
    ensures GetTableSchema(ts, r) == Some(t)
  {
    LookupIsChosen(ts, r);
    assert Compatible(t, r);
    var u := GetTableSchema(ts, r).value;
    assert !LessSpecific(Specificity(u, r), Specificity(t, r));
    var i :| 0 <= i < |ts| && ts[i] == t;
    var j :| 0 <= j < |ts| && ts[j] == u;
  }

  /** An unqualified request is answered whenever some table has the name, in whatever namespace. */
  lemma UnqualifiedIsAnswered(ts: seq<Table>, r: Request, t: Table, prefix: string)
    requires r.catalog == "" && r.database == "" && '.' !in r.table
    requires t in ts && (t.key == r.table || t.key == prefix + "." + r.table)
    ensures GetTableSchema(ts, r).Some?
  {
    LastSegmentOfBare(r.table);
    LastSegmentOfQualified(prefix, r.table);
    assert Compatible(t, r);
    LookupIsChosen(ts, r);
  }
}
