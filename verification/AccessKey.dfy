/** The key under which an access decision is cached. Attribute values are of any type `V`; they
    enter the key by their rendered text. `BTreeMap`s are given by their entries in key order. */
module AccessKey {
  import opened Wrappers
  import opened Sorting

  datatype ResourceKind = Table | View | Schema | Catalog | Session | Role | Function | Procedure

  datatype Columns = All | Named(names: seq<string>)

  datatype Resource = Resource(kind: ResourceKind, catalog: Option<string>, schema: Option<string>,
                               table: string, columns: Columns, value: Option<string>)

  datatype Grant = Grant(privileges: seq<string>, grantees: seq<string>, withGrantOption: bool)

  datatype Request<V> = Request(user: string, groups: seq<string>, roles: seq<string>,
                                attributes: seq<(string, V)>, operation: string,
                                resources: seq<Resource>, grant: Option<Grant>,
                                clusterGroup: string, engine: string, queryId: string,
                                sessionParams: seq<(string, string)>)

  datatype ResourceKey = ResourceKey(kind: string, catalog: Option<string>, schema: Option<string>,
                                     table: string, columns: Option<seq<string>>, value: Option<string>)

  datatype GrantKey = GrantKey(privileges: seq<string>, grantees: seq<string>, withGrantOption: bool)

  datatype CacheKey = CacheKey(user: string, groups: seq<string>, roles: seq<string>,
                               attributes: seq<(string, string)>, operation: string,
                               resources: seq<ResourceKey>, grant: Option<GrantKey>,
                               clusterGroup: string, engine: string, sessionParams: seq<(string, string)>)

  // ----- The key -----------------------------------------------------------------------------

  function KindName(k: ResourceKind): string {
    match k
    case Table => "table"
    case View => "view"
    case Schema => "schema"
    case Catalog => "catalog"
    case Session => "session"
    case Role => "role"
    case Function => "function"
    case Procedure => "procedure"
  }

  function KeyOfResource(r: Resource): ResourceKey {
    ResourceKey(KindName(r.kind), r.catalog, r.schema, r.table,
                if r.columns.All? then None else Some(Sort(Text(), r.columns.names)), r.value)
  }

  function KeysOf(rs: seq<Resource>): seq<ResourceKey> {
    if rs == [] then [] else [KeyOfResource(rs[0])] + KeysOf(rs[1..])
  }

  type Tuple = (string, (Option<string>, (Option<string>, (string, (Option<string>, Option<seq<string>>)))))

  /** The fields in the order in which `sort_by` compares them. */
  function AsTuple(k: ResourceKey): Tuple {
    (k.kind, (k.catalog, (k.schema, (k.table, (k.value, k.columns)))))
  }

  function TupleOrder(): (Tuple, Tuple) -> bool {
    Pair(Text(), Pair(Opt(Text()), Pair(Opt(Text()), Pair(Text(), Pair(Opt(Text()), Opt(Lex(Text())))))))
  }

  function ResourceOrder(): (ResourceKey, ResourceKey) -> bool {
    var leq := TupleOrder();
    (a: ResourceKey, b: ResourceKey) => leq(AsTuple(a), AsTuple(b))
  }

  function KeyOfGrant(g: Grant): GrantKey {
    GrantKey(Sort(Text(), g.privileges), Sort(Text(), g.grantees), g.withGrantOption)
  }

  function Rendered<V>(attributes: seq<(string, V)>, render: V -> string): seq<(string, string)> {
    if attributes == [] then []
    else [(attributes[0].0, render(attributes[0].1))] + Rendered(attributes[1..], render)
  }

  function KeyOf<V>(r: Request<V>, render: V -> string): CacheKey {
    CacheKey(r.user, Sort(Text(), r.groups), Sort(Text(), r.roles), Rendered(r.attributes, render), r.operation,
             Sort(ResourceOrder(), KeysOf(r.resources)),
             if r.grant.None? then None else Some(KeyOfGrant(r.grant.value)),
             r.clusterGroup, r.engine, r.sessionParams)
  }

  // ----- What the key must tell apart --------------------------------------------------------

  /** Two resources a policy cannot tell apart: same object, same columns counted as a bag. */
  predicate SameResource(a: Resource, b: Resource) {
    && a.kind == b.kind && a.catalog == b.catalog && a.schema == b.schema && a.table == b.table && a.value == b.value
    && (a.columns.All? <==> b.columns.All?)
    && (a.columns.Named? ==> multiset(a.columns.names) == multiset(b.columns.names))
  }

  /** How many of `rs` are the same resource as `r`. */
  function Count(rs: seq<Resource>, r: Resource): nat {
    if rs == [] then 0 else (if SameResource(rs[0], r) then 1 else 0) + Count(rs[1..], r)
  }

  /** The same resources, equally often, in any order. */
  ghost predicate SameResources(a: seq<Resource>, b: seq<Resource>) {
    forall r: Resource :: Count(a, r) == Count(b, r)
  }

  predicate SameGrant(a: Grant, b: Grant) {
    && multiset(a.privileges) == multiset(b.privileges) && multiset(a.grantees) == multiset(b.grantees)
    && a.withGrantOption == b.withGrantOption
  }

  /** A map's entries come in strictly increasing key order. */
  ghost predicate InKeyOrder<V>(entries: seq<(string, V)>) {
    forall i, j :: 0 <= i < j < |entries| ==> entries[i].0 != entries[j].0 && Text()(entries[i].0, entries[j].0)
  }

  /** The two maps hold the same keys, with values that render alike. */
  ghost predicate SameEntries<V>(a: seq<(string, V)>, b: seq<(string, V)>, render: V -> string) {
    multiset(Rendered(a, render)) == multiset(Rendered(b, render))
  }

  /** The two requests agree on everything but the query id. */
  ghost predicate Agree<V>(a: Request<V>, b: Request<V>, render: V -> string) {
    && a.user == b.user && a.operation == b.operation && a.clusterGroup == b.clusterGroup && a.engine == b.engine
    && multiset(a.groups) == multiset(b.groups) && multiset(a.roles) == multiset(b.roles)
    && SameEntries(a.attributes, b.attributes, render)
    && SameEntries(a.sessionParams, b.sessionParams, (v: string) => v)
    && SameResources(a.resources, b.resources)
    && (a.grant.None? <==> b.grant.None?)
    && (a.grant.Some? ==> SameGrant(a.grant.value, b.grant.value))
  }

  // ----- The order on resources is total -----------------------------------------------------

  lemma TupleOrderIsTotal()
    ensures TotalOrder(TupleOrder())
  {
    TextIsTotalOrder();
    LexIsTotalOrder(Text());
    OptIsTotalOrder(Text());
    OptIsTotalOrder(Lex(Text()));
    PairIsTotalOrder(Opt(Text()), Opt(Lex(Text())));
    PairIsTotalOrder(Text(), Pair(Opt(Text()), Opt(Lex(Text()))));
    PairIsTotalOrder(Opt(Text()), Pair(Text(), Pair(Opt(Text()), Opt(Lex(Text())))));
    PairIsTotalOrder(Opt(Text()), Pair(Opt(Text()), Pair(Text(), Pair(Opt(Text()), Opt(Lex(Text()))))));
    PairIsTotalOrder(Text(), Pair(Opt(Text()), Pair(Opt(Text()), Pair(Text(), Pair(Opt(Text()), Opt(Lex(Text())))))));
  }

  /** The comparison covers every field, so it is an order and not just a preorder. */
  lemma ResourceOrderIsTotal()
    ensures TotalOrder(ResourceOrder())
  {
    TupleOrderIsTotal();
    var leq := TupleOrder();
    var ord := ResourceOrder();
    forall a, b
      ensures ord(a, b) || ord(b, a)
      ensures ord(a, b) && ord(b, a) ==> a == b
    {
      assert ord(a, b) == leq(AsTuple(a), AsTuple(b)) && ord(b, a) == leq(AsTuple(b), AsTuple(a));
    }
    forall a, b, c | ord(a, b) && ord(b, c)
      ensures ord(a, c)
    {
      assert leq(AsTuple(a), AsTuple(b)) && leq(AsTuple(b), AsTuple(c));
    }
  }

  // ----- Resources ---------------------------------------------------------------------------

  lemma KindNameInjective(a: ResourceKind, b: ResourceKind)
    requires KindName(a) == KindName(b)
    ensures a == b
  {
    assert KindName(a)[0] == KindName(b)[0] && KindName(a)[1] == KindName(b)[1] && |KindName(a)| == |KindName(b)|;
  }

  lemma NamesExact(a: seq<string>, b: seq<string>)
    ensures Sort(Text(), a) == Sort(Text(), b) <==> multiset(a) == multiset(b)
  {
    TextIsTotalOrder();
    SortIsCanonical(Text(), a, b);
  }

  lemma KeyOfResourceExact(a: Resource, b: Resource)
    ensures KeyOfResource(a) == KeyOfResource(b) <==> SameResource(a, b)
  {
    if a.columns.Named? && b.columns.Named? {
      NamesExact(a.columns.names, b.columns.names);
    }
    if KindName(a.kind) == KindName(b.kind) {
      KindNameInjective(a.kind, b.kind);
    }
  }

  lemma {:induction false} CountIsMultiplicity(rs: seq<Resource>, r: Resource)
    ensures Count(rs, r) == multiset(KeysOf(rs))[KeyOfResource(r)]
  {
    if rs != [] {
      KeyOfResourceExact(rs[0], r);
      CountIsMultiplicity(rs[1..], r);
    }
  }

  lemma {:induction false} KeysOfCome(rs: seq<Resource>, k: ResourceKey) returns (r: Resource)
    requires k in KeysOf(rs)
    ensures KeyOfResource(r) == k
  {
    if k == KeyOfResource(rs[0]) {
      r := rs[0];
    } else {
      r := KeysOfCome(rs[1..], k);
    }
  }

  lemma {:induction false} ResourcesExact(a: seq<Resource>, b: seq<Resource>)
    ensures multiset(KeysOf(a)) == multiset(KeysOf(b)) <==> SameResources(a, b)
  {
    forall r: Resource
      ensures Count(a, r) == multiset(KeysOf(a))[KeyOfResource(r)] && Count(b, r) == multiset(KeysOf(b))[KeyOfResource(r)]
    {
      CountIsMultiplicity(a, r);
      CountIsMultiplicity(b, r);
    }
    if SameResources(a, b) {
      forall k: ResourceKey
        ensures multiset(KeysOf(a))[k] == multiset(KeysOf(b))[k]
      {
        if k in KeysOf(a) || k in KeysOf(b) {
          var r := KeysOfCome(if k in KeysOf(a) then a else b, k);
          assert Count(a, r) == Count(b, r);
        }
      }
    }
  }

  // ----- Maps --------------------------------------------------------------------------------

  lemma {:induction false} RenderedAt<V>(es: seq<(string, V)>, render: V -> string)
    ensures |Rendered(es, render)| == |es|
    ensures forall i :: 0 <= i < |es| ==> Rendered(es, render)[i] == (es[i].0, render(es[i].1))
  {
    if es != [] { RenderedAt(es[1..], render); }
  }

  lemma RenderedSorted<V>(es: seq<(string, V)>, render: V -> string)
    requires InKeyOrder(es)
    ensures Sorted(Pair(Text(), Text()), Rendered(es, render))
  {
    RenderedAt(es, render);
    forall i, j | 0 <= i < j < |es|
      ensures Pair(Text(), Text())(Rendered(es, render)[i], Rendered(es, render)[j])
    {
      assert es[i].0 != es[j].0 && Text()(es[i].0, es[j].0);
    }
  }

  lemma EntriesExact<V>(a: seq<(string, V)>, b: seq<(string, V)>, render: V -> string)
    requires InKeyOrder(a) && InKeyOrder(b)
    ensures Rendered(a, render) == Rendered(b, render) <==> SameEntries(a, b, render)
  {
    TextIsTotalOrder();
    PairIsTotalOrder(Text(), Text());
    RenderedSorted(a, render);
    RenderedSorted(b, render);
    if SameEntries(a, b, render) {
      SortedIsUnique(Pair(Text(), Text()), Rendered(a, render), Rendered(b, render));
    }
  }

  lemma {:induction false} RenderedIdentity(es: seq<(string, string)>)
    ensures Rendered(es, (v: string) => v) == es
  {
    RenderedAt(es, (v: string) => v);
  }

  // ----- The theorem -------------------------------------------------------------------------

  ghost predicate WellFormed<V>(r: Request<V>) {
    InKeyOrder(r.attributes) && InKeyOrder(r.sessionParams)
  }

  lemma GrantExact(a: Grant, b: Grant)
    ensures KeyOfGrant(a) == KeyOfGrant(b) <==> SameGrant(a, b)
  {
    NamesExact(a.privileges, b.privileges);
    NamesExact(a.grantees, b.grantees);
  }

  lemma ResourceKeysExact(a: seq<Resource>, b: seq<Resource>)
    ensures Sort(ResourceOrder(), KeysOf(a)) == Sort(ResourceOrder(), KeysOf(b)) <==> SameResources(a, b)
  {
    ResourceOrderIsTotal();
    SortIsCanonical(ResourceOrder(), KeysOf(a), KeysOf(b));
    ResourcesExact(a, b);
  }

  lemma SessionParamsExact(a: seq<(string, string)>, b: seq<(string, string)>)
    requires InKeyOrder(a) && InKeyOrder(b)
    ensures a == b <==> SameEntries(a, b, (v: string) => v)
  {
    EntriesExact(a, b, (v: string) => v);
    RenderedIdentity(a);
    RenderedIdentity(b);
  }

  /** Two requests share a cache key exactly when they agree on everything but the query id, with
      groups, roles, privileges, grantees, resources and each resource's columns compared as bags and
      attributes by their rendered text. */
  lemma KeyExact<V>(a: Request<V>, b: Request<V>, render: V -> string)
    requires WellFormed(a) && WellFormed(b)
    ensures KeyOf(a, render) == KeyOf(b, render) <==> Agree(a, b, render)
  {
    NamesExact(a.groups, b.groups);
    NamesExact(a.roles, b.roles);
    EntriesExact(a.attributes, b.attributes, render);
    SessionParamsExact(a.sessionParams, b.sessionParams);
    ResourceKeysExact(a.resources, b.resources);
    if a.grant.Some? && b.grant.Some? { GrantExact(a.grant.value, b.grant.value); }
  }
}
