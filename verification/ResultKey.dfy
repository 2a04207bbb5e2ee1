/** The byte stream fed to the digest that keys the query-result cache. Text is given by its UTF-8
    bytes. */
module ResultKey {
  import opened Wrappers

  /** Nothing below depends on the range of a byte, so any integer stands for one. */
  type Byte = int

  datatype Param =
    | Text(v: seq<Byte>)
    | Numeric(v: seq<Byte>)
    | Boolean(b: bool)
    | Date(v: seq<Byte>)
    | Timestamp(v: seq<Byte>)
    | Time(v: seq<Byte>)
    | Null

  /** Everything a cached result is keyed on. An empty `scope` is the unscoped key. */
  datatype Query = Query(sql: seq<Byte>, group: seq<Byte>, user: seq<Byte>,
                         catalog: Option<seq<Byte>>, database: Option<seq<Byte>>,
                         params: seq<Param>, scope: seq<Byte>)

  // ----- Encoding ----------------------------------------------------------------------------

  function Ascii(s: string): seq<Byte> {
    seq(|s|, i requires 0 <= i < |s| => s[i] as int)
  }

  function Tag(c: char): Byte {
    c as int
  }

  const VERSION: seq<Byte> := Ascii("queryflux:result-cache:v1\0")

  /** Lengths are framed as u64. */
  const WIDTH: nat := 8

  /** `n` in `k` little-endian bytes. */
  function LittleEndian(n: nat, k: nat): (bs: seq<Byte>)
    ensures |bs| == k
  {
    if k == 0 then [] else [n % 256] + LittleEndian(n / 256, k - 1)
  }

  function Bytes(v: seq<Byte>): seq<Byte> {
    LittleEndian(|v|, WIDTH) + v
  }

  function Field(tag: char, v: seq<Byte>): seq<Byte> {
    [Tag(tag)] + Bytes(v)
  }

  function Optional(tag: char, v: Option<seq<Byte>>): seq<Byte> {
    [Tag(tag), if v.Some? then 1 else 0] + if v.Some? then Bytes(v.value) else []
  }

  function ParamTag(p: Param): char {
    match p
    case Text(_) => 't'
    case Numeric(_) => 'n'
    case Boolean(_) => 'b'
    case Date(_) => 'd'
    case Timestamp(_) => 's'
    case Time(_) => 'm'
    case Null => '0'
  }

  function Payload(p: Param): seq<Byte> {
    match p
    case Boolean(b) => [if b then 1 else 0]
    case Null => []
    case _ => p.v
  }

  function ParamField(p: Param): seq<Byte> {
    Field(ParamTag(p), Payload(p))
  }

  function ParamFields(ps: seq<Param>): seq<Byte> {
    if ps == [] then [] else ParamField(ps[0]) + ParamFields(ps[1..])
  }

  /** The stream, from its end backwards. */
  function FromScope(q: Query): seq<Byte> {
    if q.scope == [] then [] else Field('N', q.scope)
  }

  function FromParams(q: Query): seq<Byte> {
    [Tag('P')] + (LittleEndian(|q.params|, WIDTH) + (ParamFields(q.params) + FromScope(q)))
  }

  function FromDatabase(q: Query): seq<Byte> {
    Optional('D', q.database) + FromParams(q)
  }

  function FromCatalog(q: Query): seq<Byte> {
    Optional('C', q.catalog) + FromDatabase(q)
  }

  function FromUser(q: Query): seq<Byte> {
    Field('U', q.user) + FromCatalog(q)
  }

  function FromGroup(q: Query): seq<Byte> {
    Field('G', q.group) + FromUser(q)
  }

  function FromSql(q: Query): seq<Byte> {
    Field('S', q.sql) + FromGroup(q)
  }

  function Stream(q: Query): seq<Byte> {
    VERSION + FromSql(q)
  }

  // ----- The hasher calls --------------------------------------------------------------------

  /** The input the streaming hasher has absorbed so far. */
  class Hasher {
    var input: seq<Byte>

    constructor ()
      ensures input == []
    {
      input := [];
    }

    method Update(bs: seq<Byte>)
      modifies this
      ensures input == old(input) + bs
    {
      input := input + bs;
    }

    method HashBytes(v: seq<Byte>)
      modifies this
      ensures input == old(input) + Bytes(v)
    {
      Update(LittleEndian(|v|, WIDTH));
      Update(v);
    }

    method HashField(tag: char, v: seq<Byte>)
      modifies this
      ensures input == old(input) + Field(tag, v)
    {
      Update([Tag(tag)]);
      HashBytes(v);
    }

    method HashOptional(tag: char, v: Option<seq<Byte>>)
      modifies this
      ensures input == old(input) + Optional(tag, v)
    {
      Update([Tag(tag), if v.Some? then 1 else 0]);
      if v.Some? {
        HashBytes(v.value);
      }
    }

    method HashParam(p: Param)
      modifies this
      ensures input == old(input) + ParamField(p)
    {
      match p
      case Text(v) => HashField('t', v);
      case Numeric(v) => HashField('n', v);
      case Boolean(b) => HashField('b', [if b then 1 else 0]);
      case Date(v) => HashField('d', v);
      case Timestamp(v) => HashField('s', v);
      case Time(v) => HashField('m', v);
      case Null => HashField('0', []);
    }

    method HashParams(ps: seq<Param>)
      modifies this
      ensures input == old(input) + ParamFields(ps)
    {
      ghost var was := input;
      for i := 0 to |ps|
        invariant input == was + ParamFields(ps[..i])
      {
        NextParamField(was, ps, i);
        HashParam(ps[i]);
      }
      AllParamFields(ps);
    }
  }

  lemma {:induction false} ParamFieldsAppend(ps: seq<Param>, p: Param)
    ensures ParamFields(ps + [p]) == ParamFields(ps) + ParamField(p)
  {
    if ps == [] {
      assert [p][1..] == [];
    } else {
      assert (ps + [p])[1..] == ps[1..] + [p];
      ParamFieldsAppend(ps[1..], p);
    }
  }

  lemma NextParamField(x: seq<Byte>, ps: seq<Param>, i: nat)
    requires i < |ps|
    ensures x + ParamFields(ps[..i + 1]) == x + ParamFields(ps[..i]) + ParamField(ps[i])
  {
    assert ps[..i + 1] == ps[..i] + [ps[i]];
    ParamFieldsAppend(ps[..i], ps[i]);
    Regroup(x, ParamFields(ps[..i]), ParamField(ps[i]));
  }

  lemma AllParamFields(ps: seq<Param>)
    ensures ParamFields(ps[..|ps|]) == ParamFields(ps)
  {
    assert ps[..|ps|] == ps;
  }

  lemma Regroup(x: seq<Byte>, a: seq<Byte>, b: seq<Byte>)
    ensures x + (a + b) == x + a + b
  {
  }

  lemma SessionRegroups(x: seq<Byte>, q: Query)
    ensures x + FromCatalog(q) == x + Optional('C', q.catalog) + Optional('D', q.database) + FromParams(q)
  {
    Regroup(x, Optional('C', q.catalog), FromDatabase(q));
    Regroup(x + Optional('C', q.catalog), Optional('D', q.database), FromParams(q));
  }

  lemma ParamsRegroup(x: seq<Byte>, q: Query)
    ensures x + FromParams(q)
         == x + [Tag('P')] + LittleEndian(|q.params|, WIDTH) + ParamFields(q.params) + FromScope(q)
  {
    var a, b, c, d := [Tag('P')], LittleEndian(|q.params|, WIDTH), ParamFields(q.params), FromScope(q);
    Regroup(x, a, b + (c + d));
    Regroup(x + a, b, c + d);
    Regroup(x + a + b, c, d);
  }

  lemma QueryRegroups(x: seq<Byte>, q: Query)
    ensures x + FromSql(q) == x + Field('S', q.sql) + Field('G', q.group) + Field('U', q.user) + FromCatalog(q)
  {
    var s, g, u := Field('S', q.sql), Field('G', q.group), Field('U', q.user);
    Regroup(x, s, FromGroup(q));
    Regroup(x + s, g, FromUser(q));
    Regroup(x + s + g, u, FromCatalog(q));
  }

  /** The parameter list and the scope. */
  method HashTail(h: Hasher, q: Query)
    modifies h
    ensures h.input == old(h.input) + FromParams(q)
  {
    ParamsRegroup(h.input, q);
    h.Update([Tag('P')]);
    h.Update(LittleEndian(|q.params|, WIDTH));
    h.HashParams(q.params);
    if q.scope != [] {
      h.HashField('N', q.scope);
    }
  }

  method HashSession(h: Hasher, q: Query)
    modifies h
    ensures h.input == old(h.input) + FromCatalog(q)
  {
    SessionRegroups(h.input, q);
    h.HashOptional('C', q.catalog);
    h.HashOptional('D', q.database);
    HashTail(h, q);
  }

  method HashQuery(h: Hasher, q: Query)
    modifies h
    ensures h.input == old(h.input) + FromSql(q)
  {
    QueryRegroups(h.input, q);
    h.HashField('S', q.sql);
    h.HashField('G', q.group);
    h.HashField('U', q.user);
    HashSession(h, q);
  }

  /** `CacheKey::new_scoped`, up to the digest. */
  method NewScoped(q: Query) returns (input: seq<Byte>)
    ensures input == Stream(q)
  {
    var h := new Hasher();
    h.Update(VERSION);
    assert h.input == VERSION;
    HashQuery(h, q);
    input := h.input;
  }

  // ----- Decoding ----------------------------------------------------------------------------

  /** Every length fits the u64 that frames it. */
  predicate Framable(q: Query) {
    && |q.sql| < TWO64 && |q.group| < TWO64 && |q.user| < TWO64
    && (q.catalog.Some? ==> |q.catalog.value| < TWO64) && (q.database.Some? ==> |q.database.value| < TWO64)
    && |q.params| < TWO64 && (forall i :: 0 <= i < |q.params| ==> FramableParam(q.params[i]))
    && |q.scope| < TWO64
  }

  predicate FramableParam(p: Param) {
    p.Boolean? || p.Null? || |p.v| < TWO64
  }

  function Number(bs: seq<Byte>): int {
    if bs == [] then 0 else bs[0] + 256 * Number(bs[1..])
  }

  function TakeNumber(s: seq<Byte>): Option<(int, seq<Byte>)> {
    if |s| < WIDTH then None else Some((Number(s[..WIDTH]), s[WIDTH..]))
  }

  function TakeBytes(s: seq<Byte>): Option<(seq<Byte>, seq<Byte>)> {
    var n := TakeNumber(s);
    if n.None? || !(0 <= n.value.0 <= |n.value.1|) then None
    else Some((n.value.1[..n.value.0], n.value.1[n.value.0..]))
  }

  function TakeField(tag: char, s: seq<Byte>): Option<(seq<Byte>, seq<Byte>)> {
    if s == [] || s[0] != Tag(tag) then None else TakeBytes(s[1..])
  }

  function TakeOptional(tag: char, s: seq<Byte>): Option<(Option<seq<Byte>>, seq<Byte>)> {
    if |s| < 2 || s[0] != Tag(tag) then None
    else if s[1] == 0 then Some((None, s[2..]))
    else
      var b := TakeBytes(s[2..]);
      if b.None? then None else Some((Some(b.value.0), b.value.1))
  }

  function ParamOf(tag: Byte, v: seq<Byte>): Param {
    if tag == Tag('t') then Text(v)
    else if tag == Tag('n') then Numeric(v)
    else if tag == Tag('b') then Boolean(v == [1])
    else if tag == Tag('d') then Date(v)
    else if tag == Tag('s') then Timestamp(v)
    else if tag == Tag('m') then Time(v)
    else Null
  }

  function TakeParam(s: seq<Byte>): Option<(Param, seq<Byte>)> {
    if s == [] then None
    else
      var f := TakeBytes(s[1..]);
      if f.None? then None else Some((ParamOf(s[0], f.value.0), f.value.1))
  }

  function TakeParams(n: nat, s: seq<Byte>): Option<(seq<Param>, seq<Byte>)> {
    if n == 0 then Some(([], s))
    else
      var p := TakeParam(s);
      if p.None? then None
      else
        var ps := TakeParams(n - 1, p.value.1);
        if ps.None? then None else Some(([p.value.0] + ps.value.0, ps.value.1))
  }

  /** The scope is what is left: nothing, or one field. */
  function TakeScope(s: seq<Byte>): Option<seq<Byte>> {
    if s == [] then Some([])
    else
      var f := TakeField('N', s);
      if f.None? then None else Some(f.value.0)
  }

  function DecodeParams(s: seq<Byte>): Option<(seq<Param>, seq<Byte>)> {
    if s == [] || s[0] != Tag('P') then None
    else
      var n := TakeNumber(s[1..]);
      if n.None? || n.value.0 < 0 then None else TakeParams(n.value.0, n.value.1)
  }

  function DecodeSession(s: seq<Byte>): Option<(Option<seq<Byte>>, Option<seq<Byte>>, seq<Byte>)> {
    var catalog := TakeOptional('C', s);
    if catalog.None? then None
    else
      var database := TakeOptional('D', catalog.value.1);
      if database.None? then None else Some((catalog.value.0, database.value.0, database.value.1))
  }

  function DecodeStatement(s: seq<Byte>): Option<(seq<Byte>, seq<Byte>, seq<Byte>, seq<Byte>)> {
    var sql := TakeField('S', s);
    if sql.None? then None
    else
      var group := TakeField('G', sql.value.1);
      if group.None? then None
      else
        var user := TakeField('U', group.value.1);
        if user.None? then None else Some((sql.value.0, group.value.0, user.value.0, user.value.1))
  }

  function Decode(s: seq<Byte>): Option<Query> {
    if |s| < |VERSION| then None
    else
      var statement := DecodeStatement(s[|VERSION|..]);
      if statement.None? then None
      else
        var session := DecodeSession(statement.value.3);
        if session.None? then None
        else
          var params := DecodeParams(session.value.2);
          if params.None? then None
          else
            var scope := TakeScope(params.value.1);
            if scope.None? then None
            else Some(Query(statement.value.0, statement.value.1, statement.value.2,
                            session.value.0, session.value.1, params.value.0, scope.value))
  }

  // ----- The decoder recovers everything -----------------------------------------------------

  function Pow256(k: nat): nat {
    if k == 0 then 1 else 256 * Pow256(k - 1)
  }

  lemma {:induction false} NumberOfLittleEndian(n: nat, k: nat)
    requires n < Pow256(k)
    ensures Number(LittleEndian(n, k)) == n
  {
    if k > 0 {
      NumberOfLittleEndian(n / 256, k - 1);
      assert LittleEndian(n, k)[1..] == LittleEndian(n / 256, k - 1);
    }
  }

  lemma TakeNumberBack(n: nat, rest: seq<Byte>)
    requires n < TWO64
    ensures TakeNumber(LittleEndian(n, WIDTH) + rest) == Some((n, rest))
  {
    assert Pow256(8) == 256 * (256 * (256 * (256 * Pow256(4))));
    assert Pow256(4) == 256 * (256 * (256 * (256 * Pow256(0))));
    NumberOfLittleEndian(n, WIDTH);
    var s := LittleEndian(n, WIDTH) + rest;
    assert s[..WIDTH] == LittleEndian(n, WIDTH) && s[WIDTH..] == rest;
  }

  lemma TakeBytesBack(v: seq<Byte>, rest: seq<Byte>)
    requires |v| < TWO64
    ensures TakeBytes(Bytes(v) + rest) == Some((v, rest))
  {
    assert Bytes(v) + rest == LittleEndian(|v|, WIDTH) + (v + rest);
    TakeNumberBack(|v|, v + rest);
    assert (v + rest)[..|v|] == v && (v + rest)[|v|..] == rest;
  }

  lemma TakeFieldBack(tag: char, v: seq<Byte>, rest: seq<Byte>)
    requires |v| < TWO64
    ensures TakeField(tag, Field(tag, v) + rest) == Some((v, rest))
  {
    assert (Field(tag, v) + rest)[1..] == Bytes(v) + rest;
    TakeBytesBack(v, rest);
  }

  lemma TakeOptionalBack(tag: char, v: Option<seq<Byte>>, rest: seq<Byte>)
    requires v.Some? ==> |v.value| < TWO64
    ensures TakeOptional(tag, Optional(tag, v) + rest) == Some((v, rest))
  {
    if v.Some? {
      TakePresentBack(tag, v.value, rest);
    } else {
      assert ([Tag(tag), 0] + rest)[2..] == rest;
    }
  }

  lemma TakePresentBack(tag: char, v: seq<Byte>, rest: seq<Byte>)
    requires |v| < TWO64
    ensures TakeOptional(tag, [Tag(tag), 1] + Bytes(v) + rest) == Some((Some(v), rest))
  {
    var s := [Tag(tag), 1] + Bytes(v) + rest;
    assert s[2..] == Bytes(v) + rest;
    TakeBytesBack(v, rest);
  }

  lemma ParamBack(p: Param)
    ensures ParamOf(Tag(ParamTag(p)), Payload(p)) == p
  {
    assert p.Boolean? && !p.b ==> Payload(p)[0] == 0;
  }

  lemma TakeParamBack(p: Param, rest: seq<Byte>)
    requires FramableParam(p)
    ensures TakeParam(ParamField(p) + rest) == Some((p, rest))
  {
    assert (ParamField(p) + rest)[1..] == Bytes(Payload(p)) + rest;
    TakeBytesBack(Payload(p), rest);
    ParamBack(p);
  }

  lemma {:induction false} TakeParamsBack(ps: seq<Param>, rest: seq<Byte>)
    requires forall i :: 0 <= i < |ps| ==> FramableParam(ps[i])
    ensures TakeParams(|ps|, ParamFields(ps) + rest) == Some((ps, rest))
  {
    if ps == [] {
      assert ParamFields(ps) + rest == rest;
    } else {
      var tail := ParamFields(ps[1..]) + rest;
      assert ParamFields(ps) + rest == ParamField(ps[0]) + tail;
      TakeParamBack(ps[0], tail);
      TakeParamsBack(ps[1..], rest);
      assert ps == [ps[0]] + ps[1..];
    }
  }

  lemma TakeScopeBack(q: Query)
    requires |q.scope| < TWO64
    ensures TakeScope(FromScope(q)) == Some(q.scope)
  {
    if q.scope != [] {
      TakeFieldBack('N', q.scope, []);
      assert Field('N', q.scope) + [] == Field('N', q.scope);
    }
  }

  lemma DecodeParamsBack(q: Query)
    requires Framable(q)
    ensures DecodeParams(FromParams(q)) == Some((q.params, FromScope(q)))
  {
    var rest := ParamFields(q.params) + FromScope(q);
    assert FromParams(q)[1..] == LittleEndian(|q.params|, WIDTH) + rest;
    TakeNumberBack(|q.params|, rest);
    TakeParamsBack(q.params, FromScope(q));
  }

  lemma DecodeSessionBack(q: Query)
    requires Framable(q)
    ensures DecodeSession(FromCatalog(q)) == Some((q.catalog, q.database, FromParams(q)))
  {
    TakeOptionalBack('C', q.catalog, FromDatabase(q));
    TakeOptionalBack('D', q.database, FromParams(q));
  }

  lemma DecodeStatementBack(q: Query)
    requires Framable(q)
    ensures DecodeStatement(FromSql(q)) == Some((q.sql, q.group, q.user, FromCatalog(q)))
  {
    TakeFieldBack('S', q.sql, FromGroup(q));
    TakeFieldBack('G', q.group, FromUser(q));
    TakeFieldBack('U', q.user, FromCatalog(q));
  }

  /** Every part of the key is recovered from the stream: absent and empty are told apart, parameter
      boundaries and types are kept, and so is an absent scope. */
  lemma DecodeStream(q: Query)
    requires Framable(q)
    ensures Decode(Stream(q)) == Some(q)
  {
    assert Stream(q)[|VERSION|..] == FromSql(q);
    DecodeStatementBack(q);
    DecodeSessionBack(q);
    DecodeParamsBack(q);
    TakeScopeBack(q);
  }

  /** Two queries feed the digest the same bytes only if they are the same query. */
  lemma StreamInjective(a: Query, b: Query)
    requires Framable(a) && Framable(b) && Stream(a) == Stream(b)
    ensures a == b
  {
    DecodeStream(a);
    DecodeStream(b);
  }

  // ----- Storage path ------------------------------------------------------------------------

  function StoragePath(group: string, hex: string): string {
    group + "/" + hex + ".arrow"
  }

  /** Keys are 16 hex digits, so two keys share a file only if group and digest agree. */
  lemma StoragePathInjective(g1: string, h1: string, g2: string, h2: string)
    requires |h1| == |h2| == 16 && StoragePath(g1, h1) == StoragePath(g2, h2)
    ensures g1 == g2 && h1 == h2
  {
    var p1, p2 := StoragePath(g1, h1), StoragePath(g2, h2);
    assert p1[..|g1|] == g1 && p2[..|g2|] == g2;
    assert p1[|g1| + 1..|g1| + 17] == h1 && p2[|g2| + 1..|g2| + 17] == h2;
  }

  // ----- A stream byte by byte ---------------------------------------------------------------

  function Zeros(n: nat): seq<Byte> {
    seq(n, _ => 0)
  }

  lemma {:induction false} ZeroLength(k: nat)
    ensures LittleEndian(0, k) == Zeros(k)
  {
    if k > 0 { ZeroLength(k - 1); }
  }

  lemma OneLength(k: nat)
    requires k > 0
    ensures LittleEndian(1, k) == [1] + Zeros(k - 1)
  {
    ZeroLength(k - 1);
  }

  lemma VersionBytes()
    ensures VERSION == [113, 117, 101, 114, 121, 102, 108, 117, 120, 58, 114, 101, 115, 117, 108, 116, 45,
                        99, 97, 99, 104, 101, 58, 118, 49, 0]
  {
  }

  /** The pieces of a small stream. */
  lemma PieceBytes()
    ensures Field('S', [115]) == [83, 1, 0, 0, 0, 0, 0, 0, 0, 115]
    ensures Field('G', []) == [71, 0, 0, 0, 0, 0, 0, 0, 0] && Field('U', []) == [85, 0, 0, 0, 0, 0, 0, 0, 0]
    ensures Optional('C', None) == [67, 0] && Optional('D', Some([])) == [68, 1, 0, 0, 0, 0, 0, 0, 0, 0]
    ensures ParamField(Null) == [48, 0, 0, 0, 0, 0, 0, 0, 0] && Field('N', []) == [78, 0, 0, 0, 0, 0, 0, 0, 0]
    ensures ParamField(Boolean(true)) == [98, 1, 0, 0, 0, 0, 0, 0, 0, 1]
  {
    ZeroLength(8);
    OneLength(8);
  }

  lemma TypeBytes(v: seq<Byte>)
    ensures ParamField(Text(v))[0] == 116 && ParamField(Numeric(v))[0] == 110 && ParamField(Date(v))[0] == 100
    ensures ParamField(Timestamp(v))[0] == 115 && ParamField(Time(v))[0] == 109
  {
  }

  lemma CountBytes()
    ensures LittleEndian(1, WIDTH) == [1, 0, 0, 0, 0, 0, 0, 0]
  {
    OneLength(8);
  }

  lemma OneParam(q: Query, p: Param)
    requires q.params == [p] && q.scope == []
    ensures FromParams(q) == [Tag('P')] + (LittleEndian(1, WIDTH) + ParamField(p))
  {
    assert ParamFields([p]) == ParamField(p) by { assert [p][1..] == []; }
  }

  /** The stream of the query `s` with an empty database and one null parameter. */
  lemma StreamOfOneLetter()
    ensures Stream(Query([115], [], [], None, Some([]), [Null], [])) ==
              VERSION
              + ([83, 1, 0, 0, 0, 0, 0, 0, 0, 115]
                 + ([71, 0, 0, 0, 0, 0, 0, 0, 0]
                    + ([85, 0, 0, 0, 0, 0, 0, 0, 0]
                       + ([67, 0]
                          + ([68, 1, 0, 0, 0, 0, 0, 0, 0, 0]
                             + ([80] + ([1, 0, 0, 0, 0, 0, 0, 0] + [48, 0, 0, 0, 0, 0, 0, 0, 0])))))))
  {
    PieceBytes();
    CountBytes();
    OneParam(Query([115], [], [], None, Some([]), [Null], []), Null);
  }
}
