/** The route manifest, and when the order of its rows can matter. */
module RouteManifest {
  import opened Protocol
  import opened Naming
  import opened Routes
  import opened RouteResolver

  datatype Manifest = Manifest(version: int, routes: seq<Route>, historical: seq<Route>)

  predicate RowFits(version: int, r: Route) {
    match version
    case 1 => r.messageType == "" && r.scheme == ""
    case 2 => r.messageType != "" && r.scheme == ""
    case _ => r.messageType != "" && r.scheme == READABLE
  }

  predicate HistoricalFits(r: Route) { r.messageType != "" && r.scheme == "" }

  predicate ManifestOk(D: string -> string, m: Manifest) {
    && 1 <= m.version <= 3
    && (forall r :: r in m.routes ==> RowFits(m.version, r))
    && (m.version != 3 ==> m.historical == [])
    && (forall r :: r in m.historical ==> HistoricalFits(r))
    && Accepted(D, m.routes, m.historical)
  }

  /** size is that of the raw bytes, decoded what the JSON decoder made of them. */
  method ParseRouteManifest(D: string -> string, size: nat, decoded: Option<Manifest>) returns (ok: bool)
    ensures ok <==> 0 < size <= 0x10_0000 && decoded.Some? && ManifestOk(D, decoded.value)
  {
    hide Accepted;
    if size == 0 || size > 0x10_0000 || decoded.None? || decoded.value.version < 1 || decoded.value.version > 3 {
      return false;
    }
    var m := decoded.value;
    for i := 0 to |m.routes|
      invariant forall k :: 0 <= k < i ==> RowFits(m.version, m.routes[k])
    {
      var row := m.routes[i];
      if (m.version == 1 && (row.messageType != "" || row.scheme != "")) ||
         (m.version == 2 && (row.messageType == "" || row.scheme != "")) ||
         (m.version == 3 && (row.messageType == "" || row.scheme != READABLE)) {
        assert m.routes[i] in m.routes;
        return false;
      }
    }
    if m.version != 3 && |m.historical| != 0 {
      return false;
    }
    for i := 0 to |m.historical|
      invariant forall k :: 0 <= k < i ==> HistoricalFits(m.historical[k])
    {
      if m.historical[i].messageType == "" || m.historical[i].scheme != "" {
        assert m.historical[i] in m.historical;
        return false;
      }
    }
    var resolver := NewRouteResolver(D, m.routes, m.historical);
    return resolver.Some?;
  }

  // ---- Reordering -------------------------------------------------------------------------

  predicate Pairwise(rs: seq<Route>, R: (Route, Route) -> bool) {
    forall i, j :: 0 <= i < j < |rs| ==> R(rs[i], rs[j])
  }

  ghost predicate Symmetric(R: (Route, Route) -> bool) { forall r, s :: R(r, s) == R(s, r) }

  lemma Twice(rs: seq<Route>, i: nat, j: nat)
    requires i < j < |rs| && rs[i] == rs[j]
    ensures multiset(rs)[rs[i]] >= 2
  {
    assert rs == rs[..j] + [rs[j]] + rs[j + 1..];
    assert rs[i] in rs[..j] by { assert rs[..j][i] == rs[i]; }
  }

  lemma TwoPlaces(rs: seq<Route>, r: Route) returns (i: nat, j: nat)
    requires multiset(rs)[r] >= 2
    ensures i < j < |rs| && rs[i] == r == rs[j]
  {
    assert r in rs;
    i :| 0 <= i < |rs| && rs[i] == r;
    assert rs == rs[..i] + [r] + rs[i + 1..];
    if r in rs[..i] {
      j := i;
      i :| 0 <= i < j && rs[i] == r;
    } else {
      assert r in rs[i + 1..];
      j :| i < j < |rs| && rs[j] == r;
    }
  }

  /** A symmetric relation that holds between any two rows does so in every order. */
  lemma PairwiseReordered(a: seq<Route>, b: seq<Route>, R: (Route, Route) -> bool)
    requires multiset(a) == multiset(b) && Symmetric(R) && Pairwise(a, R)
    ensures Pairwise(b, R)
  {
    forall i, j | 0 <= i < j < |b| ensures R(b[i], b[j]) {
      if b[i] == b[j] {
        Twice(b, i, j);
        var k, l := TwoPlaces(a, b[i]);
      } else {
        SameRows(b, a, b[i]);
        SameRows(b, a, b[j]);
        var k :| 0 <= k < |a| && a[k] == b[i];
        var l :| 0 <= l < |a| && a[l] == b[j];
        assert k < l ==> R(a[k], a[l]);
        assert l < k ==> R(a[l], a[k]);
      }
    }
  }

  lemma SameRows(a: seq<Route>, b: seq<Route>, r: Route)
    requires multiset(a) == multiset(b)
    ensures r in a <==> r in b
  {
    assert r in a <==> r in multiset(a);
    assert r in b <==> r in multiset(b);
  }

  lemma AcceptedReordered(D: string -> string, a: seq<Route>, b: seq<Route>, ah: seq<Route>, bh: seq<Route>)
    requires multiset(a) == multiset(b) && multiset(ah) == multiset(bh) && Accepted(D, a, ah)
    ensures Accepted(D, b, bh)
  {
    ConsistentReordered(D, a, b);
    ConsistentReordered(D, ah, bh);
    assert |b| == |multiset(b)| == |multiset(a)| == |a|;
    assert Pairwise(a, OneGroup) && Pairwise(a + ah, SameGroup);
    assert multiset(a + ah) == multiset(b + bh);
    hide Canonical, Consistent, Compatible;
    PairwiseReordered(a, b, OneGroup);
    PairwiseReordered(a + ah, b + bh, SameGroup);
    forall i, j | 0 <= i < |b| && 0 <= j < |bh| ensures b[i].physicalTopic != bh[j].physicalTopic {
      SameRows(b, a, b[i]);
      SameRows(bh, ah, bh[j]);
    }
  }

  lemma ConsistentReordered(D: string -> string, a: seq<Route>, b: seq<Route>)
    requires multiset(a) == multiset(b) && Consistent(D, a)
    ensures Consistent(D, b)
  {
    hide Canonical;
    assert Pairwise(a, Compatible);
    PairwiseReordered(a, b, Compatible);
    forall i | 0 <= i < |b| ensures Canonical(D, b[i]) {
      SameRows(b, a, b[i]);
      var k :| 0 <= k < |a| && a[k] == b[i];
    }
    assert forall i, j :: 0 <= i < j < |b| ==> Compatible(b[i], b[j]);
  }

  // ---- Published topics -------------------------------------------------------------------

  function PublishedTopic(rs: seq<Route>, key: Key): Option<string> {
    var row := FirstWith(rs, key);
    if row.Some? then Some(row.value.physicalTopic) else None
  }

  function SchemeOf(version: int): string { if version == 3 then READABLE else "" }

  /** An accepted manifest stays accepted however its rows are reordered, and always
      publishes a key to the same physical topic: the one its version prescribes. */
  lemma RowOrderIrrelevant(D: string -> string, m: Manifest, n: Manifest, key: Key)
    requires ManifestOk(D, m) && n.version == m.version
    requires multiset(m.routes) == multiset(n.routes) && multiset(m.historical) == multiset(n.historical)
    ensures ManifestOk(D, n)
    ensures PublishedTopic(m.routes, key) == PublishedTopic(n.routes, key)
    ensures PublishedTopic(m.routes, key).Some? ==> PublishedTopic(m.routes, key) == ExpectedTopic(D, key, SchemeOf(m.version))
  {
    AcceptedReordered(D, m.routes, n.routes, m.historical, n.historical);
    assert |m.historical| == |multiset(m.historical)| == |n.historical|;
    forall r | r in n.routes ensures RowFits(n.version, r) { SameRows(m.routes, n.routes, r); }
    forall r | r in n.historical ensures HistoricalFits(r) { SameRows(m.historical, n.historical, r); }
    SameKeys(m.routes, n.routes, key);
    if FirstWith(m.routes, key).Some? {
      Prescribed(D, m, key);
      Prescribed(D, n, key);
    }
  }

  lemma Prescribed(D: string -> string, m: Manifest, key: Key)
    requires ManifestOk(D, m) && FirstWith(m.routes, key).Some?
    ensures PublishedTopic(m.routes, key) == ExpectedTopic(D, key, SchemeOf(m.version))
  {
    FirstFound(m.routes, key);
    var row := FirstWith(m.routes, key).value;
    assert RowFits(m.version, row) && Canonical(D, row);
  }

  lemma SameKeys(a: seq<Route>, b: seq<Route>, key: Key)
    requires multiset(a) == multiset(b)
    ensures FirstWith(a, key).Some? == FirstWith(b, key).Some?
  {
    FirstFound(a, key);
    FirstFound(b, key);
    if FirstWith(a, key).Some? { SameRows(a, b, FirstWith(a, key).value); }
    if FirstWith(b, key).Some? { SameRows(a, b, FirstWith(b, key).value); }
  }

  // ---- The resolver without a manifest ----------------------------------------------------

  /** Every order of the rows publishes the key to one topic. */
  ghost predicate OrderFree(rs: seq<Route>, key: Key) {
    forall p: seq<Route> :: multiset(p) == multiset(rs) ==> PublishedTopic(p, key) == PublishedTopic(rs, key)
  }

  predicate OneScheme(rs: seq<Route>, key: Key) {
    forall r, s :: r in rs && s in rs && KeyFor(r) == key && KeyFor(s) == key ==> r.scheme == s.scheme
  }

  /** For rows the resolver accepts directly, the published topic is independent of row
      order exactly when the key's rows share a naming scheme. */
  lemma OrderFreeIff(D: string -> string, rs: seq<Route>, key: Key)
    requires ValidRoutes(D, rs)
    ensures OrderFree(rs, key) <==> OneScheme(rs, key)
  {
    hide Canonical, Compatible;
    if OneScheme(rs, key) {
      forall p: seq<Route> | multiset(p) == multiset(rs) ensures PublishedTopic(p, key) == PublishedTopic(rs, key) {
        SameKeys(p, rs, key);
        FirstFound(p, key);
        FirstFound(rs, key);
        if FirstWith(rs, key).Some? {
          SameRows(p, rs, FirstWith(p, key).value);
          SameScheme(D, rs, FirstWith(p, key).value, FirstWith(rs, key).value);
        }
      }
    }
    if OrderFree(rs, key) {
      forall r, s | r in rs && s in rs && KeyFor(r) == key && KeyFor(s) == key ensures r.scheme == s.scheme {
        Leading(rs, r);
        Leading(rs, s);
        SameScheme(D, rs, r, s);
      }
    }
  }

  /** Two accepted rows of one key: the same topic exactly when the same scheme. */
  lemma SameScheme(D: string -> string, rs: seq<Route>, r: Route, s: Route)
    requires Consistent(D, rs) && r in rs && s in rs && KeyFor(r) == KeyFor(s)
    ensures r.physicalTopic == s.physicalTopic <==> r.scheme == s.scheme
  {
    assert Canonical(D, r) && Canonical(D, s);
    hide Consistent;
    if r.scheme != s.scheme {
      SchemesDiffer(D, KeyFor(r), r.physicalTopic, s.physicalTopic, r.scheme, s.scheme);
    }
  }

  lemma SchemesDiffer(D: string -> string, k: Key, p: string, q: string, a: string, b: string)
    requires ExpectedTopic(D, k, a) == Some(p) && ExpectedTopic(D, k, b) == Some(q) && a != b
    ensures p != q
  {
    var readable, hashed := if a == READABLE then p else q, if a == READABLE then q else p;
    assert Gives(D, ReadableTopic, readable);
    assert k.messageType != "";
    assert Gives(D, Hashed2Topic, hashed);
    if p == q { ClassesApart(D, ReadableTopic, Hashed2Topic, p); }
  }

  /** Some order of the rows begins with r. */
  lemma Leading(rs: seq<Route>, r: Route)
    requires r in rs
    ensures exists p: seq<Route> :: multiset(p) == multiset(rs) && PublishedTopic(p, KeyFor(r)) == Some(r.physicalTopic)
  {
    var i :| 0 <= i < |rs| && rs[i] == r;
    assert rs == rs[..i] + [r] + rs[i + 1..];
    var p := [r] + (rs[..i] + rs[i + 1..]);
    assert multiset(p) == multiset(rs);
    assert p[0] == r && FirstWith(p, KeyFor(r)) == Some(r);
    assert PublishedTopic(p, KeyFor(r)) == Some(r.physicalTopic);
  }

  /** The condition is not idle: a key may have a hashed row without a subscription and
      a readable row with one; both orders are accepted and publish differently. */
  lemma MixedSchemesDependOnOrder(D: string -> string) returns (a: Route, b: Route)
    ensures Accepted(D, [a, b], []) && Accepted(D, [b, a], []) && KeyFor(a) == KeyFor(b)
    ensures PublishedTopic([a, b], KeyFor(a)) != PublishedTopic([b, a], KeyFor(a))
  {
    var k := Key("t", "NORMAL", "o", "r");
    ExampleTopic();
    ExampleGroup();
    var hashed := TopicV2(D, k.topic, k.messageType, k.owner, k.revision);
    a := Route(k.topic, "", hashed.value, "", k.messageType, k.owner, k.revision, "");
    b := Route(k.topic, "s", "t--normal--o--r", "t--s", k.messageType, k.owner, k.revision, READABLE);
    assert Canonical(D, a) && Canonical(D, b);
    SchemesDiffer(D, k, a.physicalTopic, b.physicalTopic, "", READABLE);
    assert KeyFor(a) == k == KeyFor(b);
    hide Canonical, ExpectedTopic, TopicV2;
    TwoRows(D, a, b);
    TwoRows(D, b, a);
  }

  lemma TwoRows(D: string -> string, a: Route, b: Route)
    requires Canonical(D, a) && Canonical(D, b) && KeyFor(a) == KeyFor(b)
    requires a.subscription != b.subscription
    requires a.subscription == "" || b.subscription == ""
    ensures Accepted(D, [a, b], []) && PublishedTopic([a, b], KeyFor(a)) == Some(a.physicalTopic)
  {
    hide Canonical;
    assert Compatible(a, b) && OneGroup(a, b);
    assert [a, b] + [] == [a, b];
    assert FirstWith([a, b], KeyFor(a)) == Some(a);
  }

  lemma PlainWord(w: string)
    requires Word(w)
    ensures Readable(w) && Dashed(w) == w
  {
  }

  lemma ExampleTopic()
    ensures TopicV3("t", "NORMAL", "o", "r") == Some("t--normal--o--r")
  {
    var t := ["t", "normal", "o", "r"];
    forall i | 0 <= i < |t| ensures Readable(t[i]) && Dashed(t[i]) == t[i] { PlainWord(t[i]); }
    assert DashedAll(t) == t;
    hide Readable, Dashed, DashedAll;
    assert t[1..] == ["normal", "o", "r"] && t[1..][1..] == ["o", "r"] && t[1..][1..][1..] == ["r"];
    assert Join(["r"]) == "r" && Join(["o", "r"]) == "o--r" && Join(["normal", "o", "r"]) == "normal--o--r";
    assert Join(t) == "t--normal--o--r";
  }

  lemma ExampleGroup()
    ensures GroupV3("t", "s") == Some("t--s")
  {
    var g := ["t", "s"];
    forall i | 0 <= i < |g| ensures Readable(g[i]) && Dashed(g[i]) == g[i] { PlainWord(g[i]); }
    assert DashedAll(g) == g;
    hide Readable, Dashed, DashedAll;
    assert g[1..] == ["s"] && Join(["s"]) == "s";
    assert Join(g) == "t--s";
  }
}
