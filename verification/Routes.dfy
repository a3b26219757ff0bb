/** Route bindings: validation, the resolver that separates active routes from
    historical ones, and the manifest. D is the hexadecimal digest function. */
module Routes {
  import opened Protocol
  import opened Naming

  datatype Route = Route(
    topic: string, subscription: string, physicalTopic: string, consumerGroup: string,
    messageType: string, owner: string, revision: string, scheme: string)

  /** A logical publishing identity. */
  datatype Key = Key(topic: string, messageType: string, owner: string, revision: string)

  function KeyFor(r: Route): Key { Key(r.topic, r.messageType, r.owner, r.revision) }

  function Binding(r: Route): (Key, string) { (KeyFor(r), r.subscription) }

  function Logical(r: Route): (string, string) { (r.topic, r.subscription) }

  function ExpectedTopic(D: string -> string, k: Key, scheme: string): Option<string> {
    if scheme == READABLE then TopicV3(k.topic, k.messageType, k.owner, k.revision)
    else if scheme != "" then None
    else if k.messageType != "" then TopicV2(D, k.topic, k.messageType, k.owner, k.revision)
    else if k.owner != "" || k.revision != "" then None
    else Some(TopicV1(D, k.topic))
  }

  function ExpectedGroup(D: string -> string, r: Route): Option<string> {
    if r.subscription == "" then Some("")
    else if r.scheme == READABLE then GroupV3(r.topic, r.subscription)
    else if r.scheme != "" then None
    else if r.messageType != "" then GroupV2(D, r.topic, r.subscription)
    else Some(GroupV1(D, r.topic, r.subscription))
  }

  // ---- Validation -------------------------------------------------------------------------

  predicate Canonical(D: string -> string, r: Route) {
    && ExpectedTopic(D, KeyFor(r), r.scheme) == Some(r.physicalTopic)
    && ExpectedGroup(D, r) == Some(r.consumerGroup)
    && r.topic != "" && '\0' !in r.topic && '\0' !in r.subscription
  }

  /** What a valid row may leave empty: a route without a message type is a plain hashed one,
      without owner and revision; every other names one of the two types. */
  lemma CanonicalFields(D: string -> string, r: Route)
    requires Canonical(D, r)
    ensures r.messageType == "" || r.messageType == "NORMAL" || r.messageType == "TRANSACTION"
    ensures r.messageType == "" ==> r.owner == "" && r.revision == "" && r.scheme == ""
    ensures r.messageType != "" ==> r.owner != "" && r.revision != ""
    ensures (r.scheme == "" || r.scheme == READABLE) && (r.consumerGroup == "" <== r.subscription == "")
  {
    if r.scheme == READABLE {
      var fs := [r.topic, KindOf(r.messageType).value, r.owner, r.revision];
      assert Readable(fs[2]) && Readable(fs[3]);
    }
  }

  /** Neither the same binding twice nor one name for two identities. */
  predicate Compatible(r: Route, s: Route) { Distinct(r, s) && SameTopic(r, s) && SameGroup(r, s) }

  predicate Distinct(r: Route, s: Route) { Binding(r) != Binding(s) }

  predicate SameTopic(r: Route, s: Route) { r.physicalTopic == s.physicalTopic ==> KeyFor(r) == KeyFor(s) }

  predicate SameGroup(r: Route, s: Route) {
    r.subscription != "" && s.subscription != "" && r.consumerGroup == s.consumerGroup ==> Logical(r) == Logical(s)
  }

  predicate Consistent(D: string -> string, rs: seq<Route>) {
    && (forall i :: 0 <= i < |rs| ==> Canonical(D, rs[i]))
    && (forall i, j :: 0 <= i < j < |rs| ==> Compatible(rs[i], rs[j]))
  }

  predicate ValidRoutes(D: string -> string, rs: seq<Route>) { rs != [] && Consistent(D, rs) }

  // What the three maps of the validation loop hold after the rows rs.

  predicate SeenOk(rs: seq<Route>, seen: set<(Key, string)>) { seen == set r | r in rs :: Binding(r) }

  predicate TopicsOk(rs: seq<Route>, physical: map<string, Key>) {
    && (forall k :: 0 <= k < |rs| ==> rs[k].physicalTopic in physical && physical[rs[k].physicalTopic] == KeyFor(rs[k]))
    && (forall p :: p in physical ==> exists k :: 0 <= k < |rs| && p == rs[k].physicalTopic)
  }

  predicate GroupsOk(rs: seq<Route>, groups: map<string, (string, string)>) {
    && (forall k :: 0 <= k < |rs| && rs[k].subscription != "" ==>
          rs[k].consumerGroup in groups && groups[rs[k].consumerGroup] == Logical(rs[k]))
    && (forall g :: g in groups ==> exists k :: 0 <= k < |rs| && rs[k].subscription != "" && g == rs[k].consumerGroup)
  }

  lemma SeenStep(rs: seq<Route>, seen: set<(Key, string)>, r: Route)
    requires SeenOk(rs, seen)
    ensures Binding(r) !in seen <==> forall k :: 0 <= k < |rs| ==> Distinct(rs[k], r)
    ensures SeenOk(rs + [r], seen + {Binding(r)})
  {
    assert forall k :: 0 <= k < |rs| ==> Binding(rs[k]) in seen;
    assert forall x :: x in rs + [r] <==> x in rs || x == r;
  }

  lemma TopicsStep(rs: seq<Route>, physical: map<string, Key>, r: Route)
    requires TopicsOk(rs, physical)
    ensures (r.physicalTopic in physical ==> physical[r.physicalTopic] == KeyFor(r)) <==> forall k :: 0 <= k < |rs| ==> SameTopic(rs[k], r)
    ensures (forall k :: 0 <= k < |rs| ==> SameTopic(rs[k], r)) ==> TopicsOk(rs + [r], physical[r.physicalTopic := KeyFor(r)])
  {
    var t, m := rs + [r], physical[r.physicalTopic := KeyFor(r)];
    assert t[|rs|] == r;
    forall p | p in m ensures exists k :: 0 <= k < |t| && p == t[k].physicalTopic {
      if p in physical {
        var k :| 0 <= k < |rs| && p == rs[k].physicalTopic;
        assert t[k] == rs[k];
      }
    }
  }

  lemma GroupsStep(rs: seq<Route>, groups: map<string, (string, string)>, r: Route)
    requires GroupsOk(rs, groups) && r.subscription != ""
    ensures (r.consumerGroup in groups ==> groups[r.consumerGroup] == Logical(r)) <==> forall k :: 0 <= k < |rs| ==> SameGroup(rs[k], r)
    ensures (forall k :: 0 <= k < |rs| ==> SameGroup(rs[k], r)) ==> GroupsOk(rs + [r], groups[r.consumerGroup := Logical(r)])
  {
    var t, m := rs + [r], groups[r.consumerGroup := Logical(r)];
    assert t[|rs|] == r;
    forall g | g in m ensures exists k :: 0 <= k < |t| && t[k].subscription != "" && g == t[k].consumerGroup {
      if g in groups {
        var k :| 0 <= k < |rs| && rs[k].subscription != "" && g == rs[k].consumerGroup;
        assert t[k] == rs[k];
      }
    }
  }

  lemma GroupsSkip(rs: seq<Route>, groups: map<string, (string, string)>, r: Route)
    requires GroupsOk(rs, groups) && r.subscription == ""
    ensures GroupsOk(rs + [r], groups) && forall k :: 0 <= k < |rs| ==> SameGroup(rs[k], r)
  {
    var t := rs + [r];
    forall g | g in groups ensures exists k :: 0 <= k < |t| && t[k].subscription != "" && g == t[k].consumerGroup {
      var k :| 0 <= k < |rs| && rs[k].subscription != "" && g == rs[k].consumerGroup;
      assert t[k] == rs[k];
    }
  }

  lemma ConsistentStep(D: string -> string, rs: seq<Route>, i: nat)
    requires i < |rs| && Consistent(D, rs[..i])
    ensures Consistent(D, rs[..i + 1]) <==>
      Canonical(D, rs[i]) && (forall k :: 0 <= k < i ==> Distinct(rs[..i][k], rs[i])) &&
      (forall k :: 0 <= k < i ==> SameTopic(rs[..i][k], rs[i])) && (forall k :: 0 <= k < i ==> SameGroup(rs[..i][k], rs[i]))
    ensures !Consistent(D, rs[..i + 1]) ==> !Consistent(D, rs)
  {
    hide Canonical, Distinct, SameTopic, SameGroup;
    var p, q := rs[..i], rs[..i + 1];
    assert q[i] == rs[i] && forall k :: 0 <= k < i ==> q[k] == p[k];
    if Consistent(D, q) {
      forall k | 0 <= k < i ensures Compatible(p[k], rs[i]) { assert Compatible(q[k], q[i]); }
    }
    if Consistent(D, rs) {
      forall k, j | 0 <= k < j < |q| ensures Compatible(q[k], q[j]) { assert Compatible(rs[k], rs[j]); }
    }
  }

  method ValidateRoutes(D: string -> string, rs: seq<Route>) returns (ok: bool)
    ensures ok <==> ValidRoutes(D, rs)
  {
    hide Canonical, Distinct, SameTopic, SameGroup, Consistent, SeenOk, TopicsOk, GroupsOk;
    if |rs| == 0 {
      return false;
    }
    var seen: set<(Key, string)> := {};
    var physical: map<string, Key> := map[];
    var groups: map<string, (string, string)> := map[];
    Empty(D, rs[..0], seen, physical, groups);
    for i := 0 to |rs|
      invariant Consistent(D, rs[..i])
      invariant SeenOk(rs[..i], seen) && TopicsOk(rs[..i], physical) && GroupsOk(rs[..i], groups)
    {
      var r := rs[i];
      ConsistentStep(D, rs, i);
      SeenStep(rs[..i], seen, r);
      TopicsStep(rs[..i], physical, r);
      assert rs[..i] + [r] == rs[..i + 1];
      if !Canonical(D, r) {
        return false;
      }
      if Binding(r) in seen {
        return false;
      }
      seen := seen + {Binding(r)};
      if r.physicalTopic in physical && physical[r.physicalTopic] != KeyFor(r) {
        return false;
      }
      physical := physical[r.physicalTopic := KeyFor(r)];
      if r.subscription != "" {
        GroupsStep(rs[..i], groups, r);
        if r.consumerGroup in groups && groups[r.consumerGroup] != Logical(r) {
          return false;
        }
        groups := groups[r.consumerGroup := Logical(r)];
      } else {
        GroupsSkip(rs[..i], groups, r);
      }
    }
    assert rs[..|rs|] == rs;
    return true;
  }

  lemma Empty(D: string -> string, rs: seq<Route>, seen: set<(Key, string)>, physical: map<string, Key>, groups: map<string, (string, string)>)
    requires rs == [] && seen == {} && physical == map[] && groups == map[]
    ensures Consistent(D, rs) && SeenOk(rs, seen) && TopicsOk(rs, physical) && GroupsOk(rs, groups)
  {
  }
}
