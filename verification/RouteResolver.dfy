/** The route resolver: what it accepts, and which rows it hands out. */
module RouteResolver {
  import opened Protocol
  import opened Naming
  import opened Routes

  datatype Resolver = Resolver(active: seq<Route>, recorded: map<string, Route>)

  // ---- Acceptance -------------------------------------------------------------------------

  /** The last row recorded for each physical topic. */
  function Recorded(rows: seq<Route>): map<string, Route> {
    if rows == [] then map[] else Recorded(rows[..|rows| - 1])[rows[|rows| - 1].physicalTopic := rows[|rows| - 1]]
  }

  predicate Apart(a: seq<Route>, b: seq<Route>) {
    forall i, j :: 0 <= i < |a| && 0 <= j < |b| ==> a[i].physicalTopic != b[j].physicalTopic
  }

  /** A logical subscription has one consumer group. */
  predicate OneGroup(r: Route, s: Route) {
    r.subscription != "" && Logical(r) == Logical(s) ==> r.consumerGroup == s.consumerGroup
  }

  predicate OneGroupEach(rs: seq<Route>) { forall i, j :: 0 <= i < j < |rs| ==> OneGroup(rs[i], rs[j]) }

  predicate GroupsAgree(rs: seq<Route>) { forall i, j :: 0 <= i < j < |rs| ==> SameGroup(rs[i], rs[j]) }

  predicate Accepted(D: string -> string, active: seq<Route>, historical: seq<Route>) {
    && ValidRoutes(D, active) && Consistent(D, historical)
    && Apart(active, historical) && OneGroupEach(active) && GroupsAgree(active + historical)
  }

  predicate LogicalOk(rs: seq<Route>, logical: map<(string, string), string>) {
    && (forall k :: 0 <= k < |rs| && rs[k].subscription != "" ==>
          Logical(rs[k]) in logical && logical[Logical(rs[k])] == rs[k].consumerGroup)
    && (forall l :: l in logical ==> exists k :: 0 <= k < |rs| && rs[k].subscription != "" && l == Logical(rs[k]))
  }

  // ---- Steps of the construction loop -----------------------------------------------------

  lemma GroupIffSubscription(D: string -> string, r: Route)
    requires Canonical(D, r)
    ensures r.consumerGroup != "" <==> r.subscription != ""
  {
    if r.subscription != "" && r.scheme == READABLE {
      var fs := [r.topic, r.subscription];
      assert NameOf(fs) == Some(r.consumerGroup);
      assert Join(DashedAll(fs)) == DashedAll(fs)[0] + "--" + Join(DashedAll(fs)[1..]);
    }
  }

  lemma LogicalStep(rs: seq<Route>, logical: map<(string, string), string>, r: Route)
    requires LogicalOk(rs, logical) && r.subscription != ""
    ensures (Logical(r) in logical ==> logical[Logical(r)] == r.consumerGroup) <==> forall k :: 0 <= k < |rs| ==> OneGroup(rs[k], r)
    ensures (forall k :: 0 <= k < |rs| ==> OneGroup(rs[k], r)) ==> LogicalOk(rs + [r], logical[Logical(r) := r.consumerGroup])
  {
    var t, m := rs + [r], logical[Logical(r) := r.consumerGroup];
    assert t[|rs|] == r;
    forall l | l in m ensures exists k :: 0 <= k < |t| && t[k].subscription != "" && l == Logical(t[k]) {
      if l in logical {
        var k :| 0 <= k < |rs| && rs[k].subscription != "" && l == Logical(rs[k]);
        assert t[k] == rs[k];
      }
    }
  }

  lemma LogicalSkip(rs: seq<Route>, logical: map<(string, string), string>, r: Route)
    requires LogicalOk(rs, logical) && r.subscription == ""
    ensures LogicalOk(rs + [r], logical) && forall k :: 0 <= k < |rs| ==> OneGroup(rs[k], r)
  {
    var t := rs + [r];
    forall l | l in logical ensures exists k :: 0 <= k < |t| && t[k].subscription != "" && l == Logical(t[k]) {
      var k :| 0 <= k < |rs| && rs[k].subscription != "" && l == Logical(rs[k]);
      assert t[k] == rs[k];
    }
  }

  lemma {:induction false} RecordedTopics(rows: seq<Route>, p: string)
    ensures p in Recorded(rows) <==> exists k :: 0 <= k < |rows| && rows[k].physicalTopic == p
    ensures p in Recorded(rows) ==> Recorded(rows)[p] in rows && Recorded(rows)[p].physicalTopic == p
    decreases |rows|
  {
    if rows != [] {
      var n := |rows| - 1;
      RecordedTopics(rows[..n], p);
      assert p in Recorded(rows[..n]) <==> exists k :: 0 <= k < n && rows[k].physicalTopic == p by {
        if p in Recorded(rows[..n]) {
          var k :| 0 <= k < n && rows[..n][k].physicalTopic == p;
          assert rows[k].physicalTopic == p;
        }
        if k :| 0 <= k < n && rows[k].physicalTopic == p { assert rows[..n][k].physicalTopic == p; }
      }
      assert rows[n] in rows;
    }
  }

  lemma AgreeStep(rs: seq<Route>, r: Route)
    requires GroupsAgree(rs)
    ensures GroupsAgree(rs + [r]) <==> forall k :: 0 <= k < |rs| ==> SameGroup(rs[k], r)
  {
    hide SameGroup;
    var t := rs + [r];
    assert t[|rs|] == r && forall k :: 0 <= k < |rs| ==> t[k] == rs[k];
    if GroupsAgree(t) {
      forall k | 0 <= k < |rs| ensures SameGroup(rs[k], r) { assert SameGroup(t[k], t[|rs|]); }
    }
  }

  lemma OneGroupStep(rs: seq<Route>, r: Route)
    requires OneGroupEach(rs)
    ensures OneGroupEach(rs + [r]) <==> forall k :: 0 <= k < |rs| ==> OneGroup(rs[k], r)
  {
    hide OneGroup;
    var t := rs + [r];
    assert t[|rs|] == r && forall k :: 0 <= k < |rs| ==> t[k] == rs[k];
    if OneGroupEach(t) {
      forall k | 0 <= k < |rs| ensures OneGroup(rs[k], r) { assert OneGroup(t[k], t[|rs|]); }
    }
  }

  /** A row collides with another list exactly when its topic is recorded but was not
      met in its own list before. */
  lemma ApartStep(before: seq<Route>, list: seq<Route>, own: set<string>, r: Route)
    requires Apart(before, list) && own == (set x | x in list :: x.physicalTopic)
    ensures !(r.physicalTopic in Recorded(before + list) && r.physicalTopic !in own) <==> Apart(before, list + [r])
    ensures own + {r.physicalTopic} == (set x | x in list + [r] :: x.physicalTopic)
  {
    var p, rows, t := r.physicalTopic, before + list, list + [r];
    RecordedTopics(rows, p);
    assert t[|list|] == r && forall k :: 0 <= k < |list| ==> t[k] == list[k];
    assert forall x :: x in t <==> x in list || x == r;
    assert forall j :: 0 <= j < |list| ==> list[j].physicalTopic in own;
    assert forall i :: 0 <= i < |before| ==> rows[i] == before[i];
    assert forall i :: |before| <= i < |rows| ==> rows[i] == list[i - |before|];
    if p in own {
      var x :| x in list && x.physicalTopic == p;
      var j :| 0 <= j < |list| && list[j] == x;
    } else if p in Recorded(rows) {
      var k :| 0 <= k < |rows| && rows[k].physicalTopic == p;
      assert before[k].physicalTopic == t[|list|].physicalTopic;
    }
  }

  lemma PrefixFails(before: seq<Route>, list: seq<Route>, i: nat)
    requires i <= |list|
    ensures Apart(before, list) ==> Apart(before, list[..i])
    ensures OneGroupEach(list) ==> OneGroupEach(list[..i])
    ensures GroupsAgree(before + list) ==> GroupsAgree(before + list[..i])
  {
    hide SameGroup, OneGroup;
    var s, t := before + list, before + list[..i];
    assert forall k :: 0 <= k < |t| ==> t[k] == s[k];
  }

  // ---- Construction -----------------------------------------------------------------------

  datatype Maps = Maps(recorded: map<string, Route>, groups: map<string, (string, string)>, logical: map<(string, string), string>)

  /** One pass of the construction loop: the rows of one list after those of before. */
  method AddList(D: string -> string, first: bool, before: seq<Route>, list: seq<Route>, maps: Maps) returns (ok: bool, m: Maps)
    requires maps.recorded == Recorded(before) && GroupsOk(before, maps.groups) && GroupsAgree(before)
    requires first ==> before == [] && LogicalOk([], maps.logical)
    requires forall k :: 0 <= k < |list| ==> Canonical(D, list[k])
    ensures ok <==> Apart(before, list) && (first ==> OneGroupEach(list)) && GroupsAgree(before + list)
    ensures ok ==> m.recorded == Recorded(before + list) && GroupsOk(before + list, m.groups)
  {
    hide Canonical, GroupsOk, LogicalOk, Recorded, Apart, GroupsAgree, OneGroupEach, SameGroup, OneGroup;
    m := maps;
    var own: set<string> := {};
    Start(before, list);
    for i := 0 to |list|
      invariant m.recorded == Recorded(before + list[..i]) && GroupsOk(before + list[..i], m.groups)
      invariant own == (set x | x in list[..i] :: x.physicalTopic)
      invariant Apart(before, list[..i]) && GroupsAgree(before + list[..i])
      invariant first ==> OneGroupEach(list[..i]) && LogicalOk(list[..i], m.logical)
    {
      var row := list[i];
      ghost var rows := before + list[..i];
      assert rows + [row] == before + list[..i + 1] && list[..i] + [row] == list[..i + 1];
      PrefixFails(before, list, i + 1);
      ApartStep(before, list[..i], own, row);
      AgreeStep(rows, row);
      GroupIffSubscription(D, row);
      if row.physicalTopic in m.recorded && row.physicalTopic !in own {
        return false, m;
      }
      if row.consumerGroup != "" {
        if first {
          LogicalStep(list[..i], m.logical, row);
          OneGroupStep(list[..i], row);
          if Logical(row) in m.logical && m.logical[Logical(row)] != row.consumerGroup {
            return false, m;
          }
          m := m.(logical := m.logical[Logical(row) := row.consumerGroup]);
        }
        GroupsStep(rows, m.groups, row);
        if row.consumerGroup in m.groups && m.groups[row.consumerGroup] != Logical(row) {
          return false, m;
        }
        m := m.(groups := m.groups[row.consumerGroup := Logical(row)]);
      } else {
        GroupsSkip(rows, m.groups, row);
        if first {
          LogicalSkip(list[..i], m.logical, row);
          OneGroupStep(list[..i], row);
        }
      }
      RecordRow(rows, row);
      m := m.(recorded := m.recorded[row.physicalTopic := row]);
      own := own + {row.physicalTopic};
    }
    assert list[..|list|] == list;
    return true, m;
  }

  lemma Start(before: seq<Route>, list: seq<Route>)
    ensures before + list[..0] == before && list[..0] == [] && Apart(before, list[..0]) && OneGroupEach(list[..0])
  {
  }

  lemma RecordRow(rows: seq<Route>, row: Route)
    ensures Recorded(rows + [row]) == Recorded(rows)[row.physicalTopic := row]
  {
    assert (rows + [row])[..|rows|] == rows;
  }

  method NewRouteResolver(D: string -> string, active: seq<Route>, historical: seq<Route>) returns (r: Option<Resolver>)
    ensures r == if Accepted(D, active, historical) then Some(Resolver(active, Recorded(active + historical))) else None
  {
    hide Canonical, Apart, GroupsAgree, OneGroupEach, Recorded, SameTopic, SameGroup, Distinct;
    var ok := ValidateRoutes(D, active);
    if !ok {
      return None;
    }
    if |historical| != 0 {
      ok := ValidateRoutes(D, historical);
      if !ok {
        return None;
      }
    }
    var maps := Maps(map[], map[], map[]);
    Fresh();
    ok, maps := AddList(D, true, [], active, maps);
    assert [] + active == active;
    Whole(active, historical);
    if !ok {
      return None;
    }
    ok, maps := AddList(D, false, active, historical, maps);
    return if ok then Some(Resolver(active, maps.recorded)) else None;
  }

  lemma Fresh()
    ensures Recorded([]) == map[] && GroupsAgree([])
  {
  }

  lemma Whole(active: seq<Route>, historical: seq<Route>)
    ensures Apart([], active) && (GroupsAgree(active + historical) ==> GroupsAgree(active))
  {
    PrefixFails(active, historical, 0);
    assert active + historical[..0] == active;
  }

  // ---- Lookups ----------------------------------------------------------------------------

  /** The first row with the key. */
  function FirstWith(rs: seq<Route>, key: Key): Option<Route> {
    if rs == [] then None else if KeyFor(rs[0]) == key then Some(rs[0]) else FirstWith(rs[1..], key)
  }

  /** A nil resolver and an unknown key are errors; historical rows are never found. */
  method PublishRoute(r: Option<Resolver>, key: Key) returns (row: Option<Route>)
    ensures row == if r.Some? then FirstWith(r.value.active, key) else None
  {
    if r.Some? {
      var active := r.value.active;
      for i := 0 to |active|
        invariant FirstWith(active, key) == FirstWith(active[i..], key)
      {
        if KeyFor(active[i]) == key {
          return Some(active[i]);
        }
        assert active[i..][1..] == active[i + 1..];
      }
    }
    return None;
  }

  lemma {:induction false} FirstFound(rs: seq<Route>, key: Key)
    ensures FirstWith(rs, key).Some? <==> exists i :: 0 <= i < |rs| && KeyFor(rs[i]) == key
    ensures FirstWith(rs, key).Some? ==> FirstWith(rs, key).value in rs && KeyFor(FirstWith(rs, key).value) == key
    decreases |rs|
  {
    if rs != [] {
      FirstFound(rs[1..], key);
      if i :| 0 < i < |rs| && KeyFor(rs[i]) == key { assert rs[1..][i - 1] == rs[i]; }
    }
  }

  function RecordedRoute(r: Option<Resolver>, key: Key, physical: string): Option<Route> {
    if r.Some? && physical in r.value.recorded && KeyFor(r.value.recorded[physical]) == key
    then Some(r.value.recorded[physical]) else None
  }

  predicate Serves(row: Route, topic: string, subscription: string) {
    row.topic == topic && row.subscription == subscription && row.consumerGroup != ""
  }

  function Serving(rs: seq<Route>, topic: string, subscription: string): seq<Route> {
    if rs == [] then []
    else Serving(rs[..|rs| - 1], topic, subscription) + (if Serves(rs[|rs| - 1], topic, subscription) then [rs[|rs| - 1]] else [])
  }

  method SubscriptionRoutes(r: Option<Resolver>, topic: string, subscription: string) returns (rows: Option<seq<Route>>)
    ensures rows == if r.Some? && Serving(r.value.active, topic, subscription) != []
                    then Some(Serving(r.value.active, topic, subscription)) else None
  {
    var found: seq<Route> := [];
    if r.Some? {
      var active := r.value.active;
      for i := 0 to |active|
        invariant found == Serving(active[..i], topic, subscription)
      {
        assert active[..i + 1][..i] == active[..i];
        if Serves(active[i], topic, subscription) {
          found := found + [active[i]];
        }
      }
      assert active[..|active|] == active;
    }
    return if |found| == 0 then None else Some(found);
  }

  lemma {:induction false} ServingRows(rs: seq<Route>, topic: string, subscription: string)
    ensures forall x :: x in Serving(rs, topic, subscription) <==> x in rs && Serves(x, topic, subscription)
    decreases |rs|
  {
    if rs != [] {
      ServingRows(rs[..|rs| - 1], topic, subscription);
      assert rs == rs[..|rs| - 1] + [rs[|rs| - 1]];
    }
  }

  // ---- What an accepted resolver guarantees -----------------------------------------------

  lemma SameTopicSameKey(D: string -> string, rs: seq<Route>, r: Route, s: Route)
    requires Consistent(D, rs) && r in rs && s in rs && r.physicalTopic == s.physicalTopic
    ensures KeyFor(r) == KeyFor(s)
  {
    hide Canonical;
    var i :| 0 <= i < |rs| && rs[i] == r;
    var j :| 0 <= j < |rs| && rs[j] == s;
    if i < j { assert Compatible(rs[i], rs[j]); }
    if j < i { assert Compatible(rs[j], rs[i]); }
  }

  /** A recorded route is found exactly for the (key, physical topic) pairs present in
      the active or the historical list. */
  lemma RecordedExactly(D: string -> string, active: seq<Route>, historical: seq<Route>, key: Key, physical: string)
    requires Accepted(D, active, historical)
    ensures var found := RecordedRoute(Some(Resolver(active, Recorded(active + historical))), key, physical);
      && (found.Some? <==> exists x :: x in active + historical && KeyFor(x) == key && x.physicalTopic == physical)
      && (found.Some? ==> found.value in active + historical && KeyFor(found.value) == key && found.value.physicalTopic == physical)
  {
    hide Consistent, OneGroupEach, GroupsAgree;
    var rows := active + historical;
    RecordedTopics(rows, physical);
    if x :| x in rows && KeyFor(x) == key && x.physicalTopic == physical {
      var i :| 0 <= i < |rows| && rows[i] == x;
      var y := Recorded(rows)[physical];
      var j :| 0 <= j < |rows| && rows[j] == y;
      assert i < |active| <==> j < |active|;
      SameTopicSameKey(D, if i < |active| then active else historical, x, y);
    }
  }

  /** The rows of a subscription are active, and all in one consumer group. */
  lemma SubscriptionHasOneGroup(D: string -> string, active: seq<Route>, historical: seq<Route>, topic: string, subscription: string, r: Route, s: Route)
    requires Accepted(D, active, historical)
    requires r in Serving(active, topic, subscription) && s in Serving(active, topic, subscription)
    ensures r in active && r.consumerGroup == s.consumerGroup && forall h :: h in historical ==> h.physicalTopic != r.physicalTopic
  {
    hide GroupsAgree;
    ServingRows(active, topic, subscription);
    var i :| 0 <= i < |active| && active[i] == r;
    var j :| 0 <= j < |active| && active[j] == s;
    GroupIffSubscription(D, r);
    if i < j { assert OneGroup(active[i], active[j]); }
    if j < i { assert OneGroup(active[j], active[i]); }
  }
}
