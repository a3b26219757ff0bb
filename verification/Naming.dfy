/** Physical names of RocketMQ resources: hashed names (V1, V2) and readable names
    (V3). The hexadecimal digest is a parameter; nothing here assumes it injective. */
module Naming {
  import opened Protocol
  import Preimage

  const READABLE: string := "readable-v1"

  // ---- Readable fields --------------------------------------------------------------------

  predicate Token(c: char) { 'a' <= c <= 'z' || '0' <= c <= '9' }

  predicate Separator(c: char) { c == '.' || c == '-' }

  predicate Word(w: string) { w != "" && forall i :: 0 <= i < |w| ==> Token(w[i]) }

  /** The language of the field pattern: words joined by single separators. */
  predicate Matches(f: string)
    decreases |f|
  {
    Word(f) || exists i :: 0 <= i < |f| && Word(f[..i]) && Separator(f[i]) && Matches(f[i + 1..])
  }

  /** The same fields, character by character. */
  predicate Readable(f: string) {
    && f != "" && Token(f[0]) && Token(f[|f| - 1])
    && (forall i :: 0 <= i < |f| ==> Token(f[i]) || Separator(f[i]))
    && (forall i :: 0 <= i < |f| - 1 && Separator(f[i]) ==> Token(f[i + 1]))
  }

  lemma {:induction false} MatchesReadable(f: string)
    ensures Matches(f) <==> Readable(f)
    decreases |f|
  {
    if Matches(f) && !Word(f) {
      var i :| 0 <= i < |f| && Word(f[..i]) && Separator(f[i]) && Matches(f[i + 1..]);
      MatchesReadable(f[i + 1..]);
      JoinedReadable(f, i);
    }
    if Readable(f) && !Word(f) {
      var i := FirstSeparator(f);
      assert Readable(f[i + 1..]);
      MatchesReadable(f[i + 1..]);
    }
  }

  lemma JoinedReadable(f: string, i: nat)
    requires i < |f| && Word(f[..i]) && Separator(f[i]) && Readable(f[i + 1..])
    ensures Readable(f)
  {
    var w, g := f[..i], f[i + 1..];
    forall k | 0 <= k < |f| ensures Token(f[k]) || Separator(f[k]) {
      if k < i { assert f[k] == w[k]; } else if k > i { assert f[k] == g[k - i - 1]; }
    }
    assert forall k :: 0 <= k < i ==> f[k] == w[k];
    forall k | 0 <= k < |f| - 1 && Separator(f[k]) ensures Token(f[k + 1]) {
      if k >= i + 1 { assert f[k] == g[k - i - 1] && f[k + 1] == g[k - i]; }
    }
    assert f[0] == w[0] && f[|f| - 1] == g[|g| - 1] && g[0] == f[i + 1];
  }

  lemma FirstSeparator(f: string) returns (i: nat)
    requires Readable(f) && !Word(f)
    ensures 0 < i < |f| - 1 && Word(f[..i]) && Separator(f[i])
  {
    i := 0;
    while Token(f[i])
      invariant i < |f| && forall k :: 0 <= k < i ==> Token(f[k])
      decreases |f| - i
    {
      assert i < |f| - 1;
      i := i + 1;
    }
  }

  function Dashed(f: string): (g: string)
    ensures |g| == |f|
  {
    seq(|f|, i requires 0 <= i < |f| => if f[i] == '.' then '-' else f[i])
  }

  // ---- Joining ----------------------------------------------------------------------------

  function Join(parts: seq<string>): string {
    if parts == [] then "" else if |parts| == 1 then parts[0] else parts[0] + "--" + Join(parts[1..])
  }

  predicate AllReadable(fs: seq<string>) { forall i :: 0 <= i < |fs| ==> Readable(fs[i]) }

  function DashedAll(fs: seq<string>): (ps: seq<string>)
    ensures |ps| == |fs| && forall i :: 0 <= i < |fs| ==> ps[i] == Dashed(fs[i])
  {
    seq(|fs|, i requires 0 <= i < |fs| => Dashed(fs[i]))
  }

  function NameOf(fs: seq<string>): Option<string> {
    if AllReadable(fs) && |Join(DashedAll(fs))| <= 64 then Some(Join(DashedAll(fs))) else None
  }

  method ReadableName(fs: seq<string>) returns (r: Option<string>)
    ensures r == NameOf(fs)
  {
    var parts: seq<string> := [];
    for i := 0 to |fs|
      invariant |parts| == i
      invariant forall k :: 0 <= k < i ==> Readable(fs[k]) && parts[k] == Dashed(fs[k])
    {
      if !Readable(fs[i]) {
        return None;
      }
      parts := parts + [Dashed(fs[i])];
    }
    assert parts == DashedAll(fs);
    var name := Join(parts);
    return if |name| > 64 then None else Some(name);
  }

  /** A dashed field: no double dash inside, none at either end. */
  predicate Dash(p: string) {
    && p != "" && p[0] != '-' && p[|p| - 1] != '-'
    && (forall i :: 0 <= i < |p| - 1 ==> p[i] != '-' || p[i + 1] != '-')
  }

  lemma DashedIsDash(f: string)
    requires Readable(f)
    ensures Dash(Dashed(f))
  {
  }

  function Tail(parts: seq<string>): string
    requires parts != []
  {
    if |parts| == 1 then "" else "--" + Join(parts[1..])
  }

  lemma FirstNotShorter(p: string, q: string, x: string, y: string)
    requires Dash(p) && Dash(q) && p + x == q + y && (x == "" || "--" <= x)
    ensures |p| >= |q|
  {
    var s, t := p + x, q + y;
    assert |x| > 1 ==> s[|p|] == '-' && s[|p| + 1] == '-';
    assert forall i :: 0 <= i < |q| ==> t[i] == q[i];
  }

  predicate AllDash(ps: seq<string>) { forall i :: 0 <= i < |ps| ==> Dash(ps[i]) }

  lemma SameFirst(ps: seq<string>, qs: seq<string>)
    requires AllDash(ps) && AllDash(qs) && ps != [] && qs != [] && Join(ps) == Join(qs)
    ensures ps[0] == qs[0] && Tail(ps) == Tail(qs)
  {
    hide Dash;
    var s := Join(ps);
    assert s == ps[0] + Tail(ps) && s == qs[0] + Tail(qs);
    hide Join;
    FirstNotShorter(ps[0], qs[0], Tail(ps), Tail(qs));
    FirstNotShorter(qs[0], ps[0], Tail(qs), Tail(ps));
    assert ps[0] == s[..|ps[0]|] && qs[0] == s[..|ps[0]|];
    assert Tail(ps) == s[|ps[0]|..] && Tail(qs) == s[|ps[0]|..];
  }

  /** Joined names decode uniquely: the first double dash ends the first part. */
  lemma {:induction false} JoinInjective(ps: seq<string>, qs: seq<string>)
    requires AllDash(ps) && AllDash(qs) && Join(ps) == Join(qs)
    ensures ps == qs
    decreases |ps|
  {
    JoinEmpty(ps);
    JoinEmpty(qs);
    hide Dash, Join;
    if ps != [] && qs != [] {
      SameFirst(ps, qs);
      if |ps| > 1 && |qs| > 1 {
        assert Join(ps[1..]) == Tail(ps)[2..] && Join(qs[1..]) == Tail(qs)[2..];
        JoinInjective(ps[1..], qs[1..]);
      }
      assert ps == [ps[0]] + ps[1..] && qs == [qs[0]] + qs[1..];
    }
  }

  lemma JoinEmpty(ps: seq<string>)
    requires AllDash(ps)
    ensures Join(ps) == "" <==> ps == []
  {
  }

  /** Fields that differ at most in which separator they use. */
  predicate SameButSeparators(f: string, g: string) {
    && |f| == |g|
    && (forall i :: 0 <= i < |f| ==> f[i] == g[i] || (Separator(f[i]) && Separator(g[i])))
  }

  lemma DashedSame(f: string, g: string)
    ensures Dashed(f) == Dashed(g) <==> SameButSeparators(f, g)
  {
    if Dashed(f) == Dashed(g) {
      forall i | 0 <= i < |f| ensures f[i] == g[i] || (Separator(f[i]) && Separator(g[i])) {
        assert Dashed(f)[i] == Dashed(g)[i];
      }
    }
  }

  predicate SameFields(fs: seq<string>, gs: seq<string>) {
    |fs| == |gs| && forall i :: 0 <= i < |fs| ==> SameButSeparators(fs[i], gs[i])
  }

  /** Two accepted field lists get one name exactly when they have equally many fields
      and the fields agree up to dot against dash. */
  lemma SameNameIff(fs: seq<string>, gs: seq<string>)
    requires NameOf(fs).Some? && NameOf(gs).Some?
    ensures NameOf(fs) == NameOf(gs) <==> SameFields(fs, gs)
  {
    var ps, qs := DashedAll(fs), DashedAll(gs);
    forall i | 0 <= i < |fs| ensures Dash(ps[i]) { DashedIsDash(fs[i]); }
    forall i | 0 <= i < |gs| ensures Dash(qs[i]) { DashedIsDash(gs[i]); }
    if NameOf(fs) == NameOf(gs) {
      JoinInjective(ps, qs);
      forall i | 0 <= i < |fs| ensures SameButSeparators(fs[i], gs[i]) { DashedSame(fs[i], gs[i]); }
    }
    if SameFields(fs, gs) {
      forall i | 0 <= i < |fs| ensures ps[i] == qs[i] { DashedSame(fs[i], gs[i]); }
      assert ps == qs;
    }
  }

  /** The name does not determine the fields: a dotted and a dashed topic meet. */
  lemma DotAndDashMeet()
    ensures NameOf(["a.b", "s"]) == NameOf(["a-b", "s"]) == Some("a-b--s")
  {
    assert DashedAll(["a.b", "s"]) == ["a-b", "s"] == DashedAll(["a-b", "s"]) by {
      assert Dashed("a.b") == "a-b" == Dashed("a-b") && Dashed("s") == "s";
    }
    assert ["a-b", "s"][1..] == ["s"] && Join(["s"]) == "s";
    assert Join(["a-b", "s"]) == "a-b" + "--" + "s" == "a-b--s";
    assert Readable("a.b") && Readable("a-b") && Readable("s");
  }

  // ---- The naming schemes -----------------------------------------------------------------

  predicate RouteField(v: string, limit: nat) { 0 < |v| <= limit && '\0' !in v }

  function KindOf(messageType: string): Option<string> {
    if messageType == "NORMAL" then Some("normal") else if messageType == "TRANSACTION" then Some("tx") else None
  }

  function TopicV1(D: string -> string, topic: string): string { "rmq_t_" + D(topic) }

  function GroupV1(D: string -> string, topic: string, subscription: string): string {
    "rmq_g_" + D(topic + "\0" + subscription)
  }

  function TopicV2(D: string -> string, topic: string, messageType: string, owner: string, revision: string): Option<string> {
    if RouteField(topic, 255) && RouteField(owner, 128) && RouteField(revision, 128) && KindOf(messageType).Some?
    then Some("rmq2_t_" + D("rmq-topic-v2\0" + Preimage.Fields([topic, messageType, owner, revision]))) else None
  }

  function GroupV2(D: string -> string, topic: string, subscription: string): Option<string> {
    if RouteField(topic, 255) && RouteField(subscription, 255)
    then Some("rmq2_g_" + D("rmq-group-v2\0" + Preimage.Fields([topic, subscription]))) else None
  }

  function TopicV3(topic: string, messageType: string, owner: string, revision: string): Option<string> {
    var kind := KindOf(messageType);
    if kind.Some? then NameOf([topic, kind.value, owner, revision]) else None
  }

  function GroupV3(topic: string, subscription: string): Option<string> { NameOf([topic, subscription]) }

  /** A scheme and a resource kind. */
  datatype Class = Hashed1Topic | Hashed1Group | Hashed2Topic | Hashed2Group | ReadableTopic | ReadableGroup

  /** The names a class can give out. */
  ghost predicate Gives(D: string -> string, c: Class, name: string) {
    match c
    case Hashed1Topic => exists t :: name == TopicV1(D, t)
    case Hashed1Group => exists t, s :: name == GroupV1(D, t, s)
    case Hashed2Topic => exists t, m, o, r :: TopicV2(D, t, m, o, r) == Some(name)
    case Hashed2Group => exists t, s :: GroupV2(D, t, s) == Some(name)
    case ReadableTopic => exists t, m, o, r :: TopicV3(t, m, o, r) == Some(name)
    case ReadableGroup => exists t, s :: GroupV3(t, s) == Some(name)
  }

  predicate Plain(s: string) { forall i :: 0 <= i < |s| ==> s[i] != '_' }

  lemma {:induction false} JoinPlain(ps: seq<string>)
    requires forall i :: 0 <= i < |ps| ==> Plain(ps[i])
    ensures Plain(Join(ps))
    decreases |ps|
  {
    if |ps| > 1 { JoinPlain(ps[1..]); }
  }

  lemma NamePlain(fs: seq<string>)
    requires NameOf(fs).Some?
    ensures Plain(NameOf(fs).value)
  {
    JoinPlain(DashedAll(fs));
  }

  /** Whatever the digest function, no name belongs to two classes: topics and groups
      never meet, and neither do the three schemes. */
  lemma ClassesApart(D: string -> string, c: Class, d: Class, name: string)
    requires Gives(D, c, name) && Gives(D, d, name)
    ensures c == d
  {
    ClassShape(D, c, name);
    ClassShape(D, d, name);
    if c.ReadableTopic? && d.ReadableGroup? { TopicNotGroup(name); }
    if d.ReadableTopic? && c.ReadableGroup? { TopicNotGroup(name); }
  }

  lemma ClassShape(D: string -> string, c: Class, name: string)
    requires Gives(D, c, name)
    ensures match c
      case Hashed1Topic => |name| >= 6 && name[3] == '_' && name[4] == 't'
      case Hashed1Group => |name| >= 6 && name[3] == '_' && name[4] == 'g'
      case Hashed2Topic => |name| >= 7 && name[3] == '2' && name[4] == '_' && name[5] == 't'
      case Hashed2Group => |name| >= 7 && name[3] == '2' && name[4] == '_' && name[5] == 'g'
      case _ => Plain(name)
  {
    if c.ReadableTopic? {
      var t, m, o, r :| TopicV3(t, m, o, r) == Some(name);
      NamePlain([t, KindOf(m).value, o, r]);
    } else if c.ReadableGroup? {
      var t, s :| GroupV3(t, s) == Some(name);
      NamePlain([t, s]);
    }
  }

  lemma TopicNotGroup(name: string)
    requires exists t, m, o, r :: TopicV3(t, m, o, r) == Some(name)
    ensures forall t, s :: GroupV3(t, s) != Some(name)
  {
    var t, m, o, r :| TopicV3(t, m, o, r) == Some(name);
    forall u, s ensures GroupV3(u, s) != Some(name) {
      if GroupV3(u, s) == Some(name) {
        SameNameIff([t, KindOf(m).value, o, r], [u, s]);
      }
    }
  }

  /** A readable topic name fixes the message type, and everything else up to dot
      against dash. */
  lemma TopicV3Determines(t: string, m: string, o: string, r: string, u: string, n: string, p: string, v: string)
    requires TopicV3(t, m, o, r).Some? && TopicV3(u, n, p, v).Some?
    ensures TopicV3(t, m, o, r) == TopicV3(u, n, p, v)
       <==> m == n && SameButSeparators(t, u) && SameButSeparators(o, p) && SameButSeparators(r, v)
  {
    var fs, gs := [t, KindOf(m).value, o, r], [u, KindOf(n).value, p, v];
    SameNameIff(fs, gs);
    assert SameFields(fs, gs) <==>
      SameButSeparators(fs[0], gs[0]) && SameButSeparators(fs[1], gs[1]) && SameButSeparators(fs[2], gs[2]) && SameButSeparators(fs[3], gs[3]);
  }
}
