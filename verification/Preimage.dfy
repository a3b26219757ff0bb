/** The byte strings the library feeds to SHA-256: a domain and length-prefixed
    fields. SHA-256 itself is a parameter; what is proved is that the encodings
    determine the value, so that a digest names it as long as the hash does not
    collide on the encodings at hand. */
module Preimage {
  import opened Protocol

  // ---- Eight-byte big-endian numbers ------------------------------------------------------

  function Pow256(k: nat): nat {
    if k == 0 then 1 else 256 * Pow256(k - 1)
  }

  /** The low k bytes of n, most significant first. */
  function BigEndian(n: nat, k: nat): (s: string)
    ensures |s| == k
  {
    if k == 0 then [] else BigEndian(n / 256, k - 1) + [(n % 256) as char]
  }

  function Value(s: string): nat {
    if s == [] then 0 else 256 * Value(s[..|s| - 1]) + s[|s| - 1] as int
  }

  lemma {:induction false} BigEndianValue(n: nat, k: nat)
    requires n < Pow256(k)
    ensures Value(BigEndian(n, k)) == n
  {
    if k > 0 {
      BigEndianValue(n / 256, k - 1);
      assert BigEndian(n, k)[..k - 1] == BigEndian(n / 256, k - 1);
    }
  }

  lemma EightBytes()
    ensures Pow256(8) == 0x1_0000_0000_0000_0000
  {
    assert Pow256(4) == 0x1_0000_0000;
  }

  /** The shift loop of ExecutionKey writes the big-endian form of every fence. */
  method FenceBytes(fence: nat) returns (f: array<char>)
    requires fence < 0x1_0000_0000_0000_0000
    ensures fresh(f) && f[..] == BigEndian(fence, 8) && Value(f[..]) == fence
  {
    f := new char[8];
    var rest := fence;
    var i := 7;
    while i >= 0
      invariant -1 <= i <= 7 && f.Length == 8
      invariant BigEndian(fence, 8) == BigEndian(rest, i + 1) + f[i + 1..]
    {
      f[i] := (rest % 256) as char;
      assert f[i..] == [f[i]] + f[i + 1..];
      rest := rest / 256;
      i := i - 1;
    }
    EightBytes();
    BigEndianValue(fence, 8);
  }

  // ---- Length-prefixed fields -------------------------------------------------------------

  /** No Go string or slice is longer. */
  predicate Sized(v: string) { |v| < 0x8000_0000_0000_0000 }

  function Field(v: string): string { BigEndian(|v|, 8) + v }

  function Fields(vs: seq<string>): string {
    if vs == [] then [] else Field(vs[0]) + Fields(vs[1..])
  }

  lemma FieldPrefixFree(a: string, b: string, x: string, y: string)
    requires Sized(a) && Sized(b) && Field(a) + x == Field(b) + y
    ensures a == b && x == y
  {
    assert BigEndian(|a|, 8) == (Field(a) + x)[..8];
    assert BigEndian(|b|, 8) == (Field(b) + y)[..8];
    EightBytes();
    BigEndianValue(|a|, 8);
    BigEndianValue(|b|, 8);
    assert a == (Field(a) + x)[8..8 + |a|] && b == (Field(b) + y)[8..8 + |a|];
    assert x == (Field(a) + x)[8 + |a|..] && y == (Field(b) + y)[8 + |a|..];
  }

  predicate AllSized(vs: seq<string>) { forall i :: 0 <= i < |vs| ==> Sized(vs[i]) }

  /** A field list is determined by its encoding, its length included. */
  lemma {:induction false} FieldsInjective(a: seq<string>, b: seq<string>)
    requires AllSized(a) && AllSized(b) && Fields(a) == Fields(b)
    ensures a == b
    decreases |a|
  {
    if a == [] || b == [] {
      assert |a| > 0 ==> |Fields(a)| >= 8;
      assert |b| > 0 ==> |Fields(b)| >= 8;
    } else {
      FieldPrefixFree(a[0], b[0], Fields(a[1..]), Fields(b[1..]));
      FieldsInjective(a[1..], b[1..]);
      assert a == [a[0]] + a[1..] && b == [b[0]] + b[1..];
    }
  }

  lemma {:induction false} FieldsConcat(a: seq<string>, b: seq<string>)
    ensures Fields(a + b) == Fields(a) + Fields(b)
    decreases |a|
  {
    if a == [] {
      assert a + b == b;
    } else {
      assert (a + b)[1..] == a[1..] + b;
      FieldsConcat(a[1..], b);
    }
  }

  lemma {:induction false} FieldsNext(vs: seq<string>, i: nat)
    requires i < |vs|
    ensures Fields(vs[..i + 1]) == Fields(vs[..i]) + Field(vs[i])
  {
    assert vs[..i + 1] == vs[..i] + [vs[i]];
    FieldsConcat(vs[..i], [vs[i]]);
    assert Fields([vs[i]]) == Field(vs[i]) + Fields([]);
  }

  // ---- Identities -------------------------------------------------------------------------

  datatype TopicId = TopicId(topic: string, messageType: string, owner: string, revision: string)
  datatype GroupId = GroupId(topic: string, subscription: string)

  /** Everything that is hashed under a domain of its own. */
  datatype Identity =
    | OfPlan(plan: Plan)
    | OfRequest(request: RequestId)
    | OfExecution(execution: ExecutionId)
    | OfMessage(message: Message)
    | OfTopic(topic: TopicId)
    | OfGroup(group: GroupId)

  function Domain(id: Identity): string {
    match id
    case OfPlan(_) => "rm-tx-plan-draft-v1\0"
    case OfRequest(_) => "rm-tx-request-v1\0"
    case OfExecution(_) => "rm-tx-execution-v1\0"
    case OfMessage(_) => "rm-fingerprint-draft-v1\0"
    case OfTopic(_) => "rmq-topic-v2\0"
    case OfGroup(_) => "rmq-group-v2\0"
  }

  function MessageFields(m: Message): seq<string> {
    [m.producer, m.id, m.destination, m.eventType, m.schemaVersion, m.scope, m.contentType, m.occurredAt, m.payload]
  }

  function MessagePreimage(m: Message): string {
    "rm-fingerprint-draft-v1\0" + Fields(MessageFields(m))
  }

  function HeaderFields(p: Plan): seq<string> {
    [p.owner, p.scope, p.operationId, p.idempotencyKey, p.inputHash, BigEndian(|p.branches|, 8)]
  }

  function BranchFields(H: string -> string, b: Branch): (r: seq<string>)
    ensures |r| == 5
  {
    [b.id, H(MessagePreimage(b.message)), b.physicalTopic, b.routeRevision, H(b.wire)]
  }

  function BranchesFields(H: string -> string, bs: seq<Branch>): (r: seq<string>)
    ensures |r| == 5 * |bs|
  {
    if bs == [] then [] else BranchesFields(H, bs[..|bs| - 1]) + BranchFields(H, bs[|bs| - 1])
  }

  function FieldsOf(H: string -> string, id: Identity): seq<string> {
    match id
    case OfPlan(p) => HeaderFields(p) + BranchesFields(H, p.branches)
    case OfRequest(r) => [r.owner, r.scope, r.key]
    case OfExecution(e) => [e.owner, e.operationId, e.epoch, BigEndian(e.fence, 8)]
    case OfMessage(m) => MessageFields(m)
    case OfTopic(t) => [t.topic, t.messageType, t.owner, t.revision]
    case OfGroup(g) => [g.topic, g.subscription]
  }

  function Encode(H: string -> string, id: Identity): string {
    Domain(id) + Fields(FieldsOf(H, id))
  }

  method WriteFields(before: string, vs: seq<string>) returns (h: string)
    ensures h == before + Fields(vs)
  {
    h := before;
    for i := 0 to |vs|
      invariant h == before + Fields(vs[..i])
    {
      FieldsNext(vs, i);
      h := h + Field(vs[i]);
    }
    assert vs[..|vs|] == vs;
  }

  /** The plan digest's writes, in the order the library makes them. */
  method WritePlan(H: string -> string, p: Plan) returns (h: string)
    ensures h == Encode(H, OfPlan(p))
  {
    hide Fields, HeaderFields, BranchFields;
    h := WriteFields("rm-tx-plan-draft-v1\0", HeaderFields(p));
    assert HeaderFields(p) + BranchesFields(H, []) == HeaderFields(p);
    for i := 0 to |p.branches|
      invariant h == Domain(OfPlan(p)) + Fields(HeaderFields(p) + BranchesFields(H, p.branches[..i]))
    {
      NextBranch(H, p, i);
      h := WriteFields(h, BranchFields(H, p.branches[i]));
    }
    assert p.branches[..|p.branches|] == p.branches;
  }

  lemma NextBranch(H: string -> string, p: Plan, i: nat)
    requires i < |p.branches|
    ensures Fields(HeaderFields(p) + BranchesFields(H, p.branches[..i + 1]))
         == Fields(HeaderFields(p) + BranchesFields(H, p.branches[..i])) + Fields(BranchFields(H, p.branches[i]))
  {
    var before := HeaderFields(p) + BranchesFields(H, p.branches[..i]);
    assert p.branches[..i + 1][..i] == p.branches[..i];
    assert HeaderFields(p) + BranchesFields(H, p.branches[..i + 1]) == before + BranchFields(H, p.branches[i]);
    FieldsConcat(before, BranchFields(H, p.branches[i]));
  }

  // ---- Injectivity ------------------------------------------------------------------------

  /** The byte strings that encoding an identity hashes, outermost excluded. */
  function Hashed(id: Identity): set<string> {
    if id.OfPlan?
    then (set b | b in id.plan.branches :: MessagePreimage(b.message)) + (set b | b in id.plan.branches :: b.wire)
    else {}
  }

  predicate CollisionFree(H: string -> string, xs: set<string>) {
    forall x, y :: x in xs && y in xs && H(x) == H(y) ==> x == y
  }

  predicate SizedMessage(m: Message) { AllSized(MessageFields(m)) }

  predicate SizedBranch(H: string -> string, b: Branch) {
    AllSized(BranchFields(H, b)) && SizedMessage(b.message)
  }

  /** What every value in a Go program satisfies: string lengths fit an int, a fence
      fits 64 bits, a digest is a short string. */
  predicate SizedIdentity(H: string -> string, id: Identity) {
    match id
    case OfPlan(p) =>
      && AllSized(HeaderFields(p)) && |p.branches| < 0x8000_0000_0000_0000
      && (forall b :: b in p.branches ==> SizedBranch(H, b))
    case OfExecution(e) => e.fence < 0x1_0000_0000_0000_0000 && AllSized(FieldsOf(H, id))
    case _ => AllSized(FieldsOf(H, id))
  }

  /** Domains differ before either of them ends, so encodings under them never meet. */
  lemma DomainsApart(a: Identity, b: Identity, x: string, y: string)
    requires Domain(a) + x == Domain(b) + y
    ensures Domain(a) == Domain(b)
  {
    var s, t := Domain(a) + x, Domain(b) + y;
    assert s[2] == Domain(a)[2] && t[2] == Domain(b)[2];
    assert s[3] == Domain(a)[3] && t[3] == Domain(b)[3];
    assert s[4] == Domain(a)[4] && t[4] == Domain(b)[4];
    assert s[6] == Domain(a)[6] && t[6] == Domain(b)[6];
  }

  lemma MessageInjective(m: Message, n: Message)
    requires SizedMessage(m) && SizedMessage(n) && MessagePreimage(m) == MessagePreimage(n)
    ensures m == n
  {
    var d := "rm-fingerprint-draft-v1\0";
    assert MessagePreimage(m)[|d|..] == Fields(MessageFields(m));
    assert MessagePreimage(n)[|d|..] == Fields(MessageFields(n));
    FieldsInjective(MessageFields(m), MessageFields(n));
    SameMessage(m, n);
  }

  lemma SameMessage(m: Message, n: Message)
    requires MessageFields(m) == MessageFields(n)
    ensures m == n
  {
    var a, b := MessageFields(m), MessageFields(n);
    assert a[0] == b[0] && a[1] == b[1] && a[2] == b[2] && a[3] == b[3] && a[4] == b[4];
    assert a[5] == b[5] && a[6] == b[6] && a[7] == b[7] && a[8] == b[8];
  }

  lemma {:induction false} BranchesAt(H: string -> string, bs: seq<Branch>, i: nat)
    requires i < |bs|
    ensures BranchesFields(H, bs)[5 * i..5 * i + 5] == BranchFields(H, bs[i])
    decreases |bs|
  {
    hide BranchFields;
    var k := |bs| - 1;
    if i < k {
      BranchesAt(H, bs[..k], i);
      assert BranchesFields(H, bs)[5 * i..5 * i + 5] == BranchesFields(H, bs[..k])[5 * i..5 * i + 5];
    }
  }

  lemma BranchInjective(H: string -> string, b: Branch, c: Branch, xs: set<string>)
    requires SizedBranch(H, b) && SizedBranch(H, c) && BranchFields(H, b) == BranchFields(H, c)
    requires CollisionFree(H, xs) && {MessagePreimage(b.message), MessagePreimage(c.message), b.wire, c.wire} <= xs
    ensures b == c
  {
    var f, g := BranchFields(H, b), BranchFields(H, c);
    assert f[0] == g[0] && f[1] == g[1] && f[2] == g[2] && f[3] == g[3] && f[4] == g[4];
    MessageInjective(b.message, c.message);
  }

  lemma PlanInjective(H: string -> string, p: Plan, q: Plan)
    requires SizedIdentity(H, OfPlan(p)) && SizedIdentity(H, OfPlan(q))
    requires FieldsOf(H, OfPlan(p)) == FieldsOf(H, OfPlan(q))
    requires CollisionFree(H, Hashed(OfPlan(p)) + Hashed(OfPlan(q)))
    ensures p == q
  {
    var f, g := FieldsOf(H, OfPlan(p)), FieldsOf(H, OfPlan(q));
    assert f[..6] == HeaderFields(p) && g[..6] == HeaderFields(q);
    assert f[6..] == BranchesFields(H, p.branches) && g[6..] == BranchesFields(H, q.branches);
    SameHeader(p, q);
    forall i | 0 <= i < |p.branches| ensures p.branches[i] == q.branches[i] {
      BranchesAt(H, p.branches, i);
      BranchesAt(H, q.branches, i);
      BranchInjective(H, p.branches[i], q.branches[i], Hashed(OfPlan(p)) + Hashed(OfPlan(q)));
    }
  }

  lemma SameHeader(p: Plan, q: Plan)
    requires HeaderFields(p) == HeaderFields(q)
    requires |p.branches| < 0x8000_0000_0000_0000 && |q.branches| < 0x8000_0000_0000_0000
    ensures p.(branches := q.branches) == q && |p.branches| == |q.branches|
  {
    var a, b := HeaderFields(p), HeaderFields(q);
    assert a[0] == b[0] && a[1] == b[1] && a[2] == b[2] && a[3] == b[3] && a[4] == b[4] && a[5] == b[5];
    EightBytes();
    BigEndianValue(|p.branches|, 8);
    BigEndianValue(|q.branches|, 8);
  }

  lemma SimpleInjective(H: string -> string, a: Identity, b: Identity)
    requires Domain(a) == Domain(b) && !a.OfPlan? && !a.OfMessage?
    requires SizedIdentity(H, a) && SizedIdentity(H, b) && FieldsOf(H, a) == FieldsOf(H, b)
    ensures a == b
  {
    assert a.OfRequest? == b.OfRequest? && a.OfExecution? == b.OfExecution? && a.OfTopic? == b.OfTopic? && a.OfGroup? == b.OfGroup? by {
      assert Domain(a)[4] == Domain(b)[4] && Domain(a)[6] == Domain(b)[6];
    }
    var f, g := FieldsOf(H, a), FieldsOf(H, b);
    assert f[0] == g[0] && f[1] == g[1];
    assert |f| > 2 ==> f[2] == g[2];
    assert |f| > 3 ==> f[3] == g[3];
    if a.OfExecution? {
      EightBytes();
      BigEndianValue(a.execution.fence, 8);
      BigEndianValue(b.execution.fence, 8);
    }
  }

  /** The encodings are injective and, across kinds, disjoint: equal bytes come from
      the same identity of the same kind. The hypothesis on H concerns only the
      fingerprints and wire hashes embedded in plans. */
  lemma EncodeInjective(H: string -> string, a: Identity, b: Identity)
    requires SizedIdentity(H, a) && SizedIdentity(H, b)
    requires CollisionFree(H, Hashed(a) + Hashed(b))
    requires Encode(H, a) == Encode(H, b)
    ensures a == b
  {
    hide AllSized, Fields;
    DomainsApart(a, b, Fields(FieldsOf(H, a)), Fields(FieldsOf(H, b)));
    assert Encode(H, a)[|Domain(a)|..] == Fields(FieldsOf(H, a));
    assert Encode(H, b)[|Domain(a)|..] == Fields(FieldsOf(H, b));
    SizedFields(H, a);
    SizedFields(H, b);
    FieldsInjective(FieldsOf(H, a), FieldsOf(H, b));
    KindOf(a, b);
    match a
    case OfPlan(p) => PlanInjective(H, p, b.plan);
    case OfMessage(m) => SameMessage(m, b.message);
    case _ => SimpleInjective(H, a, b);
  }

  lemma KindOf(a: Identity, b: Identity)
    requires Domain(a) == Domain(b)
    ensures a.OfPlan? == b.OfPlan? && a.OfMessage? == b.OfMessage?
  {
    assert Domain(a)[3] == Domain(b)[3] && Domain(a)[6] == Domain(b)[6];
    assert |Domain(a)| == |Domain(b)|;
  }

  lemma SizedFields(H: string -> string, id: Identity)
    requires SizedIdentity(H, id)
    ensures AllSized(FieldsOf(H, id))
  {
    if id.OfPlan? { SizedBranches(H, id.plan.branches); }
  }

  lemma {:induction false} SizedBranches(H: string -> string, bs: seq<Branch>)
    requires forall b :: b in bs ==> SizedBranch(H, b)
    ensures AllSized(BranchesFields(H, bs))
    decreases |bs|
  {
    if bs != [] {
      SizedBranches(H, bs[..|bs| - 1]);
      assert SizedBranch(H, bs[|bs| - 1]);
    }
  }

  /** A digest names its identity: equal digests of any two identities, of any kinds,
      mean equal identities, unless H collides on the strings it was given for them. */
  lemma DigestNames(H: string -> string, a: Identity, b: Identity)
    requires SizedIdentity(H, a) && SizedIdentity(H, b)
    requires CollisionFree(H, Hashed(a) + Hashed(b) + {Encode(H, a), Encode(H, b)})
    ensures H(Encode(H, a)) == H(Encode(H, b)) <==> a == b
  {
    hide SizedIdentity, Encode, Hashed;
    if H(Encode(H, a)) == H(Encode(H, b)) {
      EncodeInjective(H, a, b);
    }
  }
}
