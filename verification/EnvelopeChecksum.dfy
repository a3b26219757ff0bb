/** The checksum preimage of a legacy envelope: uuid, metadata in key order and
    payload, length-prefixed, without a domain. */
module EnvelopeChecksum {
  import opened Preimage

  datatype Envelope = Envelope(uuid: string, metadata: map<string, string>, payload: string)

  // ---- Byte order on strings --------------------------------------------------------------

  predicate Less(a: string, b: string) {
    b != [] && (a == [] || a[0] < b[0] || (a[0] == b[0] && Less(a[1..], b[1..])))
  }

  lemma {:induction false} LessTotal(a: string, b: string)
    ensures Less(a, b) || a == b || Less(b, a)
    ensures !(Less(a, b) && Less(b, a)) && !Less(a, a)
    decreases |a|
  {
    if a != [] {
      LessTotal(a[1..], a[1..]);
      if b != [] {
        LessTotal(a[1..], b[1..]);
        assert a == [a[0]] + a[1..] && b == [b[0]] + b[1..];
      }
    }
  }

  lemma {:induction false} LessTransitive(a: string, b: string, c: string)
    requires Less(a, b) && Less(b, c)
    ensures Less(a, c)
    decreases |a|
  {
    if a != [] && a[0] == b[0] && b[0] == c[0] {
      LessTransitive(a[1..], b[1..], c[1..]);
    }
  }

  // ---- Sorted keys ------------------------------------------------------------------------

  predicate Sorted(ks: seq<string>) { forall i, j :: 0 <= i < j < |ks| ==> Less(ks[i], ks[j]) }

  /** ks lists the keys in increasing order, each once. */
  ghost predicate Enumerates(ks: seq<string>, keys: set<string>) {
    Sorted(ks) && (forall k :: k in ks <==> k in keys)
  }

  /** Collecting the keys in any order and sorting them. */
  method SortedKeys(keys: set<string>) returns (ks: seq<string>)
    ensures Enumerates(ks, keys)
  {
    ks := [];
    var rest := keys;
    while rest != {}
      invariant rest <= keys && Enumerates(ks, keys - rest)
      decreases rest
    {
      var k :| k in rest;
      ks := Insert(ks, k);
      rest := rest - {k};
    }
    assert keys - rest == keys;
  }

  method Insert(ks: seq<string>, k: string) returns (r: seq<string>)
    requires Sorted(ks) && k !in ks
    ensures Sorted(r) && (forall x :: x in r <==> x == k || x in ks)
  {
    var i := 0;
    while i < |ks| && Less(ks[i], k)
      invariant 0 <= i <= |ks|
      invariant forall j :: 0 <= j < i ==> Less(ks[j], k)
    {
      i := i + 1;
    }
    forall j | i <= j < |ks| ensures Less(k, ks[j]) {
      LessTotal(ks[i], k);
      if i < j { LessTransitive(k, ks[i], ks[j]); }
    }
    r := ks[..i] + [k] + ks[i..];
    assert ks == ks[..i] + ks[i..];
  }

  /** A key set has one sorted enumeration. */
  lemma {:induction false} EnumerationUnique(a: seq<string>, b: seq<string>, keys: set<string>)
    requires Enumerates(a, keys) && Enumerates(b, keys)
    ensures a == b
    decreases |a|
  {
    if a != [] { assert a[0] in keys; }
    if b != [] { assert b[0] in keys; }
    if a != [] && b != [] {
      Least(a, b, keys);
      Rest(a, keys);
      Rest(b, keys);
      EnumerationUnique(a[1..], b[1..], keys - {a[0]});
      assert a == [a[0]] + a[1..] && b == [b[0]] + b[1..];
    }
  }

  lemma Least(a: seq<string>, b: seq<string>, keys: set<string>)
    requires Enumerates(a, keys) && Enumerates(b, keys) && a != [] && b != []
    ensures a[0] == b[0]
  {
    assert a[0] in b && b[0] in a;
    LessTotal(a[0], b[0]);
  }

  lemma Rest(a: seq<string>, keys: set<string>)
    requires Enumerates(a, keys) && a != []
    ensures Enumerates(a[1..], keys - {a[0]})
  {
    LessTotal(a[0], a[0]);
    assert a == [a[0]] + a[1..];
    forall k ensures k in a[1..] <==> k in keys - {a[0]} {
      if k in a[1..] {
        var i :| 1 <= i < |a| && a[i] == k;
        assert Less(a[0], a[i]);
      }
    }
  }

  // ---- The preimage -----------------------------------------------------------------------

  function Pairs(ks: seq<string>, m: map<string, string>): (r: seq<string>)
    requires forall k :: k in ks ==> k in m
    ensures |r| == 2 * |ks|
  {
    if ks == [] then [] else Pairs(ks[..|ks| - 1], m) + [ks[|ks| - 1], m[ks[|ks| - 1]]]
  }

  lemma {:induction false} PairsAt(ks: seq<string>, m: map<string, string>, i: nat)
    requires (forall k :: k in ks ==> k in m) && i < |ks|
    ensures Pairs(ks, m)[2 * i] == ks[i] && Pairs(ks, m)[2 * i + 1] == m[ks[i]]
    decreases |ks|
  {
    if i < |ks| - 1 { PairsAt(ks[..|ks| - 1], m, i); }
  }

  function Parts(e: Envelope, ks: seq<string>): seq<string>
    requires forall k :: k in ks ==> k in e.metadata
  {
    [e.uuid] + Pairs(ks, e.metadata) + [e.payload]
  }

  /** The bytes are the parts in key order, whatever order the map is walked in. */
  method Checksum(e: Envelope) returns (digest: string, ks: seq<string>)
    ensures Enumerates(ks, e.metadata.Keys) && digest == Fields(Parts(e, ks))
  {
    ks := SortedKeys(e.metadata.Keys);
    digest := Field(e.uuid);
    assert [e.uuid] + Pairs([], e.metadata) == [e.uuid];
    assert Fields([e.uuid]) == Field(e.uuid);
    for i := 0 to |ks|
      invariant digest == Fields([e.uuid] + Pairs(ks[..i], e.metadata))
    {
      ghost var before := [e.uuid] + Pairs(ks[..i], e.metadata);
      var pair := [ks[i], e.metadata[ks[i]]];
      assert ks[..i + 1][..i] == ks[..i];
      assert before + pair == [e.uuid] + Pairs(ks[..i + 1], e.metadata);
      FieldsConcat(before, pair);
      digest := WriteFields(digest, pair);
    }
    assert ks[..|ks|] == ks;
    FieldsConcat([e.uuid] + Pairs(ks, e.metadata), [e.payload]);
    digest := WriteFields(digest, [e.payload]);
  }

  predicate SizedEnvelope(e: Envelope) {
    Sized(e.uuid) && Sized(e.payload) && (forall k :: k in e.metadata ==> Sized(k) && Sized(e.metadata[k]))
  }

  lemma {:induction false} SizedPairs(ks: seq<string>, e: Envelope)
    requires SizedEnvelope(e) && (forall k :: k in ks ==> k in e.metadata)
    ensures AllSized(Pairs(ks, e.metadata))
    decreases |ks|
  {
    if ks != [] {
      assert ks[|ks| - 1] in ks;
      SizedPairs(ks[..|ks| - 1], e);
    }
  }

  /** Two envelopes have the same checksum input exactly when uuid, metadata map and
      payload agree. */
  lemma ChecksumDetermines(a: Envelope, b: Envelope, ka: seq<string>, kb: seq<string>)
    requires SizedEnvelope(a) && SizedEnvelope(b)
    requires Enumerates(ka, a.metadata.Keys) && Enumerates(kb, b.metadata.Keys)
    ensures Fields(Parts(a, ka)) == Fields(Parts(b, kb)) <==> a == b
  {
    if a == b {
      EnumerationUnique(ka, kb, a.metadata.Keys);
    }
    if Fields(Parts(a, ka)) == Fields(Parts(b, kb)) {
      SizedPairs(ka, a);
      SizedPairs(kb, b);
      FieldsInjective(Parts(a, ka), Parts(b, kb));
      var p, q := Parts(a, ka), Parts(b, kb);
      assert |ka| == |kb| && p[0] == q[0] && p[|p| - 1] == q[|q| - 1];
      assert p[1..|p| - 1] == Pairs(ka, a.metadata) && q[1..|q| - 1] == Pairs(kb, b.metadata);
      SameMetadata(a.metadata, b.metadata, ka, kb);
    }
  }

  lemma SameMetadata(m: map<string, string>, n: map<string, string>, km: seq<string>, kn: seq<string>)
    requires Enumerates(km, m.Keys) && Enumerates(kn, n.Keys) && Pairs(km, m) == Pairs(kn, n)
    ensures m == n
  {
    forall i | 0 <= i < |km| ensures km[i] == kn[i] && m[km[i]] == n[kn[i]] {
      PairsAt(km, m, i);
      PairsAt(kn, n, i);
    }
    assert km == kn;
    forall k | k in m ensures k in n && m[k] == n[k] {
      var i :| 0 <= i < |km| && km[i] == k;
    }
    forall k | k in n ensures k in m {
      assert k in kn;
    }
  }
}
