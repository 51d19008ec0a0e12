/**
 What is fed to SHA-256 when a Gateway's credential is digested
 (internal/controller/gateway_controller.go, credentialHash and hashCredentialField).

 The digest function itself is not modelled; its input is, and is shown to determine and be
 determined by the selected credential material.
 */
module CredentialDigest {
  import opened Common

  newtype Byte = x: int | 0 <= x < 256

  type Bytes = seq<Byte>

  // ---------------------------------------------------------------- length prefixes

  function Pow256(k: nat): nat {
    if k == 0 then 1 else 256 * Pow256(k - 1)
  }

  /** binary.BigEndian: the k low-order bytes of n, most significant first. */
  function BigEndian(n: nat, k: nat): (b: Bytes)
    ensures |b| == k
  {
    if k == 0 then [] else BigEndian(n / 256, k - 1) + [(n % 256) as Byte]
  }

  function FromBigEndian(b: Bytes): nat {
    if b == [] then 0 else 256 * FromBigEndian(b[..|b| - 1]) + b[|b| - 1] as int
  }

  lemma {:induction false} BigEndianRoundTrip(n: nat, k: nat)
    requires n < Pow256(k)
    ensures FromBigEndian(BigEndian(n, k)) == n
  {
    if k > 0 {
      BigEndianRoundTrip(n / 256, k - 1);
      assert BigEndian(n, k)[..k - 1] == BigEndian(n / 256, k - 1);
    }
  }

  const LENGTH_BYTES := 8

  /** Every slice length fits the 64-bit prefix. */
  predicate Fits(b: Bytes) {
    |b| < Pow256(LENGTH_BYTES)
  }

  function Field(b: Bytes): Bytes {
    BigEndian(|b|, LENGTH_BYTES) + b
  }

  function Encode(fields: seq<Bytes>): Bytes {
    if fields == [] then [] else Field(fields[0]) + Encode(fields[1..])
  }

  /** Length prefixes make field boundaries unambiguous. */
  lemma {:induction false} EncodeInjective(a: seq<Bytes>, b: seq<Bytes>)
    requires forall f :: f in a ==> Fits(f)
    requires forall f :: f in b ==> Fits(f)
    requires Encode(a) == Encode(b)
    ensures a == b
  {
    if a != [] && b != [] {
      var e := Encode(a);
      var x, y := BigEndian(|a[0]|, LENGTH_BYTES), BigEndian(|b[0]|, LENGTH_BYTES);
      assert e[..LENGTH_BYTES] == x && e[..LENGTH_BYTES] == y;
      assert a[0] in a && b[0] in b;
      BigEndianRoundTrip(|a[0]|, LENGTH_BYTES);
      BigEndianRoundTrip(|b[0]|, LENGTH_BYTES);
      var n := LENGTH_BYTES + |a[0]|;
      assert e[LENGTH_BYTES..n] == a[0] && e[LENGTH_BYTES..n] == b[0];
      assert e[n..] == Encode(a[1..]) && e[n..] == Encode(b[1..]);
      EncodeInjective(a[1..], b[1..]);
      assert a == [a[0]] + a[1..] && b == [b[0]] + b[1..];
    }
  }

  // ---------------------------------------------------------------- key order

  /** Byte-wise string order. */
  predicate Less(a: Bytes, b: Bytes) {
    b != [] && (a == [] || a[0] < b[0] || (a[0] == b[0] && Less(a[1..], b[1..])))
  }

  lemma {:induction false} LessTotal(a: Bytes, b: Bytes)
    ensures !Less(a, a)
    ensures a == b || Less(a, b) || Less(b, a)
    ensures !(Less(a, b) && Less(b, a))
    decreases |a| + |b|
  {
    if a != [] {
      LessTotal(a[1..], if b == [] then [] else b[1..]);
      if b != [] && a[0] == b[0] && a[1..] == b[1..] {
        assert a == [a[0]] + a[1..] && b == [b[0]] + b[1..];
      }
    }
  }

  lemma {:induction false} LessTransitive(a: Bytes, b: Bytes, c: Bytes)
    requires Less(a, b) && Less(b, c)
    ensures Less(a, c)
    decreases |b|
  {
    if a != [] && a[0] == b[0] == c[0] {
      LessTransitive(a[1..], b[1..], c[1..]);
    }
  }

  ghost predicate Sorted(ks: seq<Bytes>) {
    forall i, j :: 0 <= i < j < |ks| ==> Less(ks[i], ks[j])
  }

  ghost function Elements(ks: seq<Bytes>): set<Bytes> {
    set k | k in ks
  }

  /** A set of keys has one sorted enumeration. */
  lemma {:induction false} SortedUnique(a: seq<Bytes>, b: seq<Bytes>)
    requires Sorted(a) && Sorted(b) && Elements(a) == Elements(b)
    ensures a == b
  {
    assert b != [] ==> b[0] in Elements(b);
    if a != [] {
      assert a[0] in Elements(a);
      FirstIsLeast(a, b);
      LessTotal(a[0], a[0]);
      assert forall i :: 0 < i < |a| ==> Less(a[0], a[i]);
      assert forall i :: 0 < i < |b| ==> Less(b[0], b[i]);
      assert a == [a[0]] + a[1..] && b == [b[0]] + b[1..];
      assert Elements(a[1..]) == Elements(a) - {a[0]};
      assert Elements(b[1..]) == Elements(b) - {b[0]};
      SortedUnique(a[1..], b[1..]);
    }
  }

  lemma FirstIsLeast(a: seq<Bytes>, b: seq<Bytes>)
    requires Sorted(a) && Sorted(b) && Elements(a) == Elements(b) && a != []
    ensures b != [] && a[0] == b[0]
  {
    assert a[0] in Elements(b);
    var j :| 0 <= j < |b| && b[j] == a[0];
    assert b[0] in Elements(a);
    var i :| 0 <= i < |a| && a[i] == b[0];
    LessTotal(a[0], b[0]);
    assert forall m :: 0 < m < |a| ==> Less(a[0], a[m]);
    assert forall m :: 0 < m < |b| ==> Less(b[0], b[m]);
  }

  // ---------------------------------------------------------------- the digest input

  /** A credentialRef names one key of the Secret, or (empty) the whole of it. */
  type Secret = map<Bytes, Bytes>

  ghost predicate SecretFits(s: Secret) {
    forall k :: k in s ==> Fits(k) && Fits(s[k])
  }

  function Pairs(ks: seq<Bytes>, s: Secret): seq<Bytes>
    requires forall k :: k in ks ==> k in s
  {
    if ks == [] then [] else [ks[0], s[ks[0]]] + Pairs(ks[1..], s)
  }

  function Lookup(s: Secret, key: Bytes): Bytes {
    if key in s then s[key] else []
  }

  /** The bytes hashed for a reference to `key` in a Secret. */
  ghost predicate InputFor(key: Bytes, s: Secret, input: Bytes) {
    if key != [] then input == Encode([key, Lookup(s, key)])
    else exists ks :: Sorted(ks) && Elements(ks) == s.Keys && (forall k :: k in ks ==> k in s)
                      && input == Encode(Pairs(ks, s))
  }

  /** The credential a reference selects. */
  function Selected(key: Bytes, s: Secret): Secret {
    if key != [] then map[key := Lookup(s, key)] else s
  }

  /** The digest input does not depend on the order in which the Secret's keys are met. */
  lemma InputIsCanonical(key: Bytes, s: Secret, a: Bytes, b: Bytes)
    requires InputFor(key, s, a) && InputFor(key, s, b)
    ensures a == b
  {
    if key == [] {
      var x :| Sorted(x) && Elements(x) == s.Keys && (forall k :: k in x ==> k in s) && a == Encode(Pairs(x, s));
      var y :| Sorted(y) && Elements(y) == s.Keys && (forall k :: k in y ==> k in s) && b == Encode(Pairs(y, s));
      SortedUnique(x, y);
    }
  }

  lemma {:induction false} PairsDetermine(a: seq<Bytes>, s: Secret, b: seq<Bytes>, t: Secret)
    requires (forall k :: k in a ==> k in s) && (forall k :: k in b ==> k in t)
    requires Pairs(a, s) == Pairs(b, t)
    ensures a == b && forall k :: k in a ==> s[k] == t[k]
  {
    if a != [] && b != [] {
      assert Pairs(a, s)[2..] == Pairs(a[1..], s) && Pairs(b, t)[2..] == Pairs(b[1..], t);
      assert Pairs(a, s)[0] == Pairs(b, t)[0] && Pairs(a, s)[1] == Pairs(b, t)[1];
      PairsDetermine(a[1..], s, b[1..], t);
      assert a == [a[0]] + a[1..] && b == [b[0]] + b[1..];
    }
  }

  lemma {:induction false} PairsFit(ks: seq<Bytes>, s: Secret)
    requires (forall k :: k in ks ==> k in s) && SecretFits(s)
    ensures forall f :: f in Pairs(ks, s) ==> Fits(f)
  {
    if ks != [] {
      PairsFit(ks[1..], s);
    }
  }

  /** Different selected credentials are never fed to the digest as the same bytes. */
  lemma InputIsInjective(key: Bytes, s: Secret, t: Secret, input: Bytes)
    requires SecretFits(s) && SecretFits(t) && Fits(key)
    requires InputFor(key, s, input) && InputFor(key, t, input)
    ensures Selected(key, s) == Selected(key, t)
  {
    if key != [] {
      assert Fits([]) by { assert Pow256(LENGTH_BYTES) > 0; }
      EncodeInjective([key, Lookup(s, key)], [key, Lookup(t, key)]);
      assert [key, Lookup(s, key)][1] == [key, Lookup(t, key)][1];
    } else {
      var x :| Sorted(x) && Elements(x) == s.Keys && (forall k :: k in x ==> k in s) && input == Encode(Pairs(x, s));
      var y :| Sorted(y) && Elements(y) == t.Keys && (forall k :: k in y ==> k in t) && input == Encode(Pairs(y, t));
      WholeSecretInjective(x, s, y, t);
    }
  }

  /** References to different keys are never fed to the digest as the same bytes. */
  lemma KeysAreTold(a: Bytes, s: Secret, b: Bytes, t: Secret, input: Bytes)
    requires SecretFits(s) && SecretFits(t) && Fits(a) && Fits(b) && a != [] && b != []
    requires InputFor(a, s, input) && InputFor(b, t, input)
    ensures a == b && Lookup(s, a) == Lookup(t, b)
  {
    assert Fits([]) by { assert Pow256(LENGTH_BYTES) > 0; }
    var x, y := [a, Lookup(s, a)], [b, Lookup(t, b)];
    EncodeInjective(x, y);
    assert x[0] == y[0] && x[1] == y[1];
  }

  lemma WholeSecretInjective(x: seq<Bytes>, s: Secret, y: seq<Bytes>, t: Secret)
    requires SecretFits(s) && SecretFits(t)
    requires Elements(x) == s.Keys && (forall k :: k in x ==> k in s)
    requires Elements(y) == t.Keys && (forall k :: k in y ==> k in t)
    requires Encode(Pairs(x, s)) == Encode(Pairs(y, t))
    ensures s == t
  {
    PairsFit(x, s);
    PairsFit(y, t);
    EncodeInjective(Pairs(x, s), Pairs(y, t));
    PairsDetermine(x, s, y, t);
    forall k | k in s ensures s[k] == t[k] {
      assert k in Elements(x);
    }
  }

  // ---------------------------------------------------------------- credentialHash

  /** slices.Sort on distinct keys. */
  method SortKeys(keys: seq<Bytes>) returns (sorted: seq<Bytes>)
    requires forall i, j :: 0 <= i < j < |keys| ==> keys[i] != keys[j]
    ensures Sorted(sorted) && Elements(sorted) == Elements(keys)
  {
    sorted := [];
    for i := 0 to |keys|
      invariant Sorted(sorted) && Elements(sorted) == Elements(keys[..i])
    {
      assert keys[i] !in Elements(keys[..i]);
      assert Elements(keys[..i + 1]) == Elements(keys[..i]) + {keys[i]};
      sorted := Insert(sorted, keys[i]);
    }
    assert keys[..|keys|] == keys;
  }

  method Insert(sorted: seq<Bytes>, k: Bytes) returns (r: seq<Bytes>)
    requires Sorted(sorted) && k !in Elements(sorted)
    ensures Sorted(r) && Elements(r) == Elements(sorted) + {k}
  {
    var n := 0;
    while n < |sorted| && Less(sorted[n], k)
      invariant n <= |sorted|
      invariant forall i :: 0 <= i < n ==> Less(sorted[i], k)
    {
      n := n + 1;
    }
    if n < |sorted| {
      assert sorted[n] in Elements(sorted);
      LessTotal(k, sorted[n]);
      forall i | n < i < |sorted| ensures Less(k, sorted[i]) {
        LessTransitive(k, sorted[n], sorted[i]);
      }
    }
    r := sorted[..n] + [k] + sorted[n..];
    assert Elements(r) == Elements(sorted) + {k} by {
      assert forall x :: x in sorted ==> x in sorted[..n] || x in sorted[n..];
    }
  }

  lemma EncodeTwo(a: Bytes, b: Bytes)
    ensures Encode([a, b]) == Field(a) + Field(b)
  {
    assert [a, b][1..] == [b] && [b][1..] == [];
    assert Encode([b]) == Field(b) + [];
  }

  lemma EncodePair(ks: seq<Bytes>, s: Secret)
    requires ks != [] && forall k :: k in ks ==> k in s
    ensures Encode(Pairs(ks, s)) == Field(ks[0]) + (Field(s[ks[0]]) + Encode(Pairs(ks[1..], s)))
  {
    var all, rest := Pairs(ks, s), Pairs(ks[1..], s);
    assert all[1..] == [s[ks[0]]] + rest;
    assert all[1..][1..] == rest;
  }

  /** `order` is the order in which ranging over the Secret happens to yield its keys. */
  method CredentialInput(key: Bytes, s: Secret, order: seq<Bytes>) returns (input: Bytes)
    requires Elements(order) == s.Keys
    requires forall i, j :: 0 <= i < j < |order| ==> order[i] != order[j]
    ensures InputFor(key, s, input)
  {
    if key != [] {
      input := Field(key) + Field(Lookup(s, key));
      EncodeTwo(key, Lookup(s, key));
    } else {
      var keys := SortKeys(order);
      assert forall k :: k in keys ==> k in Elements(keys);
      input := [];
      for i := 0 to |keys|
        invariant input + Encode(Pairs(keys[i..], s)) == Encode(Pairs(keys, s))
      {
        var k := keys[i];
        assert keys[i..][1..] == keys[i + 1..];
        EncodePair(keys[i..], s);
        ghost var rest := Encode(Pairs(keys[i + 1..], s));
        Assoc(input, Field(k), Field(s[k]) + rest);
        Assoc(input + Field(k), Field(s[k]), rest);
        input := input + Field(k) + Field(s[k]);
      }
      assert Encode(Pairs(keys[|keys|..], s)) == [];
    }
  }
}
