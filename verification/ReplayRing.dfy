/**
 The tee's replay ring (harness/internal/tee/tee.go): the harness's own status frames, kept
 for viewers that attach later.  The two parallel slices updated in place refine a simple
 description of the whole emission history.
 */
module ReplayRing {
  import opened Common

  const REPLAY_CAP := 32

  datatype Entry<F> = Entry(key: string, frame: F)

  /** A later frame with the same non-empty key makes a frame obsolete. */
  ghost predicate Superseded<F>(h: seq<Entry<F>>, i: nat)
    requires i < |h|
  {
    h[i].key != "" && exists j :: i < j < |h| && h[j].key == h[i].key
  }

  /** The history without superseded frames, in emission order. */
  ghost function Live<F>(h: seq<Entry<F>>): seq<Entry<F>> {
    if h == [] then []
    else if Superseded(h, 0) then Live(h[1..]) else [h[0]] + Live(h[1..])
  }

  ghost function Last<T>(n: nat, s: seq<T>): seq<T> {
    if |s| <= n then s else s[|s| - n..]
  }

  /** What a late viewer should be shown. */
  ghost function Ring<F>(h: seq<Entry<F>>): seq<Entry<F>> {
    Last(REPLAY_CAP, Live(h))
  }

  // ---------------------------------------------------------------- one emission

  /** Drop the first entry carrying a key. */
  ghost function Without<F>(s: seq<Entry<F>>, key: string): seq<Entry<F>> {
    if s == [] then [] else if s[0].key == key then s[1..] else [s[0]] + Without(s[1..], key)
  }

  ghost function Appended<F>(s: seq<Entry<F>>, e: Entry<F>): seq<Entry<F>> {
    (if e.key == "" then s else Without(s, e.key)) + [e]
  }

  ghost predicate KeysUnique<F>(s: seq<Entry<F>>) {
    forall i, j :: 0 <= i < j < |s| && s[i].key == s[j].key ==> s[i].key == ""
  }

  lemma {:induction false} LiveMembers<F>(h: seq<Entry<F>>)
    ensures forall e :: e in Live(h) ==> e in h
    ensures KeysUnique(Live(h))
  {
    if h != [] {
      LiveMembers(h[1..]);
      if !Superseded(h, 0) {
        var l := Live(h[1..]);
        forall j | 0 < j < |Live(h)| && Live(h)[0].key == Live(h)[j].key ensures h[0].key == "" {
          assert l[j - 1] in h[1..];
          var m :| 0 <= m < |h[1..]| && h[1..][m] == l[j - 1];
          assert h[m + 1].key == h[0].key;
        }
      }
    }
  }

  lemma WithoutAbsent<F>(s: seq<Entry<F>>, key: string)
    requires forall e :: e in s ==> e.key != key
    ensures Without(s, key) == s
  {
  }

  /** Emitting one more frame appends it to the live history, dropping what it supersedes. */
  lemma {:induction false} LiveSnoc<F>(h: seq<Entry<F>>, e: Entry<F>)
    ensures Live(h + [e]) == Appended(Live(h), e)
  {
    var g := h + [e];
    if h == [] {
      assert g[1..] == [];
      assert !Superseded(g, 0);
    } else {
      assert g[1..] == h[1..] + [e];
      LiveSnoc(h[1..], e);
      assert g[0] == h[0] && g[|h|] == e;
      if Superseded(h, 0) {
        var j :| 0 < j < |h| && h[j].key == h[0].key;
        assert g[j].key == g[0].key;
      } else if h[0].key != "" && h[0].key == e.key {
        assert Superseded(g, 0);
        LiveMembers(h[1..]);
        forall x | x in Live(h[1..]) ensures x.key != e.key {
          var m :| 0 <= m < |h[1..]| && h[1..][m] == x;
          assert h[m + 1] == x;
        }
        WithoutAbsent(Live(h[1..]), e.key);
      } else {
        assert !Superseded(g, 0);
        if e.key != "" {
          assert Without([h[0]] + Live(h[1..]), e.key) == [h[0]] + Without(Live(h[1..]), e.key) by {
            assert ([h[0]] + Live(h[1..]))[1..] == Live(h[1..]);
          }
        }
        assert Appended(Live(h), e) == [h[0]] + Appended(Live(h[1..]), e);
      }
    }
  }

  /** Removing a key position by position. */
  lemma {:induction false} WithoutAt<F>(s: seq<Entry<F>>, key: string, i: nat)
    requires i < |s| && s[i].key == key && forall j :: 0 <= j < i ==> s[j].key != key
    ensures Without(s, key) == s[..i] + s[i + 1..]
  {
    if i > 0 {
      WithoutAt(s[1..], key, i - 1);
      assert s[..i] == [s[0]] + s[1..][..i - 1];
      assert s[1..][i..] == s[i + 1..];
    }
  }

  lemma {:induction false} LastOfConcat<T>(n: nat, a: seq<T>, b: seq<T>)
    requires |b| >= n || a == []
    ensures Last(n, a + b) == Last(n, b)
  {
    assert a == [] ==> a + b == b;
  }

  lemma TailSplits<T>(s: seq<T>, d: nat)
    requires 0 < d <= |s|
    ensures s[1..] == s[1..d] + s[d..]
  {
  }

  /** Dropping a key from a history drops it from any suffix of it, or leaves the suffix alone. */
  lemma {:induction false} WithoutSuffix<F>(s: seq<Entry<F>>, key: string, d: nat) returns (front: seq<Entry<F>>)
    requires KeysUnique(s) && key != "" && d <= |s|
    ensures Without(s, key) == front + Without(s[d..], key)
    ensures d == 0 ==> front == []
    ensures |Without(s[d..], key)| >= |s| - d - 1
    decreases d
  {
    WithoutLength(s[d..], key);
    if d == 0 {
      front := [];
      assert s[0..] == s;
    } else if s[0].key == key {
      forall x | x in s[d..] ensures x.key != key {
        var j :| 0 <= j < |s[d..]| && s[d..][j] == x;
        assert s[j + d] == x;
      }
      WithoutAbsent(s[d..], key);
      front := s[1..d];
      TailSplits(s, d);
    } else {
      forall i, j | 0 <= i < j < |s[1..]| && s[1..][i].key == s[1..][j].key ensures s[1..][i].key == "" {
        assert s[i + 1].key == s[j + 1].key;
      }
      var rest := WithoutSuffix(s[1..], key, d - 1);
      assert s[1..][d - 1..] == s[d..];
      front := [s[0]] + rest;
      Assoc([s[0]], rest, Without(s[d..], key));
    }
  }

  lemma {:induction false} WithoutLength<F>(s: seq<Entry<F>>, key: string)
    ensures |s| - 1 <= |Without(s, key)| <= |s|
  {
    if s != [] && s[0].key != key {
      WithoutLength(s[1..], key);
    }
  }

  /** What is old enough to be cut off does not matter. */
  lemma LastAppended<T>(n: nat, front: seq<T>, kept: seq<T>, e: T)
    requires n <= |kept| + 1
    ensures Last(n, (front + kept) + [e]) == Last(n, kept + [e])
  {
    Assoc(front, kept, [e]);
    LastOfConcat(n, front, kept + [e]);
  }

  /** Trimming to the last frames before or after an emission makes no difference. */
  lemma {:induction false} TrimmedAppend<F>(s: seq<Entry<F>>, e: Entry<F>, n: nat)
    requires KeysUnique(s) && n > 0
    ensures Last(n, Appended(Last(n, s), e)) == Last(n, Appended(s, e))
  {
    if |s| > n {
      TrimmedLong(s, e, n);
    }
  }

  lemma TrimmedLong<F>(s: seq<Entry<F>>, e: Entry<F>, n: nat)
    requires KeysUnique(s) && 0 < n < |s|
    ensures Last(n, Appended(s[|s| - n..], e)) == Last(n, Appended(s, e))
  {
    var d := |s| - n;
    if e.key == "" {
      assert s[..d] + s[d..] == s;
      LastAppended(n, s[..d], s[d..], e);
    } else {
      var front := WithoutSuffix(s, e.key, d);
      LastAppended(n, front, Without(s[d..], e.key), e);
    }
  }

  lemma RingSnoc<F>(h: seq<Entry<F>>, e: Entry<F>)
    ensures Ring(h + [e]) == Last(REPLAY_CAP, Appended(Ring(h), e))
  {
    LiveSnoc(h, e);
    LiveMembers(h);
    TrimmedAppend(Live(h), e, REPLAY_CAP);
  }

  // ---------------------------------------------------------------- the buffer itself

  /** The two parallel slices, read as one sequence of entries. */
  ghost function Zip<F>(keys: seq<string>, frames: seq<F>): (r: seq<Entry<F>>)
    requires |keys| == |frames|
    ensures |r| == |keys| && forall i :: 0 <= i < |r| ==> r[i] == Entry(keys[i], frames[i])
  {
    seq(|keys|, i requires 0 <= i < |keys| == |frames| => Entry(keys[i], frames[i]))
  }

  lemma ZipCut<F>(keys: seq<string>, frames: seq<F>, i: nat)
    requires |keys| == |frames| && i < |keys|
    ensures Zip(keys[..i] + keys[i + 1..], frames[..i] + frames[i + 1..]) == Zip(keys, frames)[..i] + Zip(keys, frames)[i + 1..]
  {
  }

  lemma ZipSnocLast<F>(keys: seq<string>, frames: seq<F>, key: string, frame: F, n: nat)
    requires |keys| == |frames|
    ensures Zip(Last(n, keys + [key]), Last(n, frames + [frame])) == Last(n, Zip(keys, frames) + [Entry(key, frame)])
  {
  }

  lemma EmitRefines<F>(h: seq<Entry<F>>, e: Entry<F>, keys: seq<string>, frames: seq<F>)
    requires |keys| == |frames|
    requires Zip(keys, frames) == if e.key == "" then Ring(h) else Without(Ring(h), e.key)
    ensures Zip(Last(REPLAY_CAP, keys + [e.key]), Last(REPLAY_CAP, frames + [e.frame])) == Ring(h + [e])
  {
    ZipSnocLast(keys, frames, e.key, e.frame, REPLAY_CAP);
    RingSnoc(h, e);
  }

  class ReplayBuffer<F> {
    var replay: seq<F>
    var replayKeys: seq<string>

    ghost predicate Valid()
      reads this
    {
      |replay| == |replayKeys|
    }

    ghost function Entries(): seq<Entry<F>>
      reads this
      requires Valid()
    {
      Zip(replayKeys, replay)
    }

    constructor ()
      ensures Valid() && Entries() == Ring<F>([])
    {
      replay, replayKeys := [], [];
    }

    /** emitRunFrame's critical section; `history` is every emission so far. */
    method Emit(frame: F, key: string, ghost history: seq<Entry<F>>)
      requires Valid() && Entries() == Ring(history)
      modifies this
      ensures Valid() && Entries() == Ring(history + [Entry(key, frame)])
    {
      if key != "" { DropKey(key); }
      EmitRefines(history, Entry(key, frame), replayKeys, replay);
      Push(frame, key);
    }

    /** Append to both slices, and trim both. */
    method Push(frame: F, key: string)
      requires Valid()
      modifies this
      ensures replay == Last(REPLAY_CAP, old(replay) + [frame])
      ensures replayKeys == Last(REPLAY_CAP, old(replayKeys) + [key])
    {
      replay := replay + [frame];
      replayKeys := replayKeys + [key];
      if |replay| > REPLAY_CAP {
        replay := replay[|replay| - REPLAY_CAP..];
        replayKeys := replayKeys[|replayKeys| - REPLAY_CAP..];
      }
    }

    /** Remove the frame this key supersedes, if the ring holds one. */
    method DropKey(key: string)
      requires Valid()
      modifies this
      ensures Valid() && Entries() == Without(old(Entries()), key)
    {
      for i := 0 to |replayKeys|
        invariant replay == old(replay) && replayKeys == old(replayKeys)
        invariant forall j :: 0 <= j < i ==> replayKeys[j] != key
      {
        if replayKeys[i] == key {
          WithoutAt(Entries(), key, i);
          ZipCut(replayKeys, replay, i);
          replay := replay[..i] + replay[i + 1..];
          replayKeys := replayKeys[..i] + replayKeys[i + 1..];
          return;
        }
      }
      WithoutAbsent(Entries(), key);
    }
  }

  // ---------------------------------------------------------------- what a late viewer misses

  ghost function Unkeyed<F>(h: seq<Entry<F>>): seq<Entry<F>> {
    if h == [] then [] else (if h[0].key == "" then [h[0]] else []) + Unkeyed(h[1..])
  }

  lemma {:induction false} LiveKeepsUnkeyed<F>(h: seq<Entry<F>>)
    ensures Unkeyed(Live(h)) == Unkeyed(h)
  {
    if h != [] {
      var l := Live(h[1..]);
      LiveKeepsUnkeyed(h[1..]);
      if !Superseded(h, 0) {
        UnkeyedAppend([h[0]], l);
        UnkeyedAppend([h[0]], h[1..]);
        assert h == [h[0]] + h[1..];
      }
    }
  }

  lemma {:induction false} UnkeyedAppend<F>(a: seq<Entry<F>>, b: seq<Entry<F>>)
    ensures Unkeyed(a + b) == Unkeyed(a) + Unkeyed(b)
  {
    if a == [] {
      assert a + b == b;
    } else {
      assert (a + b)[1..] == a[1..] + b;
      UnkeyedAppend(a[1..], b);
    }
  }

  /** With one key in use, a run of live entries holds at most one keyed frame. */
  lemma {:induction false} OneKeyed<F>(s: seq<Entry<F>>, key: string)
    requires KeysUnique(s) && forall i :: 0 <= i < |s| ==> s[i].key in {"", key}
    ensures |s| - 1 <= |Unkeyed(s)| <= |s|
    ensures (forall i :: 0 <= i < |s| ==> s[i].key == "") ==> |Unkeyed(s)| == |s|
  {
    if s != [] {
      var t := s[1..];
      assert forall i :: 0 <= i < |t| ==> t[i] == s[i + 1];
      OneKeyed(t, key);
      if s[0].key != "" {
        forall i | 0 <= i < |t| ensures t[i].key == "" {
          assert s[i + 1].key in {"", key};
        }
      }
    }
  }

  /** Re-emitting the plan, however often, never costs a late viewer any of the last 31 other frames. */
  lemma PlanNeverEvicts<F>(h: seq<Entry<F>>, plan: string)
    requires forall e :: e in h ==> e.key in {"", plan}
    ensures IsSuffix(Last(REPLAY_CAP - 1, Unkeyed(h)), Unkeyed(Ring(h)))
  {
    var l, r := Live(h), Ring(h);
    LiveMembers(h);
    LiveKeepsUnkeyed(h);
    var front := l[..|l| - |r|];
    assert l == front + r;
    UnkeyedAppend(front, r);
    RingUnkeyed(h, plan);
    SuffixOfConcat(REPLAY_CAP - 1, Unkeyed(front), Unkeyed(r));
  }

  ghost predicate IsSuffix<T>(a: seq<T>, b: seq<T>) {
    |a| <= |b| && b[|b| - |a|..] == a
  }

  lemma SuffixOfConcat<T>(n: nat, a: seq<T>, b: seq<T>)
    requires |b| >= n || a == []
    ensures IsSuffix(Last(n, a + b), b)
  {
    LastOfConcat(n, a, b);
  }

  /** A ring holds at most one keyed frame, so a full one holds at least 31 unkeyed frames. */
  lemma RingUnkeyed<F>(h: seq<Entry<F>>, plan: string)
    requires forall e :: e in h ==> e.key in {"", plan}
    ensures |Unkeyed(Ring(h))| >= |Ring(h)| - 1
    ensures |Ring(h)| == REPLAY_CAP ==> |Unkeyed(Ring(h))| >= REPLAY_CAP - 1
  {
    var l, r := Live(h), Ring(h);
    LiveMembers(h);
    forall i, j | 0 <= i < j < |r| && r[i].key == r[j].key ensures r[i].key == "" {
      var d := |l| - |r|;
      assert l[i + d] == r[i] && l[j + d] == r[j];
    }
    forall i | 0 <= i < |r| ensures r[i].key in {"", plan} {
      assert l[i + (|l| - |r|)] == r[i];
    }
    OneKeyed(r, plan);
  }
}
