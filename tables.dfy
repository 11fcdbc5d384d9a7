/**
 * In-memory document collections: a collection is a sequence of records in
 * insertion order. These are the store-side helpers the route handlers'
 * queries (`find`, `findById`, `findOne`, `deleteMany`) are modelled with.
 */
module Tables {
  import opened Wrappers

  /** The records that `keep` accepts, in their original order. */
  function Filter<T>(s: seq<T>, keep: T -> bool): (r: seq<T>)
    ensures |r| <= |s|
    ensures forall k :: 0 <= k < |r| ==> r[k] in s && keep(r[k])
    ensures forall k :: 0 <= k < |s| && keep(s[k]) ==> s[k] in r
    decreases |s|
  {
    if s == [] then []
    else Filter(s[..|s| - 1], keep) + (if keep(s[|s| - 1]) then [s[|s| - 1]] else [])
  }

  /** Filtering a concatenation filters each part. */
  lemma {:induction false} FilterConcat<T>(a: seq<T>, b: seq<T>, keep: T -> bool)
    ensures Filter(a + b, keep) == Filter(a, keep) + Filter(b, keep)
    decreases |b|
  {
    if b == [] {
      assert a + b == a;
    } else {
      var b' := b[..|b| - 1];
      assert (a + b)[..|a + b| - 1] == a + b';
      assert (a + b)[|a + b| - 1] == b[|b| - 1];
      FilterConcat(a, b', keep);
    }
  }

  /** Filtering one more record at the end. */
  lemma {:induction false} FilterSnoc<T>(s: seq<T>, x: T, keep: T -> bool)
    ensures Filter(s + [x], keep) == Filter(s, keep) + (if keep(x) then [x] else [])
  {
    assert (s + [x])[..|s|] == s;
  }

  /** A filter that accepts every record keeps the whole sequence. */
  lemma {:induction false} FilterKeepsAll<T>(s: seq<T>, keep: T -> bool)
    requires forall k :: 0 <= k < |s| ==> keep(s[k])
    ensures Filter(s, keep) == s
    decreases |s|
  {
    if s != [] {
      FilterKeepsAll(s[..|s| - 1], keep);
    }
  }

  /** A slice whose every record is accepted survives filtering whole. */
  lemma {:induction false} FilterKeepsSlice<T>(s: seq<T>, keep: T -> bool, lo: nat, hi: nat)
    requires lo <= hi <= |s|
    requires forall k :: lo <= k < hi ==> keep(s[k])
    ensures Filter(s[lo..hi], keep) == s[lo..hi]
  {
    var t := s[lo..hi];
    assert forall k :: 0 <= k < |t| ==> t[k] == s[lo + k];
    FilterKeepsAll(t, keep);
  }

  /** Removing the one record at position `i` is filtering, when `keep`
      refuses that record and accepts every other. */
  lemma {:induction false} RemoveAtIsFilter<T>(s: seq<T>, keep: T -> bool, i: nat)
    requires i < |s| && !keep(s[i])
    requires forall k :: 0 <= k < |s| && k != i ==> keep(s[k])
    ensures Filter(s, keep) == s[..i] + s[i + 1..]
  {
    var before, after := s[..i], s[i + 1..];
    var left := before + [s[i]];
    assert s == left + after;
    FilterConcat(left, after, keep);
    FilterSnoc(before, s[i], keep);
    assert Filter(left, keep) == Filter(before, keep);
    FilterKeepsSlice(s, keep, 0, i);
    assert s[0..i] == before;
    FilterKeepsSlice(s, keep, i + 1, |s|);
    assert s[i + 1..|s|] == after;
  }

  /** The records' keys strictly increase along the sequence, as generated ids
      do in insertion order. */
  predicate KeysAscending<T>(s: seq<T>, key: T -> int) {
    forall i, j :: 0 <= i < j < |s| ==> key(s[i]) < key(s[j])
  }

  predicate KeysDescending<T>(s: seq<T>, key: T -> int) {
    forall i, j :: 0 <= i < j < |s| ==> key(s[i]) > key(s[j])
  }

  /** Every key is below `bound`, the next one to be generated. */
  predicate KeysBelow<T>(s: seq<T>, key: T -> int, bound: int) {
    forall k :: 0 <= k < |s| ==> key(s[k]) < bound
  }

  /** Ascending keys are unique: no other record has the key of the one at `i`. */
  lemma {:induction false} AscendingKeysUnique<T>(s: seq<T>, key: T -> int, i: nat)
    requires KeysAscending(s, key) && i < |s|
    ensures forall k :: 0 <= k < |s| && k != i ==> key(s[k]) != key(s[i])
  {
    forall k | 0 <= k < |s| && k != i ensures key(s[k]) != key(s[i]) {
      if k < i { assert key(s[k]) < key(s[i]); } else { assert key(s[i]) < key(s[k]); }
    }
  }

  /** A selection of records keeps their key order. */
  lemma {:induction false} FilterKeepsKeysAscending<T>(s: seq<T>, keep: T -> bool, key: T -> int)
    ensures KeysAscending(s, key) ==> KeysAscending(Filter(s, keep), key)
    decreases |s|
  {
    if s != [] && KeysAscending(s, key) {
      var init := s[..|s| - 1];
      assert KeysAscending(init, key);
      FilterKeepsKeysAscending(init, keep, key);
      var f := Filter(init, keep);
      forall k | 0 <= k < |f| ensures key(f[k]) < key(s[|s| - 1]) {
        var m :| 0 <= m < |init| && init[m] == f[k];
      }
    }
  }

  /** A selection of records keeps every key below the bound. */
  lemma {:induction false} FilterKeepsKeysBelow<T>(s: seq<T>, keep: T -> bool, key: T -> int, bound: int)
    requires KeysBelow(s, key, bound)
    ensures KeysBelow(Filter(s, keep), key, bound)
  {
    var f := Filter(s, keep);
    forall k | 0 <= k < |f| ensures key(f[k]) < bound {
      var m :| 0 <= m < |s| && s[m] == f[k];
    }
  }

  /** The sequence in the opposite order. */
  function Reverse<T>(s: seq<T>): (r: seq<T>)
    ensures |r| == |s|
    ensures forall k :: 0 <= k < |s| ==> r[k] == s[|s| - 1 - k]
    decreases |s|
  {
    if s == [] then [] else [s[|s| - 1]] + Reverse(s[..|s| - 1])
  }

  /** Reversed, ascending keys descend. */
  lemma {:induction false} ReverseOfAscending<T>(s: seq<T>, key: T -> int)
    ensures KeysAscending(s, key) ==> KeysDescending(Reverse(s), key)
  {
  }

  /** Reversing keeps exactly the same records. */
  lemma {:induction false} ReverseKeepsMembers<T>(s: seq<T>)
    ensures forall k :: 0 <= k < |Reverse(s)| ==> Reverse(s)[k] in s
    ensures forall k :: 0 <= k < |s| ==> s[k] in Reverse(s)
  {
    var r := Reverse(s);
    forall k | 0 <= k < |s| ensures s[k] in r && r[k] in s {
      assert r[|s| - 1 - k] == s[k];
      assert r[k] == s[|s| - 1 - k];
    }
  }

  /** Reversing a sequence with one more record at the end puts it first. */
  lemma {:induction false} ReverseSnoc<T>(s: seq<T>, x: T)
    ensures Reverse(s + [x]) == [x] + Reverse(s)
  {
    var l := Reverse(s + [x]);
    var r := [x] + Reverse(s);
    assert forall k :: 1 <= k < |r| ==> l[k] == (s + [x])[|s| - k] == s[|s| - k] == r[k];
  }

  /** The first record that `p` accepts, as `findOne` and `findById` return it. */
  function FindFirst<T>(s: seq<T>, p: T -> bool): (r: Option<T>)
    ensures r.None? <==> forall k :: 0 <= k < |s| ==> !p(s[k])
    ensures r.Some? ==> r.value in s && p(r.value)
    decreases |s|
  {
    if s == [] then None else if p(s[0]) then Some(s[0]) else FindFirst(s[1..], p)
  }

  /** FindFirst gives the record at the first position `p` accepts. */
  lemma {:induction false} FindFirstAt<T>(s: seq<T>, p: T -> bool, i: nat)
    requires i < |s| && p(s[i])
    requires forall k :: 0 <= k < i ==> !p(s[k])
    ensures FindFirst(s, p) == Some(s[i])
    decreases i
  {
    if i > 0 {
      FindFirstAt(s[1..], p, i - 1);
    }
  }

  /** Scans `s` for the first record `p` accepts; -1 when there is none. */
  method IndexWhere<T>(s: seq<T>, p: T -> bool) returns (i: int)
    ensures -1 <= i < |s|
    ensures 0 <= i ==> p(s[i]) && FindFirst(s, p) == Some(s[i])
    ensures 0 <= i ==> forall k :: 0 <= k < i ==> !p(s[k])
    ensures i == -1 ==> FindFirst(s, p) == None
  {
    i := 0;
    while i < |s|
      invariant 0 <= i <= |s|
      invariant forall k :: 0 <= k < i ==> !p(s[k])
    {
      if p(s[i]) {
        FindFirstAt(s, p, i);
        return;
      }
      i := i + 1;
    }
    i := -1;
  }
}
