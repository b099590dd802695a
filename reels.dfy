/**
 * The candidate records `find_reels_in_messages` collects, and the ordering
 * `reels.sort(key=lambda x: x.get('timestamp', 0), reverse=True)` puts them
 * in: newest first, candidates with equal timestamps in the order found
 * (Python's sort is stable, also with reverse=True).
 */
module Reels {
  import opened PyValues

  /** The `type` of a candidate: the item field it was found in. */
  datatype ShareKind = ReelShare | MediaShare | ClipShare | LinkShare

  /** One record of the `reels` list.  A verified record carries the details
      the media lookup returned (with `shortcode` from the media's `code`); an
      unverified one keeps the extracted id, media type 2 and no shortcode. */
  datatype Candidate = Candidate(
    itemId: HashKey,
    mediaId: string,
    mediaType: int,
    kind: ShareKind,
    timestamp: Value,
    verified: bool,
    shortcode: Option<string>)

  /** How Python orders a timestamp: ints (and bools, which are ints) by
      value, strings lexicographically; None and dicts compare with nothing. */
  datatype SortKey = Num(n: int) | Text(t: string) | Unordered

  function KeyOf(v: Value): SortKey {
    match v
    case Int(i) => Num(i)
    case Bool(b) => Num(if b then 1 else 0)
    case Str(s) => Text(s)
    case _ => Unordered
  }

  function Key(c: Candidate): SortKey {
    KeyOf(c.timestamp)
  }

  /** `a < b` on strings: lexicographic by code point. */
  predicate StrLess(a: string, b: string) {
    if a == [] then b != []
    else if b == [] then false
    else if a[0] != b[0] then a[0] < b[0]
    else StrLess(a[1..], b[1..])
  }

  /** `a < b` on two keys; false for keys Python cannot compare. */
  predicate KeyLess(a: SortKey, b: SortKey) {
    match (a, b)
    case (Num(x), Num(y)) => x < y
    case (Text(x), Text(y)) => StrLess(x, y)
    case _ => false
  }

  lemma {:induction false} StrLessIrreflexive(a: string)
    ensures !StrLess(a, a)
  {
    if a != [] {
      StrLessIrreflexive(a[1..]);
    }
  }

  lemma {:induction false} StrLessTransitive(a: string, b: string, c: string)
    requires StrLess(a, b) && StrLess(b, c)
    ensures StrLess(a, c)
  {
    if a != [] && a[0] == b[0] && b[0] == c[0] {
      StrLessTransitive(a[1..], b[1..], c[1..]);
    }
  }

  lemma KeyLessIrreflexive(a: SortKey)
    ensures !KeyLess(a, a)
  {
    if a.Text? {
      StrLessIrreflexive(a.t);
    }
  }

  lemma KeyLessTransitive(a: SortKey, b: SortKey, c: SortKey)
    requires KeyLess(a, b) && KeyLess(b, c)
    ensures KeyLess(a, c)
  {
    if a.Text? {
      StrLessTransitive(a.t, b.t, c.t);
    }
  }

  /** No candidate is older than one after it. */
  ghost predicate NewestFirst(s: seq<Candidate>) {
    forall i, j :: 0 <= i < j < |s| ==> !KeyLess(Key(s[i]), Key(s[j]))
  }

  /** The candidates whose timestamp compares equal to k, in list order. */
  function WithKey(s: seq<Candidate>, k: SortKey): seq<Candidate> {
    if s == [] then []
    else WithKey(s[..|s| - 1], k) + (if Key(s[|s| - 1]) == k then [s[|s| - 1]] else [])
  }

  lemma {:induction false} WithKeyConcat(a: seq<Candidate>, b: seq<Candidate>, k: SortKey)
    ensures WithKey(a + b, k) == WithKey(a, k) + WithKey(b, k)
    decreases |b|
  {
    if b != [] {
      assert (a + b)[..|a + b| - 1] == a + b[..|b| - 1];
      WithKeyConcat(a, b[..|b| - 1], k);
    } else {
      assert a + b == a;
    }
  }

  lemma {:induction false} WithKeyNone(s: seq<Candidate>, k: SortKey)
    requires forall i :: 0 <= i < |s| ==> Key(s[i]) != k
    ensures WithKey(s, k) == []
  {
    if s != [] {
      WithKeyNone(s[..|s| - 1], k);
    }
  }

  /** Puts c in front of the first candidate strictly older than it, so that
      it follows every candidate at least as new. */
  function Insert(s: seq<Candidate>, c: Candidate): seq<Candidate> {
    if s == [] then [c]
    else if KeyLess(Key(s[0]), Key(c)) then [c] + s
    else [s[0]] + Insert(s[1..], c)
  }

  lemma {:induction false} InsertPermutes(s: seq<Candidate>, c: Candidate)
    ensures multiset(Insert(s, c)) == multiset(s) + multiset{c}
  {
    if s != [] {
      assert s == [s[0]] + s[1..];
      if !KeyLess(Key(s[0]), Key(c)) {
        InsertPermutes(s[1..], c);
      }
    }
  }

  /** In a newest-first list, nothing is strictly newer than a candidate
      already newer than its head. */
  lemma NothingNewerThan(s: seq<Candidate>, c: Candidate)
    requires NewestFirst(s) && s != [] && KeyLess(Key(s[0]), Key(c))
    ensures forall j :: 0 <= j < |s| ==> !KeyLess(Key(c), Key(s[j]))
    ensures forall j :: 0 <= j < |s| ==> Key(s[j]) != Key(c)
  {
    forall j | 0 <= j < |s| ensures !KeyLess(Key(c), Key(s[j])) && Key(s[j]) != Key(c) {
      if KeyLess(Key(c), Key(s[j])) {
        KeyLessTransitive(Key(s[0]), Key(c), Key(s[j]));
        if j == 0 { KeyLessIrreflexive(Key(s[0])); }
      }
      if j == 0 { KeyLessIrreflexive(Key(s[0])); }
    }
  }

  lemma {:induction false} InsertKeepsOrder(s: seq<Candidate>, c: Candidate)
    requires NewestFirst(s)
    ensures NewestFirst(Insert(s, c))
  {
    if s == [] {
    } else if KeyLess(Key(s[0]), Key(c)) {
      NothingNewerThan(s, c);
    } else {
      NewestFirstTail(s);
      InsertKeepsOrder(s[1..], c);
      InsertPermutes(s[1..], c);
      ConsKeepsOrder(s, c, Insert(s[1..], c));
      assert Insert(s, c) == [s[0]] + Insert(s[1..], c);
    }
  }

  /** Putting the head back in front of the rest with c inserted. */
  lemma ConsKeepsOrder(s: seq<Candidate>, c: Candidate, tail: seq<Candidate>)
    requires NewestFirst(s) && s != [] && !KeyLess(Key(s[0]), Key(c))
    requires NewestFirst(tail) && multiset(tail) == multiset(s[1..]) + multiset{c}
    ensures NewestFirst([s[0]] + tail)
  {
    var r := [s[0]] + tail;
    forall j | 0 <= j < |tail| ensures !KeyLess(Key(s[0]), Key(tail[j])) {
      assert tail[j] in multiset(s[1..]) + multiset{c};
      if tail[j] != c {
        var m :| 0 <= m < |s[1..]| && s[1..][m] == tail[j];
        assert s[m + 1] == tail[j];
      }
    }
    assert forall i :: 0 < i < |r| ==> r[i] == tail[i - 1];
  }

  lemma NewestFirstTail(s: seq<Candidate>)
    requires NewestFirst(s) && s != []
    ensures NewestFirst(s[1..])
  {
    assert forall i :: 0 <= i < |s[1..]| ==> s[1..][i] == s[i + 1];
  }

  lemma {:induction false} InsertIsStable(s: seq<Candidate>, c: Candidate, k: SortKey)
    requires NewestFirst(s)
    ensures WithKey(Insert(s, c), k) == WithKey(s, k) + WithKey([c], k)
  {
    if s == [] {
      assert [] + [c] == [c];
    } else if KeyLess(Key(s[0]), Key(c)) {
      InsertInFrontIsStable(s, c, k);
    } else {
      var rest := s[1..];
      NewestFirstTail(s);
      InsertIsStable(rest, c, k);
      assert Insert(s, c) == [s[0]] + Insert(rest, c);
      WithKeyConcat([s[0]], Insert(rest, c), k);
      WithKeyConcat([s[0]], rest, k);
      assert s == [s[0]] + rest;
    }
  }

  lemma InsertInFrontIsStable(s: seq<Candidate>, c: Candidate, k: SortKey)
    requires NewestFirst(s) && s != [] && KeyLess(Key(s[0]), Key(c))
    ensures WithKey([c] + s, k) == WithKey(s, k) + WithKey([c], k)
  {
    WithKeyConcat([c], s, k);
    if Key(c) == k {
      NothingNewerThan(s, c);
      WithKeyNone(s, k);
    } else {
      WithKeyNone([c], k);
    }
  }

  /** Insertion sort: each candidate in turn goes behind everything at least
      as new as it. */
  function Sort(s: seq<Candidate>): seq<Candidate> {
    if s == [] then [] else Insert(Sort(s[..|s| - 1]), s[|s| - 1])
  }

  /** The sort orders newest first, is a permutation, and keeps candidates
      with equal timestamps in their original order. */
  lemma {:induction false} SortIsStableNewestFirst(s: seq<Candidate>)
    ensures NewestFirst(Sort(s))
    ensures multiset(Sort(s)) == multiset(s)
    ensures forall k :: WithKey(Sort(s), k) == WithKey(s, k)
  {
    if s != [] {
      var init, last := s[..|s| - 1], s[|s| - 1];
      SortIsStableNewestFirst(init);
      InsertKeepsOrder(Sort(init), last);
      InsertPermutes(Sort(init), last);
      assert s == init + [last];
      forall k ensures WithKey(Sort(s), k) == WithKey(s, k) {
        InsertIsStable(Sort(init), last, k);
        WithKeyConcat(init, [last], k);
      }
    }
  }

  /** Every timestamp an int (or bool), or every timestamp a string. */
  predicate Comparable(s: seq<Candidate>) {
    (forall i :: 0 <= i < |s| ==> Key(s[i]).Num?) || (forall i :: 0 <= i < |s| ==> Key(s[i]).Text?)
  }

  /** `reels.sort(key=..., reverse=True)`.  With two or more candidates every
      element takes part in a comparison and the two neighbours of the sorted
      order are compared directly, so any timestamp that compares with nothing,
      or a mix of numbers and strings, raises a TypeError. */
  function SortNewestFirst(s: seq<Candidate>): (r: Outcome<seq<Candidate>>)
    ensures r.Raised? <==> |s| >= 2 && !Comparable(s)
    ensures r.Ok? ==> NewestFirst(r.value) && multiset(r.value) == multiset(s)
    ensures r.Ok? ==> forall k :: WithKey(r.value, k) == WithKey(s, k)
  {
    SortIsStableNewestFirst(s);
    if |s| >= 2 && !Comparable(s) then Raised else Ok(Sort(s))
  }

  /** With integer timestamps the sorted list is non-increasing, and equal
      timestamps keep the order in which the candidates were found. */
  lemma {:induction false} IntTimestampsNonIncreasing(s: seq<Candidate>)
    requires SortNewestFirst(s).Ok?
    requires forall i :: 0 <= i < |s| ==> Key(s[i]).Num?
    ensures forall i, j :: 0 <= i < j < |SortNewestFirst(s).value| ==>
      SortedPairByNumber(SortNewestFirst(s).value[i], SortNewestFirst(s).value[j])
  {
    var r := SortNewestFirst(s).value;
    forall i | 0 <= i < |r| ensures Key(r[i]).Num? {
      assert r[i] in multiset(s);
      var m :| 0 <= m < |s| && s[m] == r[i];
    }
  }

  /** Both timestamps are numbers and the first is not the older one. */
  predicate SortedPairByNumber(a: Candidate, b: Candidate) {
    Key(a).Num? && Key(b).Num? && Key(a).n >= Key(b).n
  }
}
