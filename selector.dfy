/** The candidate selector of the driver (peregrine/run.py, lines 79-86):
    keep the acquisition results whose status is 'A', then order them by
    signal-to-noise ratio, highest first, with a stable sort. */
module Selector {
  import opened Wrappers

  /** One acquisition result: a searched satellite, its acquisition status
      character ('A' when acquired), its SNR and its coarse estimates. */
  datatype AcqResult = AcqResult(
    prn: int,
    status: char,
    snr: real,
    carrierFreq: real,
    codePhase: real)

  predicate IsAcquired(r: AcqResult) {
    r.status == 'A'
  }

  /** `a` is obtained from `b` by deleting elements, keeping the order. */
  predicate IsSubsequence(a: seq<AcqResult>, b: seq<AcqResult>)
    decreases |b|
  {
    if a == [] then true
    else if b == [] then false
    else (a[0] == b[0] && IsSubsequence(a[1..], b[1..])) || IsSubsequence(a, b[1..])
  }

  /** The list comprehension that drops every result not acquired. */
  function FilterAcquired(rs: seq<AcqResult>): (r: seq<AcqResult>)
    ensures |r| <= |rs|
    ensures forall i :: 0 <= i < |r| ==> IsAcquired(r[i])
    ensures forall x :: x in r <==> x in rs && IsAcquired(x)
    ensures r == [] <==> forall i :: 0 <= i < |rs| ==> !IsAcquired(rs[i])
  {
    if rs == [] then []
    else if IsAcquired(rs[0]) then [rs[0]] + FilterAcquired(rs[1..])
    else FilterAcquired(rs[1..])
  }

  /** The filter keeps every acquired entry as many times as it occurs in
      the input, and no other entry. */
  lemma {:induction false} FilterCounts(rs: seq<AcqResult>)
    ensures forall x :: multiset(FilterAcquired(rs))[x] == if IsAcquired(x) then multiset(rs)[x] else 0
  {
    if rs != [] {
      FilterCounts(rs[1..]);
      assert rs == [rs[0]] + rs[1..];
    }
  }

  lemma {:induction false} FilterIsSubsequence(rs: seq<AcqResult>)
    ensures IsSubsequence(FilterAcquired(rs), rs)
  {
    if rs != [] {
      FilterIsSubsequence(rs[1..]);
      var f := FilterAcquired(rs[1..]);
      if IsAcquired(rs[0]) {
        assert FilterAcquired(rs) == [rs[0]] + f;
        assert ([rs[0]] + f)[1..] == f;
      } else if f != [] {
        assert FilterAcquired(rs) == f;
      }
    }
  }

  /** Every element of the list is acquired exactly when filtering leaves it
      unchanged. */
  lemma {:induction false} FilterKeepsAcquiredOnly(rs: seq<AcqResult>)
    ensures FilterAcquired(rs) == rs <==> forall i :: 0 <= i < |rs| ==> IsAcquired(rs[i])
  {
    if rs != [] {
      FilterKeepsAcquiredOnly(rs[1..]);
      var f := FilterAcquired(rs[1..]);
      if !IsAcquired(rs[0]) {
        assert FilterAcquired(rs) == f;
        assert |f| < |rs|;
      } else {
        assert FilterAcquired(rs) == [rs[0]] + f;
        assert ([rs[0]] + f)[1..] == f;
        assert rs == [rs[0]] + rs[1..];
        assert (forall i :: 0 <= i < |rs| ==> IsAcquired(rs[i])) <==>
               (forall i :: 0 <= i < |rs[1..]| ==> IsAcquired(rs[1..][i]));
      }
    }
  }

  /** Non-increasing SNR from front to back. */
  predicate SortedBySnr(s: seq<AcqResult>) {
    forall i, j :: 0 <= i < j < |s| ==> s[i].snr >= s[j].snr
  }

  /** The entries of `s` whose SNR equals `k`, in their order in `s`. Two
      arrangements of the same entries agree in relative order of equal-SNR
      entries exactly when this agrees for every `k`. */
  function WithSnr(s: seq<AcqResult>, k: real): seq<AcqResult> {
    if s == [] then []
    else if s[0].snr == k then [s[0]] + WithSnr(s[1..], k)
    else WithSnr(s[1..], k)
  }

  /** Places `x` in front of the first entry whose SNR does not exceed its
      own, so that `x` precedes the entries of equal SNR already in `s`. */
  function InsertBySnr(x: AcqResult, s: seq<AcqResult>): (r: seq<AcqResult>)
    ensures multiset(r) == multiset(s) + multiset{x}
  {
    if s == [] then [x]
    else if s[0].snr > x.snr then
      assert s == [s[0]] + s[1..];
      [s[0]] + InsertBySnr(x, s[1..])
    else [x] + s
  }

  /** Stable sort by SNR, highest first: `list.sort(key=snr, reverse=True)`. */
  function SortBySnr(s: seq<AcqResult>): (r: seq<AcqResult>)
    ensures multiset(r) == multiset(s)
    ensures SortedBySnr(r)
  {
    if s == [] then []
    else
      assert s == [s[0]] + s[1..];
      InsertKeepsSorted(s[0], SortBySnr(s[1..]));
      InsertBySnr(s[0], SortBySnr(s[1..]))
  }

  /** Prepending an entry whose SNR bounds the rest keeps the order. */
  lemma ConsSorted(y: AcqResult, t: seq<AcqResult>)
    requires SortedBySnr(t)
    requires forall j :: 0 <= j < |t| ==> t[j].snr <= y.snr
    ensures SortedBySnr([y] + t)
  {
    var r := [y] + t;
    forall i, j | 0 <= i < j < |r|
      ensures r[i].snr >= r[j].snr
    {
      assert r[j] == t[j - 1];
      if i > 0 {
        assert r[i] == t[i - 1];
      }
    }
  }

  /** An insertion holds only `x` and entries of `s`, so a bound on their
      SNR bounds its own. */
  lemma InsertBounded(x: AcqResult, s: seq<AcqResult>, b: real)
    requires x.snr <= b
    requires forall i :: 0 <= i < |s| ==> s[i].snr <= b
    ensures forall j :: 0 <= j < |InsertBySnr(x, s)| ==> InsertBySnr(x, s)[j].snr <= b
  {
    var t := InsertBySnr(x, s);
    forall j | 0 <= j < |t|
      ensures t[j].snr <= b
    {
      assert t[j] in multiset(t);
      if t[j] != x {
        assert t[j] in multiset(s);
      }
    }
  }

  lemma {:induction false} InsertKeepsSorted(x: AcqResult, s: seq<AcqResult>)
    requires SortedBySnr(s)
    ensures SortedBySnr(InsertBySnr(x, s))
  {
    if s == [] {
    } else if s[0].snr > x.snr {
      var t := InsertBySnr(x, s[1..]);
      assert InsertBySnr(x, s) == [s[0]] + t;
      InsertKeepsSorted(x, s[1..]);
      assert forall i :: 0 <= i < |s[1..]| ==> s[1..][i].snr <= s[0].snr by {
        forall i | 0 <= i < |s[1..]|
          ensures s[1..][i].snr <= s[0].snr
        {
          assert s[1..][i] == s[i + 1];
        }
      }
      InsertBounded(x, s[1..], s[0].snr);
      ConsSorted(s[0], t);
    } else {
      ConsSorted(x, s);
    }
  }

  lemma WithSnrCons(y: AcqResult, t: seq<AcqResult>, k: real)
    ensures y.snr == k ==> WithSnr([y] + t, k) == [y] + WithSnr(t, k)
    ensures y.snr != k ==> WithSnr([y] + t, k) == WithSnr(t, k)
  {
    assert ([y] + t)[1..] == t;
  }

  /** Inserting `x` adds it in front of the entries of its own SNR and
      changes nothing for other SNR values. */
  lemma {:induction false} InsertStable(x: AcqResult, s: seq<AcqResult>, k: real)
    ensures x.snr == k ==> WithSnr(InsertBySnr(x, s), k) == [x] + WithSnr(s, k)
    ensures x.snr != k ==> WithSnr(InsertBySnr(x, s), k) == WithSnr(s, k)
    decreases |s|, 1
  {
    if s == [] {
      WithSnrCons(x, [], k);
    } else if s[0].snr > x.snr {
      InsertStableSkip(x, s, k);
    } else {
      WithSnrCons(x, s, k);
    }
  }

  /** The step of `InsertStable` where `x` goes past the head of `s`. */
  lemma {:induction false} InsertStableSkip(x: AcqResult, s: seq<AcqResult>, k: real)
    requires s != [] && s[0].snr > x.snr
    ensures x.snr == k ==> WithSnr(InsertBySnr(x, s), k) == [x] + WithSnr(s, k)
    ensures x.snr != k ==> WithSnr(InsertBySnr(x, s), k) == WithSnr(s, k)
    decreases |s|, 0
  {
    var t := InsertBySnr(x, s[1..]);
    assert InsertBySnr(x, s) == [s[0]] + t;
    InsertStable(x, s[1..], k);
    WithSnrCons(s[0], t, k);
    assert s == [s[0]] + s[1..];
    WithSnrCons(s[0], s[1..], k);
  }

  /** The sort is stable: for every SNR value, the entries carrying it keep
      their relative order. */
  lemma {:induction false} SortStable(s: seq<AcqResult>, k: real)
    ensures WithSnr(SortBySnr(s), k) == WithSnr(s, k)
  {
    if s != [] {
      SortStable(s[1..], k);
      InsertStable(s[0], SortBySnr(s[1..]), k);
    }
  }

  /** Two sorted arrangements of the same entries start with the same SNR. */
  lemma SameLeadingSnr(a: seq<AcqResult>, b: seq<AcqResult>)
    requires multiset(a) == multiset(b) && a != []
    requires SortedBySnr(a) && SortedBySnr(b)
    ensures b != [] && a[0].snr == b[0].snr
  {
    assert a[0] in multiset(b);
    var i :| 0 <= i < |b| && b[i] == a[0];
    assert b[0] in multiset(a);
    var j :| 0 <= j < |a| && a[j] == b[0];
  }

  /** Dropping the head of an arrangement removes it from `WithSnr` of its
      own SNR and changes nothing for other values. */
  lemma WithSnrTail(a: seq<AcqResult>, k: real)
    requires a != []
    ensures WithSnr(a[1..], k) == if a[0].snr == k then WithSnr(a, k)[1..] else WithSnr(a, k)
  {
  }

  /** Dropping the head removes one copy of it from the multiset. */
  lemma TailMultiset(a: seq<AcqResult>)
    requires a != []
    ensures multiset(a[1..]) == multiset(a) - multiset{a[0]}
  {
    assert a == [a[0]] + a[1..];
    assert multiset(a) == multiset{a[0]} + multiset(a[1..]);
  }

  /** Two sorted arrangements of the same entries that agree on `WithSnr`
      start with the same entry. */
  lemma SameHead(a: seq<AcqResult>, b: seq<AcqResult>)
    requires multiset(a) == multiset(b) && a != []
    requires SortedBySnr(a) && SortedBySnr(b)
    requires WithSnr(a, a[0].snr) == WithSnr(b, a[0].snr)
    ensures b != [] && a[0] == b[0]
  {
    SameLeadingSnr(a, b);
    var m := a[0].snr;
    assert WithSnr(a, m)[0] == a[0];
    assert WithSnr(b, m)[0] == b[0];
  }

  /** A stable descending arrangement is unique: two sequences holding the
      same entries, both non-increasing in SNR, that agree on the order of
      equal-SNR entries, are equal. */
  lemma {:induction false} StableSortUnique(a: seq<AcqResult>, b: seq<AcqResult>)
    requires multiset(a) == multiset(b)
    requires SortedBySnr(a) && SortedBySnr(b)
    requires forall k :: WithSnr(a, k) == WithSnr(b, k)
    ensures a == b
    decreases |a|
  {
    assert |a| == |multiset(a)| == |multiset(b)| == |b|;
    if a != [] {
      SameHead(a, b);
      forall k
        ensures WithSnr(a[1..], k) == WithSnr(b[1..], k)
      {
        WithSnrTail(a, k);
        WithSnrTail(b, k);
      }
      TailMultiset(a);
      TailMultiset(b);
      StableSortUnique(a[1..], b[1..]);
      assert a == [a[0]] + a[1..] && b == [b[0]] + b[1..];
    }
  }

  /** Any stable sort of `s` by SNR, highest first, yields exactly
      `SortBySnr(s)`: the model agrees with every correct stable sort. */
  lemma SortBySnrIsTheStableSort(s: seq<AcqResult>, r: seq<AcqResult>)
    requires multiset(r) == multiset(s)
    requires SortedBySnr(r)
    requires forall k :: WithSnr(r, k) == WithSnr(s, k)
    ensures r == SortBySnr(s)
  {
    forall k
      ensures WithSnr(r, k) == WithSnr(SortBySnr(s), k)
    {
      SortStable(s, k);
    }
    StableSortUnique(r, SortBySnr(s));
  }

  /** The candidate selector: `None` when no result is acquired (the driver
      then exits), otherwise the acquired results ranked by SNR, highest
      first, with ties in their original order. */
  function SelectCandidates(rs: seq<AcqResult>): (r: Option<seq<AcqResult>>)
    ensures r.None? <==> forall i :: 0 <= i < |rs| ==> !IsAcquired(rs[i])
    ensures r.Some? ==>
              && r.value != []
              && (forall i :: 0 <= i < |r.value| ==> IsAcquired(r.value[i]))
              && |r.value| <= |rs|
              && multiset(r.value) == multiset(FilterAcquired(rs))
              && (forall x :: multiset(r.value)[x] == if IsAcquired(x) then multiset(rs)[x] else 0)
              && SortedBySnr(r.value)
              && forall k :: WithSnr(r.value, k) == WithSnr(FilterAcquired(rs), k)
  {
    var acquired := FilterAcquired(rs);
    FilterCounts(rs);
    if acquired == [] then None
    else
      forall k
        ensures WithSnr(SortBySnr(acquired), k) == WithSnr(acquired, k)
      {
        SortStable(acquired, k);
      }
      assert forall i :: 0 <= i < |SortBySnr(acquired)| ==> SortBySnr(acquired)[i] in multiset(acquired);
      Some(SortBySnr(acquired))
  }
}
