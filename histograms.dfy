/** Counting by key, as the analytics code does with
    `reduce((acc, x) => { acc[k] = (acc[k] || 0) + 1 })`: an object whose
    keys keep the order in which they were first seen. */
module Histograms {
  import opened Seqs

  /** A histogram: keys in first-seen order, each with its count. */
  type Histogram = seq<(string, nat)>

  predicate DistinctKeys(h: Histogram) {
    forall i, j :: 0 <= i < j < |h| ==> h[i].0 != h[j].0
  }

  /** The count stored under k, 0 when k is absent (`acc[k] || 0`). */
  function Lookup(h: Histogram, k: string): nat {
    if h == [] then 0 else if h[0].0 == k then h[0].1 else Lookup(h[1..], k)
  }

  predicate HasKey(h: Histogram, k: string) {
    exists i :: 0 <= i < |h| && h[i].0 == k
  }

  /** One step of the reduce: the count of k goes up by one, or k is added
      at the end with count 1. */
  function Bump(h: Histogram, k: string): (r: Histogram)
    ensures |r| == |h| || |r| == |h| + 1
  {
    if h == [] then [(k, 1)]
    else if h[0].0 == k then [(k, h[0].1 + 1)] + h[1..]
    else [h[0]] + Bump(h[1..], k)
  }

  /** The histogram of keys. */
  function Tally(keys: seq<string>): Histogram {
    if keys == [] then [] else Bump(Tally(keys[..|keys| - 1]), keys[|keys| - 1])
  }

  /** The reduce itself. */
  method Count(keys: seq<string>) returns (h: Histogram)
    ensures h == Tally(keys)
  {
    h := [];
    var i := 0;
    while i < |keys|
      invariant 0 <= i <= |keys|
      invariant h == Tally(keys[..i])
    {
      assert keys[..i + 1][..i] == keys[..i];
      h := Bump(h, keys[i]);
      i := i + 1;
    }
    assert keys[..i] == keys;
  }

  lemma {:induction false} BumpLookup(h: Histogram, k: string)
    ensures forall x :: Lookup(Bump(h, k), x) == Lookup(h, x) + (if x == k then 1 else 0)
  {
    if h != [] {
      var r := Bump(h, k);
      if h[0].0 == k {
        assert r[1..] == h[1..];
      } else {
        BumpLookup(h[1..], k);
        assert r[0] == h[0] && r[1..] == Bump(h[1..], k);
      }
    }
  }

  lemma {:induction false} BumpHasKey(h: Histogram, k: string)
    ensures forall x :: HasKey(Bump(h, k), x) <==> HasKey(h, x) || x == k
  {
    var r := Bump(h, k);
    if h == [] {
      assert r[0].0 == k;
    } else if h[0].0 == k {
      forall x ensures HasKey(r, x) <==> HasKey(h, x) || x == k {
        if HasKey(h, x) { var i :| 0 <= i < |h| && h[i].0 == x; assert r[i].0 == x; }
        if HasKey(r, x) { var i :| 0 <= i < |r| && r[i].0 == x; assert h[i].0 == x; }
        if x == k { assert r[0].0 == x; }
      }
    } else {
      var t := h[1..];
      BumpHasKey(t, k);
      var bt := Bump(t, k);
      assert r == [h[0]] + bt;
      forall x ensures HasKey(r, x) <==> HasKey(h, x) || x == k {
        if HasKey(r, x) {
          var i :| 0 <= i < |r| && r[i].0 == x;
          if i == 0 {
            assert h[0].0 == x;
          } else {
            assert bt[i - 1].0 == x && HasKey(bt, x);
            if x != k {
              var m :| 0 <= m < |t| && t[m].0 == x;
              assert h[m + 1].0 == x;
            }
          }
        }
        if HasKey(h, x) || x == k {
          if HasKey(h, x) && x == h[0].0 {
            assert r[0].0 == x;
          } else {
            if HasKey(h, x) {
              var i :| 0 <= i < |h| && h[i].0 == x;
              assert t[i - 1].0 == x && HasKey(t, x);
            }
            assert HasKey(bt, x);
            var m :| 0 <= m < |bt| && bt[m].0 == x;
            assert r[m + 1].0 == x;
          }
        }
      }
    }
  }

  lemma {:induction false} BumpDistinct(h: Histogram, k: string)
    requires DistinctKeys(h)
    ensures DistinctKeys(Bump(h, k))
  {
    var r := Bump(h, k);
    if h != [] && h[0].0 == k {
      assert r[1..] == h[1..];
      forall i, j | 0 <= i < j < |r| ensures r[i].0 != r[j].0 {
        assert r[j] == h[j];
        if i > 0 { assert r[i] == h[i]; }
      }
    } else if h != [] {
      var t := h[1..];
      BumpDistinct(t, k);
      BumpHasKey(t, k);
      var bt := Bump(t, k);
      assert r == [h[0]] + bt;
      forall i, j | 0 <= i < j < |r| ensures r[i].0 != r[j].0 {
        if i == 0 {
          assert bt[j - 1] == r[j] && HasKey(bt, r[j].0);
          if HasKey(t, r[j].0) {
            var m :| 0 <= m < |t| && t[m].0 == r[j].0;
            assert h[m + 1].0 == r[j].0;
          }
        } else {
          assert r[i] == bt[i - 1] && r[j] == bt[j - 1];
        }
      }
    }
  }

  lemma {:induction false} BumpPositive(h: Histogram, k: string)
    requires forall i :: 0 <= i < |h| ==> h[i].1 >= 1
    ensures forall i :: 0 <= i < |Bump(h, k)| ==> Bump(h, k)[i].1 >= 1
  {
    if h != [] && h[0].0 != k {
      BumpPositive(h[1..], k);
      assert Bump(h, k) == [h[0]] + Bump(h[1..], k);
    }
  }

  lemma BumpFacts(h: Histogram, k: string)
    requires DistinctKeys(h)
    ensures DistinctKeys(Bump(h, k))
    ensures forall x :: Lookup(Bump(h, k), x) == Lookup(h, x) + (if x == k then 1 else 0)
    ensures forall x :: HasKey(Bump(h, k), x) <==> HasKey(h, x) || x == k
    ensures (forall i :: 0 <= i < |h| ==> h[i].1 >= 1) ==> forall i :: 0 <= i < |Bump(h, k)| ==> Bump(h, k)[i].1 >= 1
  {
    BumpDistinct(h, k);
    BumpLookup(h, k);
    BumpHasKey(h, k);
    if forall i :: 0 <= i < |h| ==> h[i].1 >= 1 {
      BumpPositive(h, k);
    }
  }

  /** The histogram counts every key exactly as often as it occurs, holds no
      other key, holds each key once, and every count is at least one. */
  lemma {:induction false} TallyFacts(keys: seq<string>)
    ensures DistinctKeys(Tally(keys))
    ensures forall x :: Lookup(Tally(keys), x) == multiset(keys)[x]
    ensures forall x :: HasKey(Tally(keys), x) <==> x in keys
    ensures forall i :: 0 <= i < |Tally(keys)| ==> Tally(keys)[i].1 >= 1
  {
    if keys != [] {
      var init := keys[..|keys| - 1];
      var k := keys[|keys| - 1];
      TallyFacts(init);
      BumpFacts(Tally(init), k);
      assert keys == init + [k];
      assert forall x :: x in keys <==> x in init || x == k;
    }
  }

  /** The sum of the counts. */
  function Total(h: Histogram): nat {
    if h == [] then 0 else h[0].1 + Total(h[1..])
  }

  lemma {:induction false} BumpTotal(h: Histogram, k: string)
    ensures Total(Bump(h, k)) == Total(h) + 1
  {
    if h != [] && h[0].0 != k {
      BumpTotal(h[1..], k);
      assert Bump(h, k)[1..] == Bump(h[1..], k);
    } else if h != [] {
      assert Bump(h, k)[1..] == h[1..];
    }
  }

  /** The counts add up to the number of keys counted. */
  lemma {:induction false} TallyTotal(keys: seq<string>)
    ensures Total(Tally(keys)) == |keys|
  {
    if keys != [] {
      TallyTotal(keys[..|keys| - 1]);
      BumpTotal(Tally(keys[..|keys| - 1]), keys[|keys| - 1]);
    }
  }

  /** `new Set(keys).size`. */
  function SetSize(keys: seq<string>): (n: nat)
    ensures n <= |keys|
    ensures keys != [] ==> n >= 1
  {
    var s := set i | 0 <= i < |keys| :: keys[i];
    SetOfSeqSize(keys);
    assert keys != [] ==> keys[0] in s;
    |s|
  }

  lemma {:induction false} SetOfSeqSize(keys: seq<string>)
    ensures |set i | 0 <= i < |keys| :: keys[i]| <= |keys|
  {
    if keys != [] {
      var init := keys[..|keys| - 1];
      SetOfSeqSize(init);
      assert (set i | 0 <= i < |keys| :: keys[i]) == (set i | 0 <= i < |init| :: init[i]) + {keys[|keys| - 1]};
    }
  }

  /** The number of distinct values is the number of histogram entries. */
  lemma SetSizeIsTallySize(keys: seq<string>)
    ensures SetSize(keys) == |Tally(keys)|
  {
    TallyFacts(keys);
    var h := Tally(keys);
    var s := set i | 0 <= i < |keys| :: keys[i];
    var hk := set i | 0 <= i < |h| :: h[i].0;
    assert s == hk by {
      forall x ensures x in s <==> x in hk {
        if x in hk { var i :| 0 <= i < |h| && h[i].0 == x; assert HasKey(h, x); }
        if x in s { assert HasKey(h, x); }
      }
    }
    DistinctKeysSize(h);
  }

  lemma {:induction false} DistinctKeysSize(h: Histogram)
    requires DistinctKeys(h)
    ensures |set i | 0 <= i < |h| :: h[i].0| == |h|
  {
    if h != [] {
      var init := h[..|h| - 1];
      assert DistinctKeys(init);
      DistinctKeysSize(init);
      var si := set i | 0 <= i < |init| :: init[i].0;
      assert (set i | 0 <= i < |h| :: h[i].0) == si + {h[|h| - 1].0};
      assert h[|h| - 1].0 !in si;
    }
  }

  /** Larger count first: `sort(([, a], [, b]) => b - a)`. */
  predicate CountDesc(a: (string, nat), b: (string, nat)) {
    a.1 >= b.1
  }

  lemma CountDescTotalPreorder()
    ensures TotalPreorder(CountDesc)
  {
  }

  /** The five most frequent entries; ties keep their histogram order. */
  function Top5(h: Histogram): (r: Histogram)
    ensures |r| <= 5 && |r| <= |h|
  {
    Take(SortBy(h, CountDesc), 5)
  }

  /** Top5 returns entries of the histogram, largest first, and every entry
      left out counts no more than every entry shown. */
  lemma Top5Facts(h: Histogram)
    requires DistinctKeys(h)
    ensures var r := Top5(h);
            (forall i :: 0 <= i < |r| ==> r[i] in h) &&
            (forall i, j :: 0 <= i < j < |r| ==> r[i].1 >= r[j].1) &&
            (forall e :: e in h && e !in r ==> forall i :: 0 <= i < |r| ==> r[i].1 >= e.1) &&
            (|h| <= 5 ==> forall e :: e in h ==> e in r)
  {
    Top5Members(h);
    Top5Ordered(h);
    Top5Dominates(h);
    Top5All(h);
  }

  lemma Top5Members(h: Histogram)
    ensures forall i :: 0 <= i < |Top5(h)| ==> Top5(h)[i] in h
  {
    var s := SortBy(h, CountDesc);
    var r := Top5(h);
    forall i | 0 <= i < |r| ensures r[i] in h {
      assert r[i] == s[i] && s[i] in multiset(s);
    }
  }

  lemma Top5Ordered(h: Histogram)
    ensures forall i, j :: 0 <= i < j < |Top5(h)| ==> Top5(h)[i].1 >= Top5(h)[j].1
  {
    var s := SortBy(h, CountDesc);
    CountDescTotalPreorder();
    SortBySorted(h, CountDesc);
    var r := Top5(h);
    forall i, j | 0 <= i < j < |r| ensures r[i].1 >= r[j].1 {
      assert r[i] == s[i] && r[j] == s[j];
      assert CountDesc(s[i], s[j]);
    }
  }

  lemma Top5Dominates(h: Histogram)
    ensures forall e :: e in h && e !in Top5(h) ==> forall i :: 0 <= i < |Top5(h)| ==> Top5(h)[i].1 >= e.1
  {
    var s := SortBy(h, CountDesc);
    CountDescTotalPreorder();
    SortBySorted(h, CountDesc);
    var r := Top5(h);
    forall e, i | e in h && e !in r && 0 <= i < |r| ensures r[i].1 >= e.1 {
      assert e in multiset(s);
      var m :| 0 <= m < |s| && s[m] == e;
      assert m >= |r|;
      assert r[i] == s[i] && CountDesc(s[i], s[m]);
    }
  }

  lemma Top5All(h: Histogram)
    ensures |h| <= 5 ==> forall e :: e in h ==> e in Top5(h)
  {
    var s := SortBy(h, CountDesc);
    if |h| <= 5 {
      assert Top5(h) == s;
      forall e | e in h ensures e in s {
        assert e in multiset(s);
      }
    }
  }
}
