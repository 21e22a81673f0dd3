/**
  The final step of calculateRiskAssessment: recommendations sorted by descending
  priority with the comparator `order[b] - order[a]`, where high = 3, medium = 2,
  low = 1. Array.prototype.sort is stable, and a stable sort under a total preorder
  has exactly one possible output, so any stable sort models it; this one is a
  stable insertion sort. Its partner is the bucket form: the high recommendations,
  then the medium ones, then the low ones, each group in input order.
 */
module PrioritySort {
  import opened DsfaTypes

  /** The `priorityOrder` table of the comparator. */
  function Rank(p: Level): nat
  {
    match p
    case High => 3
    case Medium => 2
    case Low => 1
  }

  /** Non-increasing priority from left to right. */
  predicate Sorted(s: seq<Recommendation>)
  {
    forall i, j | 0 <= i < j < |s| :: Rank(s[i].priority) >= Rank(s[j].priority)
  }

  /** The recommendations of priority `p`, in their original order. */
  function OfPriority(s: seq<Recommendation>, p: Level): (r: seq<Recommendation>)
    ensures |r| <= |s|
    ensures forall i | 0 <= i < |r| :: r[i].priority == p
  {
    if s == [] then []
    else (if s[0].priority == p then [s[0]] else []) + OfPriority(s[1..], p)
  }

  /** Reference definition of the stable sort by descending priority. */
  function Bucketed(s: seq<Recommendation>): seq<Recommendation>
  {
    OfPriority(s, High) + OfPriority(s, Medium) + OfPriority(s, Low)
  }

  /** Places `x` in front of the first element it does not rank below. */
  function Insert(x: Recommendation, s: seq<Recommendation>): seq<Recommendation>
  {
    if s == [] || Rank(s[0].priority) <= Rank(x.priority) then [x] + s
    else [s[0]] + Insert(x, s[1..])
  }

  /** The stable sort applied to the generated recommendations. */
  function SortByPriority(s: seq<Recommendation>): seq<Recommendation>
  {
    if s == [] then [] else Insert(s[0], SortByPriority(s[1..]))
  }

  lemma {:induction false} OfPriorityConcat(a: seq<Recommendation>, b: seq<Recommendation>, p: Level)
    ensures OfPriority(a + b, p) == OfPriority(a, p) + OfPriority(b, p)
  {
    if a == [] {
      assert a + b == b;
    } else {
      var x, t := a[0], a[1..];
      assert a == [x] + t;
      assert a + b == [x] + (t + b);
      OfPriorityCons(x, t + b, p);
      OfPriorityCons(x, t, p);
      OfPriorityConcat(t, b, p);
    }
  }

  lemma {:induction false} OfPriorityUniform(s: seq<Recommendation>, p: Level, q: Level)
    requires forall i | 0 <= i < |s| :: s[i].priority == p
    ensures OfPriority(s, q) == if p == q then s else []
  {
    if s != [] {
      OfPriorityUniform(s[1..], p, q);
    }
  }

  lemma {:induction false} InsertPast(x: Recommendation, a: seq<Recommendation>, b: seq<Recommendation>)
    requires forall i | 0 <= i < |a| :: Rank(a[i].priority) > Rank(x.priority)
    ensures Insert(x, a + b) == a + Insert(x, b)
  {
    if a != [] {
      assert (a + b)[0] == a[0];
      assert (a + b)[1..] == a[1..] + b;
      InsertPast(x, a[1..], b);
    } else {
      assert a + b == b;
    }
  }

  lemma OfPriorityCons(x: Recommendation, t: seq<Recommendation>, p: Level)
    ensures OfPriority([x] + t, p) == (if x.priority == p then [x] else []) + OfPriority(t, p)
  {
    assert ([x] + t)[1..] == t;
  }

  /** `Insert` skips over a group of higher-ranked elements and stops at the first that is not. */
  lemma InsertIntoGroups(x: Recommendation, a: seq<Recommendation>, b: seq<Recommendation>)
    requires forall i | 0 <= i < |a| :: Rank(a[i].priority) > Rank(x.priority)
    requires forall i | 0 <= i < |b| :: Rank(b[i].priority) <= Rank(x.priority)
    ensures Insert(x, a + b) == a + [x] + b
  {
    InsertPast(x, a, b);
  }

  predicate AllOf(s: seq<Recommendation>, p: Level)
  {
    forall i | 0 <= i < |s| :: s[i].priority == p
  }

  lemma AllOfConcat(a: seq<Recommendation>, b: seq<Recommendation>, p: Level, q: Level)
    requires AllOf(a, p) && AllOf(b, q)
    ensures forall i | 0 <= i < |a + b| :: (a + b)[i].priority == p || (a + b)[i].priority == q
  {
  }

  lemma InsertHighAmongGroups(x: Recommendation, h: seq<Recommendation>, m: seq<Recommendation>, l: seq<Recommendation>)
    requires x.priority == High
    ensures Insert(x, h + m + l) == ([x] + h) + m + l
  {
    InsertIntoGroups(x, [], h + m + l);
    assert [] + (h + m + l) == h + m + l;
    assert [] + [x] + (h + m + l) == ([x] + h) + m + l;
  }

  lemma InsertMediumAmongGroups(x: Recommendation, h: seq<Recommendation>, m: seq<Recommendation>, l: seq<Recommendation>)
    requires x.priority == Medium && AllOf(h, High) && AllOf(m, Medium) && AllOf(l, Low)
    ensures Insert(x, h + m + l) == h + ([x] + m) + l
  {
    AllOfConcat(m, l, Medium, Low);
    InsertIntoGroups(x, h, m + l);
    assert h + m + l == h + (m + l);
    assert h + [x] + (m + l) == h + ([x] + m) + l;
  }

  lemma InsertLowAmongGroups(x: Recommendation, h: seq<Recommendation>, m: seq<Recommendation>, l: seq<Recommendation>)
    requires x.priority == Low && AllOf(h, High) && AllOf(m, Medium) && AllOf(l, Low)
    ensures Insert(x, h + m + l) == h + m + ([x] + l)
  {
    AllOfConcat(h, m, High, Medium);
    InsertIntoGroups(x, h + m, l);
    assert h + m + [x] + l == h + m + ([x] + l);
  }

  /** Inserting into the bucket form of `t` yields the bucket form of `[x] + t`. */
  lemma InsertBucketed(x: Recommendation, t: seq<Recommendation>)
    ensures Insert(x, Bucketed(t)) == Bucketed([x] + t)
  {
    var h, m, l := OfPriority(t, High), OfPriority(t, Medium), OfPriority(t, Low);
    OfPriorityCons(x, t, High);
    OfPriorityCons(x, t, Medium);
    OfPriorityCons(x, t, Low);
    match x.priority {
      case High =>
        InsertHighAmongGroups(x, h, m, l);
        assert [] + m == m && [] + l == l;
      case Medium =>
        InsertMediumAmongGroups(x, h, m, l);
        assert [] + h == h && [] + l == l;
      case Low =>
        InsertLowAmongGroups(x, h, m, l);
        assert [] + h == h && [] + m == m;
    }
  }

  lemma {:induction false} SortIsBucketed(s: seq<Recommendation>)
    ensures SortByPriority(s) == Bucketed(s)
  {
    if s != [] {
      SortIsBucketed(s[1..]);
      InsertBucketed(s[0], s[1..]);
      assert [s[0]] + s[1..] == s;
    }
  }

  lemma BucketedConsMultiset(x: Recommendation, t: seq<Recommendation>)
    ensures multiset(Bucketed([x] + t)) == multiset{x} + multiset(Bucketed(t))
  {
    var h, m, l := OfPriority(t, High), OfPriority(t, Medium), OfPriority(t, Low);
    var h', m', l' := OfPriority([x] + t, High), OfPriority([x] + t, Medium), OfPriority([x] + t, Low);
    OfPriorityCons(x, t, High);
    OfPriorityCons(x, t, Medium);
    OfPriorityCons(x, t, Low);
    assert multiset(Bucketed(t)) == multiset(h) + multiset(m) + multiset(l);
    assert multiset(Bucketed([x] + t)) == multiset(h') + multiset(m') + multiset(l');
  }

  lemma {:induction false} BucketedPermutes(s: seq<Recommendation>)
    ensures multiset(Bucketed(s)) == multiset(s)
  {
    if s != [] {
      var t := s[1..];
      BucketedPermutes(t);
      assert s == [s[0]] + t;
      BucketedConsMultiset(s[0], t);
      assert multiset(s) == multiset{s[0]} + multiset(t);
    }
  }

  lemma BucketedSorted(s: seq<Recommendation>)
    ensures Sorted(Bucketed(s))
  {
    var h, m, l := OfPriority(s, High), OfPriority(s, Medium), OfPriority(s, Low);
    var r := h + m + l;
    forall i, j | 0 <= i < j < |r|
      ensures Rank(r[i].priority) >= Rank(r[j].priority)
    {
      assert r[i] == if i < |h| then h[i] else if i < |h| + |m| then m[i - |h|] else l[i - |h| - |m|];
      assert r[j] == if j < |h| then h[j] else if j < |h| + |m| then m[j - |h|] else l[j - |h| - |m|];
    }
  }

  lemma BucketedStable(s: seq<Recommendation>, p: Level)
    ensures OfPriority(Bucketed(s), p) == OfPriority(s, p)
  {
    var h, m, l := OfPriority(s, High), OfPriority(s, Medium), OfPriority(s, Low);
    OfPriorityConcat(h + m, l, p);
    OfPriorityConcat(h, m, p);
    OfPriorityUniform(h, High, p);
    OfPriorityUniform(m, Medium, p);
    OfPriorityUniform(l, Low, p);
    match p
    case High => assert h + [] + [] == h;
    case Medium => assert [] + m + [] == m;
    case Low => assert [] + [] + l == l;
  }

  /**
    The sort's output is a permutation of its input, ordered by non-increasing
    priority, and keeps the input order among recommendations of equal priority.
   */
  lemma SortByPriorityCorrect(s: seq<Recommendation>)
    ensures multiset(SortByPriority(s)) == multiset(s)
    ensures Sorted(SortByPriority(s))
    ensures forall p :: OfPriority(SortByPriority(s), p) == OfPriority(s, p)
  {
    SortIsBucketed(s);
    BucketedPermutes(s);
    BucketedSorted(s);
    forall p
      ensures OfPriority(SortByPriority(s), p) == OfPriority(s, p)
    {
      BucketedStable(s, p);
    }
  }

  /** A sequence that is already ordered by priority is left unchanged. */
  lemma {:induction false} SortedUnchanged(s: seq<Recommendation>)
    requires Sorted(s)
    ensures SortByPriority(s) == s
  {
    if s != [] {
      assert Sorted(s[1..]) by {
        forall i, j | 0 <= i < j < |s[1..]|
          ensures Rank(s[1..][i].priority) >= Rank(s[1..][j].priority)
        {
          assert s[1..][i] == s[i + 1] && s[1..][j] == s[j + 1];
        }
      }
      SortedUnchanged(s[1..]);
      assert s[1..] == [] || Rank(s[1..][0].priority) <= Rank(s[0].priority) by {
        if s[1..] != [] { assert s[1..][0] == s[1]; }
      }
      assert [s[0]] + s[1..] == s;
    }
  }
}
