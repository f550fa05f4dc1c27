/** Majorities, the threshold K, and the intersection of majorities. */
module Quorums {

  function Ceil(x: real): int {
    -((-x).Floor)
  }

  /** ceil(((float)n + 1) / 2): the response count every client waits for, and the servers' K. */
  function Majority(n: nat): (m: nat)
    ensures m == n / 2 + 1
  {
    var half := (n as real + 1.0) / 2.0;
    assert half == (n + 1) as real / 2.0;
    assert n % 2 == 0 ==> half == (n / 2) as real + 0.5;
    assert n % 2 == 1 ==> half == (n / 2 + 1) as real;
    Ceil(half)
  }

  /** ceil((float)n + 1) / 2, converted to int: the K that create_EncodeData gives the clients. */
  function ClientK(n: nat): (k: nat)
    ensures k == (n + 1) / 2
  {
    var whole := Ceil(n as real + 1.0);
    assert whole == n + 1;
    assert whole as real / 2.0 == (whole / 2) as real + (if whole % 2 == 0 then 0.0 else 0.5);
    (whole as real / 2.0).Floor
  }

  /** The two thresholds agree exactly for an odd number of servers; otherwise the client's is one less. */
  lemma ThresholdsAgreeIffOdd(n: nat)
    ensures ClientK(n) == Majority(n) <==> n % 2 == 1
    ensures n % 2 == 0 ==> ClientK(n) + 1 == Majority(n)
  {
  }

  lemma OneFewer<T>(a: set<T>, b: set<T>, x: T)
    requires x in a && x !in b
    ensures |a - (b + {x})| < |a - b|
  {
    assert a - (b + {x}) == (a - b) - {x};
  }

  lemma SubsetCard<T>(a: set<T>, b: set<T>)
    requires a <= b
    ensures |a| <= |b|
  {
    assert b == a + (b - a);
  }

  lemma BagCard<T>(a: multiset<T>, b: multiset<T>)
    requires a <= b
    ensures |a| <= |b|
  {
    assert b == a + (b - a);
  }

  /** Two majorities of the same servers share a server. */
  lemma MajoritiesMeet<T>(all: set<T>, a: set<T>, b: set<T>) returns (i: T)
    requires a <= all && b <= all
    requires |a| >= Majority(|all|) && |b| >= Majority(|all|)
    ensures i in a && i in b
  {
    if a * b == {} {
      SubsetCard(a + b, all);
      assert false;
    }
    i :| i in a * b;
  }

  ghost predicate NoDup<T>(s: seq<T>) {
    forall i, j :: 0 <= i < j < |s| ==> s[i] != s[j]
  }

  /** A duplicate-free list has as many elements as its set. */
  lemma {:induction false} NoDupCard<T>(s: seq<T>)
    requires NoDup(s)
    ensures |set x | x in s| == |s|
  {
    if s != [] {
      var r := s[..|s| - 1];
      NoDupCard(r);
      assert s == r + [s[|s| - 1]];
      assert (set x | x in s) == (set x | x in r) + {s[|s| - 1]};
    }
  }

  /** Messages that were sent at most once and counted at most as often as sent are pairwise different. */
  lemma {:induction false} CountedDistinct<T>(em: multiset<T>, got: seq<T>)
    requires multiset(got) <= em && forall m :: m in em ==> em[m] == 1
    ensures NoDup(got)
  {
    if got != [] {
      var r, x := got[..|got| - 1], got[|got| - 1];
      assert got == r + [x];
      assert multiset(r) <= multiset(got);
      CountedDistinct(em, r);
      assert multiset(got)[x] == multiset(r)[x] + 1;
    }
  }

  /** Counting messages is counting senders: if equal senders mean equal messages, the counted messages come
      from as many senders as there are messages. */
  lemma CountedSenders<T, S>(em: multiset<T>, got: seq<T>, froms: seq<S>)
    requires multiset(got) <= em && forall m :: m in em ==> em[m] == 1
    requires |froms| == |got|
    requires forall i, j :: 0 <= i < j < |got| && froms[i] == froms[j] ==> got[i] == got[j]
    ensures NoDup(froms) && |set x | x in froms| == |got|
  {
    CountedDistinct(em, got);
    NoDupCard(froms);
  }

  lemma CountedWereSent<T>(em: multiset<T>, got: seq<T>, m: T)
    requires multiset(got) <= em && m in got
    ensures m in em
  {
    assert multiset(got)[m] <= em[m];
  }
}
