/** Counting and joining what happens in the cycles of a run. */
module Sequences {
  /** How many of the first n cycles have the property. */
  function Count(when: nat -> bool, n: nat): nat {
    if n == 0 then 0 else Count(when, n - 1) + if when(n - 1) then 1 else 0
  }

  function Joined<T>(parts: nat -> seq<T>, n: nat): seq<T> {
    if n == 0 then [] else Joined(parts, n - 1) + parts(n - 1)
  }

  lemma {:induction false} JoinedGrows<T>(parts: nat -> seq<T>, m: nat, n: nat)
    requires m <= n
    ensures Joined(parts, m) <= Joined(parts, n)
    decreases n
  {
    if m == n {
    } else {
      JoinedGrows(parts, m, n - 1);
    }
  }

  lemma JoinedLength<T>(parts: nat -> seq<T>, n: nat)
    ensures |Joined(parts, n + 1)| == |Joined(parts, n)| + |parts(n)|
  {
  }

  lemma {:induction false} JoinedSingles<T>(parts: nat -> seq<T>, n: nat, k: nat)
    requires k < n && forall j :: 0 <= j < n ==> |parts(j)| == 1
    ensures |Joined(parts, n)| == n && Joined(parts, n)[k] == parts(k)[0]
  {
    if n == 1 {
    } else {
      JoinedSingles(parts, n - 1, if k < n - 1 then k else 0);
    }
  }

  lemma {:induction false} JoinedSame<T>(parts: nat -> seq<T>, parts': nat -> seq<T>, n: nat)
    requires forall k :: 0 <= k < n ==> parts(k) == parts'(k)
    ensures Joined(parts, n) == Joined(parts', n)
  {
    if n == 0 {
    } else {
      JoinedSame(parts, parts', n - 1);
    }
  }

  lemma {:induction false} JoinedNone<T>(parts: nat -> seq<T>, n: nat)
    requires forall j :: 0 <= j < n ==> parts(j) == []
    ensures Joined(parts, n) == []
  {
    if n == 0 {
    } else {
      JoinedNone(parts, n - 1);
    }
  }

  lemma {:induction false} JoinedOnly<T>(parts: nat -> seq<T>, k: nat, n: nat)
    requires k < n && forall j :: 0 <= j < n && j != k ==> parts(j) == []
    ensures Joined(parts, n) == parts(k)
  {
    if k == n - 1 {
      JoinedNone(parts, n - 1);
    } else {
      JoinedOnly(parts, k, n - 1);
    }
  }

  lemma {:induction false} JoinedAtLeast<T>(parts: nat -> seq<T>, k: nat, n: nat)
    requires k < n
    ensures |parts(k)| <= |Joined(parts, n)|
  {
    if k == n - 1 {
    } else {
      JoinedAtLeast(parts, k, n - 1);
    }
  }

  lemma {:induction false} JoinedTwo<T>(parts: nat -> seq<T>, j: nat, k: nat, n: nat)
    requires j < k < n
    ensures |parts(j)| + |parts(k)| <= |Joined(parts, n)|
  {
    if k == n - 1 {
      JoinedAtLeast(parts, j, k);
    } else {
      JoinedTwo(parts, j, k, n - 1);
    }
  }

  /** The part is whole if `ok` holds, and shorter if not. */
  ghost predicate WholeIff<T(!new)>(a: nat -> seq<T>, b: nat -> seq<T>, ok: nat -> bool, k: nat) {
    if ok(k) then a(k) == b(k) else |a(k)| < |b(k)|
  }

  /** Then nothing is missing exactly if `ok` holds everywhere. */
  lemma {:induction false} JoinedWholeIff<T(!new)>(a: nat -> seq<T>, b: nat -> seq<T>, ok: nat -> bool, n: nat)
    requires forall k :: 0 <= k < n ==> WholeIff(a, b, ok, k)
    ensures |Joined(a, n)| <= |Joined(b, n)|
    ensures Joined(a, n) == Joined(b, n) <==> forall k :: 0 <= k < n ==> ok(k)
  {
    if n == 0 {
    } else {
      JoinedWholeIff(a, b, ok, n - 1);
      assert WholeIff(a, b, ok, n - 1);
      JoinedLength(a, n - 1);
      JoinedLength(b, n - 1);
    }
  }

  /** One part is emitted in each cycle that has the property, in order. */
  lemma {:induction false} JoinedWhen<T>(emitted: nat -> seq<T>, when: nat -> bool, parts: nat -> seq<T>, n: nat)
    requires forall k :: 0 <= k < n ==> emitted(k) == if when(k) then parts(Count(when, k)) else []
    ensures Joined(emitted, n) == Joined(parts, Count(when, n))
  {
    if n == 0 {
    } else {
      JoinedWhen(emitted, when, parts, n - 1);
      var c := Count(when, n - 1);
      assert Joined(emitted, n) == Joined(parts, c) + emitted(n - 1);
      if when(n - 1) {
        assert Count(when, n) == c + 1;
        assert emitted(n - 1) == parts(c);
      } else {
        assert Count(when, n) == c;
      }
    }
  }

  /** What enters a buffer leaves it in order, except for what it still holds. */
  lemma {:induction false} Delayed<T>(entering: nat -> seq<T>, held: nat -> seq<T>, leaving: nat -> seq<T>, n: nat)
    requires held(0) == []
    requires forall k :: 0 <= k < n ==> leaving(k) + held(k + 1) == held(k) + entering(k)
    ensures Joined(leaving, n) + held(n) == Joined(entering, n)
  {
    if n == 0 {
    } else {
      Delayed(entering, held, leaving, n - 1);
      assert Joined(leaving, n) + held(n) == Joined(leaving, n - 1) + (leaving(n - 1) + held(n));
      assert Joined(entering, n) == Joined(leaving, n - 1) + (held(n - 1) + entering(n - 1));
    }
  }

  /** What enters and what leaves differ in number by what is left. */
  lemma {:induction false} LengthsBalance<T, U>(entering: nat -> seq<T>, leaving: nat -> seq<U>, left: nat -> nat, n: nat)
    requires left(0) == 0
    requires forall k :: 0 <= k < n ==> left(k) + |entering(k)| == |leaving(k)| + left(k + 1)
    ensures |Joined(entering, n)| == |Joined(leaving, n)| + left(n)
  {
    if n == 0 {
    } else {
      LengthsBalance(entering, leaving, left, n - 1);
      JoinedLength(entering, n - 1);
      JoinedLength(leaving, n - 1);
      assert left(n - 1) + |entering(n - 1)| == |leaving(n - 1)| + left(n - 1 + 1);
    }
  }

  /** A distance that falls in every cycle, except that it starts again below `top` after an event
      and stands still in a wait, bounds the number of cycles. */
  lemma {:induction false} Bounded(distance: nat -> nat, event: nat -> bool, wait: nat -> bool, top: nat, n: nat)
    requires forall k :: 0 <= k < n ==>
               distance(k + 1) + 1 <= (if event(k) then top else distance(k)) + (if wait(k) then 1 else 0)
    ensures n + distance(n) <= distance(0) + top * Count(event, n) + Count(wait, n)
  {
    if n == 0 {
    } else {
      Bounded(distance, event, wait, top, n - 1);
      assert top * (Count(event, n - 1) + 1) == top * Count(event, n - 1) + top;
    }
  }

  lemma {:induction false} Holds(property: nat -> bool, n: nat)
    requires property(0) && forall k :: 0 <= k < n && property(k) ==> property(k + 1)
    ensures property(n)
  {
    if n == 0 {
    } else {
      Holds(property, n - 1);
    }
  }

  lemma Assoc<T>(a: seq<T>, b: seq<T>, c: seq<T>)
    ensures a + (b + c) == (a + b) + c
  {
  }

  /** One step of a buffer and the rest of its run make the whole run. */
  lemma Rotate<T>(pending: seq<T>, first: seq<T>, rest: seq<T>, done: seq<T>, pending': seq<T>, more: seq<T>, final: seq<T>)
    requires pending + first == done + pending' && pending' + rest == more + final
    ensures pending + (first + rest) == (done + more) + final
  {
    Assoc(pending, first, rest);
    Assoc(done, pending', rest);
    Assoc(done, more, final);
  }

  /** From equal states the next ones are equal exactly if `ok` holds. */
  ghost predicate StepsAlike<T(!new)>(a: nat -> T, b: nat -> T, ok: nat -> bool, k: nat) {
    a(k) == b(k) ==> (a(k + 1) == b(k + 1) <==> ok(k))
  }

  /** Two runs from the same state whose steps agree exactly while `ok` holds. */
  lemma {:induction false} SameWhile<T(!new)>(a: nat -> T, b: nat -> T, ok: nat -> bool, n: nat)
    requires a(0) == b(0) && forall k :: 0 <= k < n ==> StepsAlike(a, b, ok, k)
    ensures (forall m :: 0 <= m <= n ==> a(m) == b(m)) <==> (forall k :: 0 <= k < n ==> ok(k))
  {
    if n == 0 {
    } else {
      SameWhile(a, b, ok, n - 1);
      assert StepsAlike(a, b, ok, n - 1);
      if forall k :: 0 <= k < n ==> ok(k) {
        assert a(n - 1) == b(n - 1) && ok(n - 1);
      } else if forall m :: 0 <= m <= n ==> a(m) == b(m) {
        assert a(n - 1 + 1) == b(n - 1 + 1);
      }
    }
  }

  /** Equal states give equal entries, of one element. */
  ghost predicate EntriesAlike<T(!new), E(!new)>(a: nat -> T, b: nat -> T, x: nat -> seq<E>, y: nat -> seq<E>, k: nat) {
    |x(k)| == |y(k)| == 1 && (a(k) == b(k) ==> x(k) == y(k))
  }

  /** A step that departs shows in the next entry. */
  ghost predicate Shows<T(!new), E(!new)>(a: nat -> T, b: nat -> T, ok: nat -> bool, x: nat -> seq<E>, y: nat -> seq<E>,
                                          k: nat) {
    a(k) == b(k) && !ok(k) ==> x(k + 1) != y(k + 1)
  }

  /** Then their logs agree exactly as long. */
  lemma SameLogs<T(!new), E(!new)>(a: nat -> T, b: nat -> T, ok: nat -> bool, x: nat -> seq<E>,
                                   y: nat -> seq<E>, n: nat)
    requires a(0) == b(0) && forall k :: 0 <= k < n ==> StepsAlike(a, b, ok, k) && Shows(a, b, ok, x, y, k)
    requires forall k :: 0 <= k <= n ==> EntriesAlike(a, b, x, y, k)
    ensures Joined(x, n + 1) == Joined(y, n + 1) <==> (forall k :: 0 <= k < n ==> ok(k))
  {
    if forall k :: 0 <= k < n ==> ok(k) {
      SameWhile(a, b, ok, n);
      forall k | 0 <= k < n + 1
        ensures x(k) == y(k)
      {
        assert EntriesAlike(a, b, x, y, k);
      }
      JoinedSame(x, y, n + 1);
    } else {
      var k := First(ok, n);
      SameWhile(a, b, ok, k);
      assert Shows(a, b, ok, x, y, k);
      EntryDiffers(a, b, x, y, n + 1, k + 1);
    }
  }

  lemma EntryDiffers<T(!new), E(!new)>(a: nat -> T, b: nat -> T, x: nat -> seq<E>, y: nat -> seq<E>,
                                       n: nat, k: nat)
    requires k < n && x(k) != y(k) && forall j :: 0 <= j < n ==> EntriesAlike(a, b, x, y, j)
    ensures Joined(x, n) != Joined(y, n)
  {
    forall j | 0 <= j < n
      ensures |x(j)| == |y(j)| == 1
    {
      assert EntriesAlike(a, b, x, y, j);
    }
    JoinedSingles(x, n, k);
    JoinedSingles(y, n, k);
    assert x(k) == [x(k)[0]] && y(k) == [y(k)[0]];
  }

  lemma First(ok: nat -> bool, n: nat) returns (k: nat)
    requires !forall k :: 0 <= k < n ==> ok(k)
    ensures k < n && !ok(k) && forall j :: 0 <= j < k ==> ok(j)
  {
    k := 0;
    while ok(k)
      invariant k < n && forall j :: 0 <= j < k ==> ok(j)
      decreases n - k
    {
      k := k + 1;
    }
  }
}
