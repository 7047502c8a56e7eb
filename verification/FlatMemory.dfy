/** The reference for the cache: one flat array of words, and what it means byte by byte. */
module FlatMemory {
  import opened CacheGeometry
  import opened CacheStep

  /** A flat memory: it answers a request with the word before the write, then writes. */
  ghost function FlatWrite(flat: seq<Word>, q: Request): seq<Word>
    requires q.adr < |flat|
  {
    var w: Word := seq(4, k requires 0 <= k < 4 => if q.we[k] then q.data[k] else flat[q.adr][k]);
    flat[q.adr := w]
  }

  ghost function FlatAnswers(flat: seq<Word>, qs: seq<Request>): seq<Word>
    requires forall k :: 0 <= k < |qs| ==> qs[k].adr < |flat|
    decreases |qs|
  {
    if qs == [] then [] else [flat[qs[0].adr]] + FlatAnswers(FlatWrite(flat, qs[0]), qs[1..])
  }

  ghost function FlatAfter(flat: seq<Word>, qs: seq<Request>): seq<Word>
    requires forall k :: 0 <= k < |qs| ==> qs[k].adr < |flat|
    decreases |qs|
  {
    if qs == [] then flat else FlatAfter(FlatWrite(flat, qs[0]), qs[1..])
  }

  lemma FlatFirst(flat: seq<Word>, q: Request, rest: seq<Request>)
    requires q.adr < |flat| && forall k :: 0 <= k < |rest| ==> rest[k].adr < |flat|
    ensures FlatAnswers(flat, [q] + rest) == [flat[q.adr]] + FlatAnswers(FlatWrite(flat, q), rest)
    ensures FlatAfter(flat, [q] + rest) == FlatAfter(FlatWrite(flat, q), rest)
  {
    assert ([q] + rest)[1..] == rest;
  }

  lemma {:induction false} AfterSnoc(flat: seq<Word>, qs: seq<Request>, q: Request)
    requires q.adr < |flat| && forall k :: 0 <= k < |qs| ==> qs[k].adr < |flat|
    ensures |FlatAfter(flat, qs)| == |flat|
    ensures FlatAfter(flat, qs + [q]) == FlatWrite(FlatAfter(flat, qs), q)
    ensures FlatAnswers(flat, qs + [q]) == FlatAnswers(flat, qs) + [FlatAfter(flat, qs)[q.adr]]
    decreases |qs|
  {
    if qs == [] {
      assert [] + [q] == [q];
      FlatFirst(flat, q, []);
      assert [q] + [] == [q];
    } else {
      assert (qs + [q])[1..] == qs[1..] + [q];
      AfterSnoc(FlatWrite(flat, qs[0]), qs[1..], q);
    }
  }

  lemma {:induction false} FlatLengths(flat: seq<Word>, qs: seq<Request>)
    requires forall k :: 0 <= k < |qs| ==> qs[k].adr < |flat|
    ensures |FlatAnswers(flat, qs)| == |qs| && |FlatAfter(flat, qs)| == |flat|
    decreases |qs|
  {
    if qs == [] {
    } else {
      FlatLengths(FlatWrite(flat, qs[0]), qs[1..]);
    }
  }

  // ---- byte by byte ----

  predicate WritesByte(q: Request, adr: nat, k: nat)
    requires k < 4
  {
    q.adr == adr && q.we[k]
  }

  /** Of the first n requests, number j is the last one that writes byte k at `adr`. */
  ghost predicate LastWriter(qs: seq<Request>, n: nat, adr: nat, k: nat, j: nat)
    requires n <= |qs| && k < 4
  {
    j < n && WritesByte(qs[j], adr, k) && forall i :: j < i < n ==> !WritesByte(qs[i], adr, k)
  }

  /** After the first n requests byte k at `adr` is what the last one that wrote it wrote, or what it was at first. */
  ghost predicate ByteAfter(flat: seq<Word>, qs: seq<Request>, n: nat, adr: nat, k: nat, b: Byte)
    requires n <= |qs| && adr < |flat| && k < 4
  {
    if exists j: nat :: j < n && WritesByte(qs[j], adr, k)
    then exists j: nat :: LastWriter(qs, n, adr, k, j) && b == qs[j].data[k]
    else b == flat[adr][k]
  }

  lemma ByteSnoc(flat: seq<Word>, qs: seq<Request>, n: nat, adr: nat, k: nat, b: Byte)
    requires n < |qs| && adr < |flat| && k < 4 && ByteAfter(flat, qs, n, adr, k, b)
    ensures ByteAfter(flat, qs, n + 1, adr, k, if WritesByte(qs[n], adr, k) then qs[n].data[k] else b)
  {
    if WritesByte(qs[n], adr, k) {
      assert LastWriter(qs, n + 1, adr, k, n);
    } else if j: nat :| LastWriter(qs, n, adr, k, j) && b == qs[j].data[k] {
      assert LastWriter(qs, n + 1, adr, k, j);
    }
  }

  lemma {:induction false} AfterBytes(flat: seq<Word>, qs: seq<Request>, n: nat, adr: nat, k: nat)
    requires forall j :: 0 <= j < |qs| ==> qs[j].adr < |flat|
    requires n <= |qs| && adr < |flat| && k < 4
    ensures |FlatAfter(flat, qs[..n])| == |flat| && ByteAfter(flat, qs, n, adr, k, FlatAfter(flat, qs[..n])[adr][k])
  {
    if n == 0 {
    } else {
      AfterBytes(flat, qs, n - 1, adr, k);
      assert qs[..n] == qs[..n - 1] + [qs[n - 1]];
      AfterSnoc(flat, qs[..n - 1], qs[n - 1]);
      ByteSnoc(flat, qs, n - 1, adr, k, FlatAfter(flat, qs[..n - 1])[adr][k]);
    }
  }

  lemma {:induction false} AnswerIs(flat: seq<Word>, qs: seq<Request>, n: nat)
    requires forall j :: 0 <= j < |qs| ==> qs[j].adr < |flat|
    requires n < |qs|
    ensures |FlatAnswers(flat, qs)| == |qs| && |FlatAfter(flat, qs[..n])| == |flat|
    ensures FlatAnswers(flat, qs)[n] == FlatAfter(flat, qs[..n])[qs[n].adr]
    decreases |qs|
  {
    FlatLengths(flat, qs);
    FlatLengths(flat, qs[..n]);
    if n > 0 {
      AnswerIs(FlatWrite(flat, qs[0]), qs[1..], n - 1);
      assert qs[..n][1..] == qs[1..][..n - 1];
    }
  }

  /** Every byte of every answer is what the last earlier write of it wrote, or the initial one. */
  lemma AnswersBytes(flat: seq<Word>, qs: seq<Request>)
    requires forall j :: 0 <= j < |qs| ==> qs[j].adr < |flat|
    ensures |FlatAnswers(flat, qs)| == |qs|
    ensures forall n, k :: 0 <= n < |qs| && 0 <= k < 4 ==>
              ByteAfter(flat, qs, n, qs[n].adr, k, FlatAnswers(flat, qs)[n][k])
  {
    FlatLengths(flat, qs);
    forall n, k | 0 <= n < |qs| && 0 <= k < 4
      ensures ByteAfter(flat, qs, n, qs[n].adr, k, FlatAnswers(flat, qs)[n][k])
    {
      AnswerIs(flat, qs, n);
      AfterBytes(flat, qs, n, qs[n].adr, k);
    }
  }
}
