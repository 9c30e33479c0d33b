/** The payment watcher (apps/worker/src/jobs/stellar-watcher.ts): matching payments to pending orders by
    memo, and reading the payment stream in batches behind a stored cursor. */
module Matching {
  import opened Wrappers
  import Memo

  /** Absent and empty fields are treated alike. */
  datatype Payment = Payment(memo: Option<string>, txHash: Option<string>)

  datatype Match = Match(orderId: string, txHash: string)

  predicate Given(field: Option<string>) { field.Some? && field.value != "" }

  predicate Usable(p: Payment) { Given(p.memo) && Given(p.txHash) }

  // ---------------------------------------------------------------- the nested join

  /** All orders that a payment's memo names, in order. */
  function Hits(orders: seq<string>, p: Payment): seq<Match>
  {
    if orders == [] || !Usable(p) then []
    else
      (if Memo.Truncated(orders[0]) == p.memo.value then [Match(orders[0], p.txHash.value)] else [])
      + Hits(orders[1..], p)
  }

  /** Every order with every payment that names it, in payment order. */
  function Join(orders: seq<string>, payments: seq<Payment>): seq<Match>
  {
    if payments == [] then [] else Join(orders, payments[..|payments| - 1]) + Hits(orders, payments[|payments| - 1])
  }

  // ---------------------------------------------------------------- what the index computes

  /** The last order wins where truncated ids collide. */
  function Last<T>(s: seq<T>): seq<T> { if s == [] then [] else [s[|s| - 1]] }

  function Matched(orders: seq<string>, payments: seq<Payment>): seq<Match>
  {
    if payments == [] then []
    else Matched(orders, payments[..|payments| - 1]) + Last(Hits(orders, payments[|payments| - 1]))
  }

  function Index(orders: seq<string>): map<string, string>
  {
    if orders == [] then map[]
    else Index(orders[..|orders| - 1])[Memo.Truncated(orders[|orders| - 1]) := orders[|orders| - 1]]
  }

  lemma {:induction false} HitsAppend(orders: seq<string>, id: string, p: Payment)
    ensures Hits(orders + [id], p) == Hits(orders, p) + Hits([id], p)
  {
    if orders == [] {
      assert orders + [id] == [id];
    } else {
      HitsAppend(orders[1..], id, p);
      assert (orders + [id])[1..] == orders[1..] + [id];
    }
  }

  lemma HitsOfOne(id: string, p: Payment)
    requires Usable(p)
    ensures Hits([id], p) == if Memo.Truncated(id) == p.memo.value then [Match(id, p.txHash.value)] else []
  {
    hide Memo.Truncated;
    assert [id][1..] == [];
    assert Hits([], p) == [];
  }

  lemma {:induction false} IndexFindsLast(orders: seq<string>, p: Payment)
    requires Usable(p)
    ensures Last(Hits(orders, p)) ==
      if p.memo.value in Index(orders) then [Match(Index(orders)[p.memo.value], p.txHash.value)] else []
  {
    hide Memo.Truncated;
    if orders != [] {
      var before, id := orders[..|orders| - 1], orders[|orders| - 1];
      IndexFindsLast(before, p);
      assert orders == before + [id];
      HitsAppend(before, id, p);
      HitsOfOne(id, p);
      hide Hits;
      LastOfConcat(Hits(before, p), Hits([id], p));
    }
  }

  lemma LastOfConcat<T>(a: seq<T>, b: seq<T>)
    ensures Last(a + b) == if b == [] then Last(a) else Last(b)
  {
    if b == [] {
      assert a + b == a;
    }
  }

  method MatchAndAdvancePayments(orders: seq<string>, payments: seq<Payment>) returns (matched: seq<Match>)
    ensures matched == Matched(orders, payments)
  {
    hide Memo.Truncated;
    var pendingIds: map<string, string> := map[];
    for i := 0 to |orders|
      invariant pendingIds == Index(orders[..i])
    {
      assert orders[..i + 1][..i] == orders[..i];
      var memo := Memo.TruncateTextMemo(orders[i]);
      pendingIds := pendingIds[memo := orders[i]];
    }
    assert orders[..|orders|] == orders;
    matched := [];
    for i := 0 to |payments|
      invariant matched == Matched(orders, payments[..i])
    {
      assert payments[..i + 1][..i] == payments[..i];
      var p := payments[i];
      if Usable(p) {
        IndexFindsLast(orders, p);
        if p.memo.value in pendingIds {
          matched := matched + [Match(pendingIds[p.memo.value], p.txHash.value)];
        }
      }
    }
    assert payments[..|payments|] == payments;
  }

  lemma {:induction false} MatchedNoLonger(orders: seq<string>, payments: seq<Payment>)
    ensures |Matched(orders, payments)| <= |Join(orders, payments)|
  {
    if payments != [] {
      MatchedNoLonger(orders, payments[..|payments| - 1]);
    }
  }

  /** The map index computes the nested join exactly when no payment names two orders. */
  lemma {:induction false} IndexIsJoin(orders: seq<string>, payments: seq<Payment>)
    ensures Matched(orders, payments) == Join(orders, payments)
      <==> forall p :: p in payments ==> |Hits(orders, p)| <= 1
  {
    if payments != [] {
      var before, p := payments[..|payments| - 1], payments[|payments| - 1];
      assert payments == before + [p] && p in payments;
      IndexIsJoin(orders, before);
      MatchedNoLonger(orders, before);
      var m, j := Matched(orders, before), Join(orders, before);
      var hits := Hits(orders, p);
      if |hits| <= 1 {
        assert Last(hits) == hits;
        if m + hits == j + hits {
          SuffixCancels(m, j, hits);
        }
      } else {
        assert |Matched(orders, payments)| < |Join(orders, payments)|;
      }
    }
  }

  lemma SuffixCancels<T>(a: seq<T>, b: seq<T>, c: seq<T>)
    requires a + c == b + c
    ensures a == b
  {
    assert |a| == |b|;
    assert a == (a + c)[..|a|] && b == (b + c)[..|b|];
  }

  /** In particular it does when all truncated ids differ, as those of full-length ids usually do. */
  lemma {:induction false} DistinctIdsHitOnce(orders: seq<string>, p: Payment)
    requires forall i, j :: 0 <= i < j < |orders| ==> Memo.Truncated(orders[i]) != Memo.Truncated(orders[j])
    ensures |Hits(orders, p)| <= 1
  {
    hide Memo.Truncated;
    if orders != [] && Usable(p) {
      DistinctIdsHitOnce(orders[1..], p);
      if Memo.Truncated(orders[0]) == p.memo.value {
        assert forall id :: id in orders[1..] ==> Memo.Truncated(id) != p.memo.value;
        NoneNamed(orders[1..], p);
      }
    }
  }

  lemma {:induction false} NoneNamed(orders: seq<string>, p: Payment)
    requires Usable(p) && forall id :: id in orders ==> Memo.Truncated(id) != p.memo.value
    ensures Hits(orders, p) == []
  {
    hide Memo.Truncated;
    if orders != [] {
      NoneNamed(orders[1..], p);
    }
  }

  lemma {:induction false} MatchedConcat(orders: seq<string>, a: seq<Payment>, b: seq<Payment>)
    ensures Matched(orders, a + b) == Matched(orders, a) + Matched(orders, b)
  {
    if b == [] {
      assert a + b == a;
    } else {
      var n := |b| - 1;
      assert (a + b)[..|a + b| - 1] == a + b[..n] && (a + b)[|a + b| - 1] == b[n];
      MatchedConcat(orders, a, b[..n]);
    }
  }

  /** The memo and the hash are given, and the memo is the cut id. */
  predicate Names(id: string, p: Payment)
  {
    && p.memo.Some? && p.memo.value != "" && p.txHash.Some? && p.txHash.value != ""
    && Memo.Truncated(id) == p.memo.value
  }

  /** Nothing if the payment names no order, otherwise the last one it names. */
  ghost predicate IsLastNamed(orders: seq<string>, p: Payment, m: seq<Match>)
  {
    if exists i :: 0 <= i < |orders| && Names(orders[i], p)
    then |m| == 1 && p.txHash == Some(m[0].txHash) && exists i ::
           && 0 <= i < |orders| && Names(orders[i], p) && m[0].orderId == orders[i]
           && forall j :: i < j < |orders| ==> !Names(orders[j], p)
    else m == []
  }

  lemma NamedAppend(before: seq<string>, id: string, p: Payment, m: seq<Match>)
    requires IsLastNamed(before, p, m)
    ensures IsLastNamed(before + [id], p, if Names(id, p) then [Match(id, p.txHash.value)] else m)
  {
    var orders := before + [id];
    var named := Names(id, p);
    assert named ==> p.txHash.Some?;
    hide Names;
    assert forall i :: 0 <= i < |before| ==> orders[i] == before[i];
    if named {
      assert Names(orders[|before|], p);
    } else if i :| 0 <= i < |before| && Names(before[i], p) {
      assert Names(orders[i], p);
    }
  }

  lemma {:induction false} LastNamed(orders: seq<string>, p: Payment)
    ensures IsLastNamed(orders, p, Last(Hits(orders, p)))
  {
    hide Memo.Truncated;
    if orders != [] {
      var before, id := orders[..|orders| - 1], orders[|orders| - 1];
      LastNamed(before, p);
      NamedAppend(before, id, p, Last(Hits(before, p)));
      assert orders == before + [id];
      HitsAppend(before, id, p);
      if Usable(p) { HitsOfOne(id, p); }
      hide IsLastNamed;
      LastOfConcat(Hits(before, p), Hits([id], p));
    }
  }

  /** What one payment is matched with: nothing if its memo or its hash is missing or empty, or no order's cut id is its
      memo; otherwise the last such order. With `MatchedConcat` that is every match, payment by payment. */
  lemma MatchedOne(orders: seq<string>, p: Payment)
    ensures IsLastNamed(orders, p, Matched(orders, [p]))
  {
    hide Memo.Truncated, IsLastNamed;
    assert [p][..0] == [] && Matched(orders, []) == [];
    assert Matched(orders, [p]) == Last(Hits(orders, p));
    LastNamed(orders, p);
  }

  /** A payment that names one order only is matched with it, whatever else is matched. */
  lemma {:induction false} NamedIsMatched(orders: seq<string>, payments: seq<Payment>, p: Payment, id: string)
    requires p in payments && id in orders && Names(id, p)
    requires forall other :: other in orders && Names(other, p) ==> other == id
    ensures Match(id, p.txHash.value) in Matched(orders, payments)
  {
    hide Hits, Names, Last;
    var before, last := payments[..|payments| - 1], payments[|payments| - 1];
    assert payments == before + [last];
    if p == last {
      LastNamed(orders, p);
      var i :| 0 <= i < |orders| && orders[i] == id;
      var m := Last(Hits(orders, p));
      assert Names(orders[i], p);
      assert m[0] == Match(id, p.txHash.value);
      assert m[0] in m;
    } else {
      NamedIsMatched(orders, before, p, id);
    }
  }

  // ---------------------------------------------------------------- the cursor

  const POLL_LIMIT: nat := 200

  /** Fetches the transaction behind record `i` of the stream. The paging token of record `i` is `i + 1`. */
  type Stream = seq<Payment>

  function Min(a: nat, b: nat): nat { if a < b then a else b }

  /** Where a poll from `cursor` stops when `visible` records exist so far. */
  function PollEnd(cursor: nat, visible: nat): nat
  {
    if visible <= cursor then cursor else Min(cursor + POLL_LIMIT, visible)
  }

  /** The payments of the records in `[lo, hi)` whose transaction could be fetched. */
  function Fetched(stream: Stream, lo: nat, hi: nat, lost: set<nat>): seq<Payment>
    requires lo <= hi <= |stream|
  {
    if lo == hi then []
    else Fetched(stream, lo, hi - 1, lost) + (if hi - 1 in lost then [] else [stream[hi - 1]])
  }

  lemma {:induction false} FetchedSplit(stream: Stream, lo: nat, mid: nat, hi: nat, lost: set<nat>)
    requires lo <= mid <= hi <= |stream|
    ensures Fetched(stream, lo, hi, lost) == Fetched(stream, lo, mid, lost) + Fetched(stream, mid, hi, lost)
  {
    if mid < hi {
      FetchedSplit(stream, lo, mid, hi - 1, lost);
    }
  }

  lemma {:induction false} FetchedDepends(stream: Stream, lo: nat, hi: nat, a: set<nat>, b: set<nat>)
    requires lo <= hi <= |stream|
    requires forall i :: lo <= i < hi ==> (i in a <==> i in b)
    ensures Fetched(stream, lo, hi, a) == Fetched(stream, lo, hi, b)
  {
    if lo < hi {
      FetchedDepends(stream, lo, hi - 1, a, b);
    }
  }

  /** One record is read unless its fetch fails. Together with `FetchedSplit` that is every batch. */
  lemma FetchedOne(stream: Stream, i: nat, lost: set<nat>)
    requires i < |stream|
    ensures Fetched(stream, i, i, lost) == []
    ensures Fetched(stream, i, i + 1, lost) == if i in lost then [] else [stream[i]]
  {}

  lemma {:induction false} FetchedHas(stream: Stream, lo: nat, hi: nat, lost: set<nat>, p: Payment)
    requires lo <= hi <= |stream|
    ensures p in Fetched(stream, lo, hi, lost) <==> exists i :: lo <= i < hi && i !in lost && stream[i] == p
  {
    if lo < hi {
      FetchedHas(stream, lo, hi - 1, lost, p);
    }
  }

  /** The payments of a stretch of the stream: those of its records that could be fetched, and all in order if none
      failed. */
  ghost predicate IsBatch(payments: seq<Payment>, stream: Stream, lo: nat, hi: nat, lost: set<nat>)
    requires lo <= hi <= |stream|
  {
    && (forall p :: p in payments <==> exists i :: lo <= i < hi && i !in lost && stream[i] == p)
    && (lost == {} ==> payments == stream[lo..hi])
  }

  lemma BatchMeans(stream: Stream, lo: nat, hi: nat, lost: set<nat>)
    requires lo <= hi <= |stream|
    ensures IsBatch(Fetched(stream, lo, hi, lost), stream, lo, hi, lost)
  {
    forall p
      ensures p in Fetched(stream, lo, hi, lost) <==> exists i :: lo <= i < hi && i !in lost && stream[i] == p
    {
      FetchedHas(stream, lo, hi, lost, p);
    }
    FetchedAll(stream, lo, hi);
  }

  /** One poll: how much of the stream exists, and which records fail to be fetched. */
  datatype Poll = Poll(visible: nat, failing: set<nat>)

  /** The cursor, the matches so far, and the records whose fetch failed. */
  datatype Progress = Progress(cursor: nat, matched: seq<Match>, lost: set<nat>)

  function AfterPoll(orders: seq<string>, stream: Stream, s: Progress, p: Poll): Progress
    requires s.cursor <= |stream| && p.visible <= |stream|
  {
    var end := PollEnd(s.cursor, p.visible);
    Progress(end, s.matched + Matched(orders, Fetched(stream, s.cursor, end, p.failing)),
             s.lost + set i | i in p.failing && s.cursor <= i < end)
  }

  function Watch(orders: seq<string>, stream: Stream, start: nat, polls: seq<Poll>): (s: Progress)
    requires start <= |stream| && forall p :: p in polls ==> p.visible <= |stream|
    ensures start <= s.cursor <= |stream|
    ensures forall i :: i in s.lost ==> start <= i < s.cursor
  {
    if polls == [] then Progress(start, [], {})
    else
      assert forall p :: p in polls[..|polls| - 1] ==> p in polls;
      AfterPoll(orders, stream, Watch(orders, stream, start, polls[..|polls| - 1]), polls[|polls| - 1])
  }

  function Least(a: int, b: int): int { if a < b then a else b }

  /** With `visible` records on the account and the cursor behind them, every poll moves the cursor on by two hundred
      records, or to the end. */
  lemma {:induction false} CursorMoves(orders: seq<string>, stream: Stream, start: nat, polls: seq<Poll>, visible: nat)
    requires start <= visible <= |stream| && forall p :: p in polls ==> p.visible == visible
    ensures Watch(orders, stream, start, polls).cursor == Least(start + 200 * |polls|, visible)
  {
    if polls != [] {
      var before := polls[..|polls| - 1];
      assert forall q :: q in before ==> q in polls;
      assert polls[|polls| - 1] in polls;
      CursorMoves(orders, stream, start, before, visible);
    }
  }

  /** The number of visible records may grow meanwhile: the cursor gets at least as far. */
  lemma PollReaches(cursor: nat, visible: nat, record: nat)
    requires record < visible
    ensures PollEnd(cursor, visible) >= Least(cursor + 200, record + 1) && PollEnd(cursor, visible) >= cursor
  {}

  /** So enough polls match the whole visible stream, however few records each of them reads. */
  lemma EnoughPollsMatchAll(orders: seq<string>, stream: Stream, start: nat, polls: seq<Poll>, visible: nat)
    requires start <= visible <= |stream| && forall p :: p in polls ==> p.visible == visible && p.failing == {}
    requires visible - start <= 200 * |polls|
    ensures Watch(orders, stream, start, polls).matched == Matched(orders, stream[start..visible])
  {
    CursorMoves(orders, stream, start, polls, visible);
    NothingLost(orders, stream, start, polls);
  }

  /** For fixed pending orders, matching poll by poll and concatenating is matching the whole stream up to the
      cursor, without the records whose fetch failed. */
  lemma {:induction false} BatchesAreWhole(orders: seq<string>, stream: Stream, start: nat, polls: seq<Poll>)
    requires start <= |stream| && forall p :: p in polls ==> p.visible <= |stream|
    ensures var s := Watch(orders, stream, start, polls);
      s.matched == Matched(orders, Fetched(stream, start, s.cursor, s.lost))
  {
    if polls != [] {
      var before, p := polls[..|polls| - 1], polls[|polls| - 1];
      assert forall q :: q in before ==> q in polls;
      BatchesAreWhole(orders, stream, start, before);
      var s, t := Watch(orders, stream, start, before), Watch(orders, stream, start, polls);
      FetchedSplit(stream, start, s.cursor, t.cursor, t.lost);
      FetchedDepends(stream, start, s.cursor, t.lost, s.lost);
      FetchedDepends(stream, s.cursor, t.cursor, t.lost, p.failing);
      MatchedConcat(orders, Fetched(stream, start, s.cursor, s.lost), Fetched(stream, s.cursor, t.cursor, p.failing));
    }
  }

  /** Without a failed fetch that is the join with the stream itself, however it was cut into batches. */
  lemma {:induction false} NothingLost(orders: seq<string>, stream: Stream, start: nat, polls: seq<Poll>)
    requires start <= |stream| && forall p :: p in polls ==> p.visible <= |stream| && p.failing == {}
    ensures var s := Watch(orders, stream, start, polls);
      s.lost == {} && s.matched == Matched(orders, stream[start..s.cursor])
  {
    var s := Watch(orders, stream, start, polls);
    BatchesAreWhole(orders, stream, start, polls);
    NoneFails(orders, stream, start, polls);
    FetchedAll(stream, start, s.cursor);
  }

  lemma {:induction false} NoneFails(orders: seq<string>, stream: Stream, start: nat, polls: seq<Poll>)
    requires start <= |stream| && forall p :: p in polls ==> p.visible <= |stream| && p.failing == {}
    ensures Watch(orders, stream, start, polls).lost == {}
  {
    if polls != [] {
      var before := polls[..|polls| - 1];
      assert forall q :: q in before ==> q in polls;
      assert polls[|polls| - 1] in polls;
      NoneFails(orders, stream, start, before);
    }
  }

  lemma {:induction false} FetchedAll(stream: Stream, lo: nat, hi: nat)
    requires lo <= hi <= |stream|
    ensures Fetched(stream, lo, hi, {}) == stream[lo..hi]
  {
    if lo < hi {
      FetchedAll(stream, lo, hi - 1);
    }
  }

  /** The cursor moves past a failed fetch: no later poll looks at that record again. */
  lemma {:induction false} LostForever(orders: seq<string>, stream: Stream, start: nat, polls: seq<Poll>, more: seq<Poll>, i: nat)
    requires start <= |stream| && forall p :: p in polls ==> p.visible <= |stream|
    requires forall p :: p in more ==> p.visible <= |stream|
    requires i in Watch(orders, stream, start, polls).lost
    ensures i in Watch(orders, stream, start, polls + more).lost
  {
    if more == [] {
      assert polls + more == polls;
    } else {
      var n := |more| - 1;
      assert (polls + more)[..|polls + more| - 1] == polls + more[..n];
      assert forall p :: p in more[..n] ==> p in more;
      LostForever(orders, stream, start, polls, more[..n], i);
    }
  }
}
