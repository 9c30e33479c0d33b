/** A run of the payment watcher (`stellarWatcherProcessor`): read a batch of payments, match it with the
    pending orders, settle every match, and remember where the batch ended. */
module Watching {
  import opened Wrappers
  import opened Commerce
  import CommerceDb
  import O = CommerceOffers
  import opened CommerceInvariants
  import opened CommerceTheorems
  import M = Matching
  import Memo
  import Stellar

  // ---------------------------------------------------------------- settling the matches

  /** Every match in turn. A match that throws is skipped. */
  ghost function AdvanceAll(w: World, s: Store, matched: seq<M.Match>): Store
  {
    if matched == [] then s
    else
      var m := matched[|matched| - 1];
      Advance(w, AdvanceAll(w, s, matched[..|matched| - 1]), m.orderId, m.txHash).0
  }

  /** The answer to the query for pending orders: each once, in any order. */
  ghost predicate ListsPending(orders: map<string, Order>, ids: seq<string>)
  {
    && (forall id :: id in ids <==> id in orders && orders[id].status == PENDING)
    && (forall i, j :: 0 <= i < j < |ids| ==> ids[i] != ids[j])
  }

  /** What the watcher reads of a transaction of the chain. */
  predicate FromChain(horizon: Stellar.Horizon, p: M.Payment)
  {
    && p.txHash.Some? && p.txHash.value in horizon
    && p.memo == horizon[p.txHash.value].memo
  }

  // ---------------------------------------------------------------- a carried offer is settled

  ghost predicate DistinctMemos(ids: seq<string>)
  {
    forall i, j :: 0 <= i < j < |ids| ==> Memo.Truncated(ids[i]) != Memo.Truncated(ids[j])
  }

  lemma DifferentMemos(ids: seq<string>, i: nat, j: nat)
    requires DistinctMemos(ids) && i < |ids| && j < |ids|
    ensures i != j ==> Memo.Truncated(ids[i]) != Memo.Truncated(ids[j])
  {}

  lemma SameMemoSameOrder(ids: seq<string>, a: string, b: string)
    requires DistinctMemos(ids) && a in ids && b in ids && Memo.Truncated(a) == Memo.Truncated(b)
    ensures a == b
  {
    var i :| 0 <= i < |ids| && ids[i] == a;
    var j :| 0 <= j < |ids| && ids[j] == b;
    DifferentMemos(ids, i, j);
  }

  lemma MemoNotEmpty(id: string)
    requires id != ""
    ensures Memo.Truncated(id) != ""
  {}

  lemma {:induction false} HitsName(ids: seq<string>, p: M.Payment, m: M.Match)
    ensures m in M.Hits(ids, p) <==> m.orderId in ids && M.Names(m.orderId, p) && p.txHash == Some(m.txHash)
  {
    hide Memo.Truncated;
    if ids != [] {
      HitsName(ids[1..], p, m);
      assert ids == [ids[0]] + ids[1..];
    }
  }

  /** With distinct memos, exactly the orders are matched whose cut id is the memo of a payment with a hash. */
  lemma MatchedName(ids: seq<string>, payments: seq<M.Payment>, m: M.Match)
    requires DistinctMemos(ids)
    ensures m in M.Matched(ids, payments) <==>
      exists p ::
        && p in payments && m.orderId in ids && m.orderId != ""
        && p.memo == Some(Memo.Truncated(m.orderId)) && p.txHash == Some(m.txHash) && m.txHash != ""
  {
    hide Memo.Truncated, M.Hits, M.Matched;
    MatchedHits(ids, payments, m);
    forall p | p in payments
      ensures m in M.Hits(ids, p) <==>
        && m.orderId in ids && m.orderId != ""
        && p.memo == Some(Memo.Truncated(m.orderId)) && p.txHash == Some(m.txHash) && m.txHash != ""
    {
      HitsName(ids, p, m);
      if m.orderId != "" { MemoNotEmpty(m.orderId); } else { EmptyMemo(); }
    }
  }

  lemma EmptyMemo()
    ensures Memo.Truncated("") == ""
  {}

  lemma {:induction false} MatchedHits(ids: seq<string>, payments: seq<M.Payment>, m: M.Match)
    requires DistinctMemos(ids)
    ensures m in M.Matched(ids, payments) <==> exists p :: p in payments && m in M.Hits(ids, p)
  {
    hide Memo.Truncated, M.Hits;
    if payments != [] {
      var before, last := payments[..|payments| - 1], payments[|payments| - 1];
      assert payments == before + [last] && last in payments;
      MatchedHits(ids, before, m);
      M.DistinctIdsHitOnce(ids, last);
      assert M.Last(M.Hits(ids, last)) == M.Hits(ids, last);
      if p :| p in payments && m in M.Hits(ids, p) {
        assert p in before || p == last;
      }
      if p :| p in before && m in M.Hits(ids, p) {
        assert p in payments;
      }
    }
  }

  /** The order with this id is pending with the given terms and its payment unused, or paid. */
  ghost predicate OnTrack(s: Store, id: string, o: Order, txHash: string)
  {
    && id in s.orders
    && (s.orders[id].status == PAID || (s.orders[id] == o && UsersOf(s.orders, txHash) - {id} == {}))
  }

  // A call changes at most the order it is for, and only by paying it.
  lemma AdvanceOrders(w: World, s: Store, orderId: string, txHash: string)
    ensures var orders := Advance(w, s, orderId, txHash).0.orders;
      && orders == Settle(w, s, orderId, txHash).0.orders
      && (orders == s.orders ||
          (orderId in s.orders && orders == s.orders[orderId := s.orders[orderId].(status := PAID, txHash := Some(txHash))]))
  {
    hide Stellar.VerifyPayment, QualifyingReferral;
  }

  lemma AdvanceKeepsTrack(w: World, s: Store, m: M.Match, id: string, o: Order, txHash: string, at: nat)
    requires o.status == PENDING && CarriesOffer(w, id, o, txHash, at) && OnTrack(s, id, o, txHash)
    requires m.txHash == txHash ==> m.orderId == id
    ensures var t := Advance(w, s, m.orderId, m.txHash).0;
      && OnTrack(t, id, o, txHash)
      && ((m.orderId == id && m.txHash == txHash) || s.orders[id].status == PAID ==> t.orders[id].status == PAID)
  {
    hide Advance, Settle, Stellar.Carries, Stellar.NoneShortBefore, Stellar.PageAccepts, OfferFor;
    AdvanceOrders(w, s, m.orderId, m.txHash);
    if s.orders[id].status != PAID && m.orderId == id && m.txHash == txHash {
      OfferSettles(w, s, id, txHash, at);
    }
  }

  lemma {:induction false} AdvanceAllPays(w: World, s: Store, matched: seq<M.Match>, id: string, o: Order, txHash: string, at: nat)
    requires o.status == PENDING && CarriesOffer(w, id, o, txHash, at) && OnTrack(s, id, o, txHash)
    requires forall m :: m in matched && m.txHash == txHash ==> m.orderId == id
    ensures var t := AdvanceAll(w, s, matched);
      && OnTrack(t, id, o, txHash)
      && (M.Match(id, txHash) in matched ==> t.orders[id].status == PAID)
  {
    hide Advance, OnTrack, CarriesOffer;
    if matched != [] {
      var before, last := matched[..|matched| - 1], matched[|matched| - 1];
      assert matched == before + [last] && last in matched;
      AdvanceAllPays(w, s, before, id, o, txHash, at);
      TrackHasOrder(AdvanceAll(w, s, before), id, o, txHash);
      AdvanceKeepsTrack(w, AdvanceAll(w, s, before), last, id, o, txHash, at);
    } else {
      TrackHasOrder(s, id, o, txHash);
    }
  }

  lemma TrackHasOrder(s: Store, id: string, o: Order, txHash: string)
    requires OnTrack(s, id, o, txHash)
    ensures id in s.orders
  {}

  /** A payment that was read and carries a pending order's offer is matched with that order and no other. */
  lemma OfferIsMatched(w: World, s: Store, ids: seq<string>, payments: seq<M.Payment>, id: string, txHash: string, at: nat)
    requires ListsPending(s.orders, ids) && DistinctMemos(ids)
    requires forall p :: p in payments ==> FromChain(w.horizon, p)
    requires exists p :: p in payments && p.txHash == Some(txHash)
    requires id != "" && id in s.orders && s.orders[id].status == PENDING && CarriesOffer(w, id, s.orders[id], txHash, at)
    ensures M.Match(id, txHash) in M.Matched(ids, payments)
    ensures forall m :: m in M.Matched(ids, payments) && m.txHash == txHash ==> m.orderId == id
  {
    hide Memo.Truncated, M.Matched, M.Hits, Stellar.NoneShortBefore;
    var matched, memo := M.Matched(ids, payments), Memo.Truncated(id);
    MemoNotEmpty(id);
    assert w.horizon[txHash].memo == Some(memo);
    forall m | m in matched && m.txHash == txHash
      ensures m.orderId == id
    {
      MatchedHits(ids, payments, m);
      var p :| p in payments && m in M.Hits(ids, p);
      HitsName(ids, p, m);
      SameMemoSameOrder(ids, m.orderId, id);
    }
    var p :| p in payments && p.txHash == Some(txHash);
    HitsName(ids, p, M.Match(id, txHash));
    MatchedHits(ids, payments, M.Match(id, txHash));
  }

  /** From quote to settlement: if a payment that was read carries what the quote of a pending order offered,
      and no other order has used it, then a run of the watcher leaves that order paid, whatever else it matches. */
  lemma CarriedOfferIsPaid(w: World, s: Store, ids: seq<string>, payments: seq<M.Payment>, id: string, txHash: string, at: nat)
    requires ListsPending(s.orders, ids) && DistinctMemos(ids)
    requires forall p :: p in payments ==> FromChain(w.horizon, p)
    requires exists p :: p in payments && p.txHash == Some(txHash)
    requires id != "" && id in s.orders && s.orders[id].status == PENDING
    requires CarriesOffer(w, id, s.orders[id], txHash, at) && UsersOf(s.orders, txHash) - {id} == {}
    ensures var t := AdvanceAll(w, s, M.Matched(ids, payments)); id in t.orders && t.orders[id].status == PAID
  {
    hide Memo.Truncated, AdvanceAll, M.Matched, M.Hits, CarriesOffer;
    OfferIsMatched(w, s, ids, payments, id, txHash, at);
    AdvanceAllPays(w, s, M.Matched(ids, payments), id, s.orders[id], txHash, at);
  }

  /** The same while anything else goes on: the matches are advanced at any points of a run, among quotes, submits,
      jobs and other polls. The order ends up paid exactly if no quote drops it, provided no other order, then
      or later, looks like it on the chain. */
  lemma WatchedOfferIsPaid(w: World, s: Store, ids: seq<string>, payments: seq<M.Payment>, events: seq<Event>,
                           id: string, txHash: string, at: nat)
    requires ListsPending(s.orders, ids) && DistinctMemos(ids)
    requires forall p :: p in payments ==> FromChain(w.horizon, p)
    requires exists p :: p in payments && p.txHash == Some(txHash)
    requires id != "" && id in s.orders && s.orders[id].status == PENDING
    requires CarriesOffer(w, id, s.orders[id], txHash, at) && UsersOf(s.orders, txHash) - {id} == {}
    requires O.Alone(s.orders, id) && O.StaysAlone(events, id)
    requires forall m :: m in M.Matched(ids, payments) ==> Settling(m.orderId, m.txHash) in events
    ensures var t := Run(w, s, events);
      id in t.orders && t.orders[id].status == PAID <==> !O.Dropped(w, s, events, id)
  {
    hide Memo.Truncated, Run, M.Matched, CarriesOffer, O.Dropped;
    OfferIsMatched(w, s, ids, payments, id, txHash, at);
    assert Settling(M.Match(id, txHash).orderId, M.Match(id, txHash).txHash) in events;
    O.OfferStays(w, s, events, id, txHash, at);
  }

  // ---------------------------------------------------------------- the watcher's own runs

  /** One run of the job: what else happens before it, how many records the account has by then, whose fetch fails, and
      the order in which the pending orders are listed. */
  datatype Job = Job(meanwhile: seq<Event>, visible: nat, failing: set<nat>, ids: seq<string>)

  /** The stored cursor and the tables. */
  datatype Watch = Watch(cursor: Option<nat>, store: Store)

  function Start(s: Watch): nat { if s.cursor.Some? then s.cursor.value else 0 }

  ghost predicate Fits(w: World, stream: M.Stream, s: Watch, j: Job)
  {
    && Start(s) <= |stream| && j.visible <= |stream|
    && ListsPending(Run(w, s.store, j.meanwhile).orders, j.ids)
  }

  ghost function AfterJob(w: World, stream: M.Stream, s: Watch, j: Job): Watch
    requires Fits(w, stream, s, j)
  {
    var end := M.PollEnd(Start(s), j.visible);
    Watch(if end == Start(s) then s.cursor else Some(end),
          AdvanceAll(w, Run(w, s.store, j.meanwhile), M.Matched(j.ids, M.Fetched(stream, Start(s), end, j.failing))))
  }

  /** Jobs that cannot run as described change nothing. */
  ghost function AfterJobs(w: World, stream: M.Stream, s: Watch, jobs: seq<Job>): Watch
  {
    if jobs == [] then s
    else
      var t, j := AfterJobs(w, stream, s, jobs[..|jobs| - 1]), jobs[|jobs| - 1];
      if Fits(w, stream, t, j) then AfterJob(w, stream, t, j) else t
  }

  ghost predicate AllFit(w: World, stream: M.Stream, s: Watch, jobs: seq<Job>)
  {
    jobs == [] ||
    (AllFit(w, stream, s, jobs[..|jobs| - 1])
     && Fits(w, stream, AfterJobs(w, stream, s, jobs[..|jobs| - 1]), jobs[|jobs| - 1]))
  }

  /** A quote between the runs deletes the order. */
  ghost predicate DroppedMeanwhile(w: World, stream: M.Stream, s: Watch, jobs: seq<Job>, id: string)
  {
    jobs != [] &&
    var before := jobs[..|jobs| - 1];
    || DroppedMeanwhile(w, stream, s, before, id)
    || O.Dropped(w, AfterJobs(w, stream, s, before).store, jobs[|jobs| - 1].meanwhile, id)
  }

  /** Nobody else can use the payment, and the order, while it is there, is pending on its terms or paid. */
  ghost predicate Waits(s: Store, id: string, o: Order, txHash: string)
  {
    O.Reserved(s, id, txHash) && (id in s.orders ==> s.orders[id] == o || s.orders[id].status == PAID)
  }

  ghost predicate IsPaid(s: Store, id: string) { id in s.orders && s.orders[id].status == PAID }

  lemma {:induction false} RunWaits(w: World, s: Store, events: seq<Event>, id: string, o: Order, txHash: string, at: nat)
    requires CarriesOffer(w, id, o, txHash, at) && Waits(s, id, o, txHash) && O.StaysAlone(events, id)
    ensures var t := Run(w, s, events);
      && Waits(t, id, o, txHash)
      && (id in t.orders ==> id in s.orders)
      && (id in s.orders ==> (id in t.orders <==> !O.Dropped(w, s, events, id)))
      && (IsPaid(s, id) ==> IsPaid(t, id))
  {
    hide Step, CarriesOffer, O.Reserved, O.Drops;
    if events != [] {
      var before, e := events[..|events| - 1], events[|events| - 1];
      assert events == before + [e] && e in events;
      RunWaits(w, s, before, id, o, txHash, at);
      var t := Run(w, s, before);
      O.StepReserves(w, t, e, id, o, txHash, at);
      O.DropsMeans(w, t, e, id);
      if IsPaid(t, id) { StepGrows(w, t, e, id); }
    }
  }

  lemma AdvanceWaits(w: World, s: Store, m: M.Match, id: string, o: Order, txHash: string, at: nat)
    requires o.status == PENDING && CarriesOffer(w, id, o, txHash, at) && Waits(s, id, o, txHash)
    ensures var t := Advance(w, s, m.orderId, m.txHash).0;
      && Waits(t, id, o, txHash) && t.orders.Keys == s.orders.Keys
      && (IsPaid(s, id) || (id in s.orders && m == M.Match(id, txHash)) ==> IsPaid(t, id))
  {
    hide Advance, Settle, CarriesOffer, O.Reserved, Step;
    AdvanceOrders(w, s, m.orderId, m.txHash);
    var t := Settle(w, s, m.orderId, m.txHash).0;
    O.SettleReserves(w, s, m.orderId, m.txHash, id, o, txHash, at);
    O.SameOrdersReserve(t, Advance(w, s, m.orderId, m.txHash).0, id, txHash);
    if IsPaid(s, id) {
      SettleGrows(w, s, m.orderId, m.txHash, id);
    } else if id in s.orders && m == M.Match(id, txHash) {
      O.OwnPaymentSettles(w, s, id, txHash, at);
    }
  }

  lemma {:induction false} AdvanceAllWaits(w: World, s: Store, matched: seq<M.Match>, id: string, o: Order, txHash: string, at: nat)
    requires o.status == PENDING && CarriesOffer(w, id, o, txHash, at) && Waits(s, id, o, txHash)
    ensures var t := AdvanceAll(w, s, matched);
      && Waits(t, id, o, txHash) && t.orders.Keys == s.orders.Keys
      && (IsPaid(s, id) || (id in s.orders && M.Match(id, txHash) in matched) ==> IsPaid(t, id))
  {
    hide Advance, Waits, CarriesOffer, IsPaid;
    if matched != [] {
      var before, last := matched[..|matched| - 1], matched[|matched| - 1];
      assert matched == before + [last];
      AdvanceAllWaits(w, s, before, id, o, txHash, at);
      AdvanceWaits(w, AdvanceAll(w, s, before), last, id, o, txHash, at);
    }
  }

  // A payment that is read and carries a pending order's offer is matched with that order.
  lemma ReadIsMatched(w: World, s: Store, j: Job, payments: seq<M.Payment>, p: M.Payment, id: string, o: Order, txHash: string, at: nat)
    requires CarriesOffer(w, id, o, txHash, at) && O.Alone(s.orders, id)
    requires ListsPending(s.orders, j.ids) && id != "" && id in j.ids
    requires p in payments && FromChain(w.horizon, p) && p.txHash == Some(txHash)
    ensures M.Match(id, txHash) in M.Matched(j.ids, payments)
  {
    hide Memo.Truncated, M.Matched, Stellar.NoneShortBefore;
    MemoNotEmpty(id);
    assert w.horizon[txHash].memo == Some(Memo.Truncated(id));
    M.NamedIsMatched(j.ids, payments, p, id);
  }

  lemma JobWaits(w: World, stream: M.Stream, s: Watch, j: Job, id: string, o: Order, txHash: string, at: nat, i: nat)
    requires Fits(w, stream, s, j) && i < j.visible && i !in j.failing
    requires FromChain(w.horizon, stream[i]) && stream[i].txHash == Some(txHash) && id != ""
    requires o.status == PENDING && CarriesOffer(w, id, o, txHash, at)
    requires Waits(s.store, id, o, txHash) && O.StaysAlone(j.meanwhile, id)
    ensures var t := AfterJob(w, stream, s, j);
      && Waits(t.store, id, o, txHash) && Start(t) <= |stream|
      && (id in t.store.orders ==> id in s.store.orders)
      && (id in s.store.orders ==> (id in t.store.orders <==> !O.Dropped(w, s.store, j.meanwhile, id)))
      && Start(t) >= M.Least(Start(s) + 200, i + 1) && Start(t) >= Start(s)
      && (IsPaid(s.store, id) || Start(s) <= i < Start(t) ==> id in t.store.orders ==> IsPaid(t.store, id))
  {
    hide Run, AdvanceAll, M.Matched, M.Fetched, CarriesOffer, O.Dropped, M.PollEnd, O.Alone, FromChain;
    var u := Run(w, s.store, j.meanwhile);
    RunWaits(w, s.store, j.meanwhile, id, o, txHash, at);
    var end := M.PollEnd(Start(s), j.visible);
    M.PollReaches(Start(s), j.visible, i);
    PollStays(Start(s), j.visible, |stream|);
    var payments := M.Fetched(stream, Start(s), end, j.failing);
    var matched := M.Matched(j.ids, payments);
    AdvanceAllWaits(w, u, matched, id, o, txHash, at);
    if Start(s) <= i < end && id in u.orders && !IsPaid(u, id) {
      M.FetchedHas(stream, Start(s), end, j.failing, stream[i]);
      ReadIsMatched(w, u, j, payments, stream[i], id, o, txHash, at);
    }
  }

  lemma PollStays(from: nat, visible: nat, size: nat)
    requires from <= size && visible <= size
    ensures from <= M.PollEnd(from, visible) <= size
  {}

  lemma {:induction false} JobsWait(w: World, stream: M.Stream, s: Watch, jobs: seq<Job>, id: string, o: Order, txHash: string, at: nat, i: nat)
    requires AllFit(w, stream, s, jobs)
    requires forall j :: j in jobs ==> i < j.visible && i !in j.failing && O.StaysAlone(j.meanwhile, id)
    requires Start(s) <= i < |stream| && FromChain(w.horizon, stream[i]) && stream[i].txHash == Some(txHash) && id != ""
    requires o.status == PENDING && CarriesOffer(w, id, o, txHash, at) && Waits(s.store, id, o, txHash) && id in s.store.orders
    ensures var t := AfterJobs(w, stream, s, jobs);
      && Waits(t.store, id, o, txHash)
      && (id in t.store.orders <==> !DroppedMeanwhile(w, stream, s, jobs, id))
      && Start(t) >= M.Least(Start(s) + 200 * |jobs|, i + 1)
      && (i < Start(t) && id in t.store.orders ==> IsPaid(t.store, id))
  {
    hide Fits, AfterJob, Waits, IsPaid, FromChain, CarriesOffer, O.Dropped, O.StaysAlone;
    if jobs != [] {
      var before, j := jobs[..|jobs| - 1], jobs[|jobs| - 1];
      assert jobs == before + [j] && j in jobs;
      JobsWait(w, stream, s, before, id, o, txHash, at, i);
      var t := AfterJobs(w, stream, s, before);
      JobWaits(w, stream, t, j, id, o, txHash, at, i);
    }
  }

  /** From quote to settlement through the watcher's own runs, from the cursor it stored, while quotes, submits and other
      jobs go on in between: the payment stands at `i` of the stream, is visible and can be fetched. After as many
      runs as it takes to get there, two hundred records at a time, the order is paid exactly if no quote has dropped it. */
  lemma PolledOfferIsPaid(w: World, stream: M.Stream, s: Watch, jobs: seq<Job>, id: string, txHash: string, at: nat, i: nat)
    requires AllFit(w, stream, s, jobs)
    requires Start(s) <= i < |stream| && i < Start(s) + 200 * |jobs|
    requires forall j :: j in jobs ==> i < j.visible && i !in j.failing && O.StaysAlone(j.meanwhile, id)
    requires FromChain(w.horizon, stream[i]) && stream[i].txHash == Some(txHash)
    requires id != "" && id in s.store.orders && s.store.orders[id].status == PENDING
    requires CarriesOffer(w, id, s.store.orders[id], txHash, at)
    requires O.Alone(s.store.orders, id) && UsersOf(s.store.orders, txHash) - {id} == {}
    ensures var t := AfterJobs(w, stream, s, jobs);
      && (id in t.store.orders && t.store.orders[id].status == PAID <==> !DroppedMeanwhile(w, stream, s, jobs, id))
      && i < Start(t)
  {
    hide AfterJobs, AllFit, FromChain, CarriesOffer, O.Alone, O.StaysAlone, DroppedMeanwhile;
    JobsWait(w, stream, s, jobs, id, s.store.orders[id], txHash, at, i);
  }

  // ---------------------------------------------------------------- the job

  function Counted(out: Settlement): nat { if out.Settled? || out.Already? then 1 else 0 }

  ghost function Processed(w: World, s: Store, matched: seq<M.Match>): nat
  {
    if matched == [] then 0
    else
      var before, m := matched[..|matched| - 1], matched[|matched| - 1];
      Processed(w, s, before) + Counted(Advance(w, AdvanceAll(w, s, before), m.orderId, m.txHash).1)
  }

  /** The order of match `i` is paid once its turn is over, by this call or before. */
  ghost predicate PaidInTurn(w: World, s: Store, matched: seq<M.Match>, i: nat)
    requires i < |matched|
  {
    IsPaid(AdvanceAll(w, s, matched[..i + 1]), matched[i].orderId)
  }

  ghost function TurnsPaid(w: World, s: Store, matched: seq<M.Match>): set<nat>
  {
    set i: nat | i < |matched| && PaidInTurn(w, s, matched, i)
  }

  lemma TurnsGrow(w: World, s: Store, matched: seq<M.Match>)
    requires matched != []
    ensures var n: nat := |matched| - 1; var earlier := TurnsPaid(w, s, matched[..n]);
      n !in earlier && TurnsPaid(w, s, matched) == earlier + if PaidInTurn(w, s, matched, n) then {n} else {}
  {
    hide AdvanceAll, IsPaid;
    var n := |matched| - 1;
    forall i: nat | i < n ensures PaidInTurn(w, s, matched, i) <==> PaidInTurn(w, s, matched[..n], i) {
      assert matched[..i + 1] == matched[..n][..i + 1];
    }
    hide PaidInTurn;
  }

  /** The count of a run is the number of such matches. */
  lemma {:induction false} ProcessedCounts(w: World, s: Store, matched: seq<M.Match>)
    ensures Processed(w, s, matched) == |TurnsPaid(w, s, matched)|
  {
    hide Advance, IsPaid, AdvanceAll, TurnsPaid;
    if matched == [] {
      NoTurns(w, s);
    } else {
      var n := |matched| - 1;
      ProcessedCounts(w, s, matched[..n]);
      CountedIffPaid(w, AdvanceAll(w, s, matched[..n]), matched[n]);
      AdvanceLast(w, s, matched);
      TurnsGrow(w, s, matched);
    }
  }

  lemma NoTurns(w: World, s: Store)
    ensures TurnsPaid(w, s, []) == {}
  {}

  lemma AdvanceLast(w: World, s: Store, matched: seq<M.Match>)
    requires matched != []
    ensures var n := |matched| - 1;
      && matched[..n + 1] == matched
      && AdvanceAll(w, s, matched) == Advance(w, AdvanceAll(w, s, matched[..n]), matched[n].orderId, matched[n].txHash).0
  {}

  lemma CountedIffPaid(w: World, s: Store, m: M.Match)
    ensures var (t, out) := Advance(w, s, m.orderId, m.txHash);
      Counted(out) == if IsPaid(t, m.orderId) then 1 else 0
  {
    hide Stellar.VerifyPayment, QualifyingReferral;
  }

  class Watcher {
    const db: CommerceDb.Database

    /** The cursor kept in Redis. */
    var cursor: Option<nat>

    constructor (db: CommerceDb.Database)
      ensures this.db == db && cursor == None
    {
      this.db := db;
      cursor := None;
    }

    /** Read a batch: its payments, and where the next one starts if it was not empty. */
    method Read(stream: M.Stream, from: nat, visible: nat, failing: set<nat>)
      returns (payments: seq<M.Payment>, nextCursor: Option<nat>)
      requires from <= |stream| && visible <= |stream|
      ensures var n := if visible <= from then 0 else if visible - from < 200 then visible - from else 200;
        && payments == M.Fetched(stream, from, from + n, failing)
        && M.IsBatch(payments, stream, from, from + n, failing)
        && nextCursor == (if n == 0 then None else Some(from + n))
    {
      payments, nextCursor := [], None;
      for i := from to M.PollEnd(from, visible)
        invariant payments == M.Fetched(stream, from, i, failing)
        invariant nextCursor == if i == from then None else Some(i)
      {
        nextCursor := Some(i + 1);
        if i !in failing {
          payments := payments + [stream[i]];
        }
      }
      M.BatchMeans(stream, from, M.PollEnd(from, visible), failing);
    }

    method FindPending() returns (ids: seq<string>)
      ensures ListsPending(db.orders, ids)
    {
      ids := [];
      var rest := set id | id in db.orders && db.orders[id].status == PENDING;
      while rest != {}
        invariant forall id :: id in rest ==> id in db.orders && db.orders[id].status == PENDING && id !in ids
        invariant forall id :: id in db.orders && db.orders[id].status == PENDING ==> id in rest || id in ids
        invariant forall id :: id in ids ==> id in db.orders && db.orders[id].status == PENDING
        invariant forall i, j :: 0 <= i < j < |ids| ==> ids[i] != ids[j]
        decreases |rest|
      {
        var id :| id in rest;
        ids, rest := ids + [id], rest - {id};
      }
    }

    method AdvanceMatches(matched: seq<M.Match>) returns (processed: nat)
      requires db.Valid()
      modifies db`orders, db`ledger, db`referrals, db`queue
      ensures db.Snapshot() == AdvanceAll(db.world, old(db.Snapshot()), matched)
      ensures processed == Processed(db.world, old(db.Snapshot()), matched)
      ensures processed == |TurnsPaid(db.world, old(db.Snapshot()), matched)|
      ensures db.Valid()
    {
      hide Advance, Inv, WorldOk, TurnsPaid;
      ProcessedCounts(db.world, db.Snapshot(), matched);
      ghost var before := db.Snapshot();
      processed := 0;
      for i := 0 to |matched|
        invariant db.Valid()
        invariant db.Snapshot() == AdvanceAll(db.world, before, matched[..i])
        invariant processed == Processed(db.world, before, matched[..i])
      {
        assert matched[..i + 1][..i] == matched[..i];
        var res := db.VerifyAndAdvanceOrder(matched[i].orderId, matched[i].txHash);
        if res.Settled? || res.Already? {
          processed := processed + 1;
        }
      }
      assert matched[..|matched|] == matched;
    }

    /** One job. `failing` are the records whose transaction cannot be fetched. */
    method Run(stream: M.Stream, visible: nat, failing: set<nat>, given: Option<nat>)
      returns (processed: nat, ghost ids: seq<string>)
      requires visible <= |stream|
      requires given.Some? ==> given.value <= |stream|
      requires cursor.Some? ==> cursor.value <= |stream|
      requires db.Valid()
      modifies this`cursor, db`orders, db`ledger, db`referrals, db`queue
      ensures ListsPending(old(db.orders), ids)
      ensures var from := if given.Some? then given.value else if old(cursor).Some? then old(cursor).value else 0;
        var n := if visible <= from then 0 else if visible - from < 200 then visible - from else 200;
        var matched := M.Matched(ids, M.Fetched(stream, from, from + n, failing));
        && cursor == (if n == 0 then old(cursor) else Some(from + n))
        && db.Snapshot() == AdvanceAll(db.world, old(db.Snapshot()), matched)
        && processed == |TurnsPaid(db.world, old(db.Snapshot()), matched)|
      ensures var before, job := Watch(old(cursor), old(db.Snapshot())), Job([], visible, failing, ids);
        given.None? ==>
          Fits(db.world, stream, before, job) && Watch(cursor, db.Snapshot()) == AfterJob(db.world, stream, before, job)
      ensures db.Valid()
    {
      hide AdvanceAll, Processed, TurnsPaid, M.Matched, M.Fetched, Inv, WorldOk;
      var from := if given.Some? then given.value else if cursor.Some? then cursor.value else 0;
      var payments, nextCursor := Read(stream, from, visible, failing);
      var pendingOrders := FindPending();
      ids := pendingOrders;
      var matched := M.MatchAndAdvancePayments(pendingOrders, payments);
      processed := AdvanceMatches(matched);
      if nextCursor.Some? {
        cursor := nextCursor;
      }
    }
  }
}
