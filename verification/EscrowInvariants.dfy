/** What every interleaving of escrow steps keeps. */
module EscrowInvariants {
  import opened Wrappers
  import opened Stellar
  import opened Escrow
  import opened MapSums
  import Memo
  import Money

  predicate WorldOk(w: World) { 0 <= w.feeBps <= Money.BPS_DENOMINATOR }

  // ---------------------------------------------------------------- trades and listings

  /** A trade is for the terms of its listing, between two players, and its deposit verifies. */
  predicate TradeOk(w: World, listings: map<string, Listing>, id: string, t: Trade)
  {
    && t.listingId in listings
    && var l := listings[t.listingId];
    && t.sellerId == l.sellerId && t.buyerId != t.sellerId && t.price == l.price && t.currency == l.currency
    && t.price == t.fee + t.net && 0 <= t.fee && 0 <= t.net
    && t.status in {ESCROW_PENDING, PAID, COMPLETED, REFUNDED}
    && l.status == (if t.status == COMPLETED then SOLD else LOCKED)
    && (t.status == ESCROW_PENDING <==> t.escrowTxHash.None?)
    && (t.escrowTxHash.Some? ==> VerifyPayment(w.horizon, t.escrowTxHash.value, Demand(w, id, t)).Verified?)
  }

  ghost predicate HasTrade(trades: map<string, Trade>, listingId: string)
  {
    exists t :: t in trades && trades[t].listingId == listingId
  }

  predicate SameDeposit(a: Trade, b: Trade) { a.escrowTxHash.Some? && a.escrowTxHash == b.escrowTxHash }

  ghost predicate TradeInv(w: World, listings: map<string, Listing>, trades: map<string, Trade>)
  {
    && (forall t :: t in trades ==> TradeOk(w, listings, t, trades[t]))
    && (forall t, u :: t in trades && u in trades && trades[t].listingId == trades[u].listingId ==> t == u)
    && (forall t, u :: t in trades && u in trades && SameDeposit(trades[t], trades[u]) ==> t == u)
    && (forall l :: l in listings ==>
          0 <= listings[l].price && (listings[l].status == ACTIVE <==> !HasTrade(trades, l)))
  }

  // ---------------------------------------------------------------- ledger

  function EntryCount(ledger: seq<Entry>, kind: EntryType, tradeId: string): nat
  {
    if ledger == [] then 0
    else
      EntryCount(ledger[..|ledger| - 1], kind, tradeId) +
      (if ledger[|ledger| - 1].kind == kind && ledger[|ledger| - 1].tradeId == tradeId then 1 else 0)
  }

  /** The entries a trade must have, by its status alone. */
  predicate Recorded(trades: map<string, Trade>, kind: EntryType, tradeId: string)
  {
    && tradeId in trades
    && match kind
       case ESCROW_IN => trades[tradeId].status != ESCROW_PENDING
       case PAYOUT => trades[tradeId].status == COMPLETED
       case REFUND => trades[tradeId].status == REFUNDED
  }

  predicate EntryOk(w: World, trades: map<string, Trade>, e: Entry)
  {
    && e.tradeId in trades
    && var t := trades[e.tradeId];
    && e.asset == AssetOf(t.currency, w.env)
    && match e.kind
       case ESCROW_IN => e.amount == t.price && t.escrowTxHash == Some(e.txHash) && e.dest == w.env.receivingAccount
       case PAYOUT => e.amount == t.net && t.payoutTxHash == Some(e.txHash) && e.dest == Wallet(w, t.sellerId)
       case REFUND => e.amount == t.price && e.dest == Wallet(w, t.buyerId)
  }

  ghost predicate LedgerInv(w: World, trades: map<string, Trade>, ledger: seq<Entry>)
  {
    && (forall kind, t :: EntryCount(ledger, kind, t) == if Recorded(trades, kind, t) then 1 else 0)
    && (forall e :: e in ledger ==> EntryOk(w, trades, e))
  }

  // ---------------------------------------------------------------- jobs and payments sent

  function SendCount(sent: seq<Transfer>, tradeId: string): nat
  {
    if sent == [] then 0
    else SendCount(sent[..|sent| - 1], tradeId) + if sent[|sent| - 1].tradeId == tradeId then 1 else 0
  }

  predicate Live(queue: map<Job, JobState>, job: Job) { job in queue && queue[job] != Finished }

  /** The job has not sent its payment yet but may. */
  predicate MaySend(queue: map<Job, JobState>, job: Job) { job in queue && (queue[job] == Waiting || queue[job] == Paying) }

  /** A trade has at most one job that can act, only while it is PAID, and a payment was sent at most
      once, never while a job may still send one. */
  predicate JobsOk(trades: map<string, Trade>, queue: map<Job, JobState>, sent: seq<Transfer>, t: string)
  {
    && (Live(queue, TransferJob(t)) || Live(queue, RefundJob(t)) ==> t in trades && trades[t].status == PAID)
    && (Live(queue, TransferJob(t)) ==> RefundJob(t) !in queue)
    && (t !in trades || trades[t].status == ESCROW_PENDING ==>
          TransferJob(t) !in queue && RefundJob(t) !in queue && SendCount(sent, t) == 0)
    && SendCount(sent, t) <= (if MaySend(queue, TransferJob(t)) || MaySend(queue, RefundJob(t)) then 0 else 1)
    && (t in trades && trades[t].status in {COMPLETED, REFUNDED} ==> SendCount(sent, t) == 1)
    && (Live(queue, TransferJob(t)) && queue[TransferJob(t)].Sent? ==> SendCount(sent, t) == 1)
    && (Live(queue, RefundJob(t)) && queue[RefundJob(t)].Sent? ==> SendCount(sent, t) == 1)
  }

  predicate TransferOk(w: World, trades: map<string, Trade>, queue: map<Job, JobState>, x: Transfer)
  {
    && x.tradeId in trades
    && var t := trades[x.tradeId];
    && x.asset == AssetOf(t.currency, w.env)
    && (x.kind == PAYOUT || x.kind == REFUND)
    && (x.kind == PAYOUT ==> x.amount == t.net && x.dest == Wallet(w, t.sellerId) && t.status != REFUNDED
                             && !Live(queue, RefundJob(x.tradeId)))
    && (x.kind == REFUND ==> x.amount == t.price && x.dest == Wallet(w, t.buyerId) && t.status != COMPLETED
                             && !Live(queue, TransferJob(x.tradeId)))
  }

  ghost predicate JobInv(w: World, trades: map<string, Trade>, queue: map<Job, JobState>, sent: seq<Transfer>)
  {
    && (forall t :: JobsOk(trades, queue, sent, t))
    && (forall x :: x in sent ==> TransferOk(w, trades, queue, x))
  }

  // ---------------------------------------------------------------- money held

  /** Deposits less payouts and refunds in one asset. */
  function Balance(ledger: seq<Entry>, asset: Asset): int
  {
    if ledger == [] then 0
    else
      Balance(ledger[..|ledger| - 1], asset) +
      (var e := ledger[|ledger| - 1];
       if e.asset != asset then 0 else if e.kind == ESCROW_IN then e.amount else -e.amount)
  }

  /** What the platform keeps of a trade: the deposit until it is released, then the fee. */
  function Held(t: Trade, c: Currency): int
  {
    if t.currency != c then 0
    else if t.status == PAID then t.price
    else if t.status == COMPLETED then t.fee
    else 0
  }

  ghost function Holdings(trades: map<string, Trade>, c: Currency): map<string, int>
  {
    map t | t in trades :: Held(trades[t], c)
  }

  ghost predicate BalanceInv(w: World, trades: map<string, Trade>, ledger: seq<Entry>)
  {
    forall c: Currency :: Balance(ledger, AssetOf(c, w.env)) == Sum(Holdings(trades, c))
  }

  ghost predicate Inv(w: World, s: Store)
  {
    && TradeInv(w, s.listings, s.trades)
    && LedgerInv(w, s.trades, s.ledger)
    && JobInv(w, s.trades, s.queue, s.sent)
    && BalanceInv(w, s.trades, s.ledger)
  }

  ghost predicate Init(s: Store)
  {
    && s.listings == map[] && s.trades == map[] && s.ledger == [] && s.queue == map[] && s.sent == []
    && (forall slot :: slot in s.ownership ==> s.ownership[slot].lockedFor.None?)
  }

  lemma InitHasInv(w: World, s: Store)
    requires Init(s)
    ensures Inv(w, s)
  {
    forall c: Currency
      ensures Holdings(s.trades, c) == map[]
    {}
  }

  // ---------------------------------------------------------------- appending

  lemma CountAppend(ledger: seq<Entry>, e: Entry)
    ensures forall kind, t {:trigger EntryCount(ledger + [e], kind, t)} ::
      EntryCount(ledger + [e], kind, t) == EntryCount(ledger, kind, t) + if e.kind == kind && e.tradeId == t then 1 else 0
  {
    assert (ledger + [e])[..|ledger|] == ledger;
  }

  lemma BalanceAppend(ledger: seq<Entry>, e: Entry, asset: Asset)
    ensures Balance(ledger + [e], asset)
         == Balance(ledger, asset) + if e.asset != asset then 0 else if e.kind == ESCROW_IN then e.amount else -e.amount
  {
    assert (ledger + [e])[..|ledger|] == ledger;
  }

  lemma SendAppend(sent: seq<Transfer>, x: Transfer)
    ensures forall t {:trigger SendCount(sent + [x], t)} ::
      SendCount(sent + [x], t) == SendCount(sent, t) + if x.tradeId == t then 1 else 0
  {
    assert (sent + [x])[..|sent|] == sent;
  }

  // One trade's row changes: the total changes by the difference.
  lemma HoldingsUpdate(trades: map<string, Trade>, id: string, t: Trade, c: Currency)
    ensures Sum(Holdings(trades[id := t], c))
         == Sum(Holdings(trades, c)) + Held(t, c) - if id in trades then Held(trades[id], c) else 0
  {
    SumUpdate(Holdings(trades, c), id, Held(t, c));
    assert Holdings(trades[id := t], c) == Holdings(trades, c)[id := Held(t, c)];
  }

  // ---------------------------------------------------------------- one trade moves on

  /** Row `id` moves from `trades[id]` to `t`, recording entry `e`. */
  predicate Moves(w: World, trades: map<string, Trade>, id: string, t: Trade, e: Entry)
  {
    && id in trades && e.tradeId == id
    && var o := trades[id];
    && t == o.(status := t.status, escrowTxHash := t.escrowTxHash, payoutTxHash := t.payoutTxHash)
    && e.asset == AssetOf(t.currency, w.env)
    && match e.kind
       case ESCROW_IN =>
         o.status == ESCROW_PENDING && t.status == PAID && t.payoutTxHash == o.payoutTxHash
         && t.escrowTxHash == Some(e.txHash) && e.amount == t.price && e.dest == w.env.receivingAccount
       case PAYOUT =>
         o.status == PAID && t.status == COMPLETED && t.escrowTxHash == o.escrowTxHash
         && t.payoutTxHash == Some(e.txHash) && e.amount == t.net && e.dest == Wallet(w, t.sellerId)
       case REFUND =>
         o.status == PAID && t.status == REFUNDED && t.escrowTxHash == o.escrowTxHash && t.payoutTxHash == o.payoutTxHash
         && e.amount == t.price && e.dest == Wallet(w, t.buyerId)
  }

  lemma MoveKeepsLedger(w: World, trades: map<string, Trade>, ledger: seq<Entry>, id: string, t: Trade, e: Entry)
    requires LedgerInv(w, trades, ledger) && Moves(w, trades, id, t, e)
    ensures LedgerInv(w, trades[id := t], ledger + [e])
  {
    var trades' := trades[id := t];
    CountAppend(ledger, e);
    forall kind, u
      ensures EntryCount(ledger + [e], kind, u) == if Recorded(trades', kind, u) then 1 else 0
    {
      assert EntryCount(ledger, kind, u) == if Recorded(trades, kind, u) then 1 else 0;
    }
    forall x | x in ledger + [e]
      ensures EntryOk(w, trades', x)
    {
      if x in ledger {
        assert EntryOk(w, trades, x);
        NoEntryYet(ledger, x);
      }
    }
  }

  // An entry in the ledger is counted.
  lemma {:induction false} NoEntryYet(ledger: seq<Entry>, e: Entry)
    requires e in ledger
    ensures EntryCount(ledger, e.kind, e.tradeId) >= 1
  {
    var last := ledger[|ledger| - 1];
    if last != e {
      assert ledger == ledger[..|ledger| - 1] + [last];
      NoEntryYet(ledger[..|ledger| - 1], e);
    }
  }

  lemma MoveKeepsBalance(w: World, trades: map<string, Trade>, ledger: seq<Entry>, id: string, t: Trade, e: Entry)
    requires BalanceInv(w, trades, ledger) && Moves(w, trades, id, t, e) && t.price == t.fee + t.net
    ensures BalanceInv(w, trades[id := t], ledger + [e])
  {
    forall c: Currency
      ensures Balance(ledger + [e], AssetOf(c, w.env)) == Sum(Holdings(trades[id := t], c))
    {
      BalanceAppend(ledger, e, AssetOf(c, w.env));
      HoldingsUpdate(trades, id, t, c);
    }
  }

  lemma HasTradeUpdate(trades: map<string, Trade>, id: string, t: Trade)
    requires id in trades && t.listingId == trades[id].listingId
    ensures forall k {:trigger HasTrade(trades[id := t], k)} :: HasTrade(trades[id := t], k) == HasTrade(trades, k)
  {
    var trades' := trades[id := t];
    forall k
      ensures HasTrade(trades', k) == HasTrade(trades, k)
    {
      if u :| u in trades && trades[u].listingId == k { assert u in trades' && trades'[u].listingId == k; }
      if u :| u in trades' && trades'[u].listingId == k { assert u in trades && trades[u].listingId == k; }
    }
  }

  lemma HasTradeInsert(trades: map<string, Trade>, id: string, t: Trade)
    requires id !in trades
    ensures forall k {:trigger HasTrade(trades[id := t], k)} ::
      HasTrade(trades[id := t], k) == (HasTrade(trades, k) || k == t.listingId)
  {
    var trades' := trades[id := t];
    forall k
      ensures HasTrade(trades', k) == (HasTrade(trades, k) || k == t.listingId)
    {
      if u :| u in trades && trades[u].listingId == k { assert u in trades' && trades'[u].listingId == k; }
      if k == t.listingId { assert trades'[id].listingId == k; }
    }
  }

  lemma MoveKeepsOneDeposit(w: World, trades: map<string, Trade>, id: string, t: Trade, e: Entry)
    requires forall a, b :: a in trades && b in trades && SameDeposit(trades[a], trades[b]) ==> a == b
    requires Moves(w, trades, id, t, e) && (e.kind == ESCROW_IN ==> UsersOf(trades, e.txHash) - {id} == {})
    ensures var u := trades[id := t]; forall a, b :: a in u && b in u && SameDeposit(u[a], u[b]) ==> a == b
  {
    forall u | u in trades && u != id
      ensures !SameDeposit(trades[u], t)
    {
      assert !SameDeposit(trades[u], trades[id]);
      if e.kind == ESCROW_IN {
        assert u in UsersOf(trades, e.txHash) - {id} <==> trades[u].escrowTxHash == Some(e.txHash);
      }
    }
  }

  lemma MoveKeepsTradeOk(w: World, listings: map<string, Listing>, trades: map<string, Trade>, id: string, t: Trade, e: Entry)
    requires TradeInv(w, listings, trades) && Moves(w, trades, id, t, e)
    requires e.kind == ESCROW_IN ==> VerifyPayment(w.horizon, e.txHash, Demand(w, id, t)).Verified?
    requires t.listingId in listings
    ensures var l := listings[t.listingId].(status := if t.status == COMPLETED then SOLD else LOCKED);
      forall u :: u in trades ==> TradeOk(w, listings[t.listingId := l], u, trades[id := t][u])
  {
    hide VerifyPayment;
    assert TradeOk(w, listings, id, trades[id]);
    assert Demand(w, id, t) == Demand(w, id, trades[id]);
    var l := listings[t.listingId].(status := if t.status == COMPLETED then SOLD else LOCKED);
    forall u | u in trades
      ensures TradeOk(w, listings[t.listingId := l], u, trades[id := t][u])
    {
      assert TradeOk(w, listings, u, trades[u]);
    }
  }

  lemma MoveKeepsTrades(w: World, listings: map<string, Listing>, trades: map<string, Trade>, id: string, t: Trade, e: Entry)
    requires TradeInv(w, listings, trades) && Moves(w, trades, id, t, e)
    requires e.kind == ESCROW_IN ==>
      VerifyPayment(w.horizon, e.txHash, Demand(w, id, t)).Verified? && UsersOf(trades, e.txHash) - {id} == {}
    ensures t.listingId in listings
    ensures var l := listings[t.listingId].(status := if t.status == COMPLETED then SOLD else LOCKED);
      TradeInv(w, listings[t.listingId := l], trades[id := t])
  {
    hide Moves, TradeOk, HasTrade, SameDeposit, UsersOf, VerifyPayment;
    MoveKeepsTerms(w, listings, trades, id, t, e);
    MoveKeepsTradeOk(w, listings, trades, id, t, e);
    MoveKeepsListings(listings, trades, id, t);
    MoveKeepsOneDeposit(w, trades, id, t, e);
  }

  lemma MoveKeepsTerms(w: World, listings: map<string, Listing>, trades: map<string, Trade>, id: string, t: Trade, e: Entry)
    requires TradeInv(w, listings, trades) && Moves(w, trades, id, t, e)
    ensures id in trades && t.listingId == trades[id].listingId && t.listingId in listings
    ensures forall u :: u in trades ==> trades[id := t][u].listingId == trades[u].listingId
  {
    hide VerifyPayment, HasTrade, SameDeposit;
    assert TradeOk(w, listings, id, trades[id]);
  }

  lemma MoveKeepsListings(listings: map<string, Listing>, trades: map<string, Trade>, id: string, t: Trade)
    requires id in trades && t.listingId == trades[id].listingId && t.listingId in listings
    requires forall l :: l in listings ==> 0 <= listings[l].price && (listings[l].status == ACTIVE <==> !HasTrade(trades, l))
    ensures var row := listings[t.listingId].(status := if t.status == COMPLETED then SOLD else LOCKED);
      var after := listings[t.listingId := row];
      forall l :: l in after ==> 0 <= after[l].price && (after[l].status == ACTIVE <==> !HasTrade(trades[id := t], l))
  {
    assert HasTrade(trades, t.listingId);
    HasTradeUpdate(trades, id, t);
    hide HasTrade;
  }

  // ---------------------------------------------------------------- the steps

  lemma OfferKeepsTrades(w: World, listings: map<string, Listing>, trades: map<string, Trade>, newId: string, l: Listing)
    requires TradeInv(w, listings, trades) && newId !in listings && l.status == ACTIVE && 0 <= l.price
    ensures TradeInv(w, listings[newId := l], trades)
  {
    forall t | t in trades
      ensures TradeOk(w, listings[newId := l], t, trades[t]) && trades[t].listingId != newId
    {
      assert TradeOk(w, listings, t, trades[t]);
    }
  }

  lemma OpenKeepsTradeOk(w: World, s: Store, buyerId: string, listingId: string, newId: string)
    requires WorldOk(w) && TradeInv(w, s.listings, s.trades) && newId !in s.trades
    requires listingId in s.listings && s.listings[listingId].status == ACTIVE && s.listings[listingId].sellerId != buyerId
    ensures var t := OpenTrade(w, s, buyerId, listingId, newId);
      forall u :: u in t.trades ==> TradeOk(w, t.listings, u, t.trades[u]) && (u != newId ==> t.trades[u].listingId != listingId)
  {
    hide VerifyPayment, Money.FeeStroops;
    var l := s.listings[listingId];
    var t := OpenTrade(w, s, buyerId, listingId, newId);
    Money.FeeWithinGross(l.price, w.feeBps);
    assert !HasTrade(s.trades, listingId);
    forall u | u in t.trades
      ensures TradeOk(w, t.listings, u, t.trades[u]) && (u != newId ==> t.trades[u].listingId != listingId)
    {
      if u != newId { assert TradeOk(w, s.listings, u, s.trades[u]); }
    }
  }

  lemma OpenKeepsTrades(w: World, s: Store, buyerId: string, listingId: string, newId: string)
    requires WorldOk(w) && TradeInv(w, s.listings, s.trades) && newId !in s.trades
    requires listingId in s.listings && s.listings[listingId].status == ACTIVE && s.listings[listingId].sellerId != buyerId
    ensures var t := OpenTrade(w, s, buyerId, listingId, newId); TradeInv(w, t.listings, t.trades)
  {
    hide VerifyPayment, Money.FeeStroops, TradeOk;
    OpenKeepsTradeOk(w, s, buyerId, listingId, newId);
    HasTradeInsert(s.trades, newId, NewTrade(w, listingId, s.listings[listingId], buyerId));
  }

  lemma OpenKeepsRest(w: World, trades: map<string, Trade>, ledger: seq<Entry>, queue: map<Job, JobState>, sent: seq<Transfer>,
                      newId: string, t: Trade)
    requires LedgerInv(w, trades, ledger) && JobInv(w, trades, queue, sent) && BalanceInv(w, trades, ledger)
    requires newId !in trades && t.status == ESCROW_PENDING
    ensures LedgerInv(w, trades[newId := t], ledger)
    ensures JobInv(w, trades[newId := t], queue, sent)
    ensures BalanceInv(w, trades[newId := t], ledger)
  {
    var trades' := trades[newId := t];
    assert forall kind, u :: Recorded(trades', kind, u) == Recorded(trades, kind, u);
    forall e | e in ledger
      ensures EntryOk(w, trades', e)
    {
      assert EntryOk(w, trades, e);
    }
    forall u
      ensures JobsOk(trades', queue, sent, u)
    {
      assert JobsOk(trades, queue, sent, u);
    }
    forall x | x in sent
      ensures TransferOk(w, trades', queue, x)
    {
      assert TransferOk(w, trades, queue, x);
    }
    forall c: Currency
      ensures Balance(ledger, AssetOf(c, w.env)) == Sum(Holdings(trades', c))
    {
      HoldingsUpdate(trades, newId, t, c);
    }
  }

  lemma QuoteKeepsInv(w: World, s: Store, buyerId: string, listingId: string, newId: string, built: bool)
    requires WorldOk(w) && Inv(w, s) && newId !in s.trades
    ensures Inv(w, CreateTradeQuote(w, s, buyerId, listingId, newId, built).0)
  {
    hide TradeInv, LedgerInv, JobInv, BalanceInv, OfferFor, Money.FeeStroops;
    if listingId in s.listings && s.listings[listingId].status == ACTIVE && s.listings[listingId].sellerId != buyerId {
      OpenKeepsTrades(w, s, buyerId, listingId, newId);
      OpenKeepsRest(w, s.trades, s.ledger, s.queue, s.sent, newId, NewTrade(w, listingId, s.listings[listingId], buyerId));
    }
  }

  // The queue changes for one trade; `sent` and the trade's row may change with it.
  lemma JobsMove(w: World, trades: map<string, Trade>, trades': map<string, Trade>,
                 queue: map<Job, JobState>, queue': map<Job, JobState>, sent: seq<Transfer>, id: string)
    requires JobInv(w, trades, queue, sent)
    requires forall u :: u != id ==> (u in trades <==> u in trades') && (u in trades ==> trades'[u] == trades[u])
    requires id in trades' && (id in trades ==> SameTerms(trades[id], trades'[id]))
    requires forall u :: u != id ==> SameJob(queue, queue', TransferJob(u)) && SameJob(queue, queue', RefundJob(u))
    requires JobsOk(trades', queue', sent, id)
    requires forall x :: x in sent && x.tradeId == id ==> TransferOk(w, trades', queue', x)
    ensures JobInv(w, trades', queue', sent)
  {
    forall u
      ensures JobsOk(trades', queue', sent, u)
    {
      assert JobsOk(trades, queue, sent, u);
      if u != id { assert SameJob(queue, queue', TransferJob(u)) && SameJob(queue, queue', RefundJob(u)); }
    }
    forall x | x in sent
      ensures TransferOk(w, trades', queue', x)
    {
      assert TransferOk(w, trades, queue, x);
      if x.tradeId != id {
        assert SameJob(queue, queue', TransferJob(x.tradeId)) && SameJob(queue, queue', RefundJob(x.tradeId));
      }
    }
  }

  predicate SameTerms(a: Trade, b: Trade)
  {
    a.currency == b.currency && a.net == b.net && a.price == b.price && a.sellerId == b.sellerId && a.buyerId == b.buyerId
  }

  predicate SameJob(a: map<Job, JobState>, b: map<Job, JobState>, job: Job)
  {
    (job in a <==> job in b) && (job in a ==> a[job] == b[job])
  }

  // A payment that was sent is counted.
  lemma {:induction false} SentIsCounted(sent: seq<Transfer>, x: Transfer)
    requires x in sent
    ensures SendCount(sent, x.tradeId) >= 1
  {
    var last := sent[|sent| - 1];
    if last != x {
      assert sent == sent[..|sent| - 1] + [last];
      SentIsCounted(sent[..|sent| - 1], x);
    }
  }

  lemma NoneSent(sent: seq<Transfer>, id: string)
    requires SendCount(sent, id) == 0
    ensures forall x :: x in sent ==> x.tradeId != id
  {
    forall x | x in sent
      ensures x.tradeId != id
    {
      if x.tradeId == id { SentIsCounted(sent, x); }
    }
  }

  lemma AbsentJob(w: World, trades: map<string, Trade>, queue: map<Job, JobState>, sent: seq<Transfer>, id: string)
    requires JobInv(w, trades, queue, sent)
    ensures JobsOk(trades, queue, sent, id)
  {}

  lemma DepositKeepsJobs(w: World, s: Store, id: string, txHash: string)
    requires JobInv(w, s.trades, s.queue, s.sent) && id in s.trades && s.trades[id].status == ESCROW_PENDING
    ensures var t := Deposit(w, s, id, txHash); JobInv(w, t.trades, t.queue, t.sent)
  {
    var t := Deposit(w, s, id, txHash);
    AbsentJob(w, s.trades, s.queue, s.sent, id);
    NoneSent(s.sent, id);
    JobsMove(w, s.trades, t.trades, s.queue, t.queue, s.sent, id);
  }

  lemma VerifyKeepsInv(w: World, s: Store, id: string, txHash: string)
    requires Inv(w, s)
    ensures Inv(w, Verify(w, s, id, txHash).0)
  {
    hide VerifyPayment, TradeInv, LedgerInv, JobInv, BalanceInv;
    var (t, out) := Verify(w, s, id, txHash);
    if out == Escrowed {
      var e := t.ledger[|s.ledger|];
      assert t.ledger == s.ledger + [e] && Demand(w, id, t.trades[id]) == Demand(w, id, s.trades[id]);
      assert Moves(w, s.trades, id, t.trades[id], e);
      TermsHold(w, s.listings, s.trades, id);
      MoveKeepsTrades(w, s.listings, s.trades, id, t.trades[id], e);
      assert s.listings[s.trades[id].listingId := s.listings[s.trades[id].listingId].(status := LOCKED)] == s.listings;
      MoveKeepsLedger(w, s.trades, s.ledger, id, t.trades[id], e);
      MoveKeepsBalance(w, s.trades, s.ledger, id, t.trades[id], e);
      DepositKeepsJobs(w, s, id, txHash);
    }
  }

  lemma TermsHold(w: World, listings: map<string, Listing>, trades: map<string, Trade>, id: string)
    requires TradeInv(w, listings, trades) && id in trades
    ensures TradeOk(w, listings, id, trades[id])
  {}

  // ---------------------------------------------------------------- jobs

  // Only the queue changes, for the jobs of one trade.
  lemma QueueMoves(w: World, trades: map<string, Trade>, queue: map<Job, JobState>, queue': map<Job, JobState>,
                   sent: seq<Transfer>, id: string)
    requires JobInv(w, trades, queue, sent)
    requires forall u :: u != id ==> SameJob(queue, queue', TransferJob(u)) && SameJob(queue, queue', RefundJob(u))
    requires JobsOk(trades, queue', sent, id)
    requires forall x :: x in sent && x.tradeId == id ==> TransferOk(w, trades, queue', x)
    ensures JobInv(w, trades, queue', sent)
  {
    forall u
      ensures JobsOk(trades, queue', sent, u)
    {
      assert JobsOk(trades, queue, sent, u);
      if u != id { assert SameJob(queue, queue', TransferJob(u)) && SameJob(queue, queue', RefundJob(u)); }
    }
    forall x | x in sent
      ensures TransferOk(w, trades, queue', x)
    {
      assert TransferOk(w, trades, queue, x);
      if x.tradeId != id {
        assert SameJob(queue, queue', TransferJob(x.tradeId)) && SameJob(queue, queue', RefundJob(x.tradeId));
      }
    }
  }

  lemma BeginKeepsJobs(w: World, s: Store, id: string, moved: bool)
    requires JobInv(w, s.trades, s.queue, s.sent) && InState(s, TransferJob(id), Waiting)
    ensures JobInv(w, s.trades, TransferBegin(w, s, id, moved).queue, s.sent)
  {
    var t := TransferBegin(w, s, id, moved);
    AbsentJob(w, s.trades, s.queue, s.sent, id);
    NoneSent(s.sent, id);
    QueueMoves(w, s.trades, s.queue, t.queue, s.sent, id);
  }

  lemma RefundBeginKeepsJobs(w: World, s: Store, id: string)
    requires JobInv(w, s.trades, s.queue, s.sent) && InState(s, RefundJob(id), Waiting)
    ensures JobInv(w, s.trades, RefundBegin(w, s, id).queue, s.sent)
  {
    var t := RefundBegin(w, s, id);
    AbsentJob(w, s.trades, s.queue, s.sent, id);
    NoneSent(s.sent, id);
    QueueMoves(w, s.trades, s.queue, t.queue, s.sent, id);
  }

  // A job is finished, or removed when finished.
  lemma StopKeepsJobs(w: World, s: Store, job: Job, queue: map<Job, JobState>)
    requires JobInv(w, s.trades, s.queue, s.sent) && job in s.queue
    requires queue == s.queue[job := Finished] || (s.queue[job] == Finished && queue == s.queue - {job})
    ensures JobInv(w, s.trades, queue, s.sent)
  {
    var id := job.tradeId;
    AbsentJob(w, s.trades, s.queue, s.sent, id);
    forall x | x in s.sent && x.tradeId == id
      ensures TransferOk(w, s.trades, queue, x)
    {
      assert TransferOk(w, s.trades, s.queue, x);
    }
    QueueMoves(w, s.trades, s.queue, queue, s.sent, id);
  }

  lemma SendKeepsJobs(w: World, s: Store, job: Job, x: Transfer, txHash: string)
    requires JobInv(w, s.trades, s.queue, s.sent) && InState(s, job, Paying) && x.tradeId == job.tradeId
    requires job.TransferJob? || job.RefundJob?
    requires x.tradeId in s.trades
    requires var t := s.trades[x.tradeId];
      && x.asset == AssetOf(t.currency, w.env)
      && (if job.TransferJob? then x.kind == PAYOUT && x.amount == t.net && x.dest == Wallet(w, t.sellerId)
          else x.kind == REFUND && x.amount == t.price && x.dest == Wallet(w, t.buyerId))
    ensures JobInv(w, s.trades, s.queue[job := Sent(txHash)], s.sent + [x])
  {
    var id, queue', sent' := job.tradeId, s.queue[job := Sent(txHash)], s.sent + [x];
    SendAppend(s.sent, x);
    AbsentJob(w, s.trades, s.queue, s.sent, id);
    NoneSent(s.sent, id);
    forall u
      ensures JobsOk(s.trades, queue', sent', u)
    {
      assert JobsOk(s.trades, s.queue, s.sent, u);
    }
    hide JobsOk;
    forall y | y in sent'
      ensures TransferOk(w, s.trades, queue', y)
    {
      if y in s.sent { assert TransferOk(w, s.trades, s.queue, y); }
    }
  }

  lemma CommitKeepsJobs(w: World, s: Store, job: Job, t: Trade, queue: map<Job, JobState>)
    requires JobInv(w, s.trades, s.queue, s.sent) && job in s.queue && s.queue[job].Sent? && job.tradeId in s.trades
    requires (job.TransferJob? && t.status == COMPLETED) || (job.RefundJob? && t.status == REFUNDED)
    requires SameTerms(s.trades[job.tradeId], t)
    requires queue == s.queue[job := Finished] || queue == Add(s.queue[job := Finished], WebhookJob(job.tradeId))
    ensures JobInv(w, s.trades[job.tradeId := t], queue, s.sent)
  {
    var id, trades' := job.tradeId, s.trades[job.tradeId := t];
    AbsentJob(w, s.trades, s.queue, s.sent, id);
    forall x | x in s.sent && x.tradeId == id
      ensures TransferOk(w, trades', queue, x)
    {
      assert TransferOk(w, s.trades, s.queue, x);
    }
    JobsMove(w, s.trades, trades', s.queue, queue, s.sent, id);
  }

  lemma CommitKeepsInv(w: World, s: Store, id: string, txHash: string)
    requires Inv(w, s) && TransferJob(id) in s.queue && s.queue[TransferJob(id)].Sent?
    requires id in s.trades && s.trades[id].listingId in s.listings
    ensures Inv(w, TransferCommit(w, s, id, txHash))
  {
    hide TradeInv, LedgerInv, JobInv, BalanceInv;
    var t := TransferCommit(w, s, id, txHash);
    var e := t.ledger[|s.ledger|];
    AbsentJob(w, s.trades, s.queue, s.sent, id);
    TermsHold(w, s.listings, s.trades, id);
    assert t.ledger == s.ledger + [e] && Moves(w, s.trades, id, t.trades[id], e);
    MoveKeepsTrades(w, s.listings, s.trades, id, t.trades[id], e);
    MoveKeepsLedger(w, s.trades, s.ledger, id, t.trades[id], e);
    MoveKeepsBalance(w, s.trades, s.ledger, id, t.trades[id], e);
    CommitKeepsJobs(w, s, TransferJob(id), t.trades[id], t.queue);
  }

  lemma RefundKeepsInv(w: World, s: Store, id: string, txHash: string)
    requires Inv(w, s) && RefundJob(id) in s.queue && s.queue[RefundJob(id)].Sent? && id in s.trades
    ensures Inv(w, RefundCommit(w, s, id, txHash))
  {
    hide TradeInv, LedgerInv, JobInv, BalanceInv;
    var t := RefundCommit(w, s, id, txHash);
    var e := t.ledger[|s.ledger|];
    AbsentJob(w, s.trades, s.queue, s.sent, id);
    TermsHold(w, s.listings, s.trades, id);
    assert t.ledger == s.ledger + [e] && Moves(w, s.trades, id, t.trades[id], e);
    MoveKeepsTrades(w, s.listings, s.trades, id, t.trades[id], e);
    assert s.listings[s.trades[id].listingId := s.listings[s.trades[id].listingId].(status := LOCKED)] == s.listings;
    MoveKeepsLedger(w, s.trades, s.ledger, id, t.trades[id], e);
    MoveKeepsBalance(w, s.trades, s.ledger, id, t.trades[id], e);
    CommitKeepsJobs(w, s, RefundJob(id), t.trades[id], t.queue);
  }

  lemma ListKeepsInv(w: World, s: Store, sellerId: string, itemId: string, price: int, currency: Currency,
                     game: Option<nat>, newId: string)
    requires Inv(w, s) && 0 <= price && newId !in s.listings
    ensures Inv(w, CreateListing(w, s, sellerId, itemId, price, currency, game, newId).0)
  {
    hide TradeInv, LedgerInv, JobInv, BalanceInv;
    var (t, out) := CreateListing(w, s, sellerId, itemId, price, currency, game, newId);
    if out.Listed? {
      OfferKeepsTrades(w, s.listings, s.trades, newId, t.listings[newId]);
    }
  }

  lemma SendStepKeepsInv(w: World, s: Store, e: Event)
    requires Inv(w, s) && Enabled(w, s, e) && (e.TransferSent? || e.RefundSent?)
    ensures Inv(w, Step(w, s, e))
  {
    hide TradeInv, LedgerInv, JobInv, BalanceInv, Verify, CreateListing, CreateTradeQuote, TransferCommit, Memo.Truncated;
    var t := Step(w, s, e);
    var job := if e.TransferSent? then TransferJob(e.tradeId) else RefundJob(e.tradeId);
    SendKeepsJobs(w, s, job, t.sent[|s.sent|], e.txHash);
    assert t.sent == s.sent + [t.sent[|s.sent|]];
  }

  lemma StepKeepsInv(w: World, s: Store, e: Event)
    requires WorldOk(w) && Inv(w, s)
    ensures Inv(w, Step(w, s, e))
  {
    hide WorldOk, TradeInv, LedgerInv, JobInv, BalanceInv, Verify, CreateListing, CreateTradeQuote, TransferCommit, RefundCommit, Send;
    if Enabled(w, s, e) {
      match e
      case Refreshed(_, _, _) =>
      case Offering(seller, item, price, currency, game, newId) => ListKeepsInv(w, s, seller, item, price, currency, game, newId);
      case Quoting(buyer, listing, newId, built) => QuoteKeepsInv(w, s, buyer, listing, newId, built);
      case Verifying(t, txHash) => VerifyKeepsInv(w, s, t, txHash);
      case TransferStarted(t, moved) => BeginKeepsJobs(w, s, t, moved);
      case TransferSent(_, _) => SendStepKeepsInv(w, s, e);
      case TransferCommitted(t) => CommitKeepsInv(w, s, t, s.queue[TransferJob(t)].txHash);
      case RefundStarted(t) => RefundBeginKeepsJobs(w, s, t);
      case RefundSent(_, _) => SendStepKeepsInv(w, s, e);
      case RefundCommitted(t) => RefundKeepsInv(w, s, t, s.queue[RefundJob(t)].txHash);
      case JobGivenUp(job) => StopKeepsJobs(w, s, job, s.queue[job := Finished]);
      case JobRemoved(job) => StopKeepsJobs(w, s, job, s.queue - {job});
    }
  }

  lemma {:induction false} RunKeepsInv(w: World, s: Store, events: seq<Event>)
    requires WorldOk(w) && Inv(w, s)
    ensures Inv(w, Run(w, s, events))
  {
    hide WorldOk, Inv, Step;
    if events != [] {
      RunKeepsInv(w, s, events[..|events| - 1]);
      StepKeepsInv(w, Run(w, s, events[..|events| - 1]), events[|events| - 1]);
    }
  }
}
