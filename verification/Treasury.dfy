/** Orders and trades are paid into, and out of, one receiving account. */
module Treasury {
  import opened Wrappers
  import opened Stellar
  import opened MapSums
  import C = Commerce
  import CI = CommerceInvariants
  import CT = CommerceTheorems
  import CP = CommercePayments
  import E = Escrow
  import EI = EscrowInvariants
  import ET = EscrowTheorems
  import Memo

  /** Both sides read the same chain and use the same account. */
  predicate SameChain(w: C.World, v: E.World) { w.env == v.env && w.horizon == v.horizon }

  /** In every pair of runs a transaction is taken for both an order and a trade only if their ids look alike on the
      chain. */
  lemma NoSharedTransaction(w: C.World, s: C.Store, events: seq<C.Event>, v: E.World, r: E.Store, steps: seq<E.Event>,
                            orderId: string, tradeId: string)
    requires SameChain(w, v) && CI.WorldOk(w) && CI.Init(w, s) && EI.WorldOk(v) && EI.Init(r)
    requires orderId in C.Run(w, s, events).orders && tradeId in E.Run(v, r, steps).trades
    requires C.Run(w, s, events).orders[orderId].txHash.Some?
    requires C.Run(w, s, events).orders[orderId].txHash == E.Run(v, r, steps).trades[tradeId].escrowTxHash
    ensures Memo.Truncated(orderId) == Memo.Truncated(tradeId)
  {
    hide C.Run, E.Run, CI.Init, EI.Init, VerifyPayment, Memo.Truncated, CI.UsageInv, CI.SaleInv, CI.PayoutInv, CI.ReferralInv;
    hide EI.LedgerInv, EI.JobInv, EI.BalanceInv;
    CI.InitHasInv(w, s);
    CI.RunKeepsInv(w, s, events);
    EI.InitHasInv(v, r);
    EI.RunKeepsInv(v, r, steps);
    var orders, t := C.Run(w, s, events).orders, E.Run(v, r, steps);
    var o, trade := orders[orderId], t.trades[tradeId];
    assert CI.PaymentOk(w, orderId, o);
    EI.TermsHold(v, t.listings, t.trades, tradeId);
    OneMemoPerTransaction(w.horizon, o.txHash.value, C.Demand(w, orderId, o), E.Demand(v, tradeId, trade));
  }

  /** On the chain, in every pair of runs and every currency: what verified payments and deposits brought in, less
      all payouts to studios and all payments for trades, holds the fees of the paid orders and of the completed
      trades, but for payouts lost before they were recorded. */
  lemma AccountCoversBoth(w: C.World, s: C.Store, events: seq<C.Event>, v: E.World, r: E.Store, steps: seq<E.Event>, c: Currency)
    requires SameChain(w, v) && CI.WorldOk(w) && CI.Init(w, s) && EI.WorldOk(v) && EI.Init(r)
    ensures var t, u := C.Run(w, s, events), E.Run(v, r, steps);
      && (forall id :: id in t.orders ==> CI.PaymentOk(w, id, t.orders[id]))
      && Sum(CT.Received(w, t.orders, c)) + Sum(ET.Received(v, u.trades, c))
         - CP.SentTotal(t.sent, AssetOf(c, w.env)) - ET.SentTotal(u.sent, AssetOf(c, w.env))
         >= Sum(CT.Fees(t.orders, c)) + Sum(ET.FeesEarned(u.trades, c)) - Sum(CP.LostValue(w, s, events, c))
  {
    hide C.Run, E.Run, CI.Init, EI.Init, CI.PaymentOk, CP.LostValue, CP.SentTotal, ET.SentTotal, ET.Received, ET.FeesEarned, CT.Fees;
    CP.PaymentsCoverPayoutsSent(w, s, events, c);
    ET.DepositsCoverTransfers(v, r, steps, c);
  }
}
