/** Building and verifying Stellar payments (packages/shared/src/stellar.ts).

    Only the payment fields that the verifier reads are kept; XDR, signatures and sequence
    numbers are not part of this model. Horizon is an immutable map from hash to transaction. */
module Stellar {
  import opened Wrappers
  import Memo
  import Money

  datatype Currency = XLM | USDT

  /** `{ code: "XLM" } | { code, issuer }`; an issued asset may itself carry the code "XLM". */
  datatype Asset = Native | Issued(code: string, issuer: string)

  /** The environment settings that payments depend on. */
  datatype Env = Env(receivingAccount: string, usdCode: string, usdIssuer: string)

  function AssetOf(currency: Currency, env: Env): Asset
  {
    match currency
    case XLM => Native
    case USDT => Issued(env.usdCode, env.usdIssuer)
  }

  /** The asset as the Stellar SDK represents it. */
  datatype ChainAsset = ChainNative | ChainCredit(code: string, issuer: string)

  function ToStellarAsset(asset: Asset): ChainAsset
  {
    match asset
    case Native => ChainNative
    case Issued(code, issuer) => ChainCredit(code, issuer)
  }

  // ---------------------------------------------------------------- the chain

  /** An operation record of Horizon. */
  datatype Operation = Operation(
    kind: string, to: string, assetType: string,
    assetCode: Option<string>, assetIssuer: Option<string>, amount: string)

  datatype Transaction = Transaction(
    hash: string, successful: bool, memo: Option<string>, operations: seq<Operation>)

  type Horizon = map<string, Transaction>

  /** A record of a payment to `destination` in `asset`: lumens by type, an issued asset by its code and issuer. */
  predicate IsPaymentTo(op: Operation, destination: string, asset: Asset)
  {
    && op.kind == "payment"
    && op.to == destination
    && (asset.Native? ==> op.assetType == "native")
    && (asset.Issued? ==> op.assetCode == Some(asset.code) && op.assetIssuer == Some(asset.issuer))
  }

  /** The same, in the asset of a currency: lumens, or the asset configured for the dollar. */
  predicate IsPaymentIn(op: Operation, destination: string, currency: Currency, env: Env)
  {
    && op.kind == "payment"
    && op.to == destination
    && if currency == XLM then op.assetType == "native"
       else op.assetCode == Some(env.usdCode) && op.assetIssuer == Some(env.usdIssuer)
  }

  /** How Horizon reports a payment operation. */
  function PaymentRecord(destination: string, asset: ChainAsset, amount: string): Operation
  {
    match asset
    case ChainNative => Operation("payment", destination, "native", None, None, amount)
    case ChainCredit(code, issuer) =>
      Operation("payment", destination, if |code| <= 4 then "credit_alphanum4" else "credit_alphanum12",
                Some(code), Some(issuer), amount)
  }

  // ---------------------------------------------------------------- building

  /** The fields of the transaction that `buildPaymentXdr` asks the buyer to sign. */
  datatype Payment = Payment(destination: string, asset: ChainAsset, amount: string, memo: string)

  function PaymentFor(destination: string, asset: Asset, amount: string, memo: string): Payment
  {
    Payment(destination, ToStellarAsset(asset), amount, Memo.Truncated(memo))
  }

  method BuildPayment(destination: string, asset: Asset, amount: string, memo: string) returns (p: Payment)
    ensures p == PaymentFor(destination, asset, amount, memo)
    ensures p.destination == destination && p.amount == amount
    ensures p.asset == if asset.Native? then ChainNative else ChainCredit(asset.code, asset.issuer)
    ensures p.memo <= memo && |Memo.Utf8(p.memo)| <= 28
    ensures forall q :: q <= memo && |Memo.Utf8(q)| <= 28 ==> q <= p.memo
  {
    forall q | q <= memo && |Memo.Utf8(q)| <= 28 ensures q <= Memo.Truncated(memo) {
      Memo.TruncatedIsLongest(memo, q);
    }
    var text := Memo.TruncateTextMemo(memo);
    p := Payment(destination, ToStellarAsset(asset), amount, text);
  }

  // ---------------------------------------------------------------- verifying

  predicate AssetMatches(expected: Asset, op: Operation)
  {
    match expected
    case Native => op.assetType == "native"
    case Issued(code, issuer) => op.assetCode == Some(code) && op.assetIssuer == Some(issuer)
  }

  predicate Matches(op: Operation, destination: string, asset: Asset)
  {
    op.kind == "payment" && op.to == destination && AssetMatches(asset, op)
  }

  /** Index of the first matching operation; the number of operations when there is none. */
  function FirstMatch(ops: seq<Operation>, destination: string, asset: Asset): (i: nat)
    ensures i <= |ops|
    ensures i < |ops| ==> Matches(ops[i], destination, asset)
    ensures forall j :: 0 <= j < i ==> !Matches(ops[j], destination, asset)
  {
    if ops == [] || Matches(ops[0], destination, asset) then 0
    else 1 + FirstMatch(ops[1..], destination, asset)
  }

  /** Horizon returns ten records where no limit is set, and the verifier sets none. */
  const OPERATIONS_PAGE: nat := 10

  /** The operations that the verifier reads. */
  function Page(ops: seq<Operation>): seq<Operation>
  {
    if |ops| <= OPERATIONS_PAGE then ops else ops[..OPERATIONS_PAGE]
  }

  datatype Expectation = Expectation(destination: string, asset: Asset, minAmount: real, memo: string)

  /** `Threw` stands for an amount that the decimal constructor rejects. */
  datatype Verification =
    | Verified(txHash: string, amount: real, memo: string, asset: Asset)
    | Refused(reason: string)
    | Threw

  function VerifyPayment(horizon: Horizon, txHash: string, want: Expectation): (r: Verification)
    ensures r.Verified? ==> txHash in horizon && r.asset == want.asset && want.minAmount <= r.amount
  {
    if txHash == "" then Refused("missing txHash")
    else if txHash !in horizon then Refused("transaction not found")
    else
      var tx := horizon[txHash];
      if !tx.successful then Refused("transaction not successful")
      else if tx.memo != Some(Memo.Truncated(want.memo)) then Refused("memo mismatch")
      else
        var ops := Page(tx.operations);
        var i := FirstMatch(ops, want.destination, want.asset);
        if i == |ops| then Refused("no matching payment op (destination/asset)")
        else
          match Money.FromStellarAmount(ops[i].amount)
          case None => Threw
          case Some(amount) =>
            if amount < want.minAmount then Refused("amount below minimum")
            else Verified(tx.hash, amount, tx.memo.value, want.asset)
  }

  // ---------------------------------------------------------------- builder and verifier agree

  /** The asset test recognises exactly the asset that was built. */
  lemma AssetRoundTrip(expected: Asset, built: Asset, destination: string, amount: string)
    ensures AssetMatches(expected, PaymentRecord(destination, ToStellarAsset(built), amount)) <==> expected == built
  {
    if expected.Native? && built.Issued? {
      assert "native"[0] != "credit_alphanum4"[0] && "native"[0] != "credit_alphanum12"[0];
    }
  }

  /** `tx` is a successful transaction that carries `payment` as operation `at`. */
  predicate Carries(tx: Transaction, payment: Payment, at: nat)
  {
    && tx.successful
    && tx.memo == Some(payment.memo)
    && at < |tx.operations|
    && tx.operations[at] == PaymentRecord(payment.destination, payment.asset, payment.amount)
  }

  predicate ReadsAtLeast(amount: string, min: real)
  {
    var value := Money.FromStellarAmount(amount);
    value.Some? && min <= value.value
  }

  /** Every matching payment among the first `count` operations is large enough. */
  predicate NoneShortBefore(ops: seq<Operation>, count: nat, destination: string, asset: Asset, min: real)
    requires count <= |ops|
  {
    forall j :: 0 <= j < count && IsPaymentTo(ops[j], destination, asset) ==> ReadsAtLeast(ops[j].amount, min)
  }

  lemma BuiltAmountReads(stroops: int)
    ensures ReadsAtLeast(Money.ToStellarAmount(Money.Amount(stroops)), Money.Amount(stroops))
  {
    Money.RoundTrip(stroops);
  }

  /** The first matching payment on the page that is read is large enough. */
  predicate PageAccepts(ops: seq<Operation>, destination: string, asset: Asset, min: real)
  {
    var i := FirstMatch(Page(ops), destination, asset);
    i < |Page(ops)| && ReadsAtLeast(Page(ops)[i].amount, min)
  }

  // Of all payments in a transaction with the right memo only the first matching one on the page decides.
  lemma PageDecides(horizon: Horizon, txHash: string, want: Expectation)
    requires txHash != "" && txHash in horizon && horizon[txHash].successful
    requires horizon[txHash].memo == Some(Memo.Truncated(want.memo))
    ensures VerifyPayment(horizon, txHash, want).Verified?
      <==> PageAccepts(horizon[txHash].operations, want.destination, want.asset, want.minAmount)
  {
    hide Memo.Truncated, Money.FromStellarAmount;
  }

  /** The page accepts a payment that lies on it with no smaller one of its kind before it. */
  lemma PageAcceptsCarried(tx: Transaction, destination: string, asset: Asset, amount: string, memo: string, at: nat, min: real)
    requires Carries(tx, PaymentFor(destination, asset, amount, memo), at) && ReadsAtLeast(amount, min)
    ensures at < OPERATIONS_PAGE && NoneShortBefore(tx.operations, at, destination, asset, min)
      ==> PageAccepts(tx.operations, destination, asset, min)
  {
    hide Memo.Truncated, Money.FromStellarAmount;
    AssetRoundTrip(asset, asset, destination, amount);
    assert Matches(tx.operations[at], destination, asset);
    if at < OPERATIONS_PAGE {
      assert Page(tx.operations)[at] == tx.operations[at];
      assert FirstMatch(Page(tx.operations), destination, asset) <= at;
    }
  }

  /** A payment beyond the page counts for nothing: a transaction is refused for want of a payment exactly if none of
      its first ten operations pays the account in the asset, however much it pays later. */
  lemma BeyondPageIsRefused(horizon: Horizon, txHash: string, want: Expectation)
    requires txHash != "" && txHash in horizon && horizon[txHash].successful
    requires horizon[txHash].memo == Some(Memo.Truncated(want.memo))
    ensures VerifyPayment(horizon, txHash, want) == Refused("no matching payment op (destination/asset)")
      <==> forall i :: 0 <= i < |horizon[txHash].operations| && i < 10 ==>
             !IsPaymentTo(horizon[txHash].operations[i], want.destination, want.asset)
  {
    hide Memo.Truncated, Money.FromStellarAmount;
    var ops := horizon[txHash].operations;
    var i := FirstMatch(Page(ops), want.destination, want.asset);
    if i < |Page(ops)| {
      assert Page(ops)[i] == ops[i] && IsPaymentTo(ops[i], want.destination, want.asset);
    } else {
      forall j | 0 <= j < |ops| && j < 10 ensures !IsPaymentTo(ops[j], want.destination, want.asset) {
        assert Page(ops)[j] == ops[j] && !Matches(Page(ops)[j], want.destination, want.asset);
      }
    }
  }

  function PaymentOf(destination: string, asset: Asset, stroops: int, memo: string): Payment
  {
    PaymentFor(destination, asset, Money.ToStellarAmount(Money.Amount(stroops)), memo)
  }

  function ExpectationOf(destination: string, asset: Asset, stroops: int, memo: string): Expectation
  {
    Expectation(destination, asset, Money.Amount(stroops), memo)
  }

  /** A successful transaction carrying what was built, at whatever position, verifies exactly when the first
      payment of the same asset to the same account on the page that is read is large enough. So it does when the
      built payment lies on that page and no smaller payment of that kind precedes it, in particular when it is
      the only operation. */
  lemma BuiltIsAccepted(horizon: Horizon, txHash: string, at: nat,
                        destination: string, asset: Asset, stroops: int, memo: string)
    requires txHash != "" && txHash in horizon
    requires Carries(horizon[txHash], PaymentOf(destination, asset, stroops, memo), at)
    ensures var ops, min := horizon[txHash].operations, Money.Amount(stroops);
      var accepted := VerifyPayment(horizon, txHash, ExpectationOf(destination, asset, stroops, memo)).Verified?;
      && (accepted <==> PageAccepts(ops, destination, asset, min))
      && (at < OPERATIONS_PAGE && NoneShortBefore(ops, at, destination, asset, min) ==> accepted)
      && (|ops| == 1 ==> accepted)
  {
    hide VerifyPayment, PageAccepts, Memo.Truncated, Money.FromStellarAmount, Money.ToStellarAmount;
    BuiltAmountReads(stroops);
    PageDecides(horizon, txHash, ExpectationOf(destination, asset, stroops, memo));
    PageAcceptsCarried(horizon[txHash], destination, asset, Money.ToStellarAmount(Money.Amount(stroops)), memo, at, Money.Amount(stroops));
  }

  /** Among the first ten operations the first that pays the account in the asset is number `i`. */
  predicate IsFirstPayment(ops: seq<Operation>, i: nat, destination: string, asset: Asset)
  {
    && i < |ops| && i < 10
    && IsPaymentTo(ops[i], destination, asset)
    && forall j :: 0 <= j < i ==> !IsPaymentTo(ops[j], destination, asset)
  }

  lemma FirstMatchIsFirst(ops: seq<Operation>, destination: string, asset: Asset)
    ensures var i := FirstMatch(Page(ops), destination, asset);
      && (i < |Page(ops)| <==> exists k: nat :: IsFirstPayment(ops, k, destination, asset))
      && (forall k: nat :: IsFirstPayment(ops, k, destination, asset) ==> k == i && ops[k] == Page(ops)[k])
  {
    var i := FirstMatch(Page(ops), destination, asset);
    forall j | 0 <= j < |Page(ops)|
      ensures Page(ops)[j] == ops[j] && (Matches(ops[j], destination, asset) <==> IsPaymentTo(ops[j], destination, asset))
    {}
    if i < |Page(ops)| {
      assert IsFirstPayment(ops, i, destination, asset);
    }
    forall k: nat | IsFirstPayment(ops, k, destination, asset) ensures k == i && ops[k] == Page(ops)[k] {
      assert Matches(Page(ops)[k], destination, asset);
    }
  }

  /** What the page accepts: its first payment to the account in the asset reads as at least the minimum. */
  lemma PageAcceptsMeans(ops: seq<Operation>, destination: string, asset: Asset, min: real)
    ensures PageAccepts(ops, destination, asset, min) <==>
      exists i: nat ::
        && IsFirstPayment(ops, i, destination, asset)
        && var amount := Money.FromStellarAmount(ops[i].amount);
           amount.Some? && amount.value >= min
  {
    hide Money.FromStellarAmount, FirstMatch, Page, IsFirstPayment;
    FirstMatchIsFirst(ops, destination, asset);
  }

  /** Of all payments to the account in a transaction with the right memo only the first one counts: if it is too
      small, larger ones after it do not help. */
  lemma OnlyFirstMatchCounts(horizon: Horizon, txHash: string, want: Expectation, i: nat)
    requires txHash != "" && txHash in horizon && horizon[txHash].successful
    requires horizon[txHash].memo == Some(Memo.Truncated(want.memo))
    requires IsFirstPayment(horizon[txHash].operations, i, want.destination, want.asset)
    ensures VerifyPayment(horizon, txHash, want).Verified? <==>
      var amount := Money.FromStellarAmount(horizon[txHash].operations[i].amount);
      amount.Some? && amount.value >= want.minAmount
  {
    hide Memo.Truncated, Money.FromStellarAmount, FirstMatch, Page, IsFirstPayment;
    FirstMatchIsFirst(horizon[txHash].operations, want.destination, want.asset);
  }

  /** What acceptance means: the transaction is known, successful, carries the cut memo, and the first of its first ten
      operations that pays the account in the asset reads as at least the amount. */
  lemma AcceptedMeans(horizon: Horizon, txHash: string, want: Expectation)
    ensures VerifyPayment(horizon, txHash, want).Verified? <==>
      && txHash != "" && txHash in horizon
      && horizon[txHash].successful
      && horizon[txHash].memo == Some(Memo.Truncated(want.memo))
      && exists i: nat ::
           && IsFirstPayment(horizon[txHash].operations, i, want.destination, want.asset)
           && var amount := Money.FromStellarAmount(horizon[txHash].operations[i].amount);
              amount.Some? && amount.value >= want.minAmount
  {
    hide Memo.Truncated, Money.FromStellarAmount, FirstMatch, Page, IsFirstPayment;
    if txHash in horizon {
      FirstMatchIsFirst(horizon[txHash].operations, want.destination, want.asset);
    }
  }

  /** Why a transaction is refused: the first of the demands it fails. */
  lemma RefusedMeans(horizon: Horizon, txHash: string, want: Expectation)
    ensures var r := VerifyPayment(horizon, txHash, want);
      if txHash == "" then r == Refused("missing txHash")
      else if txHash !in horizon then r == Refused("transaction not found")
      else
        var tx := horizon[txHash];
        if !tx.successful then r == Refused("transaction not successful")
        else if tx.memo != Some(Memo.Truncated(want.memo)) then r == Refused("memo mismatch")
        else
          && (r == Refused("no matching payment op (destination/asset)") <==>
                !exists i: nat :: IsFirstPayment(tx.operations, i, want.destination, want.asset))
          && forall i: nat :: IsFirstPayment(tx.operations, i, want.destination, want.asset) ==>
               match Money.FromStellarAmount(tx.operations[i].amount)
               case None => r == Threw
               case Some(amount) =>
                 if amount < want.minAmount then r == Refused("amount below minimum")
                 else r == Verified(tx.hash, amount, Memo.Truncated(want.memo), want.asset)
  {
    hide Memo.Truncated, Money.FromStellarAmount, FirstMatch, Page, IsFirstPayment;
    if txHash in horizon {
      FirstMatchIsFirst(horizon[txHash].operations, want.destination, want.asset);
    }
  }

  /** The transaction pays `account` at least `stroops` in a currency, under a memo. */
  ghost predicate Pays(horizon: Horizon, txHash: string, memo: string, account: string, currency: Currency, env: Env, stroops: int)
  {
    && txHash != "" && txHash in horizon
    && horizon[txHash].successful
    && horizon[txHash].memo == Some(Memo.Truncated(memo))
    && var ops := horizon[txHash].operations;
       exists i ::
         && 0 <= i < |ops| && i < 10
         && IsPaymentIn(ops[i], account, currency, env)
         && (forall j :: 0 <= j < i ==> !IsPaymentIn(ops[j], account, currency, env))
         && var amount := Money.FromStellarAmount(ops[i].amount);
            amount.Some? && amount.value * 10_000_000.0 >= stroops as real
  }

  /** Verification against the asset of a currency accepts exactly what pays in that currency. */
  lemma AcceptedPays(horizon: Horizon, txHash: string, memo: string, account: string, currency: Currency, env: Env, stroops: int)
    ensures VerifyPayment(horizon, txHash, ExpectationOf(account, AssetOf(currency, env), stroops, memo)).Verified?
      <==> Pays(horizon, txHash, memo, account, currency, env, stroops)
  {
    hide Memo.Truncated, Money.FromStellarAmount, VerifyPayment;
    var asset := AssetOf(currency, env);
    AcceptedMeans(horizon, txHash, ExpectationOf(account, asset, stroops, memo));
    if txHash in horizon {
      var ops := horizon[txHash].operations;
      forall i | 0 <= i < |ops|
        ensures IsPaymentTo(ops[i], account, asset) <==> IsPaymentIn(ops[i], account, currency, env)
      {}
      hide IsPaymentTo, IsPaymentIn;
      if i :| && 0 <= i < |ops| && i < 10
              && IsPaymentIn(ops[i], account, currency, env)
              && (forall j :: 0 <= j < i ==> !IsPaymentIn(ops[j], account, currency, env))
              && var amount := Money.FromStellarAmount(ops[i].amount);
                 amount.Some? && amount.value * 10_000_000.0 >= stroops as real {
        assert IsFirstPayment(ops, i, account, asset);
      }
    }
  }

  /** What a quote offers, in plain terms: so many stroops to an account, in a currency, under a memo. */
  predicate Asks(p: Payment, account: string, currency: Currency, env: Env, stroops: int, memo: string)
  {
    && p.destination == account
    && p.asset == (if currency == XLM then ChainNative else ChainCredit(env.usdCode, env.usdIssuer))
    && Money.FromStellarAmount(p.amount).Some?
    && Money.FromStellarAmount(p.amount).value * 10_000_000.0 == stroops as real
    && p.memo == Memo.Truncated(memo)
  }

  lemma OfferAsks(account: string, currency: Currency, env: Env, stroops: int, memo: string)
    ensures Asks(PaymentOf(account, AssetOf(currency, env), stroops, memo), account, currency, env, stroops, memo)
  {
    hide Memo.Truncated, Money.FromStellarAmount, Money.ToStellarAmount;
    Money.RoundTrip(stroops);
  }

  /** One transaction pays for two memos only if they look alike on the chain. */
  lemma OneMemoPerTransaction(horizon: Horizon, txHash: string, a: Expectation, b: Expectation)
    requires VerifyPayment(horizon, txHash, a).Verified? && VerifyPayment(horizon, txHash, b).Verified?
    ensures Memo.Truncated(a.memo) == Memo.Truncated(b.memo)
  {}
}
