/** Promotions: what one promotion takes off (packages/shared/src/promotions/applyPromotion.ts) and
    which of several candidates a quote uses (the loop in apps/web/lib/checkout-queries.ts).

    Amounts and promotion values are counted in stroops, instants are integers. */
module Promotions {
  import opened Wrappers

  datatype PromoType = PERCENT | FIXED | BUNDLE | FIRST_PURCHASE

  /** The item named by a bundle is not consulted. */
  datatype BundleConfig = BundleConfig(itemId: string, quantity: int, bundlePrice: int)

  datatype Promotion = Promotion(
    id: string, studioId: string, code: Option<string>, kind: PromoType, value: int, hasCurrency: bool,
    appliesToItemIds: seq<string>, bundleConfig: Option<BundleConfig>,
    startsAt: Option<int>, endsAt: Option<int>,
    usageLimit: Option<int>, usageCount: int, isActive: bool)

  /** The purchase a promotion is applied to. */
  datatype Purchase = Purchase(
    itemId: string, quantity: int, unitPrice: int, now: int,
    playerHasPaidOrder: bool, promotionCode: Option<string>)
  {
    function Gross(): int { unitPrice * quantity }
  }

  datatype Discount = Discount(amount: int, promotionId: Option<string>)

  const NO_DISCOUNT := Discount(0, None)

  // ---------------------------------------------------------------- one promotion

  /** Towards zero, in stroops. */
  function RoundDown(raw: real): int { if raw >= 0.0 then raw.Floor else -((-raw).Floor) }

  function Clamp7(raw: real, gross: int): int
  {
    var atLeastZero := if raw < 0.0 then 0.0 else raw;
    RoundDown(if atLeastZero > gross as real then gross as real else atLeastZero)
  }

  predicate IsWindowOpen(p: Promotion, now: int)
  {
    && p.isActive
    && !(p.startsAt.Some? && now < p.startsAt.value)
    && !(p.endsAt.Some? && now > p.endsAt.value)
    && !(p.usageLimit.Some? && p.usageCount >= p.usageLimit.value)
  }

  /** A code counts as supplied when it is present and not empty. */
  predicate Supplied(code: Option<string>) { code.Some? && code.value != "" }

  function LowerChar(c: char): char
  {
    if 'A' <= c <= 'Z' then (c as int + 32) as char else c
  }

  /** Codes are letters, digits, dashes and underscores (packages/shared/src/zod/promotion.ts:4-8). */
  function LowerCase(s: string): string
  {
    if s == "" then "" else [LowerChar(s[0])] + LowerCase(s[1..])
  }

  predicate CodeGate(p: Promotion, supplied: Option<string>)
  {
    if Supplied(supplied) then Supplied(p.code) && LowerCase(p.code.value) == LowerCase(supplied.value)
    else !Supplied(p.code)
  }

  /** `gross * value / 100`, in stroops. */
  function PercentOf(gross: int, value: int): real { (gross * value) as real / 1_000_000_000.0 }

  /** The unrounded discount, in stroops, or None where the promotion does not apply. */
  function RawDiscount(p: Promotion, on: Purchase): Option<real>
  {
    match p.kind
    case PERCENT => Some(PercentOf(on.Gross(), p.value))
    case FIXED => Some(p.value as real)
    case BUNDLE =>
      if p.bundleConfig.None? || p.bundleConfig.value.quantity != on.quantity then None
      else Some((on.Gross() - p.bundleConfig.value.bundlePrice) as real)
    case FIRST_PURCHASE =>
      if on.playerHasPaidOrder then None
      else if !p.hasCurrency then Some(PercentOf(on.Gross(), p.value))
      else Some(p.value as real)
  }

  function ApplyPromotion(p: Promotion, on: Purchase): Discount
  {
    if !IsWindowOpen(p, on.now) then NO_DISCOUNT
    else if p.appliesToItemIds != [] && on.itemId !in p.appliesToItemIds then NO_DISCOUNT
    else if !CodeGate(p, on.promotionCode) then NO_DISCOUNT
    else
      match RawDiscount(p, on)
      case None => NO_DISCOUNT
      case Some(raw) =>
        var amount := Clamp7(raw, on.Gross());
        if amount <= 0 then NO_DISCOUNT else Discount(amount, Some(p.id))
  }

  /** Letters of either case are the same. */
  predicate SameCode(a: string, b: string)
  {
    && |a| == |b|
    && forall i :: 0 <= i < |a| ==>
         || a[i] == b[i]
         || ('A' <= a[i] <= 'Z' && b[i] as int == a[i] as int + 32)
         || ('A' <= b[i] <= 'Z' && a[i] as int == b[i] as int + 32)
  }

  /** The promotion is open for this purchase: now, for this item, with a use left, and for the code supplied. */
  predicate IsOpen(p: Promotion, on: Purchase)
  {
    && p.isActive
    && (p.startsAt.Some? ==> p.startsAt.value <= on.now)
    && (p.endsAt.Some? ==> on.now <= p.endsAt.value)
    && (p.usageLimit.Some? ==> p.usageCount < p.usageLimit.value)
    && (p.appliesToItemIds == [] || on.itemId in p.appliesToItemIds)
    && if on.promotionCode == None || on.promotionCode == Some("") then p.code == None || p.code == Some("")
       else p.code.Some? && p.code.value != "" && SameCode(p.code.value, on.promotionCode.value)
  }

  /** The terms allow `k` stroops off. A percentage is stored with seven decimals. */
  predicate TermsAllow(p: Promotion, on: Purchase, k: int)
  {
    var gross := on.unitPrice * on.quantity;
    match p.kind
    case PERCENT => k * 100 * 10_000_000 <= gross * p.value
    case FIXED => k <= p.value
    case BUNDLE =>
      p.bundleConfig.Some? && p.bundleConfig.value.quantity == on.quantity && k <= gross - p.bundleConfig.value.bundlePrice
    case FIRST_PURCHASE =>
      !on.playerHasPaidOrder && if p.hasCurrency then k <= p.value else k * 100 * 10_000_000 <= gross * p.value
  }

  lemma {:induction false} SameLowerCase(a: string, b: string)
    ensures LowerCase(a) == LowerCase(b) <==> SameCode(a, b)
  {
    LowerCaseAt(a);
    LowerCaseAt(b);
    if SameCode(a, b) {
      assert forall i :: 0 <= i < |a| ==> LowerChar(a[i]) == LowerChar(b[i]);
      assert LowerCase(a) == LowerCase(b);
    } else if |a| == |b| {
      var i :| 0 <= i < |a| && LowerChar(a[i]) != LowerChar(b[i]);
      assert LowerCase(a)[i] != LowerCase(b)[i];
    }
  }

  lemma {:induction false} LowerCaseAt(a: string)
    ensures |LowerCase(a)| == |a| && forall i :: 0 <= i < |a| ==> LowerCase(a)[i] == LowerChar(a[i])
  {
    if a != "" {
      LowerCaseAt(a[1..]);
      forall i | 1 <= i < |a| ensures LowerCase(a)[i] == LowerChar(a[i]) {
        assert LowerCase(a)[i] == LowerCase(a[1..])[i - 1];
      }
    }
  }

  lemma OpenMeans(p: Promotion, on: Purchase)
    ensures IsOpen(p, on) <==>
      && IsWindowOpen(p, on.now)
      && (p.appliesToItemIds == [] || on.itemId in p.appliesToItemIds)
      && CodeGate(p, on.promotionCode)
  {
    hide LowerCase;
    if Supplied(p.code) && Supplied(on.promotionCode) {
      SameLowerCase(p.code.value, on.promotionCode.value);
    }
  }

  lemma RawMeans(p: Promotion, on: Purchase, k: int)
    ensures TermsAllow(p, on, k) <==> RawDiscount(p, on).Some? && k as real <= RawDiscount(p, on).value
  {
    var product := on.unitPrice * on.quantity * p.value;
  }

  /** A promotion takes off the most whole stroops that neither its terms nor the price exceed, if it is open for the
      purchase, and is named exactly when it takes something off. */
  lemma DiscountMeaning(p: Promotion, on: Purchase, k: int)
    ensures var d := ApplyPromotion(p, on); var gross := on.unitPrice * on.quantity;
      && 0 <= d.amount
      && d.promotionId == (if d.amount > 0 then Some(p.id) else None)
      && (d.amount > 0 ==> IsOpen(p, on) && TermsAllow(p, on, d.amount) && d.amount <= gross)
      && (IsOpen(p, on) && TermsAllow(p, on, k) && k <= gross ==> k <= d.amount)
  {
    OpenMeans(p, on);
    RawMeans(p, on, k);
    RawMeans(p, on, ApplyPromotion(p, on).amount);
    hide IsOpen, TermsAllow, RawDiscount, IsWindowOpen, CodeGate;
  }

  /** An exhausted promotion takes nothing off. */
  lemma ExhaustedGivesNothing(p: Promotion, on: Purchase)
    requires ApplyPromotion(p, on).promotionId.Some?
    ensures p.usageLimit.Some? ==> p.usageCount < p.usageLimit.value
    ensures ApplyPromotion(p, on).promotionId.value == p.id
  {}

  /** Codes are compared without regard to case; without a code only code-less promotions apply. */
  lemma CodeCaseIgnored(p: Promotion, on: Purchase, other: string)
    requires Supplied(on.promotionCode) && other != "" && LowerCase(other) == LowerCase(on.promotionCode.value)
    ensures ApplyPromotion(p, on) == ApplyPromotion(p, on.(promotionCode := Some(other)))
  {
    assert on.Gross() == on.(promotionCode := Some(other)).Gross();
  }

  // ---------------------------------------------------------------- the best candidate

  /** The better of the best so far and the next candidate: the first to reach an amount keeps it. */
  function Better(best: Discount, next: Discount): Discount
  {
    if next.promotionId.Some? && next.amount > best.amount then next else best
  }

  function Best(candidates: seq<Promotion>, on: Purchase): Discount
  {
    if candidates == [] then NO_DISCOUNT
    else Better(Best(candidates[..|candidates| - 1], on), ApplyPromotion(candidates[|candidates| - 1], on))
  }

  /** `best` is the largest discount of all candidates, taken by the first that reaches it. */
  predicate IsBest(candidates: seq<Promotion>, on: Purchase, best: Discount)
  {
    && 0 <= best.amount
    && (forall i :: 0 <= i < |candidates| ==> ApplyPromotion(candidates[i], on).amount <= best.amount)
    && (if best.amount == 0 then best.promotionId == None else
          exists i ::
            && 0 <= i < |candidates|
            && best == ApplyPromotion(candidates[i], on)
            && forall j :: 0 <= j < i ==> ApplyPromotion(candidates[j], on).amount < best.amount)
  }

  /** The loop over the candidates. */
  method BestPromotion(candidates: seq<Promotion>, on: Purchase) returns (best: Discount)
    ensures IsBest(candidates, on, best)
    ensures best == Best(candidates, on)
  {
    var discountAmount, promotionId := 0, None;
    for i := 0 to |candidates|
      invariant Discount(discountAmount, promotionId) == Best(candidates[..i], on)
    {
      assert candidates[..i + 1][..i] == candidates[..i];
      var r := ApplyPromotion(candidates[i], on);
      if r.promotionId.Some? && r.amount > discountAmount {
        discountAmount, promotionId := r.amount, r.promotionId;
      }
    }
    assert candidates[..|candidates|] == candidates;
    best := Discount(discountAmount, promotionId);
    BestIsBest(candidates, on);
  }

  lemma {:induction false} BestIsBest(candidates: seq<Promotion>, on: Purchase)
    ensures IsBest(candidates, on, Best(candidates, on))
  {
    hide ApplyPromotion;
    if candidates != [] {
      var before, last := candidates[..|candidates| - 1], candidates[|candidates| - 1];
      BestIsBest(before, on);
      assert candidates == before + [last];
      NamedIffPositive(last, on);
      if Better(Best(before, on), ApplyPromotion(last, on)) == Best(before, on) {
        BestStays(before, last, on, Best(before, on));
      } else {
        BestIsLast(before, last, on, Best(before, on));
      }
    }
  }

  lemma NamedIffPositive(p: Promotion, on: Purchase)
    ensures var d := ApplyPromotion(p, on); 0 <= d.amount && (d.promotionId.Some? <==> d.amount > 0)
  {
    DiscountMeaning(p, on, 0);
  }

  lemma BestStays(before: seq<Promotion>, last: Promotion, on: Purchase, best: Discount)
    requires IsBest(before, on, best) && ApplyPromotion(last, on).amount <= best.amount
    ensures IsBest(before + [last], on, best)
  {
    hide ApplyPromotion;
    var all := before + [last];
    assert forall j :: 0 <= j < |before| ==> all[j] == before[j];
    if best.amount != 0 {
      var i :| 0 <= i < |before| && best == ApplyPromotion(before[i], on)
               && forall j :: 0 <= j < i ==> ApplyPromotion(before[j], on).amount < best.amount;
      assert best == ApplyPromotion(all[i], on);
    }
  }

  lemma BestIsLast(before: seq<Promotion>, last: Promotion, on: Purchase, best: Discount)
    requires IsBest(before, on, best) && ApplyPromotion(last, on).amount > best.amount
    ensures IsBest(before + [last], on, ApplyPromotion(last, on))
  {
    hide ApplyPromotion;
    var all := before + [last];
    assert forall j :: 0 <= j < |before| ==> all[j] == before[j];
    assert all[|before|] == last;
  }

  /** `IsBest` leaves no choice. */
  lemma BestIsUnique(candidates: seq<Promotion>, on: Purchase, a: Discount, b: Discount)
    requires IsBest(candidates, on, a) && IsBest(candidates, on, b)
    ensures a == b
  {
    if a.amount != 0 {
      var i :| 0 <= i < |candidates| && a == ApplyPromotion(candidates[i], on)
               && forall j :: 0 <= j < i ==> ApplyPromotion(candidates[j], on).amount < a.amount;
      assert a.amount <= b.amount;
      var k :| 0 <= k < |candidates| && b == ApplyPromotion(candidates[k], on)
               && forall j :: 0 <= j < k ==> ApplyPromotion(candidates[j], on).amount < b.amount;
    }
  }

  /** More candidates never make the purchase dearer, and neither their order nor their repetition
      changes the amount. */
  lemma BestAmountMonotone(few: seq<Promotion>, many: seq<Promotion>, on: Purchase)
    requires forall p :: p in few ==> p in many
    ensures Best(few, on).amount <= Best(many, on).amount
    ensures (forall p :: p in many ==> p in few) ==> Best(few, on).amount == Best(many, on).amount
  {
    BestAtMost(few, many, on);
    if forall p :: p in many ==> p in few {
      BestAtMost(many, few, on);
    }
  }

  lemma BestAtMost(few: seq<Promotion>, many: seq<Promotion>, on: Purchase)
    requires forall p :: p in few ==> p in many
    ensures Best(few, on).amount <= Best(many, on).amount
  {
    BestIsBest(few, on);
    BestIsBest(many, on);
    var best := Best(few, on);
    if best.amount != 0 {
      var i :| 0 <= i < |few| && best == ApplyPromotion(few[i], on);
      assert few[i] in many;
    }
  }

  /** The chosen discount lies between nothing and the price, and comes from a candidate that is open
      and not exhausted. */
  lemma BestRange(candidates: seq<Promotion>, on: Purchase)
    ensures 0 <= Best(candidates, on).amount
    ensures 0 <= on.Gross() ==> Best(candidates, on).amount <= on.Gross()
    ensures Best(candidates, on).promotionId.Some? <==> Best(candidates, on).amount > 0
    ensures Best(candidates, on).promotionId.Some? ==>
      exists p :: p in candidates && p.id == Best(candidates, on).promotionId.value
                  && (p.usageLimit.Some? ==> p.usageCount < p.usageLimit.value)
  {
    BestIsBest(candidates, on);
    var best := Best(candidates, on);
    if best.amount != 0 {
      var i :| 0 <= i < |candidates| && best == ApplyPromotion(candidates[i], on);
      DiscountMeaning(candidates[i], on, 0);
      ExhaustedGivesNothing(candidates[i], on);
      assert candidates[i] in candidates;
    }
  }
}
