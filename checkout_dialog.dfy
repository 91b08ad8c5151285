/** The checkout dialog: it picks a payment label or an error from the form, debits a
    gift card when that is the method chosen, then records the sale. */
module Checkout {
  import opened Wrappers
  import opened Text
  import Cart
  import Backend
  import TransactionsStore
  import CompleteTransactionHook
  import CardForm

  datatype PaymentMethod = Cash | GiftCard | Card

  const CartEmpty := "Cart is empty"
  const GiftCardCodeMissing := "Please enter a gift card code"
  const CardDetailsMissing := "Please fill in all card details"
  const CashLabel := "Fake Cash"
  const CardLabel := "Online Credit Card (Simulated)"
  const InsufficientBalance := "Insufficient gift card balance. Please use a different payment method."
  const CardNotFound := "Gift card not found. Please check the code and try again."
  const PaymentFailed := "Payment failed. Please try again."

  function GiftCardLabel(code: string): string { "Gift Card (" + code + ")" }

  /** What the form's state decides before any call: refuse with a message, or charge
      under a label, debiting a gift card first when `debitCode` is present. */
  datatype Plan = Refuse(message: string) | Charge(debitCode: Option<string>, paymentLabel: string)

  /** The decision part of `handleCheckout`. */
  function PlanCheckout(cartEmpty: bool, payment: PaymentMethod, giftCardCode: string, cardValid: bool): (p: Plan)
    ensures p.Refuse? <==>
      cartEmpty || (payment == GiftCard && IsBlank(giftCardCode)) || (payment == Card && !cardValid)
    ensures cartEmpty ==> p == Refuse(CartEmpty)
    ensures !cartEmpty && payment == GiftCard && IsBlank(giftCardCode) ==> p == Refuse(GiftCardCodeMissing)
    ensures !cartEmpty && payment == Card && !cardValid ==> p == Refuse(CardDetailsMissing)
    ensures p.Charge? ==> match payment
      case GiftCard => p == Charge(Some(Trim(giftCardCode)), GiftCardLabel(Trim(giftCardCode)))
      case Card => p == Charge(None, CardLabel)
      case Cash => p == Charge(None, CashLabel)
  {
    if cartEmpty then Refuse(CartEmpty)
    else match payment
      case GiftCard =>
        if IsBlank(giftCardCode) then Refuse(GiftCardCodeMissing)
        else Charge(Some(Trim(giftCardCode)), GiftCardLabel(Trim(giftCardCode)))
      case Card =>
        if !cardValid then Refuse(CardDetailsMissing) else Charge(None, CardLabel)
      case Cash => Charge(None, CashLabel)
  }

  /** The `catch` branch: the message shown for an error thrown by either call. */
  function CheckoutErrorMessage(message: string): (r: string)
    ensures r == InsufficientBalance <==> Contains(message, "Insufficient gift card balance")
    ensures r == CardNotFound <==>
      !Contains(message, "Insufficient gift card balance") && Contains(message, "Gift card not found")
    ensures r == PaymentFailed <==>
      !Contains(message, "Insufficient gift card balance") && !Contains(message, "Gift card not found")
  {
    if Contains(message, "Insufficient gift card balance") then InsufficientBalance
    else if Contains(message, "Gift card not found") then CardNotFound
    else PaymentFailed
  }

  /** The backend calls one checkout makes, in order, and the error it ends with
      (none when the sale was recorded). */
  datatype Attempt = Attempt(calls: seq<Backend.Call>, failure: Option<string>)

  /** The calls a charge makes and how it ends, when the backend answers as `actor` does
      after `history`: the gift card (if any) is debited first, and the sale is sent only
      once the debit has gone through. */
  function ChargeAttempt(debitCode: Option<string>, paymentLabel: string, cart: seq<Cart.CartItem>,
                         total: real, actor: Backend.Actor?, history: seq<Backend.Call>): (a: Attempt)
    ensures |a.calls| >= 1
    ensures debitCode.Some? ==> a.calls[0] == Backend.UseGiftCard(debitCode.value, total)
    ensures forall i :: 0 <= i < |a.calls| - 1 ==> a.calls[i].UseGiftCard?
    ensures a.failure.None? ==>
      a.calls[|a.calls| - 1] == Backend.CompleteTransaction(
        CompleteTransactionHook.ToBackendItems(cart), total, paymentLabel)
    ensures var debits := if debitCode.Some? then [Backend.UseGiftCard(debitCode.value, total)] else [];
      var record := Backend.CompleteTransaction(CompleteTransactionHook.ToBackendItems(cart), total, paymentLabel);
      a.calls == debits + (if debits == [] || Backend.Settle(actor, history, debits[0]).Resolved? then [record] else [])
    ensures a.failure == Failure(Backend.Settle(actor, history + a.calls[..|a.calls| - 1], a.calls[|a.calls| - 1]))
  {
    var record := Backend.CompleteTransaction(CompleteTransactionHook.ToBackendItems(cart), total, paymentLabel);
    match debitCode
    case None =>
      assert history + [record][..0] == history;
      Attempt([record], Failure(Backend.Settle(actor, history, record)))
    case Some(code) =>
      var debit := Backend.UseGiftCard(code, total);
      match Backend.Settle(actor, history, debit)
      case Rejected(message) =>
        assert history + [debit][..0] == history;
        Attempt([debit], Some(CheckoutErrorMessage(message)))
      case Resolved =>
        assert [debit, record][..1] == [debit];
        Attempt([debit, record], Failure(Backend.Settle(actor, history + [debit], record)))
  }

  /** What `handleCheckout` does with `plan`: a refusal makes no call. */
  function CheckoutAttempt(plan: Plan, cart: seq<Cart.CartItem>, total: real,
                           actor: Backend.Actor?, history: seq<Backend.Call>): (a: Attempt)
    ensures plan.Refuse? ==> a == Attempt([], Some(plan.message))
    ensures plan.Charge? ==> |a.calls| >= 1
    ensures plan.Charge? && plan.debitCode.Some? ==>
      a.calls[0] == Backend.UseGiftCard(plan.debitCode.value, total)
    ensures forall i :: 0 <= i < |a.calls| - 1 ==> a.calls[i].UseGiftCard?
    ensures a.failure.None? ==>
      && plan.Charge?
      && a.calls[|a.calls| - 1] == Backend.CompleteTransaction(
           CompleteTransactionHook.ToBackendItems(cart), total, plan.paymentLabel)
  {
    match plan
    case Refuse(message) => Attempt([], Some(message))
    case Charge(debitCode, paymentLabel) => ChargeAttempt(debitCode, paymentLabel, cart, total, actor, history)
  }

  /** A checkout that goes ahead debits the gift card, if one was chosen, and sends the sale
      only when there is no debit or the debit went through; it ends with the error mapped
      from the last call's rejection, or with none. */
  lemma ChargedCheckoutCalls(plan: Plan, cart: seq<Cart.CartItem>, total: real,
                             actor: Backend.Actor?, history: seq<Backend.Call>)
    requires plan.Charge?
    ensures var a := CheckoutAttempt(plan, cart, total, actor, history);
      var debits := if plan.debitCode.Some? then [Backend.UseGiftCard(plan.debitCode.value, total)] else [];
      var record := Backend.CompleteTransaction(CompleteTransactionHook.ToBackendItems(cart), total, plan.paymentLabel);
      && a.calls == debits + (if debits == [] || Backend.Settle(actor, history, debits[0]).Resolved? then [record] else [])
      && a.failure == Failure(Backend.Settle(actor, history + a.calls[..|a.calls| - 1], a.calls[|a.calls| - 1]))
  {
  }

  /** The error a settled call leaves the dialog with: none when it resolved, the mapped
      message when it was rejected. */
  function Failure(o: Backend.Outcome): (r: Option<string>)
    ensures r.None? <==> o.Resolved?
    ensures o.Rejected? ==> r == Some(CheckoutErrorMessage(o.message))
  {
    match o
    case Resolved => None
    case Rejected(message) => Some(CheckoutErrorMessage(message))
  }

  /** A gift-card debit that is rejected ends the checkout: the sale is not sent, and the
      error shown is the one mapped from the debit's message. */
  lemma RejectedDebitRecordsNothing(code: string, paymentLabel: string, cart: seq<Cart.CartItem>,
                                    total: real, actor: Backend.Actor?, history: seq<Backend.Call>)
    requires Backend.Settle(actor, history, Backend.UseGiftCard(code, total)).Rejected?
    ensures var debit := Backend.UseGiftCard(code, total);
      ChargeAttempt(Some(code), paymentLabel, cart, total, actor, history)
        == Attempt([debit], Some(CheckoutErrorMessage(Backend.Settle(actor, history, debit).message)))
  {
  }

  /** A gift-card sale is recorded only after its debit went through: the calls are the
      debit of exactly `total` from the code, then the sale under the gift-card label. */
  lemma GiftCardSaleFollowsDebit(code: string, cart: seq<Cart.CartItem>, total: real,
                                 actor: Backend.Actor?, history: seq<Backend.Call>)
    requires ChargeAttempt(Some(code), GiftCardLabel(code), cart, total, actor, history).failure.None?
    ensures var debit := Backend.UseGiftCard(code, total);
      && Backend.Settle(actor, history, debit).Resolved?
      && ChargeAttempt(Some(code), GiftCardLabel(code), cart, total, actor, history).calls
         == [debit, Backend.CompleteTransaction(CompleteTransactionHook.ToBackendItems(cart), total, GiftCardLabel(code))]
  {
  }

  /** `handleCheckout` from the debit on: debit the gift card if there is one, then record
      the sale under `paymentLabel`. It returns the error to show, if any. */
  method Pay(actor: Backend.Actor?, store: TransactionsStore.TransactionStore,
             cart: seq<Cart.CartItem>, total: real, debitCode: Option<string>, paymentLabel: string,
             suffix: string, timestamp: int)
    returns (failure: Option<string>)
    modifies actor, store
    ensures var a := ChargeAttempt(debitCode, paymentLabel, cart, total, actor, old(Backend.History(actor)));
      && (actor != null ==> actor.log == old(actor.log) + a.calls)
      && failure == a.failure
    ensures failure.Some? ==> store.transactions == old(store.transactions)
    ensures failure.None? ==> store.transactions == TransactionsStore.AddTransaction(old(store.transactions),
      TransactionsStore.Transaction(CompleteTransactionHook.ReceiptPrefix + suffix, cart, total, paymentLabel, timestamp))
  {
    ghost var history := Backend.History(actor);
    ghost var debits: seq<Backend.Call> := [];
    if debitCode.Some? {
      var debit := Backend.UseGiftCard(debitCode.value, total);
      var debited := Backend.Request(actor, debit);
      if debited.Rejected? {
        RejectedDebitRecordsNothing(debitCode.value, paymentLabel, cart, total, actor, history);
        return Some(CheckoutErrorMessage(debited.message));
      }
      debits := [debit];
    }
    assert history + debits == if debitCode.Some? then history + [Backend.UseGiftCard(debitCode.value, total)] else history;
    var completion := CompleteTransactionHook.CompleteTransaction(
      actor, store, cart, total, paymentLabel, suffix, timestamp);
    failure := if completion.Failed? then Some(CheckoutErrorMessage(completion.message)) else None;
  }

  class CheckoutDialog {
    var paymentMethod: PaymentMethod
    var giftCardCode: string
    var cardValid: bool
    var error: string

    /** The form as `resetForm` leaves it. */
    predicate IsReset()
      reads this
    {
      paymentMethod == Cash && giftCardCode == "" && !cardValid && error == ""
    }

    constructor ()
      ensures IsReset()
    {
      paymentMethod, giftCardCode, cardValid, error := Cash, "", false, "";
    }

    /** The card form's `onValidChange`, fed with the form's four fields. */
    method SetCardValid(cardName: string, cardNumber: string, expiry: string, cvc: string)
      modifies this
      ensures cardValid == CardForm.IsValid(cardName, cardNumber, expiry, cvc)
      ensures paymentMethod == old(paymentMethod) && giftCardCode == old(giftCardCode) && error == old(error)
    {
      cardValid := CardForm.IsValid(cardName, cardNumber, expiry, cvc);
    }

    /** `resetForm` */
    method ResetForm()
      modifies this
      ensures IsReset()
    {
      paymentMethod := Cash;
      giftCardCode := "";
      cardValid := false;
      error := "";
    }

    /** `handleClose`: closing resets the form; `notified` is what is passed on to
      `onOpenChange`. */
    method HandleClose(open: bool) returns (notified: bool)
      modifies this
      ensures notified == open
      ensures !open ==> IsReset()
      ensures open ==> unchanged(this)
    {
      if !open {
        ResetForm();
      }
      notified := open;
    }

    /** The checks at the head of `handleCheckout`: an empty cart, a blank gift card code
        or an incomplete card form refuses; otherwise the payment label is chosen, with the
        trimmed gift card code to debit when that is the method. */
    method ChoosePlan(cartEmpty: bool) returns (plan: Plan)
      ensures plan == PlanCheckout(cartEmpty, paymentMethod, giftCardCode, cardValid)
    {
      if cartEmpty {
        return Refuse(CartEmpty);
      }
      var debitCode: Option<string> := None;
      var paymentMethodLabel := "";
      if paymentMethod == GiftCard {
        var code := Trim(giftCardCode);
        if code == [] {
          return Refuse(GiftCardCodeMissing);
        }
        debitCode := Some(code);
        paymentMethodLabel := GiftCardLabel(code);
      } else if paymentMethod == Card {
        if !cardValid {
          return Refuse(CardDetailsMissing);
        }
        paymentMethodLabel := CardLabel;
      } else {
        paymentMethodLabel := CashLabel;
      }
      plan := Charge(debitCode, paymentMethodLabel);
    }

    /** `handleCheckout`. `receipt` is the id handed to `onSuccess`, if any; `suffix` and
        `timestamp` stand for the clock and random parts of the receipt. */
    method HandleCheckout(cart: seq<Cart.CartItem>, total: real, actor: Backend.Actor?,
                          store: TransactionsStore.TransactionStore, suffix: string, timestamp: int)
      returns (receipt: Option<string>)
      modifies this, actor, store
      ensures var plan := PlanCheckout(|cart| == 0, old(paymentMethod), old(giftCardCode), old(cardValid));
        var a := CheckoutAttempt(plan, cart, total, actor, old(Backend.History(actor)));
        && (actor != null ==> actor.log == old(actor.log) + a.calls)
        && match a.failure
           case Some(message) =>
             && error == message && receipt == None
             && paymentMethod == old(paymentMethod) && giftCardCode == old(giftCardCode)
             && cardValid == old(cardValid)
             && store.transactions == old(store.transactions)
           case None =>
             && IsReset()
             && receipt == Some(CompleteTransactionHook.ReceiptPrefix + suffix)
             && store.transactions == TransactionsStore.AddTransaction(old(store.transactions),
                  TransactionsStore.Transaction(receipt.value, cart, total, plan.paymentLabel, timestamp))
    {
      error := "";
      var plan := ChoosePlan(|cart| == 0);
      if plan.Refuse? {
        error := plan.message;
        return None;
      }
      var failure := Pay(actor, store, cart, total, plan.debitCode, plan.paymentLabel, suffix, timestamp);
      if failure.Some? {
        error := failure.value;
        return None;
      }
      ResetForm();
      receipt := Some(CompleteTransactionHook.ReceiptPrefix + suffix);
    }
  }
}
