/** The hook that records a completed sale: it sends the sale to the backend and, only
    once that call has resolved, adds it to the local history and returns the receipt id. */
module CompleteTransactionHook {
  import opened Wrappers
  import Cart
  import Backend
  import TransactionsStore

  /** `items.map(item => ({ name, price, category }))`: the backend's item records. */
  function ToBackendItems(items: seq<Cart.CartItem>): (r: seq<Backend.MenuItem>)
    ensures |r| == |items|
    ensures forall i :: 0 <= i < |r| ==>
      r[i].name == items[i].name && r[i].price == items[i].price && r[i].category == items[i].category
  {
    seq(|items|, i requires 0 <= i < |items| =>
      Backend.MenuItem(items[i].name, items[i].price, items[i].category))
  }

  function Quantities(items: seq<Cart.CartItem>): (r: seq<int>)
    ensures |r| == |items|
  {
    seq(|items|, i requires 0 <= i < |items| => items[i].quantity)
  }

  /** Cart entries rebuilt from backend records and a quantity for each. */
  function WithQuantities(records: seq<Backend.MenuItem>, quantities: seq<int>): (r: seq<Cart.CartItem>)
    requires |records| == |quantities|
    ensures |r| == |records|
  {
    seq(|records|, i requires 0 <= i < |records| =>
      Cart.CartItem(records[i].name, records[i].price, quantities[i], records[i].category))
  }

  /** The projection drops the quantities and nothing else: putting them back restores
      the cart exactly. */
  lemma ProjectionLosesOnlyQuantities(items: seq<Cart.CartItem>)
    ensures WithQuantities(ToBackendItems(items), Quantities(items)) == items
  {
    var r := WithQuantities(ToBackendItems(items), Quantities(items));
    forall i | 0 <= i < |items| ensures r[i] == items[i] {}
  }

  const ReceiptPrefix := "TXN-"

  /** How the hook settles: a receipt id, or the error it throws. */
  datatype Completion = Completed(receiptId: string) | Failed(message: string)

  /** `mutationFn`. `suffix` stands for the `${Date.now()}-<random>` part of the receipt id
      and `timestamp` for the second `Date.now()`. */
  method CompleteTransaction(
    actor: Backend.Actor?, store: TransactionsStore.TransactionStore,
    items: seq<Cart.CartItem>, total: real, paymentMethod: string,
    suffix: string, timestamp: int)
    returns (r: Completion)
    modifies actor, store
    ensures var call := Backend.CompleteTransaction(ToBackendItems(items), total, paymentMethod);
      && (actor != null ==> actor.log == old(actor.log) + [call])
      && match Backend.Settle(actor, old(Backend.History(actor)), call)
         case Rejected(message) =>
           r == Failed(message) && store.transactions == old(store.transactions)
         case Resolved =>
           && r == Completed(ReceiptPrefix + suffix)
           && store.transactions == TransactionsStore.AddTransaction(old(store.transactions),
                TransactionsStore.Transaction(r.receiptId, items, total, paymentMethod, timestamp))
  {
    var backendItems := ToBackendItems(items);
    var o := Backend.Request(actor, Backend.CompleteTransaction(backendItems, total, paymentMethod));
    if o.Rejected? {
      return Failed(o.message);
    }
    var receiptId := ReceiptPrefix + suffix;
    store.Add(TransactionsStore.Transaction(receiptId, items, total, paymentMethod, timestamp));
    r := Completed(receiptId);
  }
}
