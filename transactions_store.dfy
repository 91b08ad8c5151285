/** The local history of completed sales, newest first. The store's `set` replaces the
    whole list, so each action is a function from the old history to the new one. */
module TransactionsStore {
  import Cart

  datatype Transaction = Transaction(
    id: string,
    items: seq<Cart.CartItem>,
    total: real,
    paymentMethod: string,
    timestamp: int)

  /** The history a new store starts with. */
  function InitialHistory(): (r: seq<Transaction>)
    ensures |r| == 0
  {
    []
  }

  /** `addTransaction`: the new entry goes in front; the older ones follow, unchanged
      and in order. Nothing is deduplicated, not even an entry with a repeated id. */
  function AddTransaction(history: seq<Transaction>, t: Transaction): (r: seq<Transaction>)
    ensures |r| == |history| + 1 && r[0] == t
    ensures forall i :: 0 <= i < |history| ==> r[i + 1] == history[i]
  {
    [t] + history
  }

  /** `clearTransactions` */
  function ClearTransactions(history: seq<Transaction>): (r: seq<Transaction>)
    ensures |r| == 0
  {
    []
  }

  /** Adding never loses or alters an entry: the multiset of entries grows by exactly the
      new one, even when an equal entry is already present. */
  lemma AddTransactionKeepsAll(history: seq<Transaction>, t: Transaction)
    ensures multiset(AddTransaction(history, t)) == multiset(history) + multiset{t}
    ensures multiset(AddTransaction(history, t))[t] == multiset(history)[t] + 1
  {
    assert AddTransaction(history, t) == [t] + history;
  }

  /** The history after recording `ts` one after the other. */
  function RecordAll(history: seq<Transaction>, ts: seq<Transaction>): seq<Transaction>
    decreases |ts|
  {
    if ts == [] then history else RecordAll(AddTransaction(history, ts[0]), ts[1..])
  }

  function Reversed(ts: seq<Transaction>): (r: seq<Transaction>)
    ensures |r| == |ts|
  {
    if ts == [] then [] else Reversed(ts[1..]) + [ts[0]]
  }

  /** Recording a series of sales yields them newest first, in front of what was there. */
  lemma {:induction false} RecordAllNewestFirst(history: seq<Transaction>, ts: seq<Transaction>)
    ensures RecordAll(history, ts) == Reversed(ts) + history
    decreases |ts|
  {
    if ts != [] {
      RecordAllNewestFirst(AddTransaction(history, ts[0]), ts[1..]);
      assert Reversed(ts[1..]) + ([ts[0]] + history) == (Reversed(ts[1..]) + [ts[0]]) + history;
    }
  }

  /** The store object that holds the history for the whole application. */
  class TransactionStore {
    var transactions: seq<Transaction>

    constructor ()
      ensures transactions == InitialHistory()
    {
      transactions := InitialHistory();
    }

    method Add(t: Transaction)
      modifies this
      ensures transactions == AddTransaction(old(transactions), t)
    {
      transactions := AddTransaction(transactions, t);
    }

    method Clear()
      modifies this
      ensures transactions == ClearTransactions(old(transactions))
    {
      transactions := ClearTransactions(transactions);
    }
  }
}
