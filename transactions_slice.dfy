/**
  The transactions store: the list of the signed-in user's transactions, a loading flag and
  an error message, changed in place by four reducers.
 */
module TransactionsSlice {
  import opened Wrappers

  /**
    A transaction row of the backend's `transactions` table. Amounts are integer cents;
    `kind` is the `type` column, a free string (the application writes "income" or "expense").
   */
  datatype Transaction = Transaction(
    id: string,
    createdAt: string,
    amount: int,
    kind: string,
    name: string,
    userId: string)

  /** `Math.abs` on an amount. */
  function Abs(x: int): nat {
    if x < 0 then -x else x
  }

  /** The store's value at one moment. */
  datatype TransactionsState = TransactionsState(
    transactions: seq<Transaction>,
    loading: bool,
    error: Option<string>)

  class TransactionsStore {
    var transactions: seq<Transaction>
    var loading: bool
    var error: Option<string>

    function State(): TransactionsState
      reads this
    {
      TransactionsState(transactions, loading, error)
    }

    /** The initial state: no transactions, not loading, no error. */
    constructor ()
      ensures transactions == [] && !loading && error == None
    {
      transactions := [];
      loading := false;
      error := None;
    }

    /** Replaces the whole list; the flag and the error stay as they were. */
    method SetTransactions(xs: seq<Transaction>)
      modifies this
      ensures transactions == xs
      ensures loading == old(loading) && error == old(error)
    {
      transactions := xs;
    }

    /** Puts `t` in front of the list (`unshift`); every old element moves one place back. */
    method AddTransaction(t: Transaction)
      modifies this
      ensures transactions == [t] + old(transactions)
      ensures |transactions| == |old(transactions)| + 1 && transactions[0] == t
      ensures forall i :: 0 <= i < |old(transactions)| ==> transactions[i + 1] == old(transactions)[i]
      ensures loading == old(loading) && error == old(error)
    {
      transactions := [t] + transactions;
    }

    /** Changes the loading flag and nothing else. */
    method SetLoading(value: bool)
      modifies this
      ensures loading == value
      ensures transactions == old(transactions) && error == old(error)
    {
      loading := value;
    }

    /** Changes the error message and nothing else. */
    method SetError(message: Option<string>)
      modifies this
      ensures error == message
      ensures transactions == old(transactions) && loading == old(loading)
    {
      error := message;
    }
  }
}
