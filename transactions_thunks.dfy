/**
  The two asynchronous actions on the transactions store. Each is one sequential run:
  loading on and error cleared, one query to the backend, then the result or the error is
  stored, and loading is switched off whatever happened. The backend's answer is a parameter.
 */
module TransactionsThunks {
  import opened Wrappers
  import opened Backend
  import opened TransactionsSlice

  /** What a thunk's promise settles to: fulfilled with a value, or rejected with a message. */
  datatype ThunkResult<T> = Fulfilled(value: T) | Rejected(message: string)

  /** The fields of a new transaction, as given to `createTransaction` and as sent in the insert. */
  datatype NewTransaction = NewTransaction(
    name: string,
    amount: int,
    kind: string,
    createdAt: string,
    userId: string)

  /**
    The amount actually inserted: minus the magnitude for an expense, the magnitude for any
    other type. The magnitude is kept and the sign depends on the type alone.
   */
  function StoredAmount(kind: string, amount: int): (r: int)
    ensures Abs(r) == Abs(amount)
    ensures kind == "expense" ==> r <= 0
    ensures kind != "expense" ==> r >= 0
  {
    if kind == "expense" then -(Abs(amount) as int) else Abs(amount)
  }

  /** Normalising an already normalised amount changes nothing. */
  lemma StoredAmountIdempotent(kind: string, amount: int)
    ensures StoredAmount(kind, StoredAmount(kind, amount)) == StoredAmount(kind, amount)
  {
  }

  /** `data || []`: a null answer stands for the empty list. */
  function OrEmpty(data: Option<seq<Transaction>>): (r: seq<Transaction>)
    ensures data.Some? ==> r == data.value
    ensures data.None? ==> r == []
  {
    data.GetOr([])
  }

  /**
    `fetchTransactions`: loads the user's transactions. `queriedUser` is the user the query
    filters on and `atQuery` the store as the query sees it. A failure is recorded in
    `error` and not rethrown.
   */
  method FetchTransactions(store: TransactionsStore, userId: string, reply: Response<seq<Transaction>>)
    returns (r: ThunkResult<()>, ghost queriedUser: string, ghost atQuery: TransactionsState)
    modifies store
    ensures queriedUser == userId
    ensures atQuery == TransactionsState(old(store.transactions), true, None)
    ensures !store.loading
    ensures reply.Data? ==> store.transactions == OrEmpty(reply.value) && store.error == None
    ensures reply.Data? && reply.value.None? ==> store.transactions == []
    ensures reply.Failure? ==>
      store.transactions == old(store.transactions) && store.error == Some(reply.message)
    ensures r == Fulfilled(())
  {
    store.SetLoading(true);
    store.SetError(None);
    queriedUser, atQuery := userId, store.State();
    match reply {
      case Data(data) =>
        store.SetTransactions(OrEmpty(data));
      case Failure(message) =>
        store.SetError(Some(message));
    }
    store.SetLoading(false);
    r := Fulfilled(());
  }

  /**
    `createTransaction`: inserts one transaction, its amount normalised by `StoredAmount`.
    `sent` is the row sent in the insert and `atInsert` the store as the insert sees it.
    A returned row is put in front of the list; a failure is recorded and rethrown.
   */
  method CreateTransaction(store: TransactionsStore, input: NewTransaction, reply: Response<Transaction>)
    returns (r: ThunkResult<Option<Transaction>>, ghost sent: NewTransaction, ghost atInsert: TransactionsState)
    modifies store
    ensures sent == input.(amount := StoredAmount(input.kind, input.amount))
    ensures atInsert == TransactionsState(old(store.transactions), true, None)
    ensures !store.loading
    ensures reply.Data? ==> r == Fulfilled(reply.value) && store.error == None
    ensures reply.Data? && reply.value.Some? ==> store.transactions == [reply.value.value] + old(store.transactions)
    ensures reply.Data? && reply.value.None? ==> store.transactions == old(store.transactions)
    ensures reply.Failure? ==>
      && r == Rejected(reply.message)
      && store.transactions == old(store.transactions)
      && store.error == Some(reply.message)
  {
    store.SetLoading(true);
    store.SetError(None);
    sent := input.(amount := StoredAmount(input.kind, input.amount));
    atInsert := store.State();
    match reply {
      case Data(data) =>
        if data.Some? {
          store.AddTransaction(data.value);
        }
        r := Fulfilled(data);
      case Failure(message) =>
        store.SetError(Some(message));
        r := Rejected(message);
    }
    store.SetLoading(false);
  }
}
