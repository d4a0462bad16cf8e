/**
 * `POST /transactions`: validates the body and answers, creating nothing yet.
 * Its catch block deletes the order and the transaction of `transactionId`
 * together, in one datastore batch, before answering 500.
 */
module TransactionsRoute {
  import opened Wrappers
  import opened Validation
  import opened Envelope

  const INVALID_MESSAGE := "Transaction failed, please check your input"
  const SUCCESS_MESSAGE := "Transaction successful"
  const RECORD_TO_DELETE_MISSING := "Record to delete does not exist."

  datatype Transaction = Transaction(id: string, amount: int, cartId: string)
  datatype Order = Order(id: string, transactionId: string, total: int, status: string)

  /** The object handed to the transaction schema, whose rules are not part of this model. */
  datatype TransactionFields = TransactionFields(amount: Value, cartId: Value)

  /** The two tables after a batch. */
  datatype Tables = Tables(orders: map<string, Order>, transactions: map<string, Transaction>)

  /**
   * `$transaction([order.delete({ where: { transaction_id: id } }),
   * transaction.delete({ where: { id } })])`, all or nothing: it fails, and
   * deletes neither row, when the datastore fails or either row is missing.
   */
  function DeletePair(tables: Tables, id: string, batchFault: Option<string>): (r: Result<Tables>)
    ensures r.Ok? <==> batchFault.None? && id in tables.orders && id in tables.transactions
    ensures r.Ok? ==> r.value.orders.Keys == tables.orders.Keys - {id}
    ensures r.Ok? ==> r.value.transactions.Keys == tables.transactions.Keys - {id}
    ensures r.Ok? ==> forall k :: k in r.value.orders ==> r.value.orders[k] == tables.orders[k]
    ensures r.Ok? ==> forall k :: k in r.value.transactions ==> r.value.transactions[k] == tables.transactions[k]
    ensures r.Err? ==> r.message == if batchFault.Some? then batchFault.value else RECORD_TO_DELETE_MISSING
  {
    if batchFault.Some? then Err(batchFault.value)
    else if id !in tables.orders then Err(RECORD_TO_DELETE_MISSING)
    else if id !in tables.transactions then Err(RECORD_TO_DELETE_MISSING)
    else Ok(Tables(tables.orders - {id}, tables.transactions - {id}))
  }

  /** The batch never touches a row of another id. */
  lemma DeletePairKeepsOtherIds(tables: Tables, id: string, batchFault: Option<string>, other: string)
    requires other != id && DeletePair(tables, id, batchFault).Ok?
    ensures var after := DeletePair(tables, id, batchFault).value;
      && (other in after.orders <==> other in tables.orders)
      && (other in after.transactions <==> other in tables.transactions)
  {
  }

  class TransactionStore {
    var orders: map<string, Order>              // keyed by transaction_id, unique per order
    var transactions: map<string, Transaction>  // keyed by id

    ghost predicate Valid()
      reads this
    {
      && (forall k :: k in orders ==> orders[k].transactionId == k)
      && (forall k :: k in transactions ==> transactions[k].id == k)
    }

    constructor (o: map<string, Order>, t: map<string, Transaction>)
      requires forall k :: k in o ==> o[k].transactionId == k
      requires forall k :: k in t ==> t[k].id == k
      ensures Valid() && orders == o && transactions == t
    {
      orders, transactions := o, t;
    }

    /**
     * POST. `request` is the outcome of `request.json()`: `Err` when it throws,
     * the only way into the catch block. A refused body gives 400 with the field
     * errors and runs no compensation; an accepted one gives the default 200 with
     * no data and creates nothing. In the catch block `transactionId` is still
     * "", so the batch targets the rows of id "": when it succeeds both rows are
     * gone and the answer is 500; when it fails nothing is deleted and its error
     * escapes the handler with no envelope.
     */
    method Post(request: Result<TransactionFields>, transactionSchema: TransactionFields -> Verdict,
                batchFault: Option<string>)
      returns (outcome: Outcome<Transaction>)
      requires Valid()
      modifies this
      ensures Valid()
      ensures outcome.Responded? ==> Conforms(outcome.response)
      ensures request.Ok? && transactionSchema(request.value).Failed? ==>
                && outcome == Responded(Reply(STATUS_BAD_REQUEST, INVALID_MESSAGE, POST, None,
                                              Fields(transactionSchema(request.value).fieldErrors)))
                && unchanged(this)
      ensures request.Ok? && transactionSchema(request.value).Passed? ==>
                outcome == Responded(Reply(STATUS_OK, SUCCESS_MESSAGE, POST, None, NoError)) && unchanged(this)
      ensures request.Err? ==>
                var batch := DeletePair(Tables(old(orders), old(transactions)), "", batchFault);
                && (batch.Ok? ==>
                      && orders == batch.value.orders && transactions == batch.value.transactions
                      && outcome == Responded(ServerError(TRY_AGAIN, POST, request.message)))
                && (batch.Err? ==> outcome == Escaped(batch.message) && unchanged(this))
    {
      var transactionId := "";
      if request.Ok? {
        var verdict := transactionSchema(request.value);
        if verdict.Failed? {
          return Responded(Reply(STATUS_BAD_REQUEST, INVALID_MESSAGE, POST, None, Fields(verdict.fieldErrors)));
        }
        return Responded(Reply(STATUS_OK, SUCCESS_MESSAGE, POST, None, NoError));
      }
      var batch := DeletePair(Tables(orders, transactions), transactionId, batchFault);
      if batch.Err? {
        return Escaped(batch.message);
      }
      orders, transactions := batch.value.orders, batch.value.transactions;
      outcome := Responded(ServerError(TRY_AGAIN, POST, request.message));
    }
  }

  /** Without an order and a transaction of id "", a thrown error never reaches an envelope. */
  lemma CompensationNeedsThePair(tables: Tables, batchFault: Option<string>)
    requires "" !in tables.orders || "" !in tables.transactions
    ensures DeletePair(tables, "", batchFault).Err?
  {
  }
}
