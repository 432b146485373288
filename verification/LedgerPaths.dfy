/** What each ledger-writing transaction does, operation by operation and in the order of the code
    (backend/internal/billing: renew.go, refund.go, undo.go, tickets.go, voucher.go, voucher_api.go,
    batch_invoice.go, balance_api.go, commission_credit.go).
 */
module LedgerPaths {
  import opened Wrappers
  import J = Journal

  /** What a transaction can wait for: a locked row, or a unique value another one has just inserted. */
  datatype Resource =
    | IdemKey(key: string)
    | Ticket(id: nat)
    | Batch(id: nat)
    | Voucher(batch: nat, number: nat)
    | Subscriber(name: string)
    | Balance(manager: string)
    | Reversal(row: nat)

  /** A ledger row with the payment booked for it and the idempotency key of its renewal.
      `posted` says whether its writer also writes a journal entry. */
  datatype Row = Row(entry: J.Entry, gross: int, key: string, posted: bool)

  datatype Op =
    | Lock(resource: Resource)
    | CheckFunds(manager: string, charge: int, limit: int)
    | Insert(row: Row)
    | Recompute(manager: string)
    | Post(entry: J.Entry, hasPayment: bool, gross: int)
    | Respond(key: string, receipt: nat, expiry: int)

  datatype Ops = Done | Then(op: Op, rest: Ops)

  /** A renewal with everything looked up outside the ledger already resolved: prices, cost,
      commission, credit limit, receipt number and new expiry. */
  datatype Renewal = Renewal(
    subscriber: string, actor: string, kind: J.Kind,
    price: int, wholesale: Option<int>, cost: Option<int>, commission: nat,
    charge: bool, enforce: bool, limit: int,
    key: string, receipt: nat, expiry: int)

  datatype Job =
    | Renew(renewal: Renewal)
    | Redeem(batch: nat, number: nat, renewal: Renewal)
    | Refund(subscriber: string, row: nat)
    | TopUp(manager: string, entered: int, iqd: int)
    | UndoTopUp(row: nat)
    | GenerateVouchers(creator: string, price: int, count: nat, enforce: bool)
    | VoidBatch(batch: nat, unused: seq<nat>, creator: string, price: int)
    | InvoiceBatch(actor: string, price: int, count: nat, enforce: bool)
    | RejectTicket(ticket: nat, trial: Option<nat>, subscriber: string, approver: string)

  datatype Error = BadRequest | NoActor | NoSubscriber | TxNotFound | TxMismatch | NotRefundable | NotATopUp | NotATrial | NothingToDo

  /** The amount the actor's balance is charged: wholesale when one resolves, else the retail price. */
  function Charge(p: Renewal): int {
    if p.charge && p.wholesale.Some? then p.wholesale.value else p.price
  }

  function RenewalEntry(p: Renewal): J.Entry {
    J.Entry(p.kind, if p.charge then -Charge(p) else 0, p.actor, p.subscriber, None, p.cost)
  }

  function Check(enforce: bool, manager: string, charge: int, limit: int, rest: Ops): Ops {
    if enforce then Then(CheckFunds(manager, charge, limit), rest) else rest
  }

  /** postCommission: its own row, balance and journal entry. */
  function Commission(actor: string, amount: nat, base: int, rest: Ops): Ops {
    if base <= 0 || amount == 0 then rest
    else
      var e := J.Entry(J.Commission, amount, actor, "", None, None);
      Then(Insert(Row(e, 0, "", true)), Then(Recompute(actor), Then(Post(e, false, 0), rest)))
  }

  /** renewInTx. */
  function RenewInTx(p: Renewal, key: string, rest: Ops): Ops {
    var e := RenewalEntry(p);
    Then(Lock(Subscriber(p.subscriber)),
         if p.charge then
           Then(Lock(Balance(p.actor)),
                Check(p.enforce, p.actor, Charge(p), p.limit,
                      Then(Insert(Row(e, p.price, key, true)),
                           Then(Recompute(p.actor),
                                Then(Post(e, true, p.price),
                                     Commission(p.actor, p.commission, Charge(p), rest))))))
         else Then(Insert(Row(e, p.price, key, true)), Then(Post(e, true, p.price), rest)))
  }

  /** renewTx: reserve the key first, store the response last. */
  function RenewOps(p: Renewal): Ops {
    if p.key == "" then RenewInTx(p, "", Done)
    else Then(Lock(IdemKey(p.key)), RenewInTx(p, p.key, Then(Respond(p.key, p.receipt, p.expiry), Done)))
  }

  /** The row a refund of `original` appends: everything about it negated. */
  function RefundRow(original: Row, id: nat): Row {
    Row(J.Negation(original.entry, id).(kind := J.Refund), -original.gross, "", true)
  }

  /** refundCore after its checks. */
  function RefundOps(original: Row, id: nat): Ops {
    var row := RefundRow(original, id);
    var actor := original.entry.actor;
    Then(Lock(Subscriber(original.entry.subscriber)),
         if actor != "" then
           Then(Lock(Balance(actor)), Then(Lock(Reversal(id)), Then(Insert(row), Then(Recompute(actor), Then(Post(row.entry, true, row.gross), Done)))))
         else Then(Lock(Reversal(id)), Then(Insert(row), Then(Post(row.entry, true, row.gross), Done))))
  }

  function TopUpOps(manager: string, iqd: int): Ops {
    var e := J.Entry(J.TopUp, iqd, manager, "", None, None);
    Then(Lock(Balance(manager)), Then(Insert(Row(e, 0, "", true)), Then(Recompute(manager), Then(Post(e, false, 0), Done))))
  }

  /** The row an undo of the top-up `original` appends. */
  function UndoRow(original: Row, id: nat): Row {
    Row(J.Entry(J.TopUp, -original.entry.amount, original.entry.actor, "", Some(id), None), 0, "", true)
  }

  function UndoTopUpOps(original: Row, id: nat): Ops {
    var row := UndoRow(original, id);
    var actor := row.entry.actor;
    Then(Lock(Balance(actor)), Then(Lock(Reversal(id)), Then(Insert(row), Then(Recompute(actor), Then(Post(row.entry, false, 0), Done)))))
  }

  /** A balance movement without a journal entry, as batches make them. */
  function Adjust(manager: string, amount: int): Ops {
    var row := Row(J.Entry(J.Adjustment, amount, manager, "", None, None), 0, "", false);
    if manager == "" then Then(Insert(row), Done) else Then(Insert(row), Then(Recompute(manager), Done))
  }

  function GenerateOps(creator: string, total: int, enforce: bool): Ops {
    if creator == "" then Adjust("", -total)
    else Then(Lock(Balance(creator)), Check(enforce, creator, total, 0, Adjust(creator, -total)))
  }

  function LockVouchers(batch: nat, numbers: seq<nat>, rest: Ops): Ops
    decreases |numbers|
  {
    if numbers == [] then rest else Then(Lock(Voucher(batch, numbers[0])), LockVouchers(batch, numbers[1..], rest))
  }

  /** voidBatchHandler: the credit goes to the creator, when there is one and it is positive. */
  function VoidOps(batch: nat, unused: seq<nat>, creator: string, price: int): Ops {
    var credit := price * |unused|;
    Then(Lock(Batch(batch)),
         LockVouchers(batch, unused,
                      if credit > 0 && creator != "" then Then(Lock(Balance(creator)), Adjust(creator, credit)) else Done))
  }

  /** The zero-amount row a rejection appends against the row the trial was answered with. */
  function RejectRow(trial: nat, subscriber: string, approver: string): Row {
    Row(J.Entry(J.Refund, 0, approver, subscriber, Some(trial), None), 0, "", false)
  }

  /** rejectTicket: the reversal of the trial comes before the subscriber lock. */
  function RejectOps(ticket: nat, trial: Option<nat>, subscriber: string, approver: string): Ops {
    var tail := Then(Lock(Subscriber(subscriber)), Done);
    Then(Lock(Ticket(ticket)),
         if trial.None? then tail
         else Then(Lock(Reversal(trial.value)), Then(Insert(RejectRow(trial.value, subscriber, approver)), tail)))
  }

  /** The operations of a job, given the ledger at its start (rows never change once committed). */
  function Plan(ledger: seq<Row>, job: Job): Result<Ops, Error> {
    match job
    case Renew(p) =>
      if p.subscriber == "" then Err(NoSubscriber)
      else if p.charge && p.actor == "" then Err(NoActor)
      else if !J.RenewalFamily(p.kind) then Err(BadRequest)
      else Ok(RenewOps(p))
    case Redeem(batch, number, p) =>
      if p.subscriber == "" then Err(NoSubscriber)
      else Ok(Then(Lock(Voucher(batch, number)), RenewInTx(p.(kind := J.VoucherRedeem, charge := false), "", Done)))
    case Refund(sub, id) =>
      if id >= |ledger| then Err(TxNotFound)
      else if ledger[id].entry.subscriber == "" || ledger[id].entry.subscriber != sub then Err(TxMismatch)
      else if ledger[id].entry.kind == J.Refund then Err(NotRefundable)
      else Ok(RefundOps(ledger[id], id))
    case TopUp(manager, entered, iqd) =>
      if entered <= 0 then Err(BadRequest) else if manager == "" then Err(NoActor) else Ok(TopUpOps(manager, iqd))
    case UndoTopUp(id) =>
      // only a fresh top-up is ever recorded for undo, with its own manager and amount
      if id >= |ledger| || ledger[id].entry.kind != J.TopUp || ledger[id].entry.reverses.Some? || ledger[id].entry.actor == ""
      then Err(NotATopUp)
      else Ok(UndoTopUpOps(ledger[id], id))
    case GenerateVouchers(creator, price, count, enforce) => Ok(GenerateOps(creator, price * count, enforce))
    case VoidBatch(batch, unused, creator, price) => Ok(VoidOps(batch, unused, creator, price))
    case InvoiceBatch(actor, price, count, enforce) =>
      if actor == "" || count == 0 then Err(NothingToDo) else Ok(GenerateOps(actor, price * count, enforce))
    case RejectTicket(ticket, trial, sub, approver) =>
      // a ticket's trial column only ever holds the row a keyed renewal was answered with
      if trial.Some? && !(trial.value < |ledger| && ledger[trial.value].key != "") then Err(NotATrial)
      else Ok(RejectOps(ticket, trial, sub, approver))
  }

  /** The row of a subscriber's own trial grant: free of charge to any wallet, and keyed. */
  predicate IsTrial(row: Row, subscriber: string) {
    && row.key != "" && row.entry.kind == J.Adjustment && row.entry.amount == 0 && row.entry.actor == ""
    && row.entry.subscriber == subscriber && row.entry.subscriber != "" && row.entry.reverses.None?
  }
}
