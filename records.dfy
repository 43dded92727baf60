/**
 * The savings record, its history log and the two record-level transactions.
 * A record is one element of the `savings` collection of script.js; the
 * collection itself lives in module SavingsStore.
 */
module Records {

  /**
   * Record ids are `Date.now()` timestamps, hence positive: the edit branch's
   * test `if (currentId)` is therefore true exactly when an id is set.
   */
  type Id = i: int | i > 0 witness 1

  datatype Option<T> = None | Some(value: T)

  /** The `type` of a history entry: `"add"` (a deposit) or `"subtract"` (a withdrawal). */
  datatype TxType = Add | Subtract

  /** One transaction; `date` is the already formatted timestamp. */
  datatype HistoryEntry = HistoryEntry(date: string, amount: int, kind: TxType)

  /**
   * A savings target. `image` is the encoded picture, the empty string when
   * none was chosen; `frequency` is the period label picked in the form.
   */
  datatype Record = Record(
    id: Id,
    name: string,
    image: string,
    goal: int,
    savingAmount: int,
    frequency: string,
    collected: int,
    createdDate: string,
    history: seq<HistoryEntry>,
    reminderOn: bool)

  /** The fields the create/edit form supplies. */
  datatype Form = Form(name: string, image: string, goal: int, savingAmount: int, frequency: string)

  // ----- balance of a history log -----

  /** Sum of the amounts of the `"add"` entries. */
  function Deposited(h: seq<HistoryEntry>): int
  {
    if h == [] then 0
    else Deposited(h[..|h| - 1]) + (if h[|h| - 1].kind == Add then h[|h| - 1].amount else 0)
  }

  /** Sum of the amounts of the `"subtract"` entries. */
  function Withdrawn(h: seq<HistoryEntry>): int
  {
    if h == [] then 0
    else Withdrawn(h[..|h| - 1]) + (if h[|h| - 1].kind == Subtract then h[|h| - 1].amount else 0)
  }

  /** What the log says the balance is: deposits minus withdrawals. */
  function Balance(h: seq<HistoryEntry>): int
  {
    Deposited(h) - Withdrawn(h)
  }

  lemma BalanceAppend(h: seq<HistoryEntry>, e: HistoryEntry)
    ensures Deposited(h + [e]) == Deposited(h) + (if e.kind == Add then e.amount else 0)
    ensures Withdrawn(h + [e]) == Withdrawn(h) + (if e.kind == Subtract then e.amount else 0)
    ensures Balance(h + [e]) == Balance(h) + (if e.kind == Add then e.amount else -e.amount)
  {
  }

  /** Every recorded transaction moved a positive amount. */
  predicate PositiveAmounts(h: seq<HistoryEntry>)
  {
    forall i :: 0 <= i < |h| ==> h[i].amount > 0
  }

  /** No prefix of the log ever has a negative balance. */
  predicate NeverOverdrawn(h: seq<HistoryEntry>)
  {
    forall k :: 0 <= k <= |h| ==> Balance(h[..k]) >= 0
  }

  /**
   * The record invariant: the balance is non-negative and is exactly what its
   * history says, and the history only ever went through non-negative balances.
   */
  predicate WellFormed(r: Record)
  {
    && r.collected >= 0
    && r.collected == Balance(r.history)
    && PositiveAmounts(r.history)
    && NeverOverdrawn(r.history)
  }

  // ----- transactions on one record -----

  /** A deposit of `amount` (the `"nabung"` branch of processTransaction). */
  function Deposit(r: Record, amount: int, date: string): (r': Record)
    ensures r'.collected == r.collected + amount
    ensures r'.history == r.history + [HistoryEntry(date, amount, Add)]
    ensures r'.(collected := r.collected, history := r.history) == r
  {
    r.(collected := r.collected + amount, history := r.history + [HistoryEntry(date, amount, Add)])
  }

  /** A withdrawal of `amount`; the balance check is made by the caller. */
  function Withdraw(r: Record, amount: int, date: string): (r': Record)
    ensures r'.collected == r.collected - amount
    ensures r'.history == r.history + [HistoryEntry(date, amount, Subtract)]
    ensures r'.(collected := r.collected, history := r.history) == r
  {
    r.(collected := r.collected - amount, history := r.history + [HistoryEntry(date, amount, Subtract)])
  }

  /** Appending one entry keeps every earlier prefix and adds one whose balance is the new total. */
  lemma {:induction false} AppendKeepsLog(h: seq<HistoryEntry>, e: HistoryEntry)
    requires PositiveAmounts(h) && NeverOverdrawn(h)
    requires e.amount > 0 && Balance(h + [e]) >= 0
    ensures PositiveAmounts(h + [e]) && NeverOverdrawn(h + [e])
  {
    var h' := h + [e];
    forall k | 0 <= k <= |h'|
      ensures Balance(h'[..k]) >= 0
    {
      if k <= |h| {
        assert h'[..k] == h[..k];
      } else {
        assert h'[..k] == h';
      }
    }
  }

  lemma {:induction false} DepositKeepsWellFormed(r: Record, amount: int, date: string)
    requires WellFormed(r) && amount > 0
    ensures WellFormed(Deposit(r, amount, date))
    ensures Deposited(Deposit(r, amount, date).history) == Deposited(r.history) + amount
    ensures Withdrawn(Deposit(r, amount, date).history) == Withdrawn(r.history)
  {
    var e := HistoryEntry(date, amount, Add);
    BalanceAppend(r.history, e);
    AppendKeepsLog(r.history, e);
  }

  /** Withdrawing is safe whenever the balance covers the amount, the whole balance included. */
  lemma {:induction false} WithdrawKeepsWellFormed(r: Record, amount: int, date: string)
    requires WellFormed(r) && 0 < amount <= r.collected
    ensures WellFormed(Withdraw(r, amount, date))
    ensures Deposited(Withdraw(r, amount, date).history) == Deposited(r.history)
    ensures Withdrawn(Withdraw(r, amount, date).history) == Withdrawn(r.history) + amount
  {
    var e := HistoryEntry(date, amount, Subtract);
    BalanceAppend(r.history, e);
    AppendKeepsLog(r.history, e);
  }

  // ----- create and edit -----

  /** The record the submit handler builds for a new target. */
  function NewRecord(id: Id, f: Form, createdDate: string): (r: Record)
    ensures WellFormed(r)
    ensures r.collected == 0 && r.history == [] && !r.reminderOn
    ensures r.id == id && r.createdDate == createdDate
    ensures r.name == f.name && r.image == f.image && r.goal == f.goal
    ensures r.savingAmount == f.savingAmount && r.frequency == f.frequency
  {
    Record(id, f.name, f.image, f.goal, f.savingAmount, f.frequency, 0, createdDate, [], false)
  }

  /**
   * The record that replaces `prev` when the form is submitted in edit mode:
   * identity, balance, history and creation date survive, the old image stays
   * unless a new one was chosen, and the reminder is switched off.
   */
  function EditRecord(prev: Record, f: Form): (r: Record)
    ensures r.id == prev.id && r.collected == prev.collected
    ensures r.history == prev.history && r.createdDate == prev.createdDate
    ensures r.image == (if f.image == "" then prev.image else f.image)
    ensures r.name == f.name && r.goal == f.goal
    ensures r.savingAmount == f.savingAmount && r.frequency == f.frequency
    ensures !r.reminderOn
    ensures WellFormed(prev) ==> WellFormed(r)
  {
    var image := if f.image == "" then prev.image else f.image;
    Record(prev.id, f.name, image, f.goal, f.savingAmount, f.frequency,
           prev.collected, prev.createdDate, prev.history, false)
  }
}
