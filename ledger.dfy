/** The bank account of Bank.cs: one exact balance with guarded deposits and
    withdrawals. The same rules govern the cash balance kept by the UI manager. */
module Ledger {
  import opened Common

  /** C#'s `decimal` adds and subtracts exactly, as `real` does. */
  type Money = real

  const AddNegativeMessage := "Amount to add cannot be negative."
  const RemoveNegativeMessage := "Amount to remove cannot be negative."

  /** A call that may change a balance: AddMoney or RemoveMoney with its amount. */
  datatype Call = Add(amount: Money) | Remove(amount: Money)

  /** The call throws an ArgumentException, before the balance is touched. */
  predicate Throws(call: Call) {
    call.amount < 0.0
  }

  /** The call moves money: it does not throw and, for a removal, the balance covers it. */
  predicate Moves(balance: Money, call: Call) {
    0.0 <= call.amount && (call.Remove? ==> call.amount <= balance)
  }

  /** The balance after the call, whether it moved money, was refused or threw. */
  function Apply(balance: Money, call: Call): (r: Money)
    ensures Moves(balance, call) && call.Add? ==> r == balance + call.amount
    ensures Moves(balance, call) && call.Remove? ==> r == balance - call.amount
    ensures !Moves(balance, call) ==> r == balance
    ensures 0.0 <= balance ==> 0.0 <= r
  {
    match call
    case Add(amount) =>
      if amount < 0.0 then balance else balance + amount
    case Remove(amount) =>
      if amount < 0.0 then balance
      else if balance >= amount then balance - amount
      else balance
  }

  /** The balance after a sequence of calls, in order. */
  function Run(balance: Money, calls: seq<Call>): Money
    decreases |calls|
  {
    if calls == [] then balance else Run(Apply(balance, calls[0]), calls[1..])
  }

  /** A balance that starts non-negative stays non-negative whatever calls are made. */
  lemma {:induction false} RunKeepsNonNegative(balance: Money, calls: seq<Call>)
    decreases |calls|
    requires 0.0 <= balance
    ensures 0.0 <= Run(balance, calls)
  {
    if calls != [] {
      RunKeepsNonNegative(Apply(balance, calls[0]), calls[1..]);
    }
  }

  /** The total of the amounts added by the calls that move money. */
  function Deposited(balance: Money, calls: seq<Call>): Money
    decreases |calls|
  {
    if calls == [] then 0.0
    else
      var call := calls[0];
      (if call.Add? && Moves(balance, call) then call.amount else 0.0)
      + Deposited(Apply(balance, call), calls[1..])
  }

  /** The total of the amounts removed by the calls that move money. */
  function Withdrawn(balance: Money, calls: seq<Call>): Money
    decreases |calls|
  {
    if calls == [] then 0.0
    else
      var call := calls[0];
      (if call.Remove? && Moves(balance, call) then call.amount else 0.0)
      + Withdrawn(Apply(balance, call), calls[1..])
  }

  /** No money is created or lost: the final balance is the starting balance
      plus what was deposited minus what was withdrawn. */
  lemma {:induction false} RunConserves(balance: Money, calls: seq<Call>)
    decreases |calls|
    ensures Run(balance, calls) == balance + Deposited(balance, calls) - Withdrawn(balance, calls)
  {
    if calls != [] {
      RunConserves(Apply(balance, calls[0]), calls[1..]);
    }
  }

  class Bank {
    var balance: Money

    /** No sign check: a negative starting balance is accepted as given. */
    constructor (initialBalance: Money := 0.0)
      ensures balance == initialBalance
    {
      balance := initialBalance;
    }

    method GetBalance() returns (r: Money)
      ensures r == balance
    {
      r := balance;
    }

    method AddMoney(amount: Money) returns (r: Outcome<()>)
      modifies this
      ensures r.Threw? <==> Throws(Add(amount))
      ensures r.Threw? ==> r.exception == ArgumentException(AddNegativeMessage) && balance == old(balance)
      ensures r.Returned? ==> balance == old(balance) + amount
      ensures balance == Apply(old(balance), Add(amount))
    {
      if amount < 0.0 {
        return Threw(ArgumentException(AddNegativeMessage));
      }
      balance := balance + amount;
      r := Returned(());
    }

    method RemoveMoney(amount: Money) returns (r: Outcome<bool>)
      modifies this
      ensures r.Threw? <==> Throws(Remove(amount))
      ensures r.Threw? ==> r.exception == ArgumentException(RemoveNegativeMessage) && balance == old(balance)
      ensures r.Returned? ==> (r.value <==> amount <= old(balance))
      ensures r == Returned(true) ==> balance == old(balance) - amount
      ensures r == Returned(false) ==> balance == old(balance)
      ensures balance == Apply(old(balance), Remove(amount))
    {
      if amount < 0.0 {
        return Threw(ArgumentException(RemoveNegativeMessage));
      }
      if balance >= amount {
        balance := balance - amount;
        return Returned(true);
      }
      r := Returned(false);
    }
  }
}
