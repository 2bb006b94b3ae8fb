/** EconomyAPI.cs: the public entry point other scripts use. It forwards each
    call to the UI manager and, only when the call succeeds, raises its change
    events; raised events are recorded in order in `events`. */
module Economy {
  import opened Common
  import opened Ledger
  import opened UI

  /** An event raised through one of the API's C# events, with its argument. */
  datatype Event =
    | BankBalanceChanged(balance: Money)
    | BankMoneyAdded(amount: Money)
    | BankMoneyRemoved(amount: Money)
    | CashBalanceChanged(balance: Money)
    | CashMoneyAdded(amount: Money)
    | CashMoneyRemoved(amount: Money)
    | UIShown

  class EconomyAPI {
    var uiManager: UIManager?
    var events: seq<Event>

    /** The objects a forwarding call may change: the API, and the UI manager
        with its bank once one is set. */
    function Footprint(): set<object>
      reads this
    {
      if uiManager == null then {this} else {this, uiManager, uiManager.bank}
    }

    /** The private constructor: no UI manager until Initialize. */
    constructor ()
      ensures uiManager == null && events == []
    {
      uiManager := null;
      events := [];
    }

    method Initialize(uiManager: UIManager?) returns (r: Outcome<()>)
      modifies this`uiManager
      ensures uiManager == null ==>
        r == Threw(ArgumentNullException("uiManager")) && this.uiManager == old(this.uiManager)
      ensures uiManager != null ==> r == Returned(()) && this.uiManager == uiManager
    {
      if uiManager == null {
        return Threw(ArgumentNullException("uiManager"));
      }
      this.uiManager := uiManager;
      r := Returned(());
    }

    method AddToBank(amount: Money, now: nat) returns (r: Outcome<()>)
      modifies Footprint()
      ensures uiManager == old(uiManager)
      ensures uiManager != null ==> uiManager.saveLog == old(uiManager.saveLog)
      ensures uiManager == null ==> r == Threw(NullReferenceException) && events == old(events)
      ensures uiManager != null && Throws(Add(amount)) ==>
        && r == Threw(ArgumentException(AddNegativeMessage))
        && events == old(events)
        && unchanged(uiManager) && uiManager.bank.balance == old(uiManager.bank.balance)
      ensures uiManager != null && !Throws(Add(amount)) ==>
        && r == Returned(())
        && uiManager.bank.balance == old(uiManager.bank.balance) + amount
        && uiManager.View() == Announce(Plus(amount), GainColor, true, now)
        && uiManager.cash == old(uiManager.cash)
        && uiManager.savePending
        && events == old(events) + [BankMoneyAdded(amount), BankBalanceChanged(uiManager.bank.balance)]
    {
      if uiManager == null {
        return Threw(NullReferenceException);
      }
      var added := uiManager.AddBank(amount, now);
      if added.Threw? {
        return added;
      }
      events := events + [BankMoneyAdded(amount)];
      var balance := uiManager.GetBankBalance();
      events := events + [BankBalanceChanged(balance)];
      r := Returned(());
    }

    method RemoveFromBank(amount: Money, now: nat) returns (r: Outcome<bool>)
      modifies Footprint()
      ensures uiManager == old(uiManager)
      ensures uiManager != null ==> uiManager.saveLog == old(uiManager.saveLog)
      ensures uiManager == null ==> r == Threw(NullReferenceException) && events == old(events)
      ensures uiManager != null && Throws(Remove(amount)) ==>
        && r == Threw(ArgumentException(RemoveNegativeMessage))
        && events == old(events)
        && unchanged(uiManager) && uiManager.bank.balance == old(uiManager.bank.balance)
      ensures uiManager != null && !Throws(Remove(amount)) ==>
        r == Returned(amount <= old(uiManager.bank.balance))
      ensures uiManager != null && r == Returned(true) ==>
        && uiManager.bank.balance == old(uiManager.bank.balance) - amount
        && uiManager.View() == Announce(Minus(amount), LossColor, true, now)
        && uiManager.cash == old(uiManager.cash)
        && uiManager.savePending
        && events == old(events) + [BankMoneyRemoved(amount), BankBalanceChanged(uiManager.bank.balance)]
      ensures uiManager != null && r == Returned(false) ==>
        && events == old(events)
        && unchanged(uiManager) && uiManager.bank.balance == old(uiManager.bank.balance)
    {
      if uiManager == null {
        return Threw(NullReferenceException);
      }
      r := uiManager.RemoveBank(amount, now);
      if r == Returned(true) {
        events := events + [BankMoneyRemoved(amount)];
        var balance := uiManager.GetBankBalance();
        events := events + [BankBalanceChanged(balance)];
      }
    }

    method AddToCash(amount: Money, now: nat) returns (r: Outcome<()>)
      modifies Footprint()
      ensures uiManager == old(uiManager)
      ensures uiManager != null ==> uiManager.saveLog == old(uiManager.saveLog)
      ensures uiManager == null ==> r == Threw(NullReferenceException) && events == old(events)
      ensures uiManager != null && Throws(Add(amount)) ==>
        && r == Threw(ArgumentException(AddNegativeMessage))
        && events == old(events)
        && unchanged(uiManager)
      ensures uiManager != null && !Throws(Add(amount)) ==>
        && r == Returned(())
        && uiManager.cash == old(uiManager.cash) + amount
        && uiManager.View() == Announce(Plus(amount), GainColor, false, now)
        && uiManager.savePending
        && events == old(events) + [CashMoneyAdded(amount), CashBalanceChanged(uiManager.cash)]
      ensures uiManager != null ==> uiManager.bank.balance == old(uiManager.bank.balance)
    {
      if uiManager == null {
        return Threw(NullReferenceException);
      }
      var added := uiManager.AddCash(amount, now);
      if added.Threw? {
        return added;
      }
      events := events + [CashMoneyAdded(amount)];
      var cash := uiManager.GetCash();
      events := events + [CashBalanceChanged(cash)];
      r := Returned(());
    }

    method RemoveFromCash(amount: Money, now: nat) returns (r: Outcome<bool>)
      modifies Footprint()
      ensures uiManager == old(uiManager)
      ensures uiManager != null ==> uiManager.saveLog == old(uiManager.saveLog)
      ensures uiManager == null ==> r == Threw(NullReferenceException) && events == old(events)
      ensures uiManager != null && Throws(Remove(amount)) ==>
        && r == Threw(ArgumentException(RemoveNegativeMessage))
        && events == old(events)
        && unchanged(uiManager)
      ensures uiManager != null && !Throws(Remove(amount)) ==>
        r == Returned(amount <= old(uiManager.cash))
      ensures uiManager != null && r == Returned(true) ==>
        && uiManager.cash == old(uiManager.cash) - amount
        && uiManager.View() == Announce(Minus(amount), LossColor, false, now)
        && uiManager.savePending
        && events == old(events) + [CashMoneyRemoved(amount), CashBalanceChanged(uiManager.cash)]
      ensures uiManager != null && r == Returned(false) ==>
        events == old(events) && unchanged(uiManager)
      ensures uiManager != null ==> uiManager.bank.balance == old(uiManager.bank.balance)
    {
      if uiManager == null {
        return Threw(NullReferenceException);
      }
      r := uiManager.RemoveCash(amount, now);
      if r == Returned(true) {
        events := events + [CashMoneyRemoved(amount)];
        var cash := uiManager.GetCash();
        events := events + [CashBalanceChanged(cash)];
      }
    }

    method GetBankBalance() returns (r: Outcome<Money>)
      ensures uiManager == null ==> r == Threw(NullReferenceException)
      ensures uiManager != null ==> r == Returned(uiManager.bank.balance)
    {
      if uiManager == null {
        return Threw(NullReferenceException);
      }
      var balance := uiManager.GetBankBalance();
      r := Returned(balance);
    }

    method GetCashBalance() returns (r: Outcome<Money>)
      ensures uiManager == null ==> r == Threw(NullReferenceException)
      ensures uiManager != null ==> r == Returned(uiManager.cash)
    {
      if uiManager == null {
        return Threw(NullReferenceException);
      }
      var cash := uiManager.GetCash();
      r := Returned(cash);
    }

    method ShowUI(now: nat) returns (r: Outcome<()>)
      modifies Footprint()
      ensures uiManager == old(uiManager)
      ensures uiManager != null ==> uiManager.saveLog == old(uiManager.saveLog)
      ensures uiManager == null ==> r == Threw(NullReferenceException) && events == old(events)
      ensures uiManager != null ==>
        && r == Returned(())
        && uiManager.View() == RevealBoth(old(uiManager.View()), now)
        && uiManager.cash == old(uiManager.cash)
        && uiManager.savePending == old(uiManager.savePending)
        && uiManager.bank.balance == old(uiManager.bank.balance)
        && events == old(events) + [UIShown]
    {
      if uiManager == null {
        return Threw(NullReferenceException);
      }
      uiManager.ShowBothTexts(now);
      events := events + [UIShown];
      r := Returned(());
    }
  }

  /** The static field EconomyAPI._instance, null until Instance is first read. */
  class Registry {
    var instance: EconomyAPI?

    constructor ()
      ensures instance == null
    {
      instance := null;
    }

    /** The Instance getter: creates the API on first access, and afterwards
        always returns that same object. */
    method Instance() returns (api: EconomyAPI)
      modifies this
      ensures instance == api
      ensures old(instance) != null ==> api == old(instance)
      ensures old(instance) == null ==> fresh(api) && api.uiManager == null && api.events == []
    {
      if instance == null {
        instance := new EconomyAPI();
      }
      api := instance;
    }

    /** Two reads of Instance give the same object, whatever the state before. */
    method InstanceIsStable() returns (first: EconomyAPI, second: EconomyAPI)
      modifies this
      ensures first == second && instance == first
      ensures old(instance) != null ==> first == old(instance)
    {
      first := Instance();
      second := Instance();
    }
  }
}
