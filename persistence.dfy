/** Saving and loading the (bank, cash) pair, as BankDataManager.cs does it.
    The XML file scripts/TrustlessHoldings/data.xml is abstracted to the record
    it holds; I/O failures become explicit inputs, and every failure is caught. */
module Persistence {
  import opened Ledger

  /** The record serialised to the save file. */
  datatype BankData = BankData(bankBalance: Money, cashBalance: Money)

  /** The save file as the loader finds it: absent, holding a record, or one
      that cannot be opened or deserialised. */
  datatype SaveFile = Missing | Holds(data: BankData) | Unreadable

  /** The file system location of the save file. */
  class Disk {
    var file: SaveFile

    constructor (file: SaveFile)
      ensures this.file == file
    {
      this.file := file;
    }
  }

  /** The (bank, cash) pair LoadBankData leaves, from the balances before the
      call and the save file: the bank is reconciled by adding the difference
      between the saved and the current balance, which throws (and is then
      swallowed, leaving cash alone too) when the saved balance is lower. */
  function Reconciled(bank: Money, cash: Money, file: SaveFile): (r: (Money, Money))
    ensures file.Holds? && bank <= file.data.bankBalance ==> r == (file.data.bankBalance, file.data.cashBalance)
    ensures file.Holds? && file.data.bankBalance < bank ==> r == (bank, cash)
    ensures !file.Holds? ==> r == (bank, cash)
  {
    match file
    case Holds(data) =>
      var delta := data.bankBalance - bank;
      if Throws(Add(delta)) then (bank, cash) else (Apply(bank, Add(delta)), data.cashBalance)
    case _ => (bank, cash)
  }

  /** Writes the bank's balance and the cash to the save file; `writable` is
      false when creating the directory or writing the file fails, and then the
      error is shown and swallowed. The bank is only read. */
  method SaveBankData(bank: Bank, cash: Money, disk: Disk, writable: bool)
    modifies disk
    ensures writable ==> disk.file == Holds(BankData(bank.balance, cash))
    ensures !writable ==> disk.file == old(disk.file)
  {
    if writable {
      var balance := bank.GetBalance();
      disk.file := Holds(BankData(balance, cash));
    }
  }

  /** Loads the save file into the bank and returns the new value of the cash
      passed by reference. Nothing escapes to the caller: a missing file leaves
      both alone, and an unreadable file or a throwing AddMoney is caught. */
  method LoadBankData(bank: Bank, cash: Money, disk: Disk) returns (cashAfter: Money)
    modifies bank
    ensures (bank.balance, cashAfter) == Reconciled(old(bank.balance), cash, disk.file)
  {
    cashAfter := cash;
    match disk.file
    case Holds(data) =>
      var current := bank.GetBalance();
      var added := bank.AddMoney(data.bankBalance - current);
      if added.Returned? {
        cashAfter := data.cashBalance;
      }
    case _ =>
  }

  /** Saving a bank and cash, then loading into a bank that holds no more than
      was saved, restores exactly the saved pair. */
  method SaveThenLoad(saved: Bank, cash: Money, target: Bank, targetCash: Money, disk: Disk)
    returns (cashAfter: Money)
    requires target.balance <= saved.balance
    modifies disk, target
    ensures target.balance == old(saved.balance)
    ensures cashAfter == cash
  {
    SaveBankData(saved, cash, disk, true);
    cashAfter := LoadBankData(target, targetCash, disk);
  }
}
