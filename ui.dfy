/** The overlay and save debounce of UIManager.cs: the cash balance, the
    transient change annotation, which balance texts are shown, the fade
    alpha, and the pending-save flag armed by every successful change. */
module UI {
  import opened Common
  import opened Ledger
  import Persistence

  /** Alpha is kept as a number of fade steps: alpha = steps / FadeSteps, so
      that one FadeSpeed (0.05) is one step and 1.0 is FadeSteps steps. */
  const FadeSteps: int := 20

  /** How long an annotation stays before fading out, in milliseconds. */
  const DisplayMillis: nat := 5000

  datatype Rgb = Rgb(red: int, green: int, blue: int)

  const GainColor := Rgb(0, 255, 0)
  const LossColor := Rgb(255, 0, 0)
  /** default(Color), the colour before any annotation. */
  const NoColor := Rgb(0, 0, 0)

  /** The annotation text: empty, "+amount" or "-amount" (formatted with N2). */
  datatype ChangeText = Empty | Plus(amount: Money) | Minus(amount: Money)

  /** The overlay fields of a UIManager. Times are milliseconds since
      DateTime.MinValue, so default(DateTime) is 0. */
  datatype Overlay = Overlay(
    text: ChangeText,
    color: Rgb,
    hideTime: nat,
    showBank: bool,
    showCash: bool,
    alpha: int)

  predicate AlphaInRange(o: Overlay) {
    0 <= o.alpha <= FadeSteps
  }

  /** IsUIVisible: some balance text is shown. */
  predicate Visible(o: Overlay) {
    o.showBank || o.showCash
  }

  /** Fully faded out: transparent with no balance text shown. */
  predicate Hidden(o: Overlay) {
    o.alpha == 0 && !Visible(o)
  }

  /** ShowChangeText: arm a fresh annotation for exactly one balance. */
  function Announce(text: ChangeText, color: Rgb, isBank: bool, now: nat): (r: Overlay)
    ensures r.text == text && r.color == color
    ensures r.showBank == isBank && r.showCash != r.showBank
    ensures r.alpha == 0 && AlphaInRange(r)
    ensures now < r.hideTime && r.hideTime - now == DisplayMillis
  {
    Overlay(text, color, now + DisplayMillis, isBank, !isBank, 0)
  }

  /** ShowBothTexts: show both balances, drop the annotation text, restart the fade. */
  function RevealBoth(o: Overlay, now: nat): (r: Overlay)
    ensures r.text == Empty && r.color == o.color
    ensures r.showBank && r.showCash
    ensures r.alpha == 0 && AlphaInRange(r)
    ensures now < r.hideTime && r.hideTime - now == DisplayMillis
  {
    o.(text := Empty, hideTime := now + DisplayMillis, showBank := true, showCash := true, alpha := 0)
  }

  /** The tick on which DrawUI fades the overlay out completely and returns early. */
  predicate HidesThisTick(o: Overlay, now: nat) {
    now > o.hideTime && o.alpha <= 1
  }

  /** One DrawUI fade step at time `now`: until the hide time alpha rises to
      at most 1; strictly after it alpha falls, and on reaching 0 both texts
      are hidden. */
  function Tick(o: Overlay, now: nat): (r: Overlay)
    ensures r.text == o.text && r.color == o.color && r.hideTime == o.hideTime
    ensures AlphaInRange(o) ==> AlphaInRange(r)
    ensures now <= o.hideTime ==> r.showBank == o.showBank && r.showCash == o.showCash
    ensures now <= o.hideTime && o.alpha < FadeSteps ==> r.alpha == o.alpha + 1
    ensures now <= o.hideTime && FadeSteps <= o.alpha ==> r.alpha == FadeSteps
    ensures HidesThisTick(o, now) <==> now > o.hideTime && Hidden(r)
    ensures now > o.hideTime && !HidesThisTick(o, now) ==>
      r.alpha == o.alpha - 1 && r.showBank == o.showBank && r.showCash == o.showCash
  {
    if now > o.hideTime then
      var faded := o.alpha - 1;
      if faded <= 0 then o.(alpha := 0, showBank := false, showCash := false)
      else o.(alpha := faded)
    else
      var brighter := o.alpha + 1;
      o.(alpha := if brighter > FadeSteps then FadeSteps else brighter)
  }

  /** The overlay after one DrawUI per time in `nows`, in order. */
  function Ticks(o: Overlay, nows: seq<nat>): Overlay
    decreases |nows|
  {
    if nows == [] then o else Ticks(Tick(o, nows[0]), nows[1..])
  }

  /** Alpha stays within [0, 1] however many times DrawUI runs. */
  lemma {:induction false} TicksKeepAlphaInRange(o: Overlay, nows: seq<nat>)
    requires AlphaInRange(o)
    ensures AlphaInRange(Ticks(o, nows))
    decreases |nows|
  {
    if nows != [] {
      TicksKeepAlphaInRange(Tick(o, nows[0]), nows[1..]);
    }
  }

  /** Up to the hide time, DrawUI never changes which texts are shown. */
  lemma {:induction false} TicksBeforeHideTimeKeepTexts(o: Overlay, nows: seq<nat>)
    requires forall i :: 0 <= i < |nows| ==> nows[i] <= o.hideTime
    ensures Ticks(o, nows).showBank == o.showBank && Ticks(o, nows).showCash == o.showCash
    ensures Ticks(o, nows).hideTime == o.hideTime
    decreases |nows|
  {
    if nows != [] {
      TicksBeforeHideTimeKeepTexts(Tick(o, nows[0]), nows[1..]);
    }
  }

  /** After the hide time, an overlay at alpha k is hidden within max(k, 1)
      ticks and stays hidden. */
  lemma {:induction false} TicksAfterHideTimeHide(o: Overlay, nows: seq<nat>)
    requires 0 <= o.alpha
    requires forall i :: 0 <= i < |nows| ==> nows[i] > o.hideTime
    requires Hidden(o) || (1 <= |nows| && o.alpha <= |nows|)
    ensures Hidden(Ticks(o, nows))
    decreases |nows|
  {
    if nows != [] {
      var next := Tick(o, nows[0]);
      assert forall i :: 0 <= i < |nows[1..]| ==> nows[1..][i] == nows[i + 1];
      TicksAfterHideTimeHide(next, nows[1..]);
    }
  }

  /** FadeSteps ticks after the hide time, nothing is shown any more. */
  lemma FadedOutAfterFadeSteps(o: Overlay, nows: seq<nat>)
    requires AlphaInRange(o)
    requires FadeSteps <= |nows|
    requires forall i :: 0 <= i < |nows| ==> nows[i] > o.hideTime
    ensures Hidden(Ticks(o, nows))
  {
    TicksAfterHideTimeHide(o, nows);
  }

  /** A text DrawUI draws, with the fade alpha its colour is scaled by. */
  datatype Line =
    | BankLine(balance: Money, alpha: int)
    | CashLine(cash: Money, belowBank: bool, alpha: int)
    | ChangeLine(text: ChangeText, color: Rgb, alpha: int)

  /** Vertical order on screen: bank above cash above the annotation. */
  function Rank(line: Line): nat {
    match line
    case BankLine(_, _) => 0
    case CashLine(_, _, _) => 1
    case ChangeLine(_, _, _) => 2
  }

  /** The texts one DrawUI at time `now` draws, top to bottom. */
  function Frame(o: Overlay, now: nat, bank: Money, cash: Money): (r: seq<Line>)
    ensures HidesThisTick(o, now) ==> r == []
    ensures forall i :: 0 <= i < |r| ==> r[i].alpha == Tick(o, now).alpha
    ensures forall i, j :: 0 <= i < j < |r| ==> Rank(r[i]) < Rank(r[j])
    ensures !HidesThisTick(o, now) ==>
      && (BankLine(bank, Tick(o, now).alpha) in r <==> o.showBank)
      && (CashLine(cash, o.showBank, Tick(o, now).alpha) in r <==> o.showCash)
      && (ChangeLine(o.text, o.color, Tick(o, now).alpha) in r <==> o.text != Empty)
    ensures forall line :: line in r ==>
      || line == BankLine(bank, Tick(o, now).alpha)
      || line == CashLine(cash, o.showBank, Tick(o, now).alpha)
      || line == ChangeLine(o.text, o.color, Tick(o, now).alpha)
  {
    if HidesThisTick(o, now) then []
    else
      var t := Tick(o, now);
      (if t.showBank then [BankLine(bank, t.alpha)] else [])
      + (if t.showCash then [CashLine(cash, t.showBank, t.alpha)] else [])
      + (if t.text != Empty then [ChangeLine(t.text, t.color, t.alpha)] else [])
  }

  /** What happens to the save debounce: a change arms it (ScheduleSave), or
      the save timer elapses (OnSaveTimerElapsed). */
  datatype SaveTrigger = Schedule | Elapse

  /** The pending flag after one trigger. */
  function PendingAfter(pending: bool, trigger: SaveTrigger): (r: bool)
    ensures trigger == Schedule ==> r
    ensures trigger == Elapse ==> !r
  {
    match trigger
    case Schedule => true
    case Elapse => false  // cleared after the save, or already clear
  }

  /** The saves one trigger makes: one when the timer elapses with a save pending. */
  function SavesOn(pending: bool, trigger: SaveTrigger): (r: nat)
    ensures r <= 1
    ensures r == 1 <==> pending && trigger == Elapse
  {
    if trigger == Elapse && pending then 1 else 0
  }

  function PendingAfterAll(pending: bool, triggers: seq<SaveTrigger>): bool
    decreases |triggers|
  {
    if triggers == [] then pending
    else PendingAfterAll(PendingAfter(pending, triggers[0]), triggers[1..])
  }

  /** The number of saves a sequence of triggers makes. */
  function Saves(pending: bool, triggers: seq<SaveTrigger>): nat
    decreases |triggers|
  {
    if triggers == [] then 0
    else SavesOn(pending, triggers[0]) + Saves(PendingAfter(pending, triggers[0]), triggers[1..])
  }

  function Armings(triggers: seq<SaveTrigger>): nat
    decreases |triggers|
  {
    if triggers == [] then 0
    else (if triggers[0] == Schedule then 1 else 0) + Armings(triggers[1..])
  }

  function Repeat(trigger: SaveTrigger, n: nat): (r: seq<SaveTrigger>)
    ensures |r| == n && forall i :: 0 <= i < n ==> r[i] == trigger
  {
    if n == 0 then [] else [trigger] + Repeat(trigger, n - 1)
  }

  /** Saves at most once per arming (plus once for a save already pending). */
  lemma {:induction false} SavesAtMostOncePerArming(pending: bool, triggers: seq<SaveTrigger>)
    ensures Saves(pending, triggers) <= Armings(triggers) + (if pending then 1 else 0)
    decreases |triggers|
  {
    if triggers != [] {
      SavesAtMostOncePerArming(PendingAfter(pending, triggers[0]), triggers[1..]);
    }
  }

  /** The saves of two runs of triggers, one after the other, add up. */
  lemma {:induction false} SavesConcat(pending: bool, first: seq<SaveTrigger>, second: seq<SaveTrigger>)
    ensures Saves(pending, first + second)
         == Saves(pending, first) + Saves(PendingAfterAll(pending, first), second)
    ensures PendingAfterAll(pending, first + second)
         == PendingAfterAll(PendingAfterAll(pending, first), second)
    decreases |first|
  {
    if first == [] {
      assert first + second == second;
    } else {
      assert (first + second)[1..] == first[1..] + second;
      SavesConcat(PendingAfter(pending, first[0]), first[1..], second);
    }
  }

  /** Arming the debounce saves nothing and leaves a save pending. */
  lemma {:induction false} SchedulesOnlyArm(pending: bool, n: nat)
    requires 1 <= n
    ensures Saves(pending, Repeat(Schedule, n)) == 0
    ensures PendingAfterAll(pending, Repeat(Schedule, n))
    decreases n
  {
    if n > 1 {
      SchedulesOnlyArm(true, n - 1);
    }
  }

  /** Once a save is made, further elapses save nothing. */
  lemma {:induction false} ElapsesSaveOnce(pending: bool, k: nat)
    requires 1 <= k
    ensures Saves(pending, Repeat(Elapse, k)) == (if pending then 1 else 0)
    decreases k
  {
    if k > 1 {
      ElapsesSaveOnce(false, k - 1);
    }
  }

  /** Debounce coalescing: any burst of changes followed by any number of
      timer elapses makes exactly one save. */
  lemma BurstSavesOnce(pending: bool, changes: nat, elapses: nat)
    requires 1 <= changes && 1 <= elapses
    ensures Saves(pending, Repeat(Schedule, changes) + Repeat(Elapse, elapses)) == 1
  {
    SavesConcat(pending, Repeat(Schedule, changes), Repeat(Elapse, elapses));
    SchedulesOnlyArm(pending, changes);
    ElapsesSaveOnce(true, elapses);
  }

  class UIManager {
    const bank: Bank
    var cash: Money
    var changeText: ChangeText
    var changeTextColor: Rgb
    var changeTextHideTime: nat
    var showBank: bool
    var showCash: bool
    var alpha: int
    var savePending: bool
    /** Every SaveBankData call the save timer has made, with the pair it saved. */
    ghost var saveLog: seq<Persistence.BankData>

    /** The overlay fields as one value. */
    function View(): Overlay
      reads this
    {
      Overlay(changeText, changeTextColor, changeTextHideTime, showBank, showCash, alpha)
    }

    ghost predicate Valid()
      reads this
    {
      AlphaInRange(View())
    }

    constructor (bank: Bank, initialCash: Money := 0.0)
      ensures this.bank == bank && cash == initialCash
      ensures View() == Overlay(Empty, NoColor, 0, false, false, 0)
      ensures !savePending && saveLog == []
      ensures Valid()
    {
      this.bank := bank;
      cash := initialCash;
      changeText := Empty;
      changeTextColor := NoColor;
      changeTextHideTime := 0;
      showBank := false;
      showCash := false;
      alpha := 0;
      savePending := false;
      saveLog := [];
    }

    method GetBankBalance() returns (r: Money)
      ensures r == bank.balance
    {
      r := bank.GetBalance();
    }

    method GetCash() returns (r: Money)
      ensures r == cash
    {
      r := cash;
    }

    method AddCash(amount: Money, now: nat) returns (r: Outcome<()>)
      modifies this
      ensures r.Threw? <==> Throws(Add(amount))
      ensures r.Threw? ==> r.exception == ArgumentException(AddNegativeMessage) && unchanged(this)
      ensures r.Returned? ==>
        && cash == old(cash) + amount
        && View() == Announce(Plus(amount), GainColor, false, now)
        && savePending && saveLog == old(saveLog)
      ensures cash == Apply(old(cash), Add(amount))
      ensures old(Valid()) ==> Valid()
    {
      if amount < 0.0 {
        return Threw(ArgumentException(AddNegativeMessage));
      }
      cash := cash + amount;
      ShowChangeText(Plus(amount), GainColor, false, now);
      ScheduleSave();
      r := Returned(());
    }

    method RemoveCash(amount: Money, now: nat) returns (r: Outcome<bool>)
      modifies this
      ensures r.Threw? <==> Throws(Remove(amount))
      ensures r.Threw? ==> r.exception == ArgumentException(RemoveNegativeMessage) && unchanged(this)
      ensures r.Returned? ==> (r.value <==> amount <= old(cash))
      ensures r == Returned(true) ==>
        && cash == old(cash) - amount
        && View() == Announce(Minus(amount), LossColor, false, now)
        && savePending && saveLog == old(saveLog)
      ensures r == Returned(false) ==> unchanged(this)
      ensures cash == Apply(old(cash), Remove(amount))
      ensures old(Valid()) ==> Valid()
    {
      if amount < 0.0 {
        return Threw(ArgumentException(RemoveNegativeMessage));
      }
      if cash >= amount {
        cash := cash - amount;
        ShowChangeText(Minus(amount), LossColor, false, now);
        ScheduleSave();
        return Returned(true);
      }
      r := Returned(false);
    }

    method AddBank(amount: Money, now: nat) returns (r: Outcome<()>)
      modifies this, bank
      ensures r.Threw? <==> Throws(Add(amount))
      ensures r.Threw? ==>
        r.exception == ArgumentException(AddNegativeMessage) && unchanged(this) && bank.balance == old(bank.balance)
      ensures r.Returned? ==>
        && bank.balance == old(bank.balance) + amount
        && View() == Announce(Plus(amount), GainColor, true, now)
        && cash == old(cash) && savePending && saveLog == old(saveLog)
      ensures old(Valid()) ==> Valid()
    {
      var added := bank.AddMoney(amount);
      if added.Threw? {
        return Threw(added.exception);
      }
      ShowChangeText(Plus(amount), GainColor, true, now);
      ScheduleSave();
      r := Returned(());
    }

    method RemoveBank(amount: Money, now: nat) returns (r: Outcome<bool>)
      modifies this, bank
      ensures r.Threw? <==> Throws(Remove(amount))
      ensures r.Threw? ==>
        r.exception == ArgumentException(RemoveNegativeMessage) && unchanged(this) && bank.balance == old(bank.balance)
      ensures r.Returned? ==> (r.value <==> amount <= old(bank.balance))
      ensures r == Returned(true) ==>
        && bank.balance == old(bank.balance) - amount
        && View() == Announce(Minus(amount), LossColor, true, now)
        && cash == old(cash) && savePending && saveLog == old(saveLog)
      ensures r == Returned(false) ==> unchanged(this) && bank.balance == old(bank.balance)
      ensures old(Valid()) ==> Valid()
    {
      var removed := bank.RemoveMoney(amount);
      if removed.Threw? {
        return Threw(removed.exception);
      }
      if removed.value {
        ShowChangeText(Minus(amount), LossColor, true, now);
        ScheduleSave();
        return Returned(true);
      }
      r := Returned(false);
    }

    method ShowBothTexts(now: nat)
      modifies this
      ensures View() == RevealBoth(old(View()), now)
      ensures cash == old(cash) && savePending == old(savePending) && saveLog == old(saveLog)
      ensures Valid()
    {
      changeText := Empty;
      showBank := true;
      showCash := true;
      changeTextHideTime := now + DisplayMillis;
      alpha := 0;
    }

    method ShowChangeText(text: ChangeText, color: Rgb, isBank: bool, now: nat)
      modifies this
      ensures View() == Announce(text, color, isBank, now)
      ensures cash == old(cash) && savePending == old(savePending) && saveLog == old(saveLog)
      ensures Valid()
    {
      changeText := text;
      changeTextColor := color;
      changeTextHideTime := now + DisplayMillis;
      alpha := 0;
      showBank := isBank;
      showCash := !isBank;
    }

    /** Arms the debounce; restarting the one-second timer is left to the host. */
    method ScheduleSave()
      modifies this`savePending
      ensures savePending == PendingAfter(old(savePending), Schedule)
    {
      savePending := true;
    }

    /** The save timer's callback. `writable` says whether writing the save
        file succeeds; a failed write is swallowed by SaveBankData. */
    method OnSaveTimerElapsed(disk: Persistence.Disk, writable: bool)
      modifies this`savePending, this`saveLog, disk
      ensures savePending == PendingAfter(old(savePending), Elapse)
      ensures |saveLog| == |old(saveLog)| + SavesOn(old(savePending), Elapse)
      ensures saveLog == old(saveLog) + (if old(savePending) then [Persistence.BankData(bank.balance, cash)] else [])
      ensures old(savePending) && writable ==> disk.file == Persistence.Holds(Persistence.BankData(bank.balance, cash))
      ensures !(old(savePending) && writable) ==> disk.file == old(disk.file)
    {
      if savePending {
        Persistence.SaveBankData(bank, cash, disk, writable);
        saveLog := saveLog + [Persistence.BankData(bank.balance, cash)];
        savePending := false;
      }
    }

    /** The per-frame step: fades the overlay and returns the texts drawn. */
    method DrawUI(now: nat) returns (drawn: seq<Line>)
      modifies this
      ensures View() == Tick(old(View()), now)
      ensures drawn == Frame(old(View()), now, bank.balance, cash)
      ensures old(Valid()) ==> Valid()
      ensures cash == old(cash) && savePending == old(savePending) && saveLog == old(saveLog)
    {
      ghost var before := View();
      if now > changeTextHideTime {
        alpha := alpha - 1;
        if alpha <= 0 {
          alpha := 0;
          showBank := false;
          showCash := false;
          return [];
        }
      } else {
        alpha := alpha + 1;
        if alpha > FadeSteps {
          alpha := FadeSteps;
        }
      }
      assert View() == Tick(before, now);
      var balance := bank.GetBalance();
      var bankText := if showBank then [BankLine(balance, alpha)] else [];
      var cashText := if showCash then [CashLine(cash, showBank, alpha)] else [];
      var change := if changeText != Empty then [ChangeLine(changeText, changeTextColor, alpha)] else [];
      drawn := bankText + cashText + change;
    }

    method IsUIVisible() returns (r: bool)
      ensures r <==> Visible(View())
    {
      r := showBank || showCash;
    }
  }

  /** The host's starting balances (bank 1000, cash 500), then: add 500 cash,
      remove 200 from the bank, and try to remove 2000 cash. */
  method StartingBalancesScenario(now: nat) returns (bank: Money, cash: Money, refused: Outcome<bool>)
    ensures bank == 800.0 && cash == 1000.0
    ensures refused == Returned(false)
  {
    var account := new Bank(1000.0);
    var manager := new UIManager(account, 500.0);
    var added := manager.AddCash(500.0, now);
    var removed := manager.RemoveBank(200.0, now);
    refused := manager.RemoveCash(2000.0, now);
    bank := manager.GetBankBalance();
    cash := manager.GetCash();
  }
}
