# Trustless Holdings economy core, in Dafny

A model of the in-game economy of Trustless Holdings: a bank account and a
cash balance that only change through guarded deposits and withdrawals, the
on-screen overlay that announces each change and fades out five seconds later,
the debounced save of both balances, the save/load reconciliation of the save
file, and the `EconomyAPI` singleton that other scripts call and that raises
change events.

- `common.dfy` (`Common`): exceptions as values. A C# `throw` becomes an
  `Outcome` of `Threw(exception)` that callers propagate, as .NET does.
- `ledger.dfy` (`Ledger`, Bank.cs): `decimal` is modelled as `real` (exact
  addition and subtraction). The rules of a deposit or withdrawal are the
  function `Apply`. Every method that changes a balance, bank or cash, is
  proved to follow it. Lemmas over any sequence of calls show that a
  non-negative balance stays non-negative and that no money is created or lost.
- `persistence.dfy` (`Persistence`, BankDataManager.cs): the XML save file is
  abstracted to `SaveFile` (missing, holding a `(bank, cash)` record, or
  unreadable). A failing write is the input `writable = false`. Loading
  reconciles the bank by depositing `saved - current`. When that delta is
  negative, `AddMoney` throws, the handler swallows the exception, and neither
  balance is loaded.
- `ui.dfy` (`UI`, UIManager.cs): `DateTime.Now` is the explicit input `now`,
  in milliseconds since `DateTime.MinValue`, so `default(DateTime)` is 0. The
  fade alpha is a count of steps from 0 to 20, where one step is the 0.05 fade
  speed. The overlay fields are the value `Overlay`. The per-tick fade is
  `Tick`, and the texts a frame draws are `Frame`. The debounce is an algebra
  of `Schedule`/`Elapse` triggers. The class `UIManager` is proved against
  these functions, and its ghost `saveLog` records every save the timer makes.
- `economy.dfy` (`Economy`, EconomyAPI.cs): raised events are appended to
  `events`. The static `_instance` field is the object `Registry`. Calling
  the API before `Initialize` dereferences a null manager, which is modelled
  as `NullReferenceException`.

## Model

| member | source | states |
|---|---|---|
| `Ledger.Bank.constructor` | Bank.cs:9-12 | the balance is exactly the initial balance, 0 when none is given, with no sign check |
| `Ledger.Bank.GetBalance` | Bank.cs:14-17 | returns the balance and changes nothing |
| `Ledger.Bank.AddMoney` | Bank.cs:19-25 | throws ArgumentException("Amount to add cannot be negative.") iff amount < 0, and then leaves the balance alone; otherwise adds exactly `amount`; agrees with `Apply` |
| `Ledger.Bank.RemoveMoney` | Bank.cs:27-39 | throws iff amount < 0 with the balance unchanged; returns true iff amount <= balance, and then subtracts exactly `amount`; false leaves the balance unchanged; agrees with `Apply` |
| `Ledger.Apply` | Bank.cs:19-39 | a call that moves money adds or removes exactly its amount, any other call leaves the balance as it was, and a non-negative balance stays non-negative |
| `Ledger.RunKeepsNonNegative` | Bank.cs:19-39 | a balance that starts at or above 0 stays so across any sequence of AddMoney/RemoveMoney calls |
| `Ledger.RunConserves` | Bank.cs:19-39 | the final balance is the start plus everything deposited minus everything withdrawn: no money appears or disappears |
| `Persistence.Reconciled` | BankDataManager.cs:38-57 | no readable record leaves (bank, cash) unchanged; a record whose bank balance is at least the current one yields exactly the saved pair; a lower saved bank balance makes AddMoney throw and leaves both balances unchanged |
| `Persistence.SaveBankData` | BankDataManager.cs:12-36 | a successful write stores exactly (bank balance, cash); a failed one leaves the file alone; the bank is never modified and nothing is thrown |
| `Persistence.LoadBankData` | BankDataManager.cs:38-57 | the resulting bank balance and cash are exactly `Reconciled` of the balances before and the save file; nothing is thrown |
| `Persistence.SaveThenLoad` | BankDataManager.cs:12-57 | saving (b, c) and then loading into a bank holding no more than b yields bank = b and cash = c |
| `UI.Announce` | UIManager.cs:106-114 | the annotation arms exactly one balance text (bank iff isBank), resets alpha to 0 and hides 5000 ms after now |
| `UI.RevealBoth` | UIManager.cs:97-104 | both balance texts shown, annotation text cleared, its colour kept, alpha 0, hide time now + 5000 ms |
| `UI.Tick` | UIManager.cs:139-154 | keeps alpha in [0, 1]; up to the hide time alpha rises by one step, clamped at 1, and the shown texts stay; strictly after it alpha falls by one step, and the overlay becomes hidden (alpha 0, nothing shown) exactly when alpha had at most one step left |
| `UI.Frame` | UIManager.cs:139-202 | the tick that hides the overlay draws nothing; otherwise it draws the bank text iff the bank is shown, the cash text iff cash is shown (in the bank's row when the bank is hidden), and the annotation iff it is non-empty, and no other line; texts are ordered bank, cash, annotation, and their colour is scaled by the new alpha |
| `UI.TicksKeepAlphaInRange` | UIManager.cs:139-154 | alpha stays within [0, 1] across any number of DrawUI calls |
| `UI.TicksBeforeHideTimeKeepTexts` | UIManager.cs:150-154 | while now <= hide time, DrawUI never changes which texts are shown |
| `UI.TicksAfterHideTimeHide` | UIManager.cs:139-148 | strictly after the hide time, an overlay with k alpha steps is hidden after max(k, 1) ticks and stays hidden |
| `UI.FadedOutAfterFadeSteps` | UIManager.cs:139-148 | 20 ticks (1 / FadeSpeed) after the hide time, alpha is 0 and neither balance text is shown |
| `UI.PendingAfter` | UIManager.cs:121-135 | arming the debounce makes a save pending; the timer elapsing always leaves none pending |
| `UI.SavesOn` | UIManager.cs:128-135 | an elapse saves once iff a save was pending, and at most once |
| `UI.SavesAtMostOncePerArming` | UIManager.cs:121-135 | any run of armings and elapses makes no more saves than armings, plus one for a save pending at the start |
| `UI.SchedulesOnlyArm` | UIManager.cs:121-126 | a burst of armings saves nothing and leaves a save pending |
| `UI.ElapsesSaveOnce` | UIManager.cs:128-135 | repeated elapses with no arming in between save once if a save was pending and never again |
| `UI.BurstSavesOnce` | UIManager.cs:121-135 | any burst of changes followed by any number of elapses makes exactly one save |
| `UI.UIManager.constructor` | UIManager.cs:24-36 | the given bank and initial cash (0 when none is given), no annotation, nothing shown, alpha 0, hide time default(DateTime), no save pending |
| `UI.UIManager.GetBankBalance` | UIManager.cs:38-41 | returns the bank's balance and changes nothing |
| `UI.UIManager.GetCash` | UIManager.cs:43-46 | returns the cash and changes nothing |
| `UI.UIManager.AddCash` | UIManager.cs:48-57 | a negative amount throws before any field changes; otherwise cash rises by exactly the amount, the green "+amount" cash-only annotation is armed and a save is pending; cash follows `Apply`; alpha stays in [0, 1] |
| `UI.UIManager.RemoveCash` | UIManager.cs:59-74 | throws iff amount < 0; returns true iff amount <= cash, and then cash falls by exactly the amount, the red "-amount" cash-only annotation is armed and a save is pending; on false every field, the pending flag included, is unchanged; alpha stays in [0, 1] |
| `UI.UIManager.AddBank` | UIManager.cs:76-82 | the exception of Bank.AddMoney propagates with no UI or save state changed; otherwise the bank rises by the amount, the bank-only annotation is armed and a save is pending, cash untouched; alpha stays in [0, 1] |
| `UI.UIManager.RemoveBank` | UIManager.cs:84-95 | the exception of Bank.RemoveMoney propagates with nothing changed; returns true iff the bank covers the amount, and then the bank falls by it, the bank-only annotation is armed and a save is pending; false changes nothing; alpha stays in [0, 1] |
| `UI.UIManager.ShowBothTexts` | UIManager.cs:97-104 | the overlay becomes `RevealBoth` of the old one; balances and the pending flag are untouched; alpha is within [0, 1] |
| `UI.UIManager.ShowChangeText` | UIManager.cs:106-114 | the overlay becomes `Announce` of the text, colour and target at now, with alpha within [0, 1] |
| `UI.UIManager.ScheduleSave` | UIManager.cs:121-126 | a save is pending afterwards and nothing else changes |
| `UI.UIManager.OnSaveTimerElapsed` | UIManager.cs:128-135 | when a save is pending it appends exactly one save of the current (bank, cash) to the log and clears the flag; otherwise the log and the file are unchanged |
| `UI.UIManager.DrawUI` | UIManager.cs:137-203 | the overlay becomes `Tick` of the old one, the texts drawn are `Frame`, alpha stays in [0, 1], and balances and save state are untouched |
| `UI.UIManager.IsUIVisible` | UIManager.cs:204-207 | true iff the bank or the cash text is shown |
| `UI.StartingBalancesScenario` | UIManager.cs:48-95 | from bank 1000 and cash 500: adding 500 cash gives cash 1000, removing 200 from the bank gives 800, and removing 2000 cash is refused with cash still 1000 |
| `Economy.EconomyAPI.constructor` | EconomyAPI.cs:70 | a new API has no UI manager and has raised no events |
| `Economy.EconomyAPI.Initialize` | EconomyAPI.cs:77-80 | null throws ArgumentNullException("uiManager") and keeps the old manager; otherwise stores the given manager |
| `Economy.EconomyAPI.AddToBank` | EconomyAPI.cs:86-91 | forwards to AddBank; on success the bank rises by the amount, cash and the save log are untouched, and it raises BankMoneyAdded(amount) then BankBalanceChanged(new balance), in that order; when AddBank throws it raises nothing and the exception propagates |
| `Economy.EconomyAPI.RemoveFromBank` | EconomyAPI.cs:98-107 | returns exactly RemoveBank's result; when it is true the bank falls by the amount with cash and the save log untouched, and BankMoneyRemoved then BankBalanceChanged are raised; otherwise nothing is raised |
| `Economy.EconomyAPI.AddToCash` | EconomyAPI.cs:113-118 | forwards to AddCash; on success raises CashMoneyAdded(amount) then CashBalanceChanged(new cash); nothing is raised when it throws |
| `Economy.EconomyAPI.RemoveFromCash` | EconomyAPI.cs:125-134 | returns exactly RemoveCash's result; raises CashMoneyRemoved then CashBalanceChanged only when it is true |
| `Economy.EconomyAPI.GetBankBalance` | EconomyAPI.cs:140-143 | returns the bank balance, changing nothing |
| `Economy.EconomyAPI.GetCashBalance` | EconomyAPI.cs:149-152 | returns the cash, changing nothing |
| `Economy.EconomyAPI.ShowUI` | EconomyAPI.cs:157-161 | performs ShowBothTexts, keeping balances, the pending flag and the save log, and then raises UIShown |
| `Economy.Registry.Instance` | EconomyAPI.cs:58-68 | creates the API only on the first access and returns that same object ever after |
| `Economy.Registry.InstanceIsStable` | EconomyAPI.cs:58-68 | two reads of Instance return the same object |

## Left out

- Rendering in `DrawUI` (UIManager.cs:155-202): screen positions from `Screen.Resolution`, fonts, outlines and text drawing. `Frame` keeps only which texts are drawn, in which order, whether cash takes the bank's row, and the alpha that scales their colour. The `(int)(_alpha * 255)` colour byte and the culture-dependent `N2` formatting are not modelled.
- UI.FadedOutAfterFadeSteps: counts in exact steps of 1/20. With the float 0.05f that UIManager.cs uses, reaching 0 or 1 can take one tick more or less. Only the bounds and the visibility rules carry over exactly.
- The `System.Timers.Timer` (UIManager.cs:33-35, 124-125): its one-second countdown, the restart on every change, and its thread-pool callback racing with the game thread. `OnSaveTimerElapsed` is an explicit call that may happen at any time, and `ScheduleSave` only sets the pending flag.
- Sound and host calls: `GTA.Audio.PlaySoundFrontendAndForget` (UIManager.cs:116-119), `Screen.ShowSubtitle` in the save/load error handlers, and `Function.Call`.
- XML serialisation and the file system in BankDataManager.cs: the directory, the fixed path and the XML format are replaced by `SaveFile` and `Disk`. A write that fails part-way and leaves a truncated file is not modelled. The file is passed to `OnSaveTimerElapsed` instead of being a fixed global path.
- `decimal` range and precision: amounts are unbounded exact reals, so the `OverflowException` of a sum beyond about 7.9e28 and rounding past 28 digits are not modelled.
- `DateTime.AddSeconds` overflowing near `DateTime.MaxValue` is not modelled.
- Multicast delegate semantics: an event is recorded as raised even when it has no subscriber, and exceptions thrown by subscribers are not modelled.
- Class1.cs and Main.cs: these are host script classes that wire tick, key and abort events. They are not part of this model. Both declare `TrustlessHoldingsInc.Main`, and Main.cs calls an `EconomyAPI.Initialize(decimal, decimal)` overload that does not exist, so the two cannot build together.
