# Payout simulator and bill splitter, modelled in Dafny

The repository holds two screens of a payments demo. This project models the
logic inside them, without the user interface:

- **Payout simulator** (`payout.dfy`, module `PayoutSimulator`). A fixed
  catalog of four payout methods gives each method a delivery-time label and a
  fee rate. A simulation converts a USD amount into the selected currency. It
  goes through the base currency of the rate table, `amount / rates["USD"] *
  rates[target]`. It charges `amount * fee` on the original amount and yields
  a five-field result. The class `PayoutScreen` holds the screen's state:
  amount, currency, method, rates, `processing` and `result`. "Simulate
  Payout" sets `processing` and starts a timer. When the timer fires, the
  result is set and `processing` is cleared. "New Simulation" clears the
  result and nothing else. The timer's callback works on the amount, rates,
  currency and method current when the button was pressed. The model keeps
  these captured values as a queue `pending` of requests, oldest first, since
  timers of equal delay fire in the order they were started.
- **Bill splitter** (`split.dfy`, module `InstantSplit`). A list of friends,
  each with an id, a name and a `selected` flag. Clicking a friend flips the
  flag of every friend with that id. The share each person pays is the bill
  divided by the number of selected friends plus one, the payer. An empty
  bill gives a share of 0. The class `SplitScreen` keeps the invariant that
  `splitAmount` is the share computed from the current `amount` and `friends`.

All amounts, rates and shares are Dafny `real`s, so the arithmetic is exact.
The source performs no validation. Its simulation reads `rates["USD"]` and
`rates[target]` and looks the method up in the catalog without checking any
of them. The model makes these needs explicit: a simulation requires a
non-zero USD rate, a rate for the target and a method id from the catalog
(`CanConvert`, `Request.WellFormed`). The screen defines no error cases, so
the model has none.

## Model

| member | source | states |
|---|---|---|
| `PayoutSimulator.CatalogContents` | src/PayoutSimulator.js:29-34 | the catalog has exactly the four ids bank_transfer, instant_payment, digital_wallet and gift_card, with fee rates 0.005, 0.015, 0.01 and 0.02 |
| `PayoutSimulator.CatalogFeesInRange` | src/PayoutSimulator.js:29-34 | every catalog fee rate lies strictly between 0 and 1 |
| `PayoutSimulator.Convert` | src/PayoutSimulator.js:61-67 | converting a currency into itself returns the amount; the result is 0 exactly when the amount or the target rate is 0 |
| `PayoutSimulator.Fee` | src/PayoutSimulator.js:68 | with a fee rate in [0,1) the fee on a positive amount is non-negative and below the amount |
| `PayoutSimulator.Simulate` | src/PayoutSimulator.js:61-76 | the result copies the amount, the currency and the method's time label; the fee is the amount times the method's rate; converted amount times the USD rate equals amount times the target rate; a positive amount pays a positive fee below itself; a USD target gets back the amount unchanged |
| `PayoutSimulator.FeeBelowAmount` | src/PayoutSimulator.js:29-34 | for a positive amount and any catalog method, 0 < fee < amount |
| `PayoutSimulator.FeeLinear` | src/PayoutSimulator.js:68 | scaling the amount by k scales the fee by k |
| `PayoutSimulator.ConvertLinear` | src/PayoutSimulator.js:66-67 | scaling the amount by k scales the converted amount by k |
| `PayoutSimulator.ConvertRoundTrip` | src/PayoutSimulator.js:61-67 | converting into a currency with a non-zero rate and back with the same rates restores the amount |
| `PayoutSimulator.ConvertThrough` | src/PayoutSimulator.js:61-67 | converting through an intermediate currency equals converting directly, which is what going via the base currency relies on |
| `PayoutSimulator.SimulateLinear` | src/PayoutSimulator.js:66-68 | fee and converted amount of a simulation both scale linearly with the amount |
| `PayoutSimulator.BankTransferExample` | src/PayoutSimulator.js:58-80 | 1000 USD by bank transfer into EUR at 0.9 gives fee 5, 900 EUR and "1-2 hours" |
| `PayoutSimulator.PayoutScreen.constructor` | src/PayoutSimulator.js:16-22 | the screen opens with 1000, "USD", bank_transfer, no rates, not processing and no result |
| `PayoutSimulator.PayoutScreen.SetAmount` | src/PayoutSimulator.js:111 | only the amount changes; simulations already started keep their own amount |
| `PayoutSimulator.PayoutScreen.SetSelectedCountry` | src/PayoutSimulator.js:119 | only the selected currency changes |
| `PayoutSimulator.PayoutScreen.SetPayoutMethod` | src/PayoutSimulator.js:136 | only the selected method changes |
| `PayoutSimulator.PayoutScreen.SetRates` | src/PayoutSimulator.js:48 | a new rate table replaces the old one whole |
| `PayoutSimulator.PayoutScreen.SimulatePayout` | src/PayoutSimulator.js:58-60 | processing becomes true, a request holding the current amount, rates, currency and method joins the queue, and the result is untouched |
| `PayoutSimulator.PayoutScreen.CompleteSimulation` | src/PayoutSimulator.js:60-79 | the oldest request's simulation becomes the result, processing becomes false and the request leaves the queue |
| `PayoutSimulator.PayoutScreen.NewSimulation` | src/PayoutSimulator.js:94 | the result becomes None; amount, currency, method and processing are unchanged |
| `InstantSplit.Toggle` | src/InstantSplit.js:32-34 | the toggled list has the same length as the original |
| `InstantSplit.ToggleAt` | src/InstantSplit.js:32-34 | position k of the toggled list is friend k flipped if its id matches, friend k itself otherwise |
| `InstantSplit.ToggleKeepsShape` | src/InstantSplit.js:32-34 | toggling keeps length, order, ids and names; a friend flips, and changes at all, if and only if its id is the toggled one |
| `InstantSplit.ToggleTwice` | src/InstantSplit.js:32-34 | toggling the same id twice restores the original list |
| `InstantSplit.ToggleAbsent` | src/InstantSplit.js:32-34 | toggling an id no friend has leaves the list unchanged |
| `InstantSplit.SelectedCount` | src/InstantSplit.js:40 | the number of selected friends is at most the list's length |
| `InstantSplit.Divisor` | src/InstantSplit.js:40 | the number of people sharing is at least 1 and at most the list's length plus 1, so the division never divides by zero |
| `InstantSplit.ToggleChangesCountByOne` | src/InstantSplit.js:31-40 | with distinct ids, toggling a listed friend changes the number of people sharing by exactly one, down if it was selected and up otherwise |
| `InstantSplit.NoneSelected` | src/InstantSplit.js:40 | with no friend selected the selected count is 0 |
| `InstantSplit.Split` | src/InstantSplit.js:39-42 | an empty amount gives 0, an amount of 0 gives 0, and otherwise the share times the number of people sharing equals the amount |
| `InstantSplit.SplitNobodySelected` | src/InstantSplit.js:40-41 | with nobody selected the payer's share is the whole amount |
| `InstantSplit.InitialState` | src/InstantSplit.js:8-15 | the opening list has four unselected friends with ids 1 to 4, one person sharing and an empty amount whose share is 0 |
| `InstantSplit.SplitScreen.constructor` | src/InstantSplit.js:8-15 | the screen opens with an empty amount, the initial friends and a share of 0, and the invariant holds |
| `InstantSplit.SplitScreen.CalculateSplit` | src/InstantSplit.js:39-42 | the stored share becomes the share of the given amount and friend list |
| `InstantSplit.SplitScreen.HandleFriendToggle` | src/InstantSplit.js:31-37 | the friend list becomes its toggled version, the amount is unchanged, and the stored share matches the new state |
| `InstantSplit.SplitScreen.HandleAmountChange` | src/InstantSplit.js:44-47 | the amount becomes the new value, the friends are unchanged, and the stored share matches the new state |

## Left out

- The fetches of the currency names and of the latest rates, and the API URL and key they use (src/PayoutSimulator.js:25-26, 35-54), are network input. The rate table enters the model through `SetRates`. The currency-name table is display data only and is not modelled.
- The 1500 ms delay (src/PayoutSimulator.js:60) is timing only. It is modelled as two separate steps, `SimulatePayout` and `CompleteSimulation`.
- Rounding to two decimals with `toFixed(2)` (src/PayoutSimulator.js:166-194, src/InstantSplit.js:41) is display formatting. The share is kept as an unrounded real, and so are the simulation's figures.
- Binary floating-point behaviour (rounding, `NaN`, `Infinity`) is not modelled. The arithmetic is over exact reals, so a missing rate or a zero USD rate, which would give `NaN` or `Infinity` in the screen, is a precondition of `SimulatePayout` and `Simulate` instead.
- Turning typed text into numbers (src/PayoutSimulator.js:111, src/InstantSplit.js:74) is not modelled. The payout amount is a real. The bill amount is `Empty` for the empty field or `Entered(v)` for a number. Every non-empty entry counts as present, even "0", whose share is 0 anyway.
- The "Simulate Payout" button is shown as loading while `processing` is true (src/PayoutSimulator.js:145-150), and the UI library's loading button ignores a second press then, so the screen has at most one timer running. `PayoutScreen.pending` is a queue that also covers the more general case of several presses, and every proof about the screen holds for that larger set of states.
- Rendering, icons, the quick-amount and merchant lists, the payment-links message (src/InstantSplit.js:49-51) and the button's loading look are presentation only.
- React's batching and re-rendering are not modelled. Each handler reads the state it was rendered with, and the model's methods run one after another on the current state.
