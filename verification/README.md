# Vending machine state pattern, in Dafny

This project models the vending machine from `state_pattern.py`. The machine
holds four things:

- a current state: NoMoney, HasMoney or Dispensing;
- the money inserted so far;
- a fixed catalog of products and their prices (cola 200, chips 150,
  candy 100, all in cents);
- the product selected, if any.

Each of its four operations (insert money, select a product, dispense,
refund) is forwarded to the handler of the active state. That handler may
change the balance and the selection, and may switch the state.

The model has two modules.

- `VendingStates` (`vending_states.dfy`) describes the behaviour as values:
  - the `State`, `Op` and `Outcome` datatypes (an `Outcome` replaces each
    formatted message);
  - a `Machine` snapshot of the machine's data;
  - one function per state class (`NoMoneyState`, `HasMoneyState`,
    `DispensingState`), holding that class's four handlers;
  - `Step`, which forwards one operation to the active state, and `Run`,
    which applies a sequence of operations;
  - the invariant `Inv` and the lemmas about it.
- `Vending` (`vending_machine.dfy`) has the `VendingMachine` class. Its
  fields are updated in place, as the program does. Each of its four
  methods is proved to change the fields exactly as `Step` says and to
  report the same outcome. `MainScenario` replays the program's `main` on
  that class.

Money is counted in integer cents (`nat`). The float amounts of the program
become whole cents: 1.00 is 100, 0.50 is 50.

The invariant `Inv` has three parts:

- a product is selected exactly when the state is Dispensing;
- the balance is zero in NoMoney;
- in Dispensing, the selected product is in the catalog and the balance
  covers its price, so change is never negative.

The program does not check inserted amounts. An insertion of zero moves a
machine in NoMoney to HasMoney with a zero balance. So "the balance is zero
exactly in NoMoney" holds only when every insertion is positive. This is
proved (`PositiveInsertionsKeepBalanceZeroIffNoMoney`), and the zero case
is shown by `ZeroInsertionLeavesHasMoneyWithoutMoney`. The model follows
the code here: it adds no rejection of non-positive amounts.

## Model

| member | source | states |
|---|---|---|
| `VendingStates.NoMoneyState` | state_pattern.py:51-67 | Inserting money adds exactly the amount, moves to HasMoney and reports the amount and the new total. Selecting and dispensing ask for money first. Refund reports that there is nothing to refund. Every refused operation leaves the machine unchanged. |
| `VendingStates.HasMoneyState` | state_pattern.py:69-96 | Inserting adds the amount, stays in HasMoney and reports the new total. Selecting an unknown product changes nothing and reports it invalid. Selecting a product that costs more than the balance changes nothing and reports a shortfall of exactly price minus balance. Otherwise the product is selected, the state becomes Dispensing (exactly when known and paid for) and the price is reported. Dispensing asks for a selection and changes nothing. Refund reports the whole prior balance, zeroes it and returns to NoMoney. |
| `VendingStates.DispensingState` | state_pattern.py:98-122 | Dispensing reports the selected product. Change is reported only when the balance exceeds the price, and then equals balance minus price. The balance is zeroed, the selection cleared and the state set to NoMoney. Inserting and selecting are refused with a request to wait, refunding is refused as unavailable, and all three leave the machine unchanged. |
| `VendingStates.Step` | state_pattern.py:36-46 | Forwarding to the active state never changes the catalog, and a refused operation changes nothing. `Inv` is preserved. The positive-balance invariant is preserved under positive insertions. Dispensing is entered only from HasMoney, by selecting a catalog product the balance covers, and that product becomes the selection. |
| `VendingStates.Run` | state_pattern.py:36-46 | Any sequence of operations from a machine satisfying `Inv` ends in a machine satisfying `Inv`, with the catalog unchanged and one outcome per operation. |
| `VendingStates.ReachableKeepsInvariant` | state_pattern.py:22-34 | Every machine reachable from a fresh one keeps the original catalog. A product is selected in it exactly in Dispensing, and its balance is zero in NoMoney. |
| `VendingStates.PositiveInsertionsKeepBalanceZeroIffNoMoney` | state_pattern.py:51-122 | When every insertion is positive, the balance is zero exactly when the machine is in NoMoney, after any sequence of operations. |
| `VendingStates.FreshMachineBalanceZeroIffNoMoney` | state_pattern.py:27-34 | From a fresh machine, any sequence of operations with positive insertions ends with a zero balance exactly in NoMoney. |
| `VendingStates.ZeroInsertionLeavesHasMoneyWithoutMoney` | state_pattern.py:55-58 | One insertion of zero into a fresh machine reaches HasMoney with a zero balance: unchecked amounts break "zero balance exactly in NoMoney". |
| `VendingStates.InsertionsAccumulate` | state_pattern.py:55-75 | Several insertions from NoMoney or HasMoney add up to the starting balance plus their sum. Each one reports its own amount, the last reports the final total, the selection is untouched, and the machine ends in HasMoney. |
| `VendingStates.DispenseReportsExactChange` | state_pattern.py:108-119 | For a machine satisfying `Inv` in Dispensing, dispensing reports the selected product and change of exactly balance minus price, none when that is zero. It leaves NoMoney with a zero balance and no selection. |
| `Vending.VendingMachine.constructor` | state_pattern.py:22-34 | A new machine is in NoMoney with a zero balance, no selection and the three-product catalog, and it satisfies `Inv`. |
| `Vending.VendingMachine.SetState` | state_pattern.py:48-49 | Switches the active state and modifies no other field. |
| `Vending.VendingMachine.InsertMoney` | state_pattern.py:36-37 | Updates the fields in place exactly as `Step` with an insertion does, returns its outcome, keeps `Inv` and keeps the catalog. |
| `Vending.VendingMachine.SelectProduct` | state_pattern.py:39-40 | Updates the fields in place exactly as `Step` with a selection does, returns its outcome, keeps `Inv` and keeps the catalog. |
| `Vending.VendingMachine.DispenseProduct` | state_pattern.py:42-43 | Updates the fields in place exactly as `Step` with a dispense does, returns its outcome, keeps `Inv` and keeps the catalog. |
| `Vending.VendingMachine.Refund` | state_pattern.py:45-46 | Updates the fields in place exactly as `Step` with a refund does, returns its outcome, keeps `Inv` and keeps the catalog. |
| `Vending.MainScenario` | state_pattern.py:124-140 | The demonstration run in cents reports, in order: a refusal for lack of money; totals 100, 150; a shortfall of 50; total 250; cola selected at 200; cola dispensed with change 50; total 500; chips selected at 150; chips dispensed with change 350. It ends as a fresh machine: NoMoney, zero balance, no selection. |

## Left out

- Floating-point money and the two-decimal formatting of every message: amounts are integer cents and messages are `Outcome` values.
- Negative insertions: the program accepts any float, but the model's amounts are `nat`. Zero is kept, and what it does is stated above.
- The state objects' references back to the machine, and the abstract state base class: the active state is a `State` value that the machine matches on.
- `VendingStates.Step`: requires, for a dispense in Dispensing, that a product is selected and in the catalog. That handler is the only one that looks the selection up; otherwise its catalog lookup fails with an exception, which is not modelled. Every machine satisfying `Inv` meets this requirement.
- Outside code can replace the catalog, because the program's attribute is public. The model's operations never change it, and nothing else is modelled.
- The printing in `main`: only the sequence of outcomes and the final machine are stated.
- builder_pattern.py, abstract_factory_pattern.py, factory_pattern.py, observer_pattern.py and singleton_pattern.py are not part of this model. They hold object construction, printing and callback dispatch, with no state machine.
