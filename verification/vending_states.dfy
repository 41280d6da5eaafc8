/** The vending machine's behaviour as values: its three states, the four
    operations, the outcome each operation reports, and one handler per
    state that says how the machine's data changes.  Money is counted in
    integer cents. */
module VendingStates {

  datatype Option<T> = None | Some(value: T)

  /** The active state object of the machine. */
  datatype State = NoMoney | HasMoney | Dispensing

  /** The four operations the machine forwards to its active state. */
  datatype Op =
    | InsertMoney(amount: nat)
    | SelectProduct(product: string)
    | DispenseProduct
    | Refund

  /** What an operation reports back, in place of the formatted text. */
  datatype Outcome =
    | Inserted(amount: nat, total: nat)          // accepted money, new balance
    | InsertFirst                                // asks for money before anything else
    | Invalid(product: string)                   // product not in the catalog
    | Insufficient(shortfall: nat)               // how much more money is needed
    | Selected(product: string, price: nat)      // selection accepted at this price
    | Dispensed(product: string, change: Option<nat>)  // change reported only when positive
    | Refunded(amount: nat)                      // balance handed back
    | NoRefund                                   // nothing to hand back
    | Wait                                       // busy dispensing
    | SelectFirst                                // asks for a selection first
    | CannotRefund                               // no refund while dispensing

  /** A snapshot of everything the machine owns. */
  datatype Machine = Machine(
    state: State,
    amount: nat,
    products: map<string, nat>,
    selected: Option<string>)

  /** The fixed product catalog, prices in cents. */
  function Catalog(): map<string, nat>
  {
    map["cola" := 200, "chips" := 150, "candy" := 100]
  }

  /** The machine as it is built: no money, nothing selected. */
  function Init(): Machine
  {
    Machine(NoMoney, 0, Catalog(), None)
  }

  /** Outcomes that refuse the operation. */
  predicate IsRejection(o: Outcome)
  {
    o.InsertFirst? || o.Invalid? || o.Insufficient? || o.NoRefund? ||
    o.Wait? || o.SelectFirst? || o.CannotRefund?
  }

  /** What dispensing in Dispensing needs in order not to fail: a selected
      product that is a catalog key (otherwise the catalog lookup raises).
      No other operation looks the selection up. */
  predicate CanDispense(m: Machine, op: Op)
  {
    m.state == Dispensing && op.DispenseProduct? ==>
      m.selected.Some? && m.selected.value in m.products
  }

  /** The machine's invariant: a product is selected exactly in Dispensing,
      there is no money in NoMoney, and in Dispensing the selected product
      is in the catalog and paid for. */
  predicate Inv(m: Machine)
  {
    (m.selected.Some? <==> m.state == Dispensing) &&
    (m.state == NoMoney ==> m.amount == 0) &&
    (m.state == Dispensing ==>
       m.selected.value in m.products && m.amount >= m.products[m.selected.value])
  }

  /** The stronger invariant that holds when every insertion is positive:
      the balance is zero exactly when the machine is in NoMoney. */
  predicate BalanceZeroIffNoMoney(m: Machine)
  {
    Inv(m) && (m.state == NoMoney <==> m.amount == 0)
  }

  predicate PositiveOp(op: Op)
  {
    op.InsertMoney? ==> op.amount > 0
  }

  /** NoMoneyState: only inserting money is accepted. */
  function NoMoneyState(m: Machine, op: Op): (r: (Machine, Outcome))
    requires m.state == NoMoney
    ensures op.InsertMoney? ==>
      r.0 == m.(state := HasMoney, amount := m.amount + op.amount) &&
      r.1 == Inserted(op.amount, r.0.amount)
    ensures !op.InsertMoney? ==> r.0 == m && IsRejection(r.1)
    ensures op.SelectProduct? || op.DispenseProduct? ==> r.1 == InsertFirst
    ensures op.Refund? ==> r.1 == NoRefund
  {
    match op
    case InsertMoney(a) =>
      var total := m.amount + a;
      (m.(state := HasMoney, amount := total), Inserted(a, total))
    case SelectProduct(_) => (m, InsertFirst)
    case DispenseProduct => (m, InsertFirst)
    case Refund => (m, NoRefund)
  }

  /** HasMoneyState: more money may be added, a product bought if it is
      known and paid for, or the balance refunded. */
  function HasMoneyState(m: Machine, op: Op): (r: (Machine, Outcome))
    requires m.state == HasMoney
    ensures op.InsertMoney? ==>
      r.0 == m.(amount := m.amount + op.amount) && r.1 == Inserted(op.amount, r.0.amount)
    ensures op.SelectProduct? ==>
      var p := op.product;
      (p !in m.products ==> r == (m, Invalid(p))) &&
      (p in m.products && m.amount < m.products[p] ==>
         r.0 == m && r.1.Insufficient? && m.amount + r.1.shortfall == m.products[p]) &&
      (r.0.state == Dispensing <==> p in m.products && m.amount >= m.products[p]) &&
      (r.0.state == Dispensing ==>
         r.0 == m.(state := Dispensing, selected := Some(p)) &&
         r.1 == Selected(p, m.products[p]))
    ensures op.DispenseProduct? ==> r == (m, SelectFirst)
    ensures op.Refund? ==>
      r.0 == m.(state := NoMoney, amount := 0) && r.1 == Refunded(m.amount)
  {
    match op
    case InsertMoney(a) =>
      var total := m.amount + a;
      (m.(amount := total), Inserted(a, total))
    case SelectProduct(p) =>
      if p !in m.products then (m, Invalid(p))
      else
        var price := m.products[p];
        if m.amount >= price then
          (m.(selected := Some(p), state := Dispensing), Selected(p, price))
        else
          (m, Insufficient(price - m.amount))
    case DispenseProduct => (m, SelectFirst)
    case Refund =>
      var refunded := m.amount;
      (m.(amount := 0, state := NoMoney), Refunded(refunded))
  }

  /** DispensingState: only dispensing is accepted; it hands out the
      selected product, reports positive change, and empties the machine. */
  function DispensingState(m: Machine, op: Op): (r: (Machine, Outcome))
    requires m.state == Dispensing
    requires op.DispenseProduct? ==> m.selected.Some? && m.selected.value in m.products
    ensures op.DispenseProduct? ==>
      var price := m.products[m.selected.value];
      r.0 == m.(state := NoMoney, amount := 0, selected := None) &&
      r.1.Dispensed? && r.1.product == m.selected.value &&
      (r.1.change.Some? <==> m.amount > price) &&
      (r.1.change.Some? ==> r.1.change.value + price == m.amount)
    ensures !op.DispenseProduct? ==> r.0 == m && IsRejection(r.1)
    ensures op.InsertMoney? || op.SelectProduct? ==> r.1 == Wait
    ensures op.Refund? ==> r.1 == CannotRefund
  {
    match op
    case InsertMoney(_) => (m, Wait)
    case SelectProduct(_) => (m, Wait)
    case DispenseProduct =>
      var product := m.selected.value;
      var price := m.products[product];
      var change := m.amount - price;
      var m' := m.(amount := 0, selected := None, state := NoMoney);
      if change > 0 then (m', Dispensed(product, Some(change)))
      else (m', Dispensed(product, None))
    case Refund => (m, CannotRefund)
  }

  /** One operation on the machine: forwarded to the active state. */
  function Step(m: Machine, op: Op): (r: (Machine, Outcome))
    requires CanDispense(m, op)
    ensures r.0.products == m.products
    ensures IsRejection(r.1) ==> r.0 == m
    ensures Inv(m) ==> Inv(r.0)
    // no over-dispense: Dispensing is entered only by a paid selection of a catalog product
    ensures m.state != Dispensing && r.0.state == Dispensing ==>
      m.state == HasMoney && op.SelectProduct? && op.product in m.products &&
      m.amount >= m.products[op.product] && r.0.selected == Some(op.product)
    ensures BalanceZeroIffNoMoney(m) && PositiveOp(op) ==> BalanceZeroIffNoMoney(r.0)
  {
    match m.state
    case NoMoney => NoMoneyState(m, op)
    case HasMoney => HasMoneyState(m, op)
    case Dispensing => DispensingState(m, op)
  }

  /** A sequence of operations, one after the other, with every outcome. */
  function Run(m: Machine, ops: seq<Op>): (r: (Machine, seq<Outcome>))
    requires Inv(m)
    ensures Inv(r.0) && r.0.products == m.products && |r.1| == |ops|
    decreases |ops|
  {
    if ops == [] then (m, [])
    else
      var (m1, o) := Step(m, ops[0]);
      var (m2, os) := Run(m1, ops[1..]);
      (m2, [o] + os)
  }

  function Sum(s: seq<nat>): nat
  {
    if s == [] then 0 else s[0] + Sum(s[1..])
  }

  function Insertions(amounts: seq<nat>): (ops: seq<Op>)
    ensures |ops| == |amounts|
    ensures forall i :: 0 <= i < |ops| ==> ops[i] == InsertMoney(amounts[i])
  {
    if amounts == [] then [] else [InsertMoney(amounts[0])] + Insertions(amounts[1..])
  }

  /** Every machine reached from a fresh one keeps the invariant, and its
      catalog is the original one. */
  lemma {:induction false} ReachableKeepsInvariant(ops: seq<Op>)
    ensures Inv(Run(Init(), ops).0)
    ensures Run(Init(), ops).0.products == Catalog()
    ensures Run(Init(), ops).0.state == NoMoney ==> Run(Init(), ops).0.amount == 0
    ensures Run(Init(), ops).0.selected.Some? <==> Run(Init(), ops).0.state == Dispensing
  {
  }

  /** With positive insertions only, the balance is zero exactly when the
      machine is back in NoMoney. */
  lemma {:induction false} PositiveInsertionsKeepBalanceZeroIffNoMoney(m: Machine, ops: seq<Op>)
    requires BalanceZeroIffNoMoney(m)
    requires forall i :: 0 <= i < |ops| ==> PositiveOp(ops[i])
    ensures BalanceZeroIffNoMoney(Run(m, ops).0)
    decreases |ops|
  {
    if ops != [] {
      var m1 := Step(m, ops[0]).0;
      assert PositiveOp(ops[0]);
      PositiveInsertionsKeepBalanceZeroIffNoMoney(m1, ops[1..]);
    }
  }

  /** From a fresh machine, positive insertions alone keep the balance at
      zero exactly in NoMoney. */
  lemma {:induction false} FreshMachineBalanceZeroIffNoMoney(ops: seq<Op>)
    requires forall i :: 0 <= i < |ops| ==> PositiveOp(ops[i])
    ensures var m := Run(Init(), ops).0; m.state == NoMoney <==> m.amount == 0
  {
    assert BalanceZeroIffNoMoney(Init());
    PositiveInsertionsKeepBalanceZeroIffNoMoney(Init(), ops);
  }

  /** The program does not refuse a zero insertion: it moves a fresh
      machine to HasMoney with a zero balance, so "balance zero exactly in
      NoMoney" needs positive insertions. */
  lemma ZeroInsertionLeavesHasMoneyWithoutMoney()
    ensures var m := Step(Init(), InsertMoney(0)).0;
      m.state == HasMoney && m.amount == 0
  {
  }

  /** Change correctness: dispensing from a machine that keeps the
      invariant reports the selected product and change of exactly the
      balance minus its price, which is never negative, and empties the
      machine. */
  lemma DispenseReportsExactChange(m: Machine)
    requires Inv(m) && m.state == Dispensing
    ensures var price := m.products[m.selected.value];
      var r := Step(m, DispenseProduct);
      r.1 == Dispensed(m.selected.value, if m.amount == price then None else Some(m.amount - price)) &&
      r.0 == m.(state := NoMoney, amount := 0, selected := None)
  {
  }

  /** Monotonic funding: insertions in NoMoney or HasMoney add up, each
      reports the inserted amount, and the machine ends in HasMoney. */
  lemma {:induction false} InsertionsAccumulate(m: Machine, amounts: seq<nat>)
    requires Inv(m) && m.state != Dispensing
    ensures var r := Run(m, Insertions(amounts));
      r.0.amount == m.amount + Sum(amounts) &&
      r.0.state == (if amounts == [] then m.state else HasMoney) &&
      r.0.selected == m.selected &&
      (forall i :: 0 <= i < |amounts| ==> r.1[i].Inserted? && r.1[i].amount == amounts[i]) &&
      (amounts != [] ==> r.1[|amounts| - 1] == Inserted(amounts[|amounts| - 1], r.0.amount))
    decreases |amounts|
  {
    if amounts != [] {
      var ops := Insertions(amounts);
      assert ops[0] == InsertMoney(amounts[0]);
      assert ops[1..] == Insertions(amounts[1..]);
      var m1 := Step(m, ops[0]).0;
      InsertionsAccumulate(m1, amounts[1..]);
    }
  }
}
