/** The vending machine as the object the program builds: its fields are
    updated in place by the handler of the active state.  Each operation is
    tied to the pure step of the same operation in VendingStates. */
module Vending {
  import opened VendingStates

  class VendingMachine {
    var state: State
    var amount: nat
    var products: map<string, nat>
    var selected: Option<string>

    /** The machine's data as a value. */
    function Snapshot(): Machine
      reads this
    {
      Machine(state, amount, products, selected)
    }

    ghost predicate Valid()
      reads this
    {
      Inv(Snapshot())
    }

    /** A new machine: NoMoney, no money, the three-product catalog, nothing selected. */
    constructor ()
      ensures Valid()
      ensures state == NoMoney && amount == 0 && selected == None
      ensures products == Catalog() && Snapshot() == Init()
    {
      state := NoMoney;
      amount := 0;
      products := Catalog();
      selected := None;
    }

    /** Switches the active state and touches nothing else. */
    method SetState(s: State)
      modifies this`state
      ensures state == s
    {
      state := s;
    }

    method InsertMoney(a: nat) returns (o: Outcome)
      requires Valid()
      modifies this
      ensures Valid() && products == old(products)
      ensures (Snapshot(), o) == Step(old(Snapshot()), Op.InsertMoney(a))
    {
      match state
      case NoMoney =>
        amount := amount + a;
        SetState(HasMoney);
        o := Inserted(a, amount);
      case HasMoney =>
        amount := amount + a;
        o := Inserted(a, amount);
      case Dispensing =>
        o := Wait;
    }

    method SelectProduct(p: string) returns (o: Outcome)
      requires Valid()
      modifies this
      ensures Valid() && products == old(products)
      ensures (Snapshot(), o) == Step(old(Snapshot()), Op.SelectProduct(p))
    {
      match state
      case NoMoney =>
        o := InsertFirst;
      case HasMoney =>
        if p !in products {
          o := Invalid(p);
        } else {
          var price := products[p];
          if amount >= price {
            selected := Some(p);
            SetState(Dispensing);
            o := Selected(p, price);
          } else {
            o := Insufficient(price - amount);
          }
        }
      case Dispensing =>
        o := Wait;
    }

    method DispenseProduct() returns (o: Outcome)
      requires Valid()
      modifies this
      ensures Valid() && products == old(products)
      ensures (Snapshot(), o) == Step(old(Snapshot()), Op.DispenseProduct)
    {
      match state
      case NoMoney =>
        o := InsertFirst;
      case HasMoney =>
        o := SelectFirst;
      case Dispensing =>
        var product := selected.value;
        var price := products[product];
        var change := amount - price;
        amount := 0;
        selected := None;
        SetState(NoMoney);
        if change > 0 {
          o := Dispensed(product, Some(change));
        } else {
          o := Dispensed(product, None);
        }
    }

    method Refund() returns (o: Outcome)
      requires Valid()
      modifies this
      ensures Valid() && products == old(products)
      ensures (Snapshot(), o) == Step(old(Snapshot()), Op.Refund)
    {
      match state
      case NoMoney =>
        o := NoRefund;
      case HasMoney =>
        var refunded := amount;
        amount := 0;
        SetState(NoMoney);
        o := Refunded(refunded);
      case Dispensing =>
        o := CannotRefund;
    }
  }

  /** The program's demonstration run, in cents: a refused selection, three
      insertions with one short selection between them, cola bought with
      50 change, then chips bought from 500 with 350 change. */
  method MainScenario() returns (outcomes: seq<Outcome>, final: Machine)
    ensures outcomes == [
      InsertFirst,
      Inserted(100, 100),
      Inserted(50, 150),
      Insufficient(50),
      Inserted(100, 250),
      Selected("cola", 200),
      Dispensed("cola", Some(50)),
      Inserted(500, 500),
      Selected("chips", 150),
      Dispensed("chips", Some(350))]
    ensures final == Init()
  {
    var machine := new VendingMachine();
    var o1 := machine.SelectProduct("cola");
    var o2 := machine.InsertMoney(100);
    var o3 := machine.InsertMoney(50);
    var o4 := machine.SelectProduct("cola");
    var o5 := machine.InsertMoney(100);
    var o6 := machine.SelectProduct("cola");
    var o7 := machine.DispenseProduct();
    var o8 := machine.InsertMoney(500);
    var o9 := machine.SelectProduct("chips");
    var o10 := machine.DispenseProduct();
    outcomes := [o1, o2, o3, o4, o5, o6, o7, o8, o9, o10];
    final := machine.Snapshot();
  }
}
