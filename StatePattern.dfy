/**
 * The vending machine of the state pattern: five states, a coin counter and a
 * product counter. Each of the four requests (insert a coin, select, dispense,
 * refund) does what the current state's class says.
 *
 * Step is the transition function on a Machine value; the VendingMachine class
 * changes its fields in place as the Java class does and is proved to follow
 * Step. The invariants of reachable states are proved over runs of Step.
 */
module StatePattern {

  /** Which of the five state objects is current. */
  datatype StateName = Idle | CoinInserted | ProductSelected | Sold | SoldOut

  datatype Machine = Machine(state: StateName, coins: int, products: int)

  datatype Event = InsertCoin | SelectProduct | DispenseProduct | Refund

  /** A new machine: 0 coins, 5 products, Idle since there are products. */
  const Init: Machine := Machine(Idle, 0, 5)

  /** addCoin. */
  function CoinAdded(m: Machine): Machine {
    m.(coins := m.coins + 1)
  }

  /** returnCoins: any coins held go back. */
  function CoinsReturned(m: Machine): Machine {
    if m.coins > 0 then m.(coins := 0) else m
  }

  /** releaseProduct: one product less and the coins taken, when there is a product. */
  function ProductReleased(m: Machine): Machine {
    if m.products > 0 then m.(products := m.products - 1, coins := 0) else m
  }

  /** The machine after one request, as the current state's class handles it. */
  function Step(m: Machine, e: Event): (r: Machine)
    ensures m.state == SoldOut ==> r.state == SoldOut && r.products == m.products
    ensures r.state == Sold ==> m.state == Sold
    ensures m.products - 1 <= r.products <= m.products
    ensures m.products >= 0 ==> r.products >= 0
    ensures e == InsertCoin ==>
      && r.products == m.products
      && r.coins == (if m.state in {Idle, CoinInserted, ProductSelected} then m.coins + 1 else m.coins)
      && (m.state == Idle ==> r.state == CoinInserted)
      && (m.state != Idle ==> r.state == m.state)
    ensures e == SelectProduct ==>
      && r.coins == m.coins && r.products == m.products
      && r.state == (if m.state == CoinInserted then ProductSelected else m.state)
    ensures e == DispenseProduct && m.state == ProductSelected && m.products > 0 ==>
      && r.products == m.products - 1 && r.coins == 0
      && r.state == (if r.products > 0 then Idle else SoldOut)
    ensures e == DispenseProduct && m.state != ProductSelected ==> r == m
    ensures e == Refund && m.state in {CoinInserted, ProductSelected} && m.coins >= 0 ==>
      r == Machine(Idle, 0, m.products)
    ensures e == Refund && m.state == SoldOut && m.coins >= 0 ==> r == Machine(SoldOut, 0, m.products)
    ensures e == Refund && m.state in {Idle, Sold} ==> r == m
  {
    match (m.state, e)
    case (Idle, InsertCoin) => CoinAdded(m).(state := CoinInserted)
    case (CoinInserted, InsertCoin) => CoinAdded(m)
    case (CoinInserted, SelectProduct) => m.(state := ProductSelected)
    case (CoinInserted, Refund) => CoinsReturned(m).(state := Idle)
    case (ProductSelected, InsertCoin) => CoinAdded(m)
    case (ProductSelected, DispenseProduct) =>
      var released := ProductReleased(m.(state := Sold));
      released.(state := if released.products > 0 then Idle else SoldOut)
    case (ProductSelected, Refund) => CoinsReturned(m).(state := Idle)
    case (SoldOut, Refund) => CoinsReturned(m)
    case _ => m
  }

  /** The machine after a sequence of requests, first request first. */
  function Run(m: Machine, es: seq<Event>): Machine
    decreases |es|
  {
    if es == [] then m else Run(Step(m, es[0]), es[1..])
  }

  /** Requests one after another: running two sequences is running their concatenation. */
  lemma {:induction false} RunAppend(m: Machine, es: seq<Event>, fs: seq<Event>)
    ensures Run(m, es + fs) == Run(Run(m, es), fs)
    decreases |es|
  {
    if es == [] {
      assert es + fs == fs;
    } else {
      assert (es + fs)[1..] == es[1..] + fs;
      RunAppend(Step(m, es[0]), es[1..], fs);
    }
  }

  /**
   * What holds in every reachable state: products never negative, sold out
   * exactly when no product is left, no coins held while idle or sold out, at
   * least one coin held while a purchase is under way, and Sold never current
   * between requests.
   */
  ghost predicate Reachable(m: Machine) {
    && m.products >= 0
    && (m.state == SoldOut <==> m.products == 0)
    && (m.state in {Idle, SoldOut} ==> m.coins == 0)
    && (m.state in {CoinInserted, ProductSelected} ==> m.coins >= 1)
    && m.state != Sold
  }

  lemma StepKeepsReachable(m: Machine, e: Event)
    requires Reachable(m)
    ensures Reachable(Step(m, e))
  {
  }

  /** Every state the machine reaches from a new machine has the invariant. */
  lemma {:induction false} RunKeepsReachable(m: Machine, es: seq<Event>)
    requires Reachable(m)
    ensures Reachable(Run(m, es))
    decreases |es|
  {
    if es != [] {
      StepKeepsReachable(m, es[0]);
      RunKeepsReachable(Step(m, es[0]), es[1..]);
    }
  }

  lemma InitReachable()
    ensures Reachable(Init)
  {
  }

  /** Once sold out, the machine stays sold out, whatever is requested. */
  lemma {:induction false} SoldOutAbsorbs(m: Machine, es: seq<Event>)
    requires m.state == SoldOut
    ensures Run(m, es).state == SoldOut && Run(m, es).products == m.products
    decreases |es|
  {
    if es != [] {
      SoldOutAbsorbs(Step(m, es[0]), es[1..]);
    }
  }

  /**
   * No request restocks: after any run the machine has at most its old number
   * of products, and at least that number less the length of the run.
   */
  lemma {:induction false} RunNeverRestocks(m: Machine, es: seq<Event>)
    ensures m.products - |es| <= Run(m, es).products <= m.products
    decreases |es|
  {
    if es != [] {
      RunNeverRestocks(Step(m, es[0]), es[1..]);
    }
  }

  /** The context object: the current state and the two counters. */
  class VendingMachine {
    var currentState: StateName
    var coinCount: int
    var productCount: int

    function State(): Machine
      reads this
    {
      Machine(currentState, coinCount, productCount)
    }

    ghost predicate Valid()
      reads this
    {
      Reachable(State())
    }

    constructor ()
      ensures State() == Init && Valid()
    {
      var products := 5;
      coinCount := 0;
      productCount := products;
      currentState := if products > 0 then Idle else SoldOut;
    }

    method SetState(state: StateName)
      modifies this
      ensures State() == old(State()).(state := state)
    {
      currentState := state;
    }

    method AddCoin()
      modifies this
      ensures State() == CoinAdded(old(State()))
    {
      coinCount := coinCount + 1;
    }

    method ReturnCoins()
      modifies this
      ensures State() == CoinsReturned(old(State()))
    {
      if coinCount > 0 {
        coinCount := 0;
      }
    }

    method ReleaseProduct()
      modifies this
      ensures State() == ProductReleased(old(State()))
    {
      if productCount > 0 {
        productCount := productCount - 1;
        coinCount := 0;
      }
    }

    method HasProducts() returns (b: bool)
      ensures b <==> productCount > 0
    {
      b := productCount > 0;
    }

    method InsertCoin()
      modifies this
      ensures State() == Step(old(State()), Event.InsertCoin)
      ensures old(Valid()) ==> Valid()
    {
      match currentState
      case Idle =>
        AddCoin();
        SetState(CoinInserted);
      case CoinInserted =>
        AddCoin();
      case ProductSelected =>
        AddCoin();
      case Sold =>
      case SoldOut =>
    }

    method SelectProduct()
      modifies this
      ensures State() == Step(old(State()), Event.SelectProduct)
      ensures old(Valid()) ==> Valid()
    {
      if currentState == CoinInserted {
        SetState(ProductSelected);
      }
    }

    method DispenseProduct()
      modifies this
      ensures State() == Step(old(State()), Event.DispenseProduct)
      ensures old(Valid()) ==> Valid()
    {
      if currentState == ProductSelected {
        SetState(Sold);
        ReleaseProduct();
        var more := HasProducts();
        if more {
          SetState(Idle);
        } else {
          SetState(SoldOut);
        }
      }
    }

    method Refund()
      modifies this
      ensures State() == Step(old(State()), Event.Refund)
      ensures old(Valid()) ==> Valid()
    {
      match currentState
      case CoinInserted =>
        ReturnCoins();
        SetState(Idle);
      case ProductSelected =>
        ReturnCoins();
        SetState(Idle);
      case SoldOut =>
        ReturnCoins();
      case Idle =>
      case Sold =>
    }

    method GetCoinCount() returns (n: int)
      requires Valid()
      ensures n == coinCount && n >= 0
    {
      n := coinCount;
    }

    method GetProductCount() returns (n: int)
      requires Valid()
      ensures n == productCount && n >= 0
      ensures n == 0 <==> currentState == SoldOut
    {
      n := productCount;
    }
  }

  /**
   * The demonstration: one purchase, a refund of two coins, two requests that
   * are refused, then five purchase attempts, of which the last finds the
   * machine sold out; a final coin is rejected.
   */
  method PurchaseScenario() returns (final: Machine)
    ensures final == Machine(SoldOut, 0, 0)
  {
    var machine := new VendingMachine();
    machine.InsertCoin();
    machine.SelectProduct();
    machine.DispenseProduct();
    assert machine.State() == Machine(Idle, 0, 4);
    machine.InsertCoin();
    machine.InsertCoin();
    machine.Refund();
    assert machine.State() == Machine(Idle, 0, 4);
    machine.SelectProduct();
    machine.DispenseProduct();
    var i := 0;
    while i < 5
      invariant 0 <= i <= 5
      invariant machine.State() ==
        if i < 4 then Machine(Idle, 0, 4 - i) else Machine(SoldOut, 0, 0)
    {
      machine.InsertCoin();
      machine.SelectProduct();
      machine.DispenseProduct();
      i := i + 1;
    }
    machine.InsertCoin();
    machine.SelectProduct();
    final := machine.State();
  }
}
