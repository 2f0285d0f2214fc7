/**
 * Payment strategies for a shopping cart. A strategy is an immutable value:
 * a credit card, a PayPal account or a bank account. Its validity check is a
 * test on the lengths and contents of its strings, and paying with it either
 * succeeds, showing the last four characters of the card or account number
 * (or the PayPal e-mail address), or is refused. The cart holds items and the
 * strategy chosen last.
 */
module StrategyPattern {
  import opened Wrappers

  datatype PaymentStrategy =
    | CreditCard(cardNumber: string, cvv: string, expiryDate: string)
    | PayPal(email: string, password: string)
    | BankTransfer(accountNumber: string, routingNumber: string)

  /** isValid of each strategy; the card's expiry date takes no part. */
  predicate IsValid(s: PaymentStrategy) {
    match s
    case CreditCard(cardNumber, cvv, _) => |cardNumber| == 16 && |cvv| == 3
    case PayPal(email, password) => '@' in email && |password| >= 6
    case BankTransfer(accountNumber, routingNumber) => |accountNumber| >= 10 && |routingNumber| == 9
  }

  /** getPaymentType. */
  function PaymentType(s: PaymentStrategy): string {
    match s
    case CreditCard(_, _, _) => "Credit Card"
    case PayPal(_, _) => "PayPal"
    case BankTransfer(_, _) => "Bank Transfer"
  }

  /** What pay reports: the payment went through, naming the account by `shown`, or it was refused. */
  datatype Receipt = Paid(paymentType: string, shown: string) | Refused(message: string)

  /** substring(length - 4): the last four characters. */
  function LastFour(s: string): (r: string)
    requires |s| >= 4
    ensures |r| == 4 && s[..|s| - 4] + r == s
  {
    s[|s| - 4..]
  }

  /**
   * pay: a valid strategy pays and an invalid one is refused. The last four
   * characters are taken only of a valid number, which is at least ten long,
   * so the substring is always in range.
   */
  function Pay(s: PaymentStrategy): (r: Receipt)
    ensures r.Paid? <==> IsValid(s)
    ensures r.Paid? ==> r.paymentType == PaymentType(s)
    ensures r.Paid? && s.CreditCard? ==> |r.shown| == 4 && s.cardNumber[12..] == r.shown
    ensures r.Paid? && s.BankTransfer? ==> |r.shown| == 4 && s.accountNumber[|s.accountNumber| - 4..] == r.shown
    ensures r.Paid? && s.PayPal? ==> r.shown == s.email
  {
    if !IsValid(s) then
      match s
      case CreditCard(_, _, _) => Refused("Invalid credit card details!")
      case PayPal(_, _) => Refused("Invalid PayPal credentials!")
      case BankTransfer(_, _) => Refused("Invalid bank account details!")
    else
      match s
      case CreditCard(cardNumber, _, _) => Paid(PaymentType(s), LastFour(cardNumber))
      case PayPal(email, _) => Paid(PaymentType(s), email)
      case BankTransfer(accountNumber, _) => Paid(PaymentType(s), LastFour(accountNumber))
  }

  /** The expiry date never changes the outcome of a card payment. */
  lemma ExpiryDateIgnored(cardNumber: string, cvv: string, date1: string, date2: string)
    ensures Pay(CreditCard(cardNumber, cvv, date1)) == Pay(CreditCard(cardNumber, cvv, date2))
  {
  }

  /** A cart item; its price is a double in the program and takes no part in this model. */
  datatype Item = Item(name: string, price: real)

  class ShoppingCart {
    var items: seq<Item>
    var paymentStrategy: Option<PaymentStrategy>

    /** A new cart: no items and no strategy. */
    constructor ()
      ensures items == [] && paymentStrategy == None
    {
      items := [];
      paymentStrategy := None;
    }

    /** addItem: the item goes at the end. */
    method AddItem(item: Item)
      modifies this
      ensures items == old(items) + [item] && paymentStrategy == old(paymentStrategy)
    {
      items := items + [item];
    }

    /** setPaymentStrategy: the new strategy replaces any earlier one; the items stay. */
    method SetPaymentStrategy(strategy: PaymentStrategy)
      modifies this
      ensures paymentStrategy == Some(strategy) && items == old(items)
    {
      paymentStrategy := Some(strategy);
    }

    /**
     * checkout: with no strategy chosen nothing is paid (None); otherwise the
     * chosen strategy pays, or refuses when it is invalid.
     */
    method Checkout() returns (r: Option<Receipt>)
      ensures r.None? <==> paymentStrategy.None?
      ensures r.Some? ==> r.value == Pay(paymentStrategy.value)
      ensures r.Some? ==> (r.value.Paid? <==> IsValid(paymentStrategy.value))
    {
      if paymentStrategy.None? {
        return None;
      }
      r := Some(Pay(paymentStrategy.value));
    }
  }

  lemma CardPayment()
    ensures Pay(CreditCard("1234567890123456", "123", "12/25")) == Paid("Credit Card", "3456")
  {
  }

  lemma PayPalPayment()
    ensures Pay(PayPal("user@example.com", "password123")) == Paid("PayPal", "user@example.com")
  {
    assert "user@example.com"[4] == '@';
  }

  lemma BankPayment()
    ensures Pay(BankTransfer("1234567890", "123456789")) == Paid("Bank Transfer", "7890")
  {
  }

  lemma ShortCardRefused()
    ensures Pay(CreditCard("123", "12", "12/25")) == Refused("Invalid credit card details!")
  {
  }

  /**
   * The demonstration: three items, then four strategies in turn; the first
   * three pay and the short card number is refused. A cart with no strategy
   * pays nothing.
   */
  method CheckoutScenario() returns (unset: Option<Receipt>, card: Option<Receipt>, payPal: Option<Receipt>,
                                     bank: Option<Receipt>, badCard: Option<Receipt>)
    ensures unset == None
    ensures card == Some(Paid("Credit Card", "3456"))
    ensures payPal == Some(Paid("PayPal", "user@example.com"))
    ensures bank == Some(Paid("Bank Transfer", "7890"))
    ensures badCard == Some(Refused("Invalid credit card details!"))
  {
    CardPayment();
    PayPalPayment();
    BankPayment();
    ShortCardRefused();
    var cart := new ShoppingCart();
    cart.AddItem(Item("Laptop", 999.99));
    cart.AddItem(Item("Mouse", 29.99));
    cart.AddItem(Item("Keyboard", 79.99));
    unset := cart.Checkout();

    cart.SetPaymentStrategy(CreditCard("1234567890123456", "123", "12/25"));
    card := cart.Checkout();

    cart.SetPaymentStrategy(PayPal("user@example.com", "password123"));
    payPal := cart.Checkout();

    cart.SetPaymentStrategy(BankTransfer("1234567890", "123456789"));
    bank := cart.Checkout();

    cart.SetPaymentStrategy(CreditCard("123", "12", "12/25"));
    badCard := cart.Checkout();
  }
}
