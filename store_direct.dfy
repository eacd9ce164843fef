/** The dependency-inversion example, first version: the store builds its
    own Credit Card X client and hands it amounts in cents. Nothing here is
    changed after construction, so the store and the card are values and
    each payment is the console line it prints. */
module StoreDirect {
  import opened DecimalText

  const BikePrice := 200
  const HelmetPrice := 15

  /** The line Credit Card X prints for a payment, given the amount as
      displayed. */
  function PaymentLine(user: string, amountText: string): string {
    user + " made a payment of $" + amountText + " using Credit Card X"
  }

  /** The Credit Card X API: it takes cents and shows dollars. */
  datatype CreditCardX = CreditCardX(user: string) {

    /** The line printed for a payment; the displayed amount is cents / 100,
        rendered exactly (see CentsRoundTrip), which for a whole number of
        dollars is that number. */
    function MakePayment(amountInCents: int): (line: string)
      ensures amountInCents % 100 == 0 ==>
        line == PaymentLine(user, IntToString(amountInCents / 100))
    {
      WholeDollarText(amountInCents / 100);
      PaymentLine(user, CentsToDollarText(amountInCents))
    }
  }

  datatype Store = Store(creditCardX: CreditCardX) {

    /** Charges 200 dollars a bike, passed to the card as cents. */
    function PurchaseBike(quantity: int): (line: string)
      ensures line == PaymentLine(creditCardX.user, IntToString(BikePrice * quantity))
    {
      WholeDollarCents(BikePrice * quantity);
      creditCardX.MakePayment(BikePrice * quantity * 100)
    }

    /** Charges 15 dollars a helmet, passed to the card as cents. */
    function PurchaseHelmet(quantity: int): (line: string)
      ensures line == PaymentLine(creditCardX.user, IntToString(HelmetPrice * quantity))
    {
      WholeDollarCents(HelmetPrice * quantity);
      creditCardX.MakePayment(HelmetPrice * quantity * 100)
    }
  }

  /** new Store(user): the store opens a Credit Card X account for the user. */
  function NewStore(user: string): (store: Store)
    ensures store.creditCardX.user == user
  {
    Store(CreditCardX(user))
  }

  /** The two purchases after the classes: two bikes show as $400 and two
      helmets as $30. */
  lemma StoreBestPurchases()
    ensures NewStore("Store Best").PurchaseBike(2) == PaymentLine("Store Best", "400")
    ensures NewStore("Store Best").PurchaseHelmet(2) == PaymentLine("Store Best", "30")
  {
    assert IntToString(400) == "400";
    assert IntToString(30) == "30";
  }
}
