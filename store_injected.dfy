/** The dependency-inversion example, second version: the store is given a
    payment processor and pays it in dollars; each processor wraps one card
    API, converts dollars to the cents that card expects, and the card shows
    cents / 100. Nothing is changed after construction, so all of these are
    values and each payment is the console line it prints. */
module StoreInjected {
  import opened DecimalText

  const BikePrice := 200
  const HelmetPrice := 15

  /** The line a card prints for a payment, given the amount as displayed. */
  function PaymentLine(user: string, amountText: string, cardName: string): string {
    user + " made a payment of $" + amountText + " with " + cardName
  }

  /** The Credit Card Yolo API: takes cents, shows dollars. */
  datatype CreditCardYolo = CreditCardYolo(user: string) {
    function MakePayment(amountInCents: int): (line: string)
      ensures amountInCents % 100 == 0 ==>
        line == PaymentLine(user, IntToString(amountInCents / 100), "Credit Card Yolo")
    {
      WholeDollarText(amountInCents / 100);
      PaymentLine(user, CentsToDollarText(amountInCents), "Credit Card Yolo")
    }
  }

  /** The Credit Card Zulu API: takes cents, shows dollars. */
  datatype CreditCardZulu = CreditCardZulu(user: string) {
    function MakePayment(amountInCents: int): (line: string)
      ensures amountInCents % 100 == 0 ==>
        line == PaymentLine(user, IntToString(amountInCents / 100), "Credit Card Zulu")
    {
      WholeDollarText(amountInCents / 100);
      PaymentLine(user, CentsToDollarText(amountInCents), "Credit Card Zulu")
    }
  }

  /** The one interface the store depends on: pay(amountInDollars). */
  datatype PaymentProcessor =
    | CreditCardYoloPaymentProcessor(creditCardYolo: CreditCardYolo)
    | CreditCardZuluPaymentProcessor(creditCardZulu: CreditCardZulu)
  {
    function User(): string {
      match this
      case CreditCardYoloPaymentProcessor(card) => card.user
      case CreditCardZuluPaymentProcessor(card) => card.user
    }

    function CardName(): string {
      match this
      case CreditCardYoloPaymentProcessor(_) => "Credit Card Yolo"
      case CreditCardZuluPaymentProcessor(_) => "Credit Card Zulu"
    }

    /** Hands the card dollars * 100 cents; the card then shows exactly the
        dollar amount the store asked for. */
    function Pay(amountInDollars: int): (line: string)
      ensures line == PaymentLine(User(), IntToString(amountInDollars), CardName())
    {
      WholeDollarCents(amountInDollars);
      match this
      case CreditCardYoloPaymentProcessor(card) => card.MakePayment(amountInDollars * 100)
      case CreditCardZuluPaymentProcessor(card) => card.MakePayment(amountInDollars * 100)
    }
  }

  /** new CreditCardYoloPaymentProcessor(user): opens the card for the user. */
  function NewYoloProcessor(user: string): (processor: PaymentProcessor)
    ensures processor.User() == user && processor.CardName() == "Credit Card Yolo"
  {
    CreditCardYoloPaymentProcessor(CreditCardYolo(user))
  }

  /** new CreditCardZuluPaymentProcessor(user): opens the card for the user. */
  function NewZuluProcessor(user: string): (processor: PaymentProcessor)
    ensures processor.User() == user && processor.CardName() == "Credit Card Zulu"
  {
    CreditCardZuluPaymentProcessor(CreditCardZulu(user))
  }

  /** The store knows only the processor and speaks in dollars. */
  datatype Store = Store(paymentProcessor: PaymentProcessor) {

    function PurchaseBike(quantity: int): (line: string)
      ensures line == PaymentLine(paymentProcessor.User(), IntToString(BikePrice * quantity), paymentProcessor.CardName())
    {
      paymentProcessor.Pay(BikePrice * quantity)
    }

    function PurchaseHelmet(quantity: int): (line: string)
      ensures line == PaymentLine(paymentProcessor.User(), IntToString(HelmetPrice * quantity), paymentProcessor.CardName())
    {
      paymentProcessor.Pay(HelmetPrice * quantity)
    }
  }

  /** The purchases through the Yolo processor: two helmets show as $30 and
      two bikes as $400. */
  lemma SallyPurchases()
    ensures Store(NewYoloProcessor("Sally")).PurchaseHelmet(2) == PaymentLine("Sally", "30", "Credit Card Yolo")
    ensures Store(NewYoloProcessor("Sally")).PurchaseBike(2) == PaymentLine("Sally", "400", "Credit Card Yolo")
  {
    assert IntToString(30) == "30";
    assert IntToString(400) == "400";
  }

  /** The purchases through the Zulu processor: four helmets show as $60 and
      three bikes as $600. */
  lemma JohnPurchases()
    ensures Store(NewZuluProcessor("John")).PurchaseHelmet(4) == PaymentLine("John", "60", "Credit Card Zulu")
    ensures Store(NewZuluProcessor("John")).PurchaseBike(3) == PaymentLine("John", "600", "Credit Card Zulu")
  {
    assert IntToString(60) == "60";
    assert IntToString(600) == "600";
  }
}
