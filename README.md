# SOLID design-principle examples, modelled in Dafny

This project models the object-oriented teaching examples in
`solidDesignPrinciples.js`. They are the small classes that illustrate the five SOLID
principles:

- **Calorie trackers** (single responsibility). Two versions of a
  one-counter state machine. Each adds intakes to a running total and
  prints "Max calories exceeded" whenever the total is strictly above the
  cap.
- **Quiz printing** (open-closed, the second version). Boolean, multiple-choice
  and text questions each print their own choices. `printQuiz` prints, for
  each question in order, its description, its choices and an empty line.
- **Rectangle** (Liskov substitution). The width and height setters change one
  side each, `area` is width times height, and `increaseRectangleWidth`
  widens by one.
- **Entities** (interface segregation), in two versions. In the first, Wall
  and Turret inherit move/attack/takeDamage from Entity and override what they
  cannot do with no-ops. In the second, each class gets only the capabilities
  (`mover`, `attacker`, `hasHealth`) it has.
- **Stores and card processors** (dependency inversion). The first store
  charges Credit Card X in cents. The second store pays an injected
  processor in dollars, and the Yolo or Zulu processor passes cents on to its
  card.

Conventions of the model:

- Console output becomes data. A method returns the lines it prints as a
  `seq<string>`. A pure payment function returns its one line.
- JavaScript numbers are unbounded integers.
- Template strings render numbers through `DecimalText`. Integers are
  rendered as decimal digits with a '-' sign when negative. The card's
  `cents / 100` is rendered as the exact decimal quotient, without trailing
  zeros in the fraction. JavaScript computes that quotient as a double,
  which keeps every cent only while the absolute value of amountInCents / 100 is below 2^46 (about
  7.04·10^15 cents), so the two agree only below that bound. Both
  renderings have parsers, and round-trip lemmas show that the model's
  renderings lose nothing.
- The file declares several class names twice, once for each version. Each
  version is therefore a module of its own: `CalorieTrackerBad` and
  `CalorieTrackerGood`, `EntitiesInherited` and `EntitiesComposed`,
  `StoreDirect` and `StoreInjected`.
- Objects whose fields change are Dafny classes with `modifies` clauses: the
  trackers, the rectangle and the entities. In place of dynamic dispatch, an
  entity has a `const kind`. This records which class it was built as and
  selects the overriding behaviour.
- Objects that never change after construction are datatypes: the questions,
  stores, processors and cards.
- In the composed entity version, calling a method that an object was not
  given throws a TypeError in JavaScript. Here such a call returns
  `NotAFunction(name)`, together with any lines printed before the failing
  call.
- Where a comment and the code disagree, the model follows the code. The
  comments at lines 398-399 say "make a payment", but the code prints "made
  a payment".

## Model

| member | source | states |
|---|---|---|
| DecimalText.NatToString | solidDesignPrinciples.js:117 | a non-negative number is rendered as at least one decimal digit, with no leading zero except for 0 itself |
| DecimalText.NatToStringValue | solidDesignPrinciples.js:117 | the rendered digits read back as the number they were rendered from |
| DecimalText.IntToString | solidDesignPrinciples.js:253-258 | an interpolated integer renders as non-empty text that starts with '-' exactly when the integer is negative, followed by decimal digits only |
| DecimalText.IntToStringRoundTrip | solidDesignPrinciples.js:253-258 | the text of an interpolated integer (damage, health) parses back to that integer, negative values included |
| DecimalText.IntToStringInjective | solidDesignPrinciples.js:258 | two integers render as the same text exactly when they are equal |
| DecimalText.CentsRoundTrip | solidDesignPrinciples.js:393 | the displayed `amountInCents / 100` parses back to exactly the cents that were paid, for every integer amount, negative ones included. This describes the model's rendering; JavaScript's double-based display agrees with it only while the absolute value of amountInCents / 100 is below 2^46 |
| DecimalText.CentsToDollarText | solidDesignPrinciples.js:393 | the displayed `amountInCents / 100` is non-empty and starts with '-' exactly when the amount is negative |
| DecimalText.CentsTextCanonical | solidDesignPrinciples.js:393 | the displayed `amountInCents / 100` has a decimal point exactly when the cents are not a whole number of dollars, and then its last digit is never '0' (trailing zeros of the fraction are dropped) |
| DecimalText.WholeDollarText | solidDesignPrinciples.js:393 | a payment of d·100 cents is displayed as the plain integer text of d dollars |
| CalorieTrackerBad.CalorieTracker.constructor | solidDesignPrinciples.js:9-12 | a new tracker keeps the given cap and starts at 0 calories |
| CalorieTrackerBad.CalorieTracker.TrackCalories | solidDesignPrinciples.js:14-19 | the total grows by exactly the intake, the cap is unchanged, and the surplus line is printed if and only if the new total is strictly greater than the cap |
| CalorieTrackerBad.CalorieTracker.LogCalorieSurplass | solidDesignPrinciples.js:21-23 | prints exactly the one line "Max calories exceeded" |
| CalorieTrackerBad.DailyIntake | solidDesignPrinciples.js:26-29 | with cap 2000 and intakes 400, 1200, 750, only the third call prints the surplus line, and the total ends at 2350 |
| CalorieTrackerGood.LogMessage | solidDesignPrinciples.js:34-36 | logging a message writes exactly one line, the message itself |
| CalorieTrackerGood.CalorieTracker.constructor | solidDesignPrinciples.js:39-42 | a new tracker keeps the given cap and starts at 0 calories |
| CalorieTrackerGood.CalorieTracker.TrackCalories | solidDesignPrinciples.js:44-49 | same as the first version, with the line written by logMessage; also, once over the cap, a non-negative intake reports again |
| Quiz.PrintQuestionChoices | solidDesignPrinciples.js:100-129 | a boolean question prints exactly "1. True", "2. False". A text question prints "Answer: __________". A multiple-choice question prints one line per option, in list order, the k-th line being "k+1. option" |
| Quiz.QuizLinesAppend | solidDesignPrinciples.js:131-137 | the printout of two question lists one after the other is the printout of the first followed by that of the second |
| Quiz.QuizLinesSplit | solidDesignPrinciples.js:131-137 | question k's block (its description, its choices, an empty line) appears whole, after the blocks of all earlier questions and before those of all later ones |
| Quiz.PrintQuiz | solidDesignPrinciples.js:131-137 | printQuiz prints, for each question in list order, its description, its choices and an empty line, and nothing else |
| Quiz.PrintSampleQuiz | solidDesignPrinciples.js:139-148 | the three-question sample quiz prints exactly its thirteen lines: three descriptions, 2 + 4 + 1 choice lines and three empty lines |
| Rectangles.Rectangle.constructor | solidDesignPrinciples.js:158-161 | a new rectangle has the given width and height |
| Rectangles.Rectangle.SetWidth | solidDesignPrinciples.js:162-164 | sets the width, leaves the height, and the area becomes new width × height |
| Rectangles.Rectangle.SetHeight | solidDesignPrinciples.js:165-167 | sets the height, leaves the width, and the area becomes width × new height |
| Rectangles.Rectangle.Area | solidDesignPrinciples.js:168-170 | the area is zero exactly when a side is zero, and a rectangle with positive sides has an area at least as large as either side |
| Rectangles.IncreaseRectangleWidth | solidDesignPrinciples.js:184-186 | the width grows by one, the height is unchanged, and the area grows by exactly one height |
| Rectangles.WidenedRectangleArea | solidDesignPrinciples.js:188-193 | Rectangle(10, 2) widened by one has area 22 |
| EntitiesInherited.Entity.Character | solidDesignPrinciples.js:244-248 | a character keeps the given name, attack damage and health |
| EntitiesInherited.Entity.Wall | solidDesignPrinciples.js:265-268 | a wall's attack damage is fixed at 0 |
| EntitiesInherited.Entity.Turret | solidDesignPrinciples.js:277-280 | a turret's health is fixed at -1 |
| EntitiesInherited.Entity.Move | solidDesignPrinciples.js:249-251 | a character prints "<name> moved."; the overrides of walls and turrets print nothing |
| EntitiesInherited.Entity.TakeDamage | solidDesignPrinciples.js:256-259 | health drops by exactly the amount, and the remaining health is reported. A turret's override changes nothing, so its health stays -1. Name and attack damage never change |
| EntitiesInherited.Entity.Attack | solidDesignPrinciples.js:252-255 | the target's health drops by exactly the attacker's damage, unless the target is a turret. The attack line comes first, then the target's line. A wall's attack does nothing. The attacker's fields are unchanged unless it is its own target |
| EntitiesInherited.Skirmish | solidDesignPrinciples.js:289-300 | turret(5)→character(10) leaves 5, character(3)→wall(200) leaves 197, the turret keeps -1, and the five lines are the two attack reports, the move and the two health reports, in that order |
| EntitiesComposed.Capabilities | solidDesignPrinciples.js:340-358 | the prototype assignments give a character mover, attacker and hasHealth, a wall only hasHealth, and a turret only attacker |
| EntitiesComposed.Entity.Character | solidDesignPrinciples.js:331-337 | a character keeps the given name, attack damage and health |
| EntitiesComposed.Entity.Wall | solidDesignPrinciples.js:342-347 | a wall keeps the given name and health |
| EntitiesComposed.Entity.Turret | solidDesignPrinciples.js:351-356 | a turret keeps the given name and attack damage |
| EntitiesComposed.Entity.Move | solidDesignPrinciples.js:311-315 | completes exactly for characters, which print "<name> moved."; walls and turrets have no move and fail with a TypeError, printing nothing |
| EntitiesComposed.Entity.TakeDamage | solidDesignPrinciples.js:324-329 | characters and walls lose exactly the amount and report what is left; turrets have no takeDamage, so the call fails and they are unchanged |
| EntitiesComposed.Entity.Attack | solidDesignPrinciples.js:317-322 | characters and turrets print the attack line and pass their damage to the target's takeDamage. A wall has no attack. Attacking a turret prints the attack line, then fails without changing it |
| EntitiesComposed.Skirmish | solidDesignPrinciples.js:360-366 | the demo with the composed classes leaves the character at 5 and the wall at 197, and prints the same five reports in this version's wording; all three calls complete, so the demo throws no TypeError |
| EntitiesComposed.SameDamageArithmetic | solidDesignPrinciples.js:324-328 | a character of either version, hit for the same amount, ends with the same health, its old health minus the amount |
| StoreDirect.CreditCardX.MakePayment | solidDesignPrinciples.js:392-394 | a whole number of dollars paid in cents is displayed as that number of dollars |
| StoreDirect.Store.PurchaseBike | solidDesignPrinciples.js:379-381 | charging 200·q·100 cents shows a payment of 200·q dollars to Credit Card X |
| StoreDirect.Store.PurchaseHelmet | solidDesignPrinciples.js:382-384 | charging 15·q·100 cents shows a payment of 15·q dollars to Credit Card X |
| StoreDirect.NewStore | solidDesignPrinciples.js:376-378 | a new store holds a Credit Card X opened for the given user |
| StoreDirect.StoreBestPurchases | solidDesignPrinciples.js:397-399 | for "Store Best", two bikes show $400 and two helmets show $30 |
| StoreInjected.CreditCardYolo.MakePayment | solidDesignPrinciples.js:439-441 | a whole number of dollars paid in cents is displayed as that number of dollars, with Credit Card Yolo |
| StoreInjected.CreditCardZulu.MakePayment | solidDesignPrinciples.js:465-467 | a whole number of dollars paid in cents is displayed as that number of dollars, with Credit Card Zulu |
| StoreInjected.PaymentProcessor.Pay | solidDesignPrinciples.js:430-432 | either processor passes dollars·100 cents to its card, and the card shows exactly the dollars the store asked for |
| StoreInjected.NewYoloProcessor | solidDesignPrinciples.js:426-429 | the processor pays with a Yolo card opened for the given user |
| StoreInjected.NewZuluProcessor | solidDesignPrinciples.js:452-455 | the processor pays with a Zulu card opened for the given user |
| StoreInjected.Store.PurchaseBike | solidDesignPrinciples.js:418-420 | pays 200·q dollars through whichever processor the store was given |
| StoreInjected.Store.PurchaseHelmet | solidDesignPrinciples.js:421-423 | pays 15·q dollars through whichever processor the store was given |
| StoreInjected.SallyPurchases | solidDesignPrinciples.js:444-448 | Sally with Yolo: two helmets show $30 and two bikes show $400 |
| StoreInjected.JohnPurchases | solidDesignPrinciples.js:470-472 | John with Zulu: four helmets show $60 and three bikes show $600 |

## Left out

- `Square` (lines 173-182) is not modelled. Its setters read the undeclared variables `height` and `width`, so every call throws a ReferenceError. The comment at line 194, "outputs 36", does not describe what the code does.
- The first `printQuiz` (lines 59-96) is not modelled. It reads an undefined `question` and prints `questions.description`, so its behaviour is not coherent.
- The bird classes (lines 202-234) are not modelled. They only print constant strings and have no state.
- `callbackPromises.js`, `asyncAwait.js`, `destructuring.js` and `regex.js` are not part of this model. They demonstrate asynchronous scheduling, built-in destructuring and the regular-expression engine, and contain no logic of this repository's own.
- Console I/O is not performed. The printed lines are returned instead.
- JavaScript numbers are modelled as exact integers. The model does not cover rounding above 2^53, exponent notation from 1e21 upward, or non-integer inputs such as a quantity of 1.5.
- DecimalText.CentsToDollarText: the card's display of `amountInCents / 100` is a double in JavaScript and keeps every cent only while the absolute value of amountInCents / 100 is below 2^46; above that bound the model's exact text can differ in the last digit (7036874417766401 cents displays as "70368744177664.02" in JavaScript and as "70368744177664.01" here). Whole-dollar amounts, the only ones the stores pass, are not affected.
- StoreDirect.CreditCardX.MakePayment: the contract covers only whole-dollar amounts, the only ones the stores pass. For any other amount, `DecimalText.CentsRoundTrip` states what the display shows.
- StoreInjected.CreditCardYolo.MakePayment: the contract covers only whole-dollar amounts, for the same reason.
- StoreInjected.CreditCardZulu.MakePayment: the contract covers only whole-dollar amounts, for the same reason.
- Only the name of the missing method is kept from a TypeError, not the full message text.
- A `new Entity(...)` of the first version is not modelled separately. Character adds nothing to Entity, so such an object behaves as the `CharacterKind` model does.
- In the second version, a wall has no `attackDamage` property and a turret has no `health` property. The model's fields for them exist but are unconstrained, and nothing reads them.
