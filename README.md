# Order pricing and payment decisions, modelled in Dafny

This project models the core of a small Java teaching program about order
processing. An order processor is wired once to a payment processor and a
notification channel. For each order it does four things:

1. It asks a discount strategy how much to take off the order amount.
2. It charges what is left to the payment processor, which accepts or declines.
3. It composes one status message and hands it to the channel.
4. It returns whether the payment went through.

The same pipeline is also coded a second time by three small services. The
pricing service builds an immutable pricing record. The payment service builds
an immutable payment outcome. The notification service composes and sends the
message. The main result is that the coordinator's inline code agrees exactly
with the composition of the three services.

Files and modules:

- `Format.dfy` (`Format`): converting an amount to text, the counterpart of
  Java's `"$" + amount` on a `double`.
- `Discounts.dfy` (`Discounts`): the discount strategies as one datatype:
  `NoDiscount`, `PercentageDiscount`, `FixedAmountDiscount`, and
  `BuyOneGetOne`. `BuyOneGetOne` is the half-price strategy that the demo driver
  and the tests define inline. The module also holds the strategy contract
  `0 <= discount <= price`.
- `Payments.dfy` (`Payments`): the `CreditCard` and `PayPal` processors and
  their acceptance rules.
- `Notifications.dfy` (`Notifications`): the notification channel. It is a sink
  object that records every message it delivers.
- `OrderPricingService.dfy`, `OrderPaymentService.dfy`,
  `OrderNotificationService.dfy`: the three services and their immutable
  records (`OrderPricing`, `PaymentOutcome`).
- `OrderProcessor.dfy` (`Orders`): `Checkout`, the composition of the services,
  and the class `OrderProcessor` with `ProcessOrder`, which is coded inline as
  in the source. `ProcessOrderThroughServices` runs the same order through the
  services' own operations, ending with `Send`, and
  `CoordinatorAgreesWithServices` shows that both paths give the same answer
  and deliver the same message.
- `Scenarios.dfy` (`Scenarios`): the orders of the repository's tests, plus
  three more: no discount on the card, 6000.0 on PayPal, and $100 off a 50.0
  order. Each is stated as the complete receipt the pipeline produces.

Amounts are Dafny `real`s and stand in for Java `double`s. The getters of the
two immutable records are the datatype destructors. Datatype values cannot
change after construction, and this is how the model captures the source's
`final` fields. The processor's injected collaborators are `const` fields for
the same reason. `ProcessOrder` modifies only the channel object, never the
processor.

Nothing in the code keeps `0 <= discountApplied <= originalAmount`. A
percentage above 100 is not clamped (`Discounts.PercentageUnclamped`). A
negative fixed amount gives a negative discount
(`Discounts.AdmissibleIffWithinPrice`). Neither the pricing
service nor the coordinator checks the amount. So the model has no
precondition on amounts or strategies. Instead it proves exactly which
strategies keep the bound (`Discounts.Admissible`).

## Model

| member | source | states |
|---|---|---|
| `Format.NatDigits` | src/main/java/com/example/solid/services/OrderNotificationService.java:12 | the integer part of an amount is written as a non-empty string of decimal digits; it has a leading '0' exactly when it is zero and one digit exactly when it is below 10 |
| `Format.DigitsRoundTrip` | src/main/java/com/example/solid/services/OrderNotificationService.java:12 | reading the digits back gives the number: nothing is lost when the integer part is turned into text |
| `Format.Fmt` | src/main/java/com/example/solid/services/OrderNotificationService.java:12 | the text of an amount has at least three characters ("d.d"); it starts with '-' exactly when the amount is negative, and with a digit otherwise |
| `Format.FractionRoundTrip` | src/main/java/com/example/solid/services/OrderNotificationService.java:12 | when the decimal expansion of a fraction ends within k digits, its k rendered fraction digits read back to exactly that fraction |
| `Format.FmtInjective` | src/main/java/com/example/solid/services/OrderNotificationService.java:12 | two amounts with at most 16 decimal places have the same text exactly when they are equal; both directions |
| `Format.WholeShort` | src/main/java/com/example/solid/discounts/PercentageDiscount.java:22 | every whole amount, negative or not, has at most 16 decimal places, so its text is exact |
| `Format.WholeAmount` | src/main/java/com/example/solid/discounts/PercentageDiscount.java:22 | a whole non-negative amount is written as its digits followed by ".0", as Java writes 10.0, 90.0 or 6000.0 |
| `Discounts.CalculateDiscount` | src/main/java/com/example/solid/interfaces/DiscountCalculator.java:8 | the discount of each strategy (NoDiscount.java:11-13, PercentageDiscount.java:16-18, FixedAmountDiscount.java:16-18, the half-price strategy of SolidDemo.java:151-153): an admissible strategy on a non-negative price takes off between 0 and the price, and a fixed amount never takes off more than the price, whatever its setting |
| `Discounts.DiscountType` | src/main/java/com/example/solid/interfaces/DiscountCalculator.java:9 | the label is non-empty and its first character tells the strategy apart: 'N' exactly for NoDiscount, a digit or '-' exactly for a percentage, '$' exactly for a fixed amount, 'B' exactly for Buy One Get One Free |
| `Discounts.DiscountTypeInjective` | src/main/java/com/example/solid/discounts/FixedAmountDiscount.java:21-23 | when the configured amounts have at most 16 decimal places, two strategies have the same label exactly when they are the same strategy with the same setting |
| `Discounts.AdmissibleIffWithinPrice` | src/main/java/com/example/solid/discounts/PercentageDiscount.java:16-18 | a strategy gives 0 <= discount <= price at every non-negative price exactly when it is admissible: always for NoDiscount and BuyOneGetOne, for a percentage only in [0, 100], for a fixed amount only when it is >= 0; both directions |
| `Discounts.PercentageBounds` | src/main/java/com/example/solid/discounts/PercentageDiscount.java:17 | for a rate in [0, 100] and a price >= 0, price * (rate / 100) lies in [0, price] |
| `Discounts.PercentageEdges` | src/main/java/com/example/solid/discounts/PercentageDiscount.java:17 | a rate of 0 takes nothing off and a rate of 100 takes off the whole price |
| `Discounts.PercentageUnclamped` | src/main/java/com/example/solid/discounts/PercentageDiscount.java:17 | the rate is not clamped: above 100, on a positive price, the discount exceeds the price and the final amount is negative |
| `Discounts.FixedAmountIsMin` | src/main/java/com/example/solid/discounts/FixedAmountDiscount.java:16-18 | the fixed discount is the minimum of the configured amount and the price; what is left is never negative; it equals the configured amount when that fits in the price; it leaves 0 when the amount covers the price; and it is >= 0 for a non-negative amount and price |
| `Discounts.NoDiscountFacts` | src/main/java/com/example/solid/discounts/NoDiscount.java:11-18 | NoDiscount takes 0 off every price, leaves the price unchanged, is labelled "No Discount" and keeps the strategy contract at every price >= 0 |
| `Discounts.BuyOneGetOneHalves` | src/test/java/com/example/solid/SolidPrinciplesTest.java:50-60 | Buy One Get One Free takes off exactly as much as it leaves, half of the price, and keeps the strategy contract |
| `Payments.ProcessPayment` | src/main/java/com/example/solid/payment/PayPalProcessor.java:11-15 | a processor accepts exactly the amounts in (0, its ceiling]; the credit card's rule is CreditCardProcessor.java:11-15 |
| `Payments.PaymentMethod` | src/main/java/com/example/solid/interfaces/PaymentProcessor.java:9 | every processor has a non-empty name |
| `Payments.PaymentMethodNames` | src/main/java/com/example/solid/payment/CreditCardProcessor.java:17-20 | the name identifies the processor: "Credit Card" and PayPalProcessor.java:17-20's "PayPal" differ, and equal names mean the same processor |
| `Payments.AcceptanceWindow` | src/main/java/com/example/solid/payment/CreditCardProcessor.java:11-15 | each processor accepts x exactly when 0 < x <= its ceiling (10000 for the credit card, 5000 for PayPal); it declines 0 and every negative amount, accepts the ceiling and declines everything above it |
| `Payments.Boundaries` | src/main/java/com/example/solid/payment/PayPalProcessor.java:14 | the credit card accepts 10000 and declines 10000.01 and 0; PayPal accepts 5000 and declines 6000 and 0 |
| `Payments.PayPalWithinCreditCard` | src/main/java/com/example/solid/payment/PayPalProcessor.java:14 | every amount PayPal accepts, the credit card accepts too |
| `Payments.CreditCardBeyondPayPal` | src/main/java/com/example/solid/payment/CreditCardProcessor.java:14 | the converse fails: the amounts the credit card accepts and PayPal declines are exactly those in (5000, 10000], and there is one |
| `OrderPricingService.PricingRecord` | src/main/java/com/example/solid/services/OrderPricing.java:6-34 | each getter returns the constructor argument it stores, and two pricings are equal exactly when all four fields are |
| `OrderPricingService.ApplyDiscount` | src/main/java/com/example/solid/services/OrderPricingService.java:10-14 | the pricing keeps the order amount as its original amount, the strategy's discount and label, and adds up: original = discount + final |
| `OrderPricingService.BoundedIffWithinPrice` | src/main/java/com/example/solid/services/OrderPricingService.java:11-12 | 0 <= final <= original holds exactly when the strategy's discount lies in [0, amount] |
| `OrderPricingService.AdmissibleGivesBounded` | src/main/java/com/example/solid/services/OrderPricingService.java:11-12 | an admissible strategy on a non-negative amount always yields 0 <= final <= original |
| `OrderPricingService.NoDiscountKeepsAmount` | src/main/java/com/example/solid/services/OrderPricingService.java:12 | without a discount the final amount is the order amount, labelled "No Discount" |
| `OrderPaymentService.OutcomeRecord` | src/main/java/com/example/solid/services/PaymentOutcome.java:6-22 | each getter returns the constructor argument it stores, and two outcomes are equal exactly when both fields are |
| `OrderPaymentService.ProcessPayment` | src/main/java/com/example/solid/services/OrderPaymentService.java:10-13 | the outcome is successful exactly when the charged amount lies in (0, ceiling] of the processor, and it names the processor's payment method |
| `OrderPaymentService.CreditCardZeroDeclined` | src/main/java/com/example/solid/services/OrderPaymentService.java:11-12 | a zero charge on the credit card is unsuccessful, with method "Credit Card" |
| `OrderNotificationService.ComposeMessage` | src/main/java/com/example/solid/services/OrderNotificationService.java:10-15 | on success the message is the success template with the final amount's text; otherwise it is the decline template with the final amount's text |
| `OrderNotificationService.SuccessDiffersFromFailure` | src/main/java/com/example/solid/services/OrderNotificationService.java:12-14 | a success message never equals a decline message, whatever the two amounts |
| `OrderNotificationService.ComposeMessageDetermines` | src/main/java/com/example/solid/services/OrderNotificationService.java:10-15 | two messages are equal exactly when the outcomes agree on success and the final amounts have the same text; nothing else (original amount, discount, label, payment method) affects the message, and the message determines both |
| `OrderNotificationService.ComposeMessageDeterminesAmount` | src/main/java/com/example/solid/services/OrderNotificationService.java:10-15 | when the final amounts have at most 16 decimal places, two messages are equal exactly when the outcomes agree on success and the final amounts are equal |
| `OrderNotificationService.Send` | src/main/java/com/example/solid/services/OrderNotificationService.java:17-19 | the message is delivered to the channel exactly once and unchanged; nothing else is delivered |
| `Notifications.NotificationSink.constructor` | src/main/java/com/example/solid/notifications/EmailNotification.java:11-13 | a fresh channel has delivered nothing |
| `Notifications.NotificationSink.SendNotification` | src/main/java/com/example/solid/interfaces/NotificationService.java:7 | delivering a message appends it, unchanged, to the channel's trace |
| `Orders.Checkout` | src/main/java/com/example/solid/OrderProcessor.java:27-50 | the services' composition keeps the order amount as original amount, charges the amount less the discount, succeeds exactly when the processor accepts that amount, names the processor's method, and its message is the success or decline template for the charged amount |
| `Orders.OrderProcessor.constructor` | src/main/java/com/example/solid/OrderProcessor.java:13-20 | the processor keeps the injected payment processor and channel; both fields are constants |
| `Orders.OrderProcessor.ProcessOrder` | src/main/java/com/example/solid/OrderProcessor.java:23-51 | the inline pipeline returns the processor's decision on the order amount less the discount, and agrees with the services' composition: the same success flag, and exactly one message, the one the services compose, appended to the channel |
| `Orders.ProcessOrderThroughServices` | src/main/java/com/example/solid/services/OrderNotificationService.java:10-19 | pricing, charging, composing and sending through the services reports Checkout's decision and delivers exactly Checkout's message, once |
| `Orders.CoordinatorAgreesWithServices` | src/main/java/com/example/solid/OrderProcessor.java:23-51 | run on the same order, with channels that have delivered the same messages, the coordinator and the services return the same answer and leave the same messages delivered |
| `Orders.ProcessTwice` | src/main/java/com/example/solid/OrderProcessor.java:23-51 | processing the same order twice returns the same answer both times and delivers the same message twice |
| `Orders.ChargeWithinOrder` | src/main/java/com/example/solid/OrderProcessor.java:27-28 | with an admissible strategy and a non-negative order, the amount charged lies between 0 and the order amount and the pricing adds up |
| `Orders.FullyDiscountedOrderDeclined` | src/main/java/com/example/solid/discounts/FixedAmountDiscount.java:17 | a fixed discount that covers the order leaves 0 to charge; every processor declines it and the decline message for 0 is sent |
| `Scenarios.CreditCardTenPercent` | src/test/java/com/example/solid/SolidPrinciplesTest.java:38-39 | credit card, 100.0 at 10%: 10.0 off, label "10.0% Discount", 90.0 charged and accepted, message for $90.0 |
| `Scenarios.CreditCardBuyOneGetOne` | src/test/java/com/example/solid/SolidPrinciplesTest.java:71-72 | credit card, 80.0 with Buy One Get One Free: 40.0 off, 40.0 charged and accepted |
| `Scenarios.CreditCardFifteenPercent` | src/test/java/com/example/solid/SolidPrinciplesTest.java:145-146 | credit card, 120.0 at 15%: 18.0 off, 102.0 charged and accepted |
| `Scenarios.PayPalTwentyOff` | src/test/java/com/example/solid/SolidPrinciplesTest.java:153-154 | PayPal, 90.0 with $20 off: label "$20.0 Off", 70.0 charged and accepted |
| `Scenarios.CreditCardNoDiscount` | src/main/java/com/example/solid/OrderProcessor.java:27-50 | credit card, 100.0 without discount: 100.0 charged and accepted, message "Order processed successfully! Amount: $100.0" |
| `Scenarios.PayPalOverCeiling` | src/main/java/com/example/solid/payment/PayPalProcessor.java:14 | PayPal, 6000.0 without discount: declined, message "Order failed! Payment of $6000.0 was declined." |
| `Scenarios.CreditCardFullyDiscounted` | src/main/java/com/example/solid/discounts/FixedAmountDiscount.java:17 | credit card, 50.0 with $100 off: the discount is clamped to 50.0, 0.0 is charged and declined |
| `Scenarios.CoordinatorScenario` | src/test/java/com/example/solid/SolidPrinciplesTest.java:29-39 | a freshly wired credit-card processor accepts the 100.0 order at 10%, and the returned channel then holds exactly the one success message for $90.0 |

## Left out

- Console output: the order summary, discount, final amount and payment-method lines, the success and failure banners, and the processors' "Processing ... payment" lines. None of them affects a result.
- The interactive driver (`SolidDemo.java`): the prompts, reading and parsing input, the default values used when parsing fails, and the menus. Its inline half-price strategy is modelled as `BuyOneGetOne`.
- The e-mail and SMS channels: each only prints the message with its destination. The channel is modelled as a sink that records the delivered messages. The channel names (`getNotificationType`) are constants that nothing in the core reads.
- Open extension: the source lets any class implement a strategy interface. The model fixes the variants that the repository defines. The tests' anonymous mocks (a processor that always accepts, a discount of a constant 10.0) are not modelled.
- `Format.Fmt`: does not model Java's IEEE-754 `double` semantics or the full `Double.toString` algorithm, because amounts here are exact reals. The model uses plain decimal notation with up to 16 fraction digits, truncated. Java rounds to the shortest unique decimal. Java also switches to scientific notation at 10^7 and above and below 10^-3, and it has NaN, infinities and -0.0.
- `Format.FmtInjective`: holds only for amounts with at most 16 decimal places, because longer fractions are truncated in the text. Java's text of a `double` tells every two distinct doubles apart. The same limit applies to `Discounts.DiscountTypeInjective` and `OrderNotificationService.ComposeMessageDeterminesAmount`.
- Floating-point rounding in `price * (percentage / 100.0)` and in `orderAmount - discount`. Every computation is exact here.
- The amount passed to the processor is a function argument, so "charged with exactly this amount" holds by construction. The processors' own logging of that amount is not modelled.
