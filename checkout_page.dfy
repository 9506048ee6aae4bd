/** The checkout page (`checkout.tsx`): the stage read from the store picks the
 *  form to render, and the same stage is handed to the status bar and the
 *  order summary. The page only reads the stage.
 */
module CheckoutPage {
  import CustomerInfo

  datatype Form = CustomerForm | ShippingForm | PaymentForm

  /** The ternary chain over `stage`; every unlisted stage, "thanks" included, shows the customer form. */
  function Route(stage: string): (f: Form)
    ensures f == ShippingForm <==> stage == "shipping"
    ensures f == PaymentForm <==> stage == "payment"
    ensures f == CustomerForm <==> stage != "shipping" && stage != "payment"
  {
    if stage == "customer" then CustomerForm
    else if stage == "shipping" then ShippingForm
    else if stage == "payment" then PaymentForm
    else CustomerForm
  }

  lemma ThanksShowsCustomerForm()
    ensures Route("thanks") == CustomerForm
  {
  }

  /** What the page renders: the status bar's stage, the form, the summary's stage. */
  datatype Page = Page(statusBarStage: string, form: Form, summaryStage: string)

  function Render(stage: string): (p: Page)
    ensures p.statusBarStage == stage && p.summaryStage == stage
    ensures p.form == Route(stage)
  {
    Page(stage, Route(stage), stage)
  }

  /** The Method block of the customer summary shows exactly when the router picks the payment
   *  form, the only form in these files that renders the summary above it. */
  lemma MethodBlockWithPaymentForm(stage: string)
    ensures Route(stage) == PaymentForm <==> CustomerInfo.ShowMethodBlock(stage)
  {
  }
}
