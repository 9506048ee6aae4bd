/** The values the checkout components read from the shared store, and the
 *  requests they send to it or to the commerce backend. The reducers that
 *  act on these requests are not part of this model, so a component's
 *  effect on the world is the log of requests it has issued.
 */
module Store {

  /** A cart line item. Ids are modelled by their numeric value. */
  datatype Order = Order(id: int, name: string, quantity: nat, shipping: string)

  /** `customer.shippingInformation`. */
  datatype Address = Address(address: string, apartment: string, city: string, province: string, country: string)

  /** `setCheckoutStage` is called with a bare stage string by some components
   *  and with a `{ stage }` object by others; the two shapes are kept apart. */
  datatype StagePayload = Bare(stage: string) | Wrapped(stage: string)

  datatype Action =
    | SetCheckoutStage(payload: StagePayload)
    | SetCardDetails(field: string, value: string)
    | SetPaymentMethod(paymentMethod: string)
    | SetBillingAddress(choice: string)
    | SetAgreementToTerms
    | GetCards
    | AddCardToVault
    | AddCardToCart
    | SubmitOrder
    | SetEmail(email: string)
    | SetInstructions(instructions: string)
    | ChangeShipping(shipping: string, order: Order)

  /** Whether a log of requests holds a stage change. */
  predicate NoStageRequest(log: seq<Action>)
  {
    forall i :: 0 <= i < |log| ==> !log[i].SetCheckoutStage?
  }
}
