/** The payment step (`Payment.tsx`): the card-detail change handler, the
 *  Complete-order and Back buttons, the terms-error effect, the saved-card
 *  radios and the PayPal callbacks, over the component's local state and the
 *  store values it reads. Requests to the store and to the backend are
 *  appended to `requests`; what a reducer then does with them is not modelled.
 */
module Payment {
  import opened Wrappers
  import opened CardFormat
  import opened CardValidation
  import opened Store

  /** The input names `handleCardDetailChange` reacts to; any other name is ignored. */
  function CardFieldNamed(name: string): (r: Option<Field>)
    ensures r.Some? <==> name == "name" || name == "number" || name == "code" || name == "expiry"
    ensures r.Some? ==> FieldName(r.value) == name
  {
    if name == "name" then Some(Name)
    else if name == "number" then Some(Number)
    else if name == "code" then Some(Code)
    else if name == "expiry" then Some(Expiry)
    else None
  }

  /** The formatter applied to the raw value of each card input. */
  function FormatField(f: Field, raw: string): string
  {
    match f
    case Name => FormatName(raw)
    case Number => FormatNumber(raw)
    case Code => FormatCode(raw)
    case Expiry => FormatExpiry(raw)
  }

  /** Re-typing a stored card value into its own input stores the same value. */
  lemma FormatFieldIdempotent(f: Field, raw: string)
    ensures FormatField(f, FormatField(f, raw)) == FormatField(f, raw)
  {
    match f
    case Name => FormatNameIdempotent(raw);
    case Number => FormatNumberIdempotent(raw);
    case Code => FormatCodeIdempotent(raw);
    case Expiry => FormatExpiryIdempotent(raw);
  }

  /** What the Complete-order button decides. */
  datatype OrderOutcome = TermsError | RequestStage(stage: string) | PostNewCard | NoAction

  /** The Complete-order decision. The credit-card branch never asks for a new stage:
   *  its transition is commented out; it only posts the card, and only when the card
   *  inputs are all valid and the user asked to save the card. */
  function CompleteOrderOutcome(agreedToTerms: bool, paymentMethod: string, cardInputsInvalid: bool, saveCardOption: bool): (o: OrderOutcome)
    ensures o == TermsError <==> !agreedToTerms
    ensures o.RequestStage? <==> agreedToTerms && (paymentMethod == "paypal" || paymentMethod == "bankTransfer")
    ensures o.RequestStage? ==> o.stage == "thanks"
    ensures o == PostNewCard <==> agreedToTerms && paymentMethod == "creditCard" && !cardInputsInvalid && saveCardOption
  {
    if agreedToTerms then
      if paymentMethod == "creditCard" then
        if !cardInputsInvalid && saveCardOption then PostNewCard else NoAction
      else if paymentMethod == "paypal" then RequestStage("thanks")
      else if paymentMethod == "bankTransfer" then RequestStage("thanks")
      else NoAction
    else TermsError
  }

  /** The requests each outcome issues; `postNewCard` dispatches the vault add, then the cart add. */
  function OutcomeRequests(o: OrderOutcome): (rs: seq<Action>)
    ensures NoStageRequest(rs) <==> !o.RequestStage?
    ensures o == PostNewCard ==> AddCardToVault in rs && AddCardToCart in rs
  {
    match o
    case TermsError => []
    case RequestStage(s) =>
      var rs := [SetCheckoutStage(Bare(s))];
      assert rs[0].SetCheckoutStage?;
      rs
    case PostNewCard => [AddCardToVault, AddCardToCart]
    case NoAction => []
  }

  /** Pressing Complete order with a card never requests a stage change, however the inputs stand. */
  lemma CreditCardKeepsStage(agreedToTerms: bool, cardInputsInvalid: bool, saveCardOption: bool)
    ensures NoStageRequest(OutcomeRequests(CompleteOrderOutcome(agreedToTerms, "creditCard", cardInputsInvalid, saveCardOption)))
  {
  }

  /** Everything the form holds: the store values it reads and its own `useState` values. */
  datatype PaymentState = PaymentState(
    agreedToTerms: bool,
    paymentMethod: string,
    validInputs: ValidInputs,
    focusedElement: string,
    agreedToTermsError: bool,
    saveCardOption: bool,
    previousCardOption: string,
    paypalPaymentError: bool,
    requests: seq<Action>)

  class PaymentForm {
    // read from the store
    var agreedToTerms: bool
    var paymentMethod: string
    // the component's own state
    var validInputs: ValidInputs
    var focusedElement: string
    var agreedToTermsError: bool
    var saveCardOption: bool
    var previousCardOption: string
    var paypalPaymentError: bool
    // requests issued so far, oldest first
    var requests: seq<Action>

    ghost function State(): PaymentState
      reads this
    {
      PaymentState(agreedToTerms, paymentMethod, validInputs, focusedElement, agreedToTermsError,
                   saveCardOption, previousCardOption, paypalPaymentError, requests)
    }

    /** The terms error is only ever shown while the terms are not agreed to. */
    ghost predicate Valid()
      reads this
    {
      agreedToTermsError ==> !agreedToTerms
    }

    /** Mounting the form with the current store values; the mount effect fetches the saved cards. */
    constructor (agreedToTerms: bool, paymentMethod: string)
      ensures Valid()
      ensures State() == PaymentState(agreedToTerms, paymentMethod, InitialValidInputs, "", false, false, "", false, [GetCards])
    {
      this.agreedToTerms := agreedToTerms;
      this.paymentMethod := paymentMethod;
      validInputs := InitialValidInputs;
      focusedElement := "";
      agreedToTermsError := false;
      saveCardOption := false;
      previousCardOption := "";
      paypalPaymentError := false;
      requests := [GetCards];
    }

    /** The new-card inputs show for the card method while no saved card is chosen. */
    predicate ShowNewCardFields()
      reads this
    {
      paymentMethod == "creditCard" && previousCardOption == ""
    }

    /** `handleCardDetailChange`: the validator's verdict on the formatted value is passed in. */
    method CardDetailChange(name: string, rawValue: string, isPotentiallyValid: bool, isValid: bool)
      requires Valid() && ShowNewCardFields()
      modifies this
      ensures Valid()
      ensures CardFieldNamed(name).None? ==> State() == old(State())
      ensures CardFieldNamed(name).Some? ==>
        var f := CardFieldNamed(name).value;
        State() == old(State()).(
          validInputs := Update(old(validInputs), f, Validity(isPotentiallyValid, isValid)),
          requests := old(requests) + [SetCardDetails(name, FormatField(f, rawValue))])
    {
      var field := CardFieldNamed(name);
      if field.Some? {
        var formattedValue := FormatField(field.value, rawValue);
        requests := requests + [SetCardDetails(name, formattedValue)];
        validInputs := Update(validInputs, field.value, Validity(isPotentiallyValid, isValid));
      }
    }

    /** An element named `name` takes focus. */
    method Focus(name: string)
      requires Valid()
      modifies this
      ensures Valid()
      ensures State() == old(State()).(focusedElement := name)
    {
      focusedElement := name;
    }

    /** Focus leaves an element. */
    method Blur()
      requires Valid()
      modifies this
      ensures Valid()
      ensures State() == old(State()).(focusedElement := "")
    {
      focusedElement := "";
    }

    /** The "Add Card to vault" checkbox. */
    method ToggleSaveCard(checked: bool)
      requires Valid() && ShowNewCardFields()
      modifies this
      ensures Valid()
      ensures State() == old(State()).(saveCardOption := checked)
    {
      saveCardOption := checked;
    }

    /** A click on a saved card's radio: clicking the chosen card again deselects it. */
    method SavedCardClick(token: string)
      requires Valid() && paymentMethod == "creditCard"
      modifies this
      ensures Valid()
      ensures State() == old(State()).(previousCardOption := if token == old(previousCardOption) then "" else old(previousCardOption))
      ensures token == old(previousCardOption) ==> ShowNewCardFields() == (paymentMethod == "creditCard")
    {
      if token == previousCardOption {
        previousCardOption := "";
      }
    }

    /** A saved card's radio becomes checked: that card is chosen and the new-card inputs hide. */
    method SavedCardChange(token: string)
      requires Valid() && paymentMethod == "creditCard"
      modifies this
      ensures Valid()
      ensures State() == old(State()).(previousCardOption := token)
      ensures token != "" ==> !ShowNewCardFields()
    {
      previousCardOption := token;
    }

    method ChoosePaymentMethod(m: string)
      requires Valid()
      modifies this
      ensures Valid()
      ensures State() == old(State()).(requests := old(requests) + [SetPaymentMethod(m)])
    {
      requests := requests + [SetPaymentMethod(m)];
    }

    method ChooseBillingAddress(choice: string)
      requires Valid()
      modifies this
      ensures Valid()
      ensures State() == old(State()).(requests := old(requests) + [SetBillingAddress(choice)])
    {
      requests := requests + [SetBillingAddress(choice)];
    }

    /** The terms checkbox asks the store to flip the agreement; the flip itself is the reducer's. */
    method ToggleTerms()
      requires Valid()
      modifies this
      ensures Valid()
      ensures State() == old(State()).(requests := old(requests) + [SetAgreementToTerms])
    {
      requests := requests + [SetAgreementToTerms];
    }

    /** A re-render with new store values; the effect on `agreedToTerms` then clears the terms error. */
    method StoreChanged(agreed: bool, chosenMethod: string)
      requires Valid()
      modifies this
      ensures Valid()
      ensures State() == old(State()).(
        agreedToTerms := agreed,
        paymentMethod := chosenMethod,
        agreedToTermsError := if agreed && agreed != old(agreedToTerms) then false else old(agreedToTermsError))
      ensures agreed ==> !agreedToTermsError
    {
      var changed := agreed != agreedToTerms;
      agreedToTerms, paymentMethod := agreed, chosenMethod;
      if changed && agreedToTerms {
        agreedToTermsError := false;
      }
    }

    /** The Back link asks for the shipping step. */
    method Back()
      requires Valid()
      modifies this
      ensures Valid()
      ensures State() == old(State()).(requests := old(requests) + [SetCheckoutStage(Bare("shipping"))])
    {
      requests := requests + [SetCheckoutStage(Bare("shipping"))];
    }

    /** The Complete-order button. */
    method CompleteOrder()
      requires Valid()
      modifies this
      ensures Valid()
      ensures !old(agreedToTerms) ==> State() == old(State()).(agreedToTermsError := true)
      ensures old(agreedToTerms) ==> State() == old(State()).(requests := old(requests) +
        OutcomeRequests(CompleteOrderOutcome(true, old(paymentMethod), old(CardInputsInvalid(validInputs)), old(saveCardOption))))
    {
      if agreedToTerms {
        if paymentMethod == "creditCard" {
          if !CardInputsInvalid(validInputs) {
            if saveCardOption {
              requests := requests + [AddCardToVault, AddCardToCart];
            }
          }
        } else if paymentMethod == "paypal" {
          requests := requests + [SetCheckoutStage(Bare("thanks"))];
        } else if paymentMethod == "bankTransfer" {
          requests := requests + [SetCheckoutStage(Bare("thanks"))];
        }
      } else {
        agreedToTermsError := true;
      }
    }

    /** The PayPal button's `onSuccess`: the order is submitted, then the thanks step is requested. */
    method PaypalApproved()
      requires Valid()
      modifies this
      ensures Valid()
      ensures State() == old(State()).(requests := old(requests) + [SubmitOrder, SetCheckoutStage(Bare("thanks"))])
    {
      requests := requests + [SubmitOrder, SetCheckoutStage(Bare("thanks"))];
    }

    /** The PayPal button's `onError`. */
    method PaypalFailed()
      requires Valid()
      modifies this
      ensures Valid()
      ensures State() == old(State()).(paypalPaymentError := true)
    {
      paypalPaymentError := true;
    }
  }
}
