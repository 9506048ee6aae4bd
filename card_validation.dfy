/** The payment form's bookkeeping of card-validator verdicts (`validInputs`),
 *  the "is anything invalid" aggregate (`validateCardInputs`) and the
 *  red/grey border rule (`handleCardInputError`). The validator itself is
 *  outside the model: its two booleans arrive as plain values.
 */
module CardValidation {

  datatype Field = Number | Name | Code | Expiry

  /** The `name` attribute of the input for a field, as compared with `focusedElement`. */
  function FieldName(f: Field): string
  {
    match f
    case Number => "number"
    case Name => "name"
    case Code => "code"
    case Expiry => "expiry"
  }

  datatype Validity = Validity(isPotentiallyValid: bool, isValid: bool)

  /** `IValidInputs`, its fields in declaration order. */
  datatype ValidInputs = ValidInputs(number: Validity, name: Validity, code: Validity, expiry: Validity)

  /** The initial `useState` value: every flag true. */
  const InitialValidInputs := ValidInputs(Validity(true, true), Validity(true, true), Validity(true, true), Validity(true, true))

  /** `validInputs[name]`. */
  function Get(v: ValidInputs, f: Field): Validity
  {
    match f
    case Number => v.number
    case Name => v.name
    case Code => v.code
    case Expiry => v.expiry
  }

  /** `setValidInputs(prev => ({ ...prev, [f]: x }))`: only field f takes the new verdict. */
  function Update(v: ValidInputs, f: Field, x: Validity): (r: ValidInputs)
    ensures Get(r, f) == x
    ensures forall g :: g != f ==> Get(r, g) == Get(v, g)
  {
    match f
    case Number => v.(number := x)
    case Name => v.(name := x)
    case Code => v.(code := x)
    case Expiry => v.(expiry := x)
  }

  /** `Object.values` of the record, each inner object flattened in turn: eight booleans. */
  function Flags(v: ValidInputs): seq<bool>
  {
    [v.number.isPotentiallyValid, v.number.isValid,
     v.name.isPotentiallyValid, v.name.isValid,
     v.code.isPotentiallyValid, v.code.isValid,
     v.expiry.isPotentiallyValid, v.expiry.isValid]
  }

  /** `.some(value => value === false)`. */
  function SomeFalse(bs: seq<bool>): (r: bool)
    ensures r <==> exists i :: 0 <= i < |bs| && !bs[i]
  {
    if bs == [] then false
    else if !bs[0] then true
    else
      assert forall i :: 1 <= i < |bs| ==> bs[i] == bs[1..][i - 1];
      SomeFalse(bs[1..])
  }

  /** `validateCardInputs()`: true when some verdict of some field is false. */
  function CardInputsInvalid(v: ValidInputs): bool
  {
    SomeFalse(Flags(v))
  }

  /** The aggregate is true exactly when one of the four fields is not potentially valid or not valid. */
  lemma CardInputsInvalidIff(v: ValidInputs)
    ensures CardInputsInvalid(v) <==> exists f :: !Get(v, f).isPotentiallyValid || !Get(v, f).isValid
  {
    var bs := Flags(v);
    if CardInputsInvalid(v) {
      var i :| 0 <= i < |bs| && !bs[i];
      var f := [Number, Number, Name, Name, Code, Code, Expiry, Expiry][i];
      assert !Get(v, f).isPotentiallyValid || !Get(v, f).isValid;
    } else {
      assert forall i :: 0 <= i < 8 ==> bs[i];
      forall f ensures Get(v, f).isPotentiallyValid && Get(v, f).isValid {
        match f
        case Number => assert bs[0] && bs[1];
        case Name => assert bs[2] && bs[3];
        case Code => assert bs[4] && bs[5];
        case Expiry => assert bs[6] && bs[7];
      }
    }
  }

  /** Before any input the form reports nothing invalid. */
  lemma InitiallyValid()
    ensures !CardInputsInvalid(InitialValidInputs)
  {
    CardInputsInvalidIff(InitialValidInputs);
  }

  const ErrorBorder := "#df4545"
  const PlainBorder := "#ced4da"

  /** `handleCardInputError(name).borderColor`. */
  function BorderColor(focusedElement: string, f: Field, v: ValidInputs): (c: string)
    ensures c == ErrorBorder <==>
      (focusedElement == FieldName(f) && !Get(v, f).isPotentiallyValid)
      || (focusedElement != FieldName(f) && !Get(v, f).isValid)
    ensures c == ErrorBorder || c == PlainBorder
  {
    if (focusedElement == FieldName(f) && !Get(v, f).isPotentiallyValid)
       || (focusedElement != FieldName(f) && !Get(v, f).isValid)
    then ErrorBorder
    else if Get(v, f).isValid then PlainBorder else PlainBorder
  }

  /** A red border on any field means the order handler will see invalid card inputs. */
  lemma ErrorBorderBlocksCard(focusedElement: string, f: Field, v: ValidInputs)
    requires BorderColor(focusedElement, f, v) == ErrorBorder
    ensures CardInputsInvalid(v)
  {
    CardInputsInvalidIff(v);
  }

  /** The converse fails: the field being typed in is grey while merely potentially valid,
   *  yet the card inputs already count as invalid. */
  lemma GreyBorderWhileTypingInvalidInput()
    ensures var v := InitialValidInputs.(number := Validity(true, false));
      BorderColor("number", Number, v) == PlainBorder && CardInputsInvalid(v)
  {
    var v := InitialValidInputs.(number := Validity(true, false));
    CardInputsInvalidIff(v);
  }
}
