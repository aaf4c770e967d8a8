/** The checkout page: a four-step stepper (cart, address, payment, confirmation)
    whose forward moves are gated by the address and payment checks, the
    quantity buttons of the cart step, and the totals shown under every step. */
module Checkout {
  import opened Text
  import opened Validators
  import opened Cart

  const AddressMissingMessage: string := "Preencha todos os campos obrigatórios"
  const CardMissingMessage: string := "Preencha todos os dados do cartão"
  const CardInvalidMessage: string := "Número de cartão inválido"

  /** Cart, address, payment, confirmation. */
  const StepCount: int := 4
  const LastStep: int := StepCount - 1

  /** The fee the page prints, whatever the cart's own rule says. */
  const DisplayedFee: int := 500

  datatype Address = Address(
    street: string,
    number: string,
    complement: string,
    neighborhood: string,
    city: string,
    reference: string)

  datatype CardData = CardData(number: string, name: string, expiry: string, cvv: string)

  datatype AddressField = Street | Number | Complement | Neighborhood | City | Reference
  datatype CardField = CardNumber | CardName | Expiry | Cvv

  const EmptyAddress: Address := Address("", "", "", "", "", "")
  const EmptyCard: CardData := CardData("", "", "", "")

  /** `value?.trim()` taken as a condition: some non-whitespace character. */
  predicate Filled(s: string) {
    Trim(s) != []
  }

  // ------------------------------------------------------------ validators

  /** `validateAddress`'s check: street, number, neighborhood and city filled. */
  predicate AddressComplete(a: Address)
    ensures AddressComplete(a) ==> a.street != [] && a.number != [] && a.neighborhood != [] && a.city != []
  {
    Filled(a.street) && Filled(a.number) && Filled(a.neighborhood) && Filled(a.city)
  }

  predicate CardFieldsFilled(c: CardData) {
    Filled(c.number) && Filled(c.name) && Filled(c.expiry) && Filled(c.cvv)
  }

  /** The error `validatePayment` reports, or `None` when it lets the customer on. */
  function PaymentError(kind: string, c: CardData): (err: Option<string>)
    ensures kind != "credit" ==> err == None
    ensures kind == "credit" && !CardFieldsFilled(c) ==> err == Some(CardMissingMessage)
    ensures kind == "credit" && CardFieldsFilled(c)
            ==> (err == None <==> IsValidCardNumber(c.number))
    ensures err.Some? ==> err == Some(CardMissingMessage) || err == Some(CardInvalidMessage)
  {
    if kind == "credit" then
      if !CardFieldsFilled(c) then Some(CardMissingMessage)
      else if !IsValidCardNumber(c.number) then Some(CardInvalidMessage)
      else None
    else None
  }

  /** `validatePayment`'s verdict. */
  predicate PaymentValid(kind: string, c: CardData) {
    PaymentError(kind, c).None?
  }

  /** Only a credit card is checked: all four fields filled and the number passes
      the card check. */
  lemma PaymentValidMeaning(kind: string, c: CardData)
    ensures PaymentValid(kind, c)
        <==> kind != "credit" || (CardFieldsFilled(c) && IsValidCardNumber(c.number))
  {
  }

  /** The expiry is only required to be filled; its date is never checked. */
  lemma PaymentIgnoresExpiryDate(kind: string, c: CardData, e: string)
    requires Filled(c.expiry) && Filled(e)
    ensures PaymentValid(kind, c.(expiry := e)) == PaymentValid(kind, c)
  {
    PaymentValidMeaning(kind, c);
    PaymentValidMeaning(kind, c.(expiry := e));
  }

  /** Complement and reference play no part in the address check. */
  lemma AddressIgnoresOptionalFields(a: Address, complement: string, reference: string)
    ensures AddressComplete(a.(complement := complement, reference := reference))
        == AddressComplete(a)
  {
  }

  /** A required address field holding only spaces fails the check. */
  lemma BlankStreetRejected(a: Address)
    requires forall i :: 0 <= i < |a.street| ==> IsWhitespace(a.street[i])
    ensures !AddressComplete(a)
  {
    TrimEmptyIffBlank(a.street);
  }

  // ------------------------------------------------------------- stepper

  /** Where `handleNext` leaves the stepper: held at the address step or the payment
      step when that step's check fails, one step further otherwise. */
  function NextStep(step: int, addressOk: bool, paymentOk: bool): (next: int)
    ensures next == step || next == step + 1
    ensures next == step <==> (step == 1 && !addressOk) || (step == 2 && !paymentOk)
  {
    if step == 1 && !addressOk then step
    else if step == 2 && !paymentOk then step
    else step + 1
  }

  /** Below the last step, the forward button keeps the step within 0..3, and it
      passes the address and payment steps only with the matching check passed. */
  lemma ForwardStaysInRange(step: int, addressOk: bool, paymentOk: bool)
    requires 0 <= step < LastStep
    ensures 0 <= NextStep(step, addressOk, paymentOk) <= LastStep
    ensures NextStep(step, addressOk, paymentOk) == 2 && step == 1 ==> addressOk
    ensures NextStep(step, addressOk, paymentOk) == 3 ==> paymentOk
  {
  }

  // --------------------------------------------------------------- totals

  /** The grand total the page prints under every step, and puts in the order
      it hands over: the subtotal plus a fixed fee of 500 cents. */
  function DisplayedGrandTotal(total: int): (shown: int)
    ensures shown - total == DisplayedFee
  {
    total + 500
  }

  /** Above the free-delivery threshold the page shows and submits a fee the
      cart does not charge: 500 cents more than the cart's own final total. */
  lemma DisplayedTotalIgnoresFreeDelivery(items: seq<CartItem>)
    requires Total(items) >= MinOrderValue
    ensures DisplayedGrandTotal(Total(items)) == FinalTotal(items) + DeliveryFeeAmount
  {
  }

  /** One product at exactly the threshold: the cart charges 2000 cents, the page
      shows and submits 2500. */
  lemma DisplayedTotalAtThreshold(p: Product)
    requires p.price == MinOrderValue
    ensures FinalTotal([CartItem(p, 1)]) == 2000
    ensures DisplayedGrandTotal(Total([CartItem(p, 1)])) == 2500
  {
    var items := [CartItem(p, 1)];
    assert items[1..] == [];
    assert Total(items) == LineTotal(items[0]) + Total(items[1..]);
    assert Total(items) == 2000;
  }

  /** The grand total as the cart defines it: the subtotal plus the delivery fee
      the cart actually charges. This is the cart's own `FinalTotal`, written out
      over the page's inputs as the corrected half of the printed total;
      `IntendedGrandTotalAgrees` proves the two equal. */
  function IntendedGrandTotal(items: seq<CartItem>): (shown: int)
    ensures Total(items) <= shown <= Total(items) + DeliveryFeeAmount
    ensures shown == Total(items) <==> Total(items) >= MinOrderValue
  {
    Total(items) + DeliveryFee(Total(items))
  }

  /** The intended total is the cart's final total, and agrees with the printed
      one exactly below the threshold. */
  lemma IntendedGrandTotalAgrees(items: seq<CartItem>)
    ensures IntendedGrandTotal(items) == FinalTotal(items)
    ensures IntendedGrandTotal(items) == DisplayedGrandTotal(Total(items))
        <==> Total(items) < MinOrderValue
  {
  }

  // ------------------------------------------------------ quantity buttons

  /** The minus button's own `quantity > 1` guard adds nothing to the cart's:
      on a line of a well-formed cart, guarded or not, the result is the same. */
  lemma MinusGuardRedundant(items: seq<CartItem>, k: nat)
    requires WellFormed(items) && k < |items|
    ensures (if items[k].quantity > 1 then Decrement(items, items[k].product.id) else items)
         == Decrement(items, items[k].product.id)
  {
    DecrementEffect(items, items[k].product.id, k);
  }

  // ------------------------------------------------------------------ page

  class CheckoutPage {
    const cart: CartStore
    var activeStep: int
    var address: Address
    var paymentMethod: string
    var cardData: CardData
    var addressError: Option<string>
    var paymentError: Option<string>

    /** The stepper position stays on one of the four steps. */
    predicate Valid()
      reads this
    {
      0 <= activeStep <= LastStep
    }

    /** The total shown under every step and handed over with the order, as
        corrected: the amount the cart itself charges. */
    function ShownTotal(): (t: int)
      reads cart
      ensures t == cart.Charged()
      ensures cart.Subtotal() <= t <= cart.Subtotal() + DeliveryFeeAmount
    {
      IntendedGrandTotal(cart.items)
    }

    /** The total the page prints under every step and puts in the order it
        builds, as written: the subtotal plus a fixed fee, charged or not. */
    function DisplayedTotal(): (t: int)
      reads cart
      ensures t == cart.Subtotal() + DisplayedFee
      ensures cart.Subtotal() >= MinOrderValue ==> t == cart.Charged() + DeliveryFeeAmount
    {
      DisplayedGrandTotal(Total(cart.items))
    }

    constructor(cart: CartStore)
      ensures this.cart == cart && Valid()
      ensures activeStep == 0 && address == EmptyAddress && paymentMethod == "credit"
      ensures cardData == EmptyCard && addressError == None && paymentError == None
    {
      this.cart := cart;
      activeStep := 0;
      address := EmptyAddress;
      paymentMethod := "credit";
      cardData := EmptyCard;
      addressError := None;
      paymentError := None;
    }

    /** `handleAddressChange`: one field replaced, the others kept. */
    method HandleAddressChange(field: AddressField, value: string)
      modifies this
      ensures address == match field
        case Street => old(address).(street := value)
        case Number => old(address).(number := value)
        case Complement => old(address).(complement := value)
        case Neighborhood => old(address).(neighborhood := value)
        case City => old(address).(city := value)
        case Reference => old(address).(reference := value)
      ensures activeStep == old(activeStep) && paymentMethod == old(paymentMethod)
      ensures cardData == old(cardData)
      ensures addressError == old(addressError) && paymentError == old(paymentError)
    {
      match field
      case Street => address := address.(street := value);
      case Number => address := address.(number := value);
      case Complement => address := address.(complement := value);
      case Neighborhood => address := address.(neighborhood := value);
      case City => address := address.(city := value);
      case Reference => address := address.(reference := value);
    }

    /** `handleCardDataChange`: one card field replaced, the others kept. */
    method HandleCardDataChange(field: CardField, value: string)
      modifies this
      ensures cardData == match field
        case CardNumber => old(cardData).(number := value)
        case CardName => old(cardData).(name := value)
        case Expiry => old(cardData).(expiry := value)
        case Cvv => old(cardData).(cvv := value)
      ensures activeStep == old(activeStep) && paymentMethod == old(paymentMethod)
      ensures address == old(address)
      ensures addressError == old(addressError) && paymentError == old(paymentError)
    {
      match field
      case CardNumber => cardData := cardData.(number := value);
      case CardName => cardData := cardData.(name := value);
      case Expiry => cardData := cardData.(expiry := value);
      case Cvv => cardData := cardData.(cvv := value);
    }

    /** The payment radio group. */
    method SetPaymentMethod(kind: string)
      modifies this
      ensures paymentMethod == kind
      ensures activeStep == old(activeStep) && address == old(address) && cardData == old(cardData)
      ensures addressError == old(addressError) && paymentError == old(paymentError)
    {
      paymentMethod := kind;
    }

    /** `validateAddress`: on failure it records the message; it never clears an
        earlier one. */
    method ValidateAddress() returns (ok: bool)
      modifies this
      ensures ok == AddressComplete(address)
      ensures addressError == if ok then old(addressError) else Some(AddressMissingMessage)
      ensures activeStep == old(activeStep) && address == old(address)
      ensures paymentMethod == old(paymentMethod) && cardData == old(cardData)
      ensures paymentError == old(paymentError)
    {
      ok := AddressComplete(address);
      if !ok {
        addressError := Some(AddressMissingMessage);
      }
    }

    /** `validatePayment`: on failure it records which check failed; it never
        clears an earlier message. */
    method ValidatePayment() returns (ok: bool)
      modifies this
      ensures ok == PaymentValid(paymentMethod, cardData)
      ensures paymentError == if ok then old(paymentError) else PaymentError(paymentMethod, cardData)
      ensures activeStep == old(activeStep) && address == old(address)
      ensures paymentMethod == old(paymentMethod) && cardData == old(cardData)
      ensures addressError == old(addressError)
    {
      if paymentMethod == "credit" {
        if !CardFieldsFilled(cardData) {
          paymentError := Some(CardMissingMessage);
          return false;
        }
        var numberOk := ValidateCreditCardNumber(cardData.number);
        if !numberOk {
          paymentError := Some(CardInvalidMessage);
          return false;
        }
      }
      return true;
    }

    /** `handleNext`. */
    method HandleNext()
      modifies this
      ensures activeStep == NextStep(old(activeStep), AddressComplete(address),
                                     PaymentValid(paymentMethod, cardData))
      ensures address == old(address) && paymentMethod == old(paymentMethod)
      ensures cardData == old(cardData)
      ensures addressError == if old(activeStep) == 1 && !AddressComplete(address)
                              then Some(AddressMissingMessage) else old(addressError)
      ensures paymentError == if old(activeStep) == 2 && !PaymentValid(paymentMethod, cardData)
                              then PaymentError(paymentMethod, cardData) else old(paymentError)
    {
      if activeStep == 1 {
        var ok := ValidateAddress();
        if !ok {
          return;
        }
      }
      if activeStep == 2 {
        var ok := ValidatePayment();
        if !ok {
          return;
        }
      }
      activeStep := activeStep + 1;
    }

    /** The `disabled` flag of the forward button, evaluated while rendering; the
        evaluation runs the validators and so records their messages. */
    method ContinueDisabled() returns (disabled: bool)
      modifies this
      ensures disabled <==> ((activeStep == 1 && !AddressComplete(address))
                             || (activeStep == 2 && !PaymentValid(paymentMethod, cardData)))
      ensures activeStep == old(activeStep) && address == old(address)
      ensures paymentMethod == old(paymentMethod) && cardData == old(cardData)
      ensures addressError == if activeStep == 1 && !AddressComplete(address)
                              then Some(AddressMissingMessage) else old(addressError)
      ensures paymentError == if activeStep == 2 && !PaymentValid(paymentMethod, cardData)
                              then PaymentError(paymentMethod, cardData) else old(paymentError)
    {
      disabled := false;
      if activeStep == 1 {
        var ok := ValidateAddress();
        disabled := !ok;
      }
      if !disabled && activeStep == 2 {
        var ok := ValidatePayment();
        disabled := !ok;
      }
    }

    /** A click on the enabled forward button: `handleFinish` on the last step,
        which changes nothing here, `handleNext` before it. */
    method PressContinue()
      requires Valid()
      modifies this
      ensures Valid()
      ensures activeStep == if old(activeStep) == LastStep then old(activeStep)
                            else NextStep(old(activeStep), AddressComplete(address),
                                          PaymentValid(paymentMethod, cardData))
      ensures address == old(address) && cardData == old(cardData)
      ensures paymentMethod == old(paymentMethod)
      ensures addressError == if old(activeStep) == 1 && !AddressComplete(address)
                              then Some(AddressMissingMessage) else old(addressError)
      ensures paymentError == if old(activeStep) == 2 && !PaymentValid(paymentMethod, cardData)
                              then PaymentError(paymentMethod, cardData) else old(paymentError)
    {
      if activeStep != LastStep {
        HandleNext();
      }
    }

    /** 'Voltar': shown, and so usable, only past the first step. */
    method PressBack()
      requires Valid()
      modifies this
      ensures Valid()
      ensures activeStep == if old(activeStep) > 0 then old(activeStep) - 1 else old(activeStep)
      ensures address == old(address) && cardData == old(cardData)
      ensures paymentMethod == old(paymentMethod)
      ensures addressError == old(addressError) && paymentError == old(paymentError)
    {
      if activeStep > 0 {
        activeStep := activeStep - 1;
      }
    }

    /** The minus button of a cart line: it decrements only above quantity 1. */
    method PressMinus(item: CartItem)
      modifies cart
      ensures cart.items == if item.quantity > 1 then Decrement(old(cart.items), item.product.id)
                            else old(cart.items)
      ensures cart.stored == if item.quantity > 1 then cart.items else old(cart.stored)
    {
      if item.quantity > 1 {
        cart.DecrementQuantity(item.product.id);
      }
    }

    /** The plus button of a cart line: one more unit of that line's product. */
    method PressPlus(item: CartItem)
      modifies cart
      ensures cart.items == AddItem(old(cart.items), item.product)
      ensures cart.stored == cart.items
    {
      cart.AddToCart(item.product);
    }

    /** The delete button of a cart line. */
    method PressDelete(item: CartItem)
      modifies cart
      ensures cart.items == Remove(old(cart.items), item.product.id)
      ensures cart.stored == cart.items
    {
      cart.RemoveFromCart(item.product.id);
    }
  }
}
