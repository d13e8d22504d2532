/**
 * The transfer review card: it shows the amount, the service tax and the
 * total, explains the fee rule, and on confirmation sends the transfer for
 * the signed-in account while the card is active.
 */
module ReviewCard {
  import opened Common
  import opened Store
  import opened Auth

  /** The card's own state. */
  datatype CardState = CardState(isLoading: bool, error: string)

  /** The state of a freshly mounted card. */
  const Idle := CardState(false, "")

  /** How the awaited `sendPix` call ends: it resolves, or it throws an error with a message ("" for none). */
  datatype SendOutcome = Delivered | Threw(message: string)

  /** A call `sendPix(pixKey, amount, account)`. */
  datatype PixCall = PixCall(pixKey: string, amount: int, account: AccountNumber)

  /** The effect of a confirmation: the card's new state, the call made, and whether `onSuccess` ran. */
  datatype Confirmation = Confirmation(card: CardState, call: Option<PixCall>, succeeded: bool)

  const SendFailedText := "Falha ao enviar PIX"
  const FixedFeeText := "Taxa fixa de R$ 0,50 para transferências até R$ 25,00"
  const PercentFeeText := "Taxa de 2.8% sobre o valor da transferência"

  /** The fee rule text switches at 25.00, in cents. */
  const FixedFeeLimit := 2500

  /** The tax and total the card displays. */
  datatype Charges = Charges(tax: int, total: int)

  /** The tax and total the card shows for `amount`, the fee helper being abstract. */
  function ChargesFor(calculateTax: int -> int, amount: int): Charges {
    var tax := calculateTax(amount);
    Charges(tax, amount + tax)
  }

  /** The fee explanation: the fixed-fee text up to and including 25.00, the percentage text above it. */
  function FeeRuleText(amount: int): (text: string)
    ensures text == FixedFeeText <==> amount <= FixedFeeLimit
    ensures text == PercentFeeText <==> amount > FixedFeeLimit
  {
    if amount <= FixedFeeLimit then FixedFeeText else PercentFeeText
  }

  /** The confirm button can be pressed: not loading and active. */
  predicate ConfirmEnabled(card: CardState, isActive: bool) {
    !card.isLoading && isActive
  }

  /** The account a confirmation sends from: `user?.account` when it is a non-empty string. */
  predicate HasAccount(user: Option<User>) {
    user.Some? && user.value.account != ""
  }

  /**
   * `handleConfirm`. Without an account or while inactive it does nothing.
   * Otherwise it clears the error, sends the plain amount (not the total),
   * runs `onSuccess` only if the send resolved, shows the thrown message (or
   * the default text) if it did not, and always ends with loading off.
   */
  function Confirm(card: CardState, user: Option<User>, isActive: bool, pixKey: string, amount: int,
                   outcome: SendOutcome): (c: Confirmation)
    ensures c.call.Some? <==> HasAccount(user) && isActive
    ensures c.call.None? ==> c.card == card && !c.succeeded
    ensures c.call.Some? ==> c.call.value == PixCall(pixKey, amount, user.value.account) && !c.card.isLoading
    ensures c.succeeded <==> c.call.Some? && outcome.Delivered?
    ensures c.call.Some? ==> (c.card.error == "" <==> outcome.Delivered?)
    ensures c.call.Some? && outcome.Threw? && outcome.message != "" ==> c.card.error == outcome.message
    ensures c.call.Some? && outcome == Threw("") ==> c.card.error == SendFailedText
  {
    if !HasAccount(user) || !isActive then
      Confirmation(card, None, false)
    else
      var call := PixCall(pixKey, amount, user.value.account);
      match outcome
      case Delivered => Confirmation(CardState(false, ""), Some(call), true)
      case Threw(message) =>
        Confirmation(CardState(false, if message != "" then message else SendFailedText), Some(call), false)
  }

  /** The card component, its state held in fields. */
  class ReviewCard {
    var isLoading: bool
    var error: string

    function State(): CardState
      reads this
    {
      CardState(isLoading, error)
    }

    constructor ()
      ensures State() == Idle
    {
      isLoading, error := false, "";
    }

    /** The card is unmounted: a later mount starts from the initial state. */
    method Unmount()
      modifies this
      ensures State() == Idle
    {
      isLoading, error := false, "";
    }

    /**
     * `handleConfirm`, with `outcome` the way the awaited `sendPix` ends.
     * Returns the call made and whether `onSuccess` is to run.
     */
    method HandleConfirm(user: Option<User>, isActive: bool, pixKey: string, amount: int, outcome: SendOutcome)
      returns (call: Option<PixCall>, succeeded: bool)
      modifies this
      ensures Confirmation(State(), call, succeeded) == Confirm(old(State()), user, isActive, pixKey, amount, outcome)
    {
      if !HasAccount(user) || !isActive {
        return None, false;
      }
      isLoading := true;
      error := "";
      call := Some(PixCall(pixKey, amount, user.value.account));
      match outcome {
        case Delivered =>
          succeeded := true;
        case Threw(message) =>
          error := if message != "" then message else SendFailedText;
          succeeded := false;
      }
      isLoading := false;
    }
  }
}
