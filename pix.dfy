/**
 * The transfer page: an entry form, then a PIN check, then the review card
 * whose confirmation sends the transfer. The page owns the transfer fields
 * and the step; the review card is mounted while `showReview` holds.
 */
module Pix {
  import opened Common
  import opened Auth
  import RC = ReviewCard

  datatype Step = Form | Pin | Review

  /** The page's state, with the state of the mounted review card. */
  datatype Page = Page(
    pixKey: string,
    amount: string,
    formattedAmount: string,
    description: string,
    error: string,
    step: Step,
    showReview: bool,
    card: RC.CardState)

  const Start := Page("", "", "", "", "", Form, false, RC.Idle)

  /**
   * The helpers the page relies on and that are not part of this model:
   * reading the typed amount (in cents), the amount validator (`None` when
   * valid) and the fee calculation.
   */
  datatype Helpers = Helpers(
    parseAmount: string -> int,
    validateAmount: int -> Option<string>,
    calculateTax: int -> int)

  /**
   * What can happen on the page: typing into the entry form, choosing a
   * favorite key, submitting the form, the PIN component's callbacks, the
   * cancel buttons and the review card's confirm button. `user` is the
   * session's current user at that moment; `outcome` says how the transfer
   * call would end.
   */
  datatype Event =
    | Edit(pixKey: string, amount: string, formattedAmount: string, description: string)
    | SelectFavorite(key: string)
    | Submit(user: Option<User>)
    | PinSuccess
    | PinError(message: string)
    | Cancel
    | Confirm(user: Option<User>, outcome: RC.SendOutcome)

  /** An event's effect: the new page and the transfer call it made, if any. */
  datatype Transition = Transition(page: Page, call: Option<RC.PixCall>)

  /** A submit is accepted: someone is signed in and the amount validates. */
  predicate Accepts(h: Helpers, s: Page, user: Option<User>) {
    user.Some? && h.validateAmount(h.parseAmount(s.amount)).None?
  }

  /** `handleInitialSubmit` as a function of the page: clear the error; stop without a user; show a validation error; else go to the PIN step. */
  function OnInitialSubmit(h: Helpers, s: Page, user: Option<User>): Page {
    var cleared := s.(error := "");
    if user.None? then cleared
    else
      var amountError := h.validateAmount(h.parseAmount(s.amount));
      if amountError.Some? then cleared.(error := amountError.value)
      else cleared.(showReview := true, step := Pin)
  }

  function OnPinSuccess(s: Page): Page {
    s.(step := Review)
  }

  function OnPinError(s: Page, message: string): Page {
    s.(error := message, step := Form, showReview := false)
  }

  function OnCancel(s: Page): Page {
    s.(step := Form, showReview := false, error := "")
  }

  /** `handleTransactionSuccess` as a function of the page: empty the transfer fields and return to the form. */
  function OnTransactionSuccess(s: Page): Page {
    s.(pixKey := "", amount := "", formattedAmount := "", description := "", step := Form, showReview := false)
  }

  function OnSelectFavorite(s: Page, key: string): Page {
    s.(pixKey := key)
  }

  /** The review card is unmounted whenever `showReview` is false, so its state restarts. */
  function SettleCard(s: Page): Page {
    if s.showReview then s else s.(card := RC.Idle)
  }

  /** The effect of one event. */
  function Next(h: Helpers, s: Page, e: Event): Transition {
    match e
    case Edit(k, a, f, d) => Transition(s.(pixKey := k, amount := a, formattedAmount := f, description := d), None)
    case SelectFavorite(k) => Transition(OnSelectFavorite(s, k), None)
    case Submit(user) => Transition(SettleCard(OnInitialSubmit(h, s, user)), None)
    case PinSuccess => Transition(OnPinSuccess(s), None)
    case PinError(m) => Transition(SettleCard(OnPinError(s, m)), None)
    case Cancel => Transition(SettleCard(OnCancel(s)), None)
    case Confirm(user, outcome) =>
      var c := RC.Confirm(s.card, user, s.step == Review, s.pixKey, h.parseAmount(s.amount), outcome);
      var after := s.(card := c.card);
      Transition(SettleCard(if c.succeeded then OnTransactionSuccess(after) else after), c.call)
  }

  /**
   * Which events the rendered page offers: the entry form is disabled unless
   * the step is `form`; favorites are listed only while the review card is
   * hidden; the PIN component shows only in the `pin` step; the card (with
   * its cancel button) shows while `showReview` holds, and its confirm
   * button needs the card active (step `review`) and not loading.
   */
  predicate Enabled(s: Page, e: Event) {
    match e
    case Edit(_, _, _, _) => s.step == Form
    case SelectFavorite(_) => !s.showReview
    case Submit(_) => s.step == Form
    case PinSuccess | PinError(_) => s.step == Pin
    case Cancel => s.step == Pin || s.showReview
    case Confirm(_, _) => s.showReview && RC.ConfirmEnabled(s.card, s.step == Review)
  }

  /**
   * The page invariant: the card is shown exactly outside the form step,
   * no page error is shown while a transfer is in flight, an unmounted card
   * is in its initial state, and the card is never left loading.
   */
  ghost predicate Inv(s: Page) {
    (s.showReview <==> s.step != Form) &&
    (s.step != Form ==> s.error == "") &&
    (!s.showReview ==> s.card == RC.Idle) &&
    !s.card.isLoading
  }

  /** The tax and total the mounted review card shows for the page's amount. */
  function ShownCharges(h: Helpers, s: Page): RC.Charges {
    RC.ChargesFor(h.calculateTax, h.parseAmount(s.amount))
  }

  /** The transfer fields a flow carries from submit to confirmation. */
  predicate SameTransfer(a: Page, b: Page) {
    a.pixKey == b.pixKey && a.amount == b.amount && a.description == b.description
  }

  /**
   * One step of the page. Every offered event keeps the invariant; the PIN
   * step is entered only by an accepted submit from the form; the review
   * step only by a PIN success from the PIN step or a confirmation that did
   * not succeed; the transfer fields are frozen while a flow is in flight;
   * and only a confirmation in the review step calls `sendPix`.
   */
  lemma StepGraph(h: Helpers, s: Page, e: Event)
    requires Inv(s) && Enabled(s, e)
    ensures Inv(Next(h, s, e).page)
    ensures Next(h, s, e).page.step == Pin ==> s.step == Form && e.Submit? && Accepts(h, s, e.user)
    ensures Next(h, s, e).page.step == Review ==>
              (s.step == Pin && e == PinSuccess) || (s.step == Review && e.Confirm?)
    ensures s.step != Form ==> SameTransfer(Next(h, s, e).page, s) || Next(h, s, e).page.step == Form
    ensures Next(h, s, e).call.Some? ==> e.Confirm? && s.step == Review
  {
  }

  /** The state after a sequence of events. */
  function Run(h: Helpers, s: Page, es: seq<Event>): Page
    decreases |es|
  {
    if es == [] then s else Next(h, Run(h, s, es[..|es| - 1]), es[|es| - 1]).page
  }

  /** Every event of the sequence is offered in the state it meets. */
  predicate ValidTrace(h: Helpers, s: Page, es: seq<Event>)
    decreases |es|
  {
    es == [] || (ValidTrace(h, s, es[..|es| - 1]) && Enabled(Run(h, s, es[..|es| - 1]), es[|es| - 1]))
  }

  /** The invariant holds after every run of offered events from the start. */
  lemma {:induction false} RunInv(h: Helpers, es: seq<Event>)
    requires ValidTrace(h, Start, es)
    ensures Inv(Run(h, Start, es))
    decreases |es|
  {
    if es != [] {
      var n := |es| - 1;
      RunInv(h, es[..n]);
      StepGraph(h, Run(h, Start, es[..n]), es[n]);
    }
  }

  /**
   * The flow that reached the review step: the submit at position `j` was
   * accepted in the form step, the PIN success came right after it, and from
   * then on the page stayed in the review step with the submitted fields.
   */
  ghost predicate ReviewedFlow(h: Helpers, es: seq<Event>, j: int) {
    0 <= j && j + 2 <= |es| &&
    es[j].Submit? && es[j + 1] == PinSuccess &&
    var submitted := Run(h, Start, es[..j]);
    submitted.step == Form && Accepts(h, submitted, es[j].user) &&
    forall k :: j + 2 <= k <= |es| ==>
      Run(h, Start, es[..k]).step == Review && SameTransfer(Run(h, Start, es[..k]), submitted)
  }

  /** A run ending in the PIN step ends with an accepted submit made in the form step. */
  lemma PinAfterSubmit(h: Helpers, es: seq<Event>)
    requires ValidTrace(h, Start, es) && Run(h, Start, es).step == Pin
    ensures |es| > 0 && es[|es| - 1].Submit?
    ensures Run(h, Start, es[..|es| - 1]).step == Form
    ensures Accepts(h, Run(h, Start, es[..|es| - 1]), es[|es| - 1].user)
    ensures SameTransfer(Run(h, Start, es), Run(h, Start, es[..|es| - 1]))
  {
    var n := |es| - 1;
    RunInv(h, es[..n]);
    StepGraph(h, Run(h, Start, es[..n]), es[n]);
  }

  /** A run whose last event moves from the PIN step to review ends with a reviewed flow at its submit. */
  lemma FlowFromPin(h: Helpers, es: seq<Event>)
    requires ValidTrace(h, Start, es) && |es| > 0
    requires Run(h, Start, es[..|es| - 1]).step == Pin && Run(h, Start, es).step == Review
    ensures ReviewedFlow(h, es, |es| - 2)
  {
    var n := |es| - 1;
    var prefix := es[..n];
    RunInv(h, prefix);
    StepGraph(h, Run(h, Start, prefix), es[n]);
    PinAfterSubmit(h, prefix);
    var j := n - 1;
    assert prefix[..j] == es[..j];
    assert es[..j + 1] == prefix;
    assert es[..n + 1] == es;
    forall k | j + 2 <= k <= |es|
      ensures Run(h, Start, es[..k]).step == Review && SameTransfer(Run(h, Start, es[..k]), Run(h, Start, es[..j]))
    {
      assert k == |es|;
    }
  }

  /** A reviewed flow of a prefix extends by one event that stays in review with the same fields. */
  lemma FlowExtends(h: Helpers, es: seq<Event>, j: int)
    requires |es| > 0 && ReviewedFlow(h, es[..|es| - 1], j)
    requires Run(h, Start, es).step == Review && SameTransfer(Run(h, Start, es), Run(h, Start, es[..|es| - 1]))
    ensures ReviewedFlow(h, es, j)
  {
    var n := |es| - 1;
    var prefix := es[..n];
    assert prefix[..j] == es[..j];
    forall k | j + 2 <= k <= |es|
      ensures Run(h, Start, es[..k]).step == Review && SameTransfer(Run(h, Start, es[..k]), Run(h, Start, es[..j]))
    {
      if k <= n {
        assert prefix[..k] == es[..k];
      } else {
        assert prefix[..n] == prefix;
        assert es[..k] == es;
      }
    }
  }

  /** Every run from the start that ends in the review step went through one reviewed flow. */
  lemma {:induction false} ReviewOnlyAfterPin(h: Helpers, es: seq<Event>)
    requires ValidTrace(h, Start, es) && Run(h, Start, es).step == Review
    ensures exists j :: ReviewedFlow(h, es, j)
    decreases |es|
  {
    var n := |es| - 1;
    var prefix := es[..n];
    var s := Run(h, Start, prefix);
    RunInv(h, prefix);
    StepGraph(h, s, es[n]);
    assert es[..n + 1] == es;
    if s.step == Pin {
      FlowFromPin(h, es);
    } else {
      ReviewOnlyAfterPin(h, prefix);
      var j :| ReviewedFlow(h, prefix, j);
      FlowExtends(h, es, j);
    }
  }

  /**
   * `sendPix` is reached only from the review step, so only after an
   * accepted submit immediately followed by a PIN success; the call carries
   * the key and the validated amount that were submitted. The card shows
   * the same charges at the confirmation as when the flow was submitted,
   * and the total it shows exceeds the amount sent by exactly the tax it
   * shows.
   */
  lemma SendOnlyAfterPin(h: Helpers, es: seq<Event>, e: Event)
    requires ValidTrace(h, Start, es) && Enabled(Run(h, Start, es), e)
    requires Next(h, Run(h, Start, es), e).call.Some?
    ensures exists j :: ReviewedFlow(h, es, j) &&
              var submitted := Run(h, Start, es[..j]);
              var call := Next(h, Run(h, Start, es), e).call.value;
              var shown := ShownCharges(h, Run(h, Start, es));
              call.pixKey == submitted.pixKey && call.amount == h.parseAmount(submitted.amount) &&
              h.validateAmount(call.amount).None? &&
              shown == ShownCharges(h, submitted) &&
              shown.total - shown.tax == call.amount && shown.tax == h.calculateTax(call.amount)
  {
    var s := Run(h, Start, es);
    RunInv(h, es);
    StepGraph(h, s, e);
    ReviewOnlyAfterPin(h, es);
    var j :| ReviewedFlow(h, es, j);
    assert es[..|es|] == es;
  }

  /**
   * The transfer fields are emptied only by a confirmation whose transfer
   * succeeded; otherwise only typing into the form or choosing a favorite
   * changes them, and cancelling keeps them.
   */
  lemma FieldsResetOnlyOnSuccess(h: Helpers, s: Page, e: Event)
    requires Inv(s) && Enabled(s, e)
    ensures !e.Edit? && !e.SelectFavorite? && !SameTransfer(Next(h, s, e).page, s) ==>
              e.Confirm? && Next(h, s, e).call.Some? && e.outcome.Delivered?
    ensures e.Confirm? && Next(h, s, e).call.Some? && e.outcome.Delivered? ==>
              var r := Next(h, s, e).page;
              r.pixKey == r.amount == r.formattedAmount == r.description == "" && r.step == Form && !r.showReview
    ensures e == Cancel ==>
              var r := Next(h, s, e).page;
              SameTransfer(r, s) && r.step == Form && !r.showReview && r.error == ""
  {
  }

  /** The page component, its state held in fields as the handlers set them. */
  class PixPage {
    var pixKey: string
    var amount: string
    var formattedAmount: string
    var description: string
    var error: string
    var step: Step
    var showReview: bool
    const card: RC.ReviewCard

    function State(): Page
      reads this, card
    {
      Page(pixKey, amount, formattedAmount, description, error, step, showReview, card.State())
    }

    constructor ()
      ensures State() == Start && fresh(card)
    {
      pixKey, amount, formattedAmount, description, error := "", "", "", "", "";
      step, showReview := Form, false;
      card := new RC.ReviewCard();
    }

    /** Unmount the review card when it is hidden. */
    method Settle()
      modifies card
      ensures State() == SettleCard(old(State()))
    {
      if !showReview {
        card.Unmount();
      }
    }

    /** The entry form's setters. */
    method Edit(newKey: string, newAmount: string, newFormatted: string, newDescription: string)
      modifies this
      ensures State() == old(State()).(pixKey := newKey, amount := newAmount, formattedAmount := newFormatted,
                                        description := newDescription)
    {
      pixKey, amount, formattedAmount, description := newKey, newAmount, newFormatted, newDescription;
    }

    /** `handleSelectFavorite`. */
    method HandleSelectFavorite(key: string)
      modifies this
      ensures State() == OnSelectFavorite(old(State()), key)
      ensures pixKey == key && amount == old(amount) && step == old(step)
    {
      pixKey := key;
    }

    /** `handleInitialSubmit`. */
    method HandleInitialSubmit(h: Helpers, user: Option<User>)
      modifies this, card
      ensures State() == Next(h, old(State()), Submit(user)).page
      ensures user.None? ==> step == old(step) && showReview == old(showReview) && error == ""
      ensures Accepts(h, old(State()), user) ==> step == Pin && showReview
      ensures !Accepts(h, old(State()), user) ==> step == old(step) && showReview == old(showReview)
      ensures step != Review || old(step) == Review
    {
      error := "";
      if user.None? {
        Settle();
        return;
      }
      var amountError := h.validateAmount(h.parseAmount(amount));
      if amountError.Some? {
        error := amountError.value;
        Settle();
        return;
      }
      showReview := true;
      step := Pin;
    }

    /** `handlePinSuccess`: the only handler that sets the review step. */
    method HandlePinSuccess()
      modifies this
      ensures State() == OnPinSuccess(old(State()))
      ensures step == Review
    {
      step := Review;
    }

    /** `handlePinError`. */
    method HandlePinError(message: string)
      modifies this, card
      ensures State() == SettleCard(OnPinError(old(State()), message))
      ensures step == Form && !showReview && error == message
    {
      error := message;
      step := Form;
      showReview := false;
      Settle();
    }

    /** `handleCancel`: back to the form; the transfer fields are kept. */
    method HandleCancel()
      modifies this, card
      ensures State() == SettleCard(OnCancel(old(State())))
      ensures step == Form && !showReview && error == ""
      ensures pixKey == old(pixKey) && amount == old(amount) && description == old(description)
    {
      step := Form;
      showReview := false;
      error := "";
      Settle();
    }

    /** `handleTransactionSuccess`: empty the transfer fields and return to the form. */
    method HandleTransactionSuccess()
      modifies this, card
      ensures State() == SettleCard(OnTransactionSuccess(old(State())))
      ensures pixKey == amount == formattedAmount == description == "" && step == Form && !showReview
    {
      pixKey, amount, formattedAmount, description := "", "", "", "";
      step := Form;
      showReview := false;
      Settle();
    }

    /** The review card's confirm button; its `onSuccess` is `handleTransactionSuccess`. */
    method Confirm(h: Helpers, user: Option<User>, outcome: RC.SendOutcome) returns (call: Option<RC.PixCall>)
      modifies this, card
      ensures State() == Next(h, old(State()), Event.Confirm(user, outcome)).page
      ensures call == Next(h, old(State()), Event.Confirm(user, outcome)).call
      ensures call.Some? ==> old(step) == Review && call.value.amount == h.parseAmount(old(amount))
    {
      var succeeded;
      call, succeeded := card.HandleConfirm(user, step == Review, pixKey, h.parseAmount(amount), outcome);
      if succeeded {
        HandleTransactionSuccess();
      } else {
        Settle();
      }
    }
  }

}
