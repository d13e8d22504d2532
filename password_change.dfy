/**
 * The profile page's password-change panel: a PIN check gates a form whose
 * new password must match its confirmation and pass four ordered rules
 * before the password service is called.
 */
module PasswordChange {
  import opened Common

  /** The four password rules, in the order they are checked. */
  datatype Rule = TooShort | NoUppercase | NoLowercase | NoDigit

  const MinLength := 8

  /** The message shown for the first rule a password breaks. */
  function RuleMessage(rule: Rule): string {
    match rule
    case TooShort => "Password must be at least 8 characters long"
    case NoUppercase => "Password must contain at least one uppercase letter"
    case NoLowercase => "Password must contain at least one lowercase letter"
    case NoDigit => "Password must contain at least one number"
  }

  /** A character-class test such as `/[A-Z]/.test(p)`, scanning `p` from the left. */
  predicate Matches(p: string, lo: char, hi: char)
    decreases |p|
  {
    |p| > 0 && (lo <= p[0] <= hi || Matches(p[1..], lo, hi))
  }

  /** Some character of `p` lies in the class. */
  ghost predicate HasCharIn(p: string, lo: char, hi: char) {
    exists i :: 0 <= i < |p| && lo <= p[i] <= hi
  }

  /** The scan finds a character of the class exactly when one exists. */
  lemma {:induction false} MatchesIff(p: string, lo: char, hi: char)
    ensures Matches(p, lo, hi) <==> HasCharIn(p, lo, hi)
    decreases |p|
  {
    if |p| > 0 {
      MatchesIff(p[1..], lo, hi);
      if HasCharIn(p[1..], lo, hi) {
        var i :| 0 <= i < |p[1..]| && lo <= p[1..][i] <= hi;
        assert lo <= p[i + 1] <= hi;
      }
      if HasCharIn(p, lo, hi) && !(lo <= p[0] <= hi) {
        var i :| 0 <= i < |p| && lo <= p[i] <= hi;
        assert lo <= p[1..][i - 1] <= hi;
      }
    }
  }

  /** All four rules hold: the passwords the panel accepts. */
  ghost predicate Acceptable(p: string) {
    |p| >= MinLength && HasCharIn(p, 'A', 'Z') && HasCharIn(p, 'a', 'z') && HasCharIn(p, '0', '9')
  }

  /**
   * `validatePassword`: `None` when every rule holds, otherwise the first
   * broken rule in the order length, uppercase, lowercase, digit.
   */
  function ValidatePassword(p: string): (r: Option<Rule>)
    ensures r == None <==> Acceptable(p)
    ensures r == Some(TooShort) <==> |p| < MinLength
    ensures r == Some(NoUppercase) <==> |p| >= MinLength && !HasCharIn(p, 'A', 'Z')
    ensures r == Some(NoLowercase) <==> |p| >= MinLength && HasCharIn(p, 'A', 'Z') && !HasCharIn(p, 'a', 'z')
    ensures r == Some(NoDigit) <==>
              |p| >= MinLength && HasCharIn(p, 'A', 'Z') && HasCharIn(p, 'a', 'z') && !HasCharIn(p, '0', '9')
  {
    MatchesIff(p, 'A', 'Z');
    MatchesIff(p, 'a', 'z');
    MatchesIff(p, '0', '9');
    if |p| < MinLength then Some(TooShort)
    else if !Matches(p, 'A', 'Z') then Some(NoUppercase)
    else if !Matches(p, 'a', 'z') then Some(NoLowercase)
    else if !Matches(p, '0', '9') then Some(NoDigit)
    else None
  }

  datatype Step = Initial | Pin | Password

  /** The panel's state. */
  datatype Panel = Panel(step: Step, newPassword: string, confirmPassword: string, isLoading: bool)

  const Start := Panel(Initial, "", "", false)

  /** A call of the password service `changePassword(userId, newPassword)`. */
  datatype ChangeCall = ChangeCall(userId: string, newPassword: string)

  /** What the user can do: the buttons, the PIN component's callbacks, the two inputs and the form. */
  datatype Event =
    | RequestChange
    | PinSuccess
    | PinError(message: string)
    | CancelPin
    | EditNew(password: string)
    | EditConfirm(password: string)
    | CancelPassword
    | Submit(changeSucceeds: bool)

  /** A handler's effect: the new state and the service call it made, if any. */
  datatype Transition = Transition(panel: Panel, call: Option<ChangeCall>)

  /**
   * `handleSubmit`: the mismatch check, then the rules; only then the
   * service call. Success returns to the start with both fields cleared;
   * failure keeps the fields.
   */
  function HandleSubmit(userId: string, s: Panel, changeSucceeds: bool): (t: Transition)
    ensures t.call.Some? <==> s.newPassword == s.confirmPassword && Acceptable(s.newPassword)
    ensures t.call.Some? ==> t.call.value == ChangeCall(userId, s.newPassword)
    ensures t.call.None? ==> t.panel == s
    ensures t.call.Some? && changeSucceeds ==> t.panel == Start
    ensures t.call.Some? && !changeSucceeds ==> t.panel == s.(isLoading := false)
  {
    if s.newPassword != s.confirmPassword then Transition(s, None)
    else if ValidatePassword(s.newPassword).Some? then Transition(s, None)
    else if changeSucceeds then Transition(Panel(Initial, "", "", false), Some(ChangeCall(userId, s.newPassword)))
    else Transition(s.(isLoading := false), Some(ChangeCall(userId, s.newPassword)))
  }

  /** The effect of one event, as the panel's handlers and inline callbacks define it. */
  function Next(userId: string, s: Panel, e: Event): Transition {
    match e
    case RequestChange => Transition(s.(step := Pin), None)
    case PinSuccess => Transition(s.(step := Password), None)
    case PinError(_) => Transition(s, None)
    case CancelPin => Transition(s.(step := Initial), None)
    case EditNew(p) => Transition(s.(newPassword := p), None)
    case EditConfirm(p) => Transition(s.(confirmPassword := p), None)
    case CancelPassword => Transition(s.(step := Initial, newPassword := "", confirmPassword := ""), None)
    case Submit(ok) => HandleSubmit(userId, s, ok)
  }

  /**
   * Which events the rendered panel offers: the start button in the initial
   * step, the PIN input and its cancel button in the PIN step, the form in
   * the password step (its submit button disabled while loading).
   */
  predicate Enabled(s: Panel, e: Event) {
    match e
    case RequestChange => s.step == Initial
    case PinSuccess | PinError(_) | CancelPin => s.step == Pin
    case EditNew(_) | EditConfirm(_) | CancelPassword => s.step == Password
    case Submit(_) => s.step == Password && !s.isLoading
  }

  /**
   * The step graph: the password step is entered only from the PIN step by
   * a PIN success, a PIN error changes nothing, the cancel buttons return to
   * the initial step, and no event but a submit calls the service.
   */
  lemma StepGraph(userId: string, s: Panel, e: Event)
    requires Enabled(s, e)
    ensures Next(userId, s, e).panel.step == Password ==> s.step == Password || (s.step == Pin && e == PinSuccess)
    ensures e.PinError? ==> Next(userId, s, e).panel == s
    ensures e == CancelPin || e == CancelPassword ==> Next(userId, s, e).panel.step == Initial
    ensures e == CancelPassword ==> Next(userId, s, e).panel.newPassword == Next(userId, s, e).panel.confirmPassword == ""
    ensures Next(userId, s, e).call.Some? ==> e.Submit? && s.step == Password
  {
  }

  /** The state after a sequence of events. */
  function Run(userId: string, s: Panel, es: seq<Event>): Panel
    decreases |es|
  {
    if es == [] then s else Next(userId, Run(userId, s, es[..|es| - 1]), es[|es| - 1]).panel
  }

  /** Every event of the sequence is offered in the state it meets. */
  predicate ValidTrace(userId: string, s: Panel, es: seq<Event>)
    decreases |es|
  {
    es == [] || (ValidTrace(userId, s, es[..|es| - 1]) && Enabled(Run(userId, s, es[..|es| - 1]), es[|es| - 1]))
  }

  /**
   * The submit button is never stuck disabled: loading is switched off in
   * the `finally` of every submit, so whenever a run from the start reaches
   * the password step, a submit is offered there.
   */
  lemma {:induction false} SubmitOffered(userId: string, es: seq<Event>)
    ensures !Run(userId, Start, es).isLoading
    ensures Run(userId, Start, es).step == Password ==>
              Enabled(Run(userId, Start, es), Submit(true)) && Enabled(Run(userId, Start, es), Submit(false))
    decreases |es|
  {
    if es != [] {
      SubmitOffered(userId, es[..|es| - 1]);
    }
  }

  /**
   * In any run from the start that ends in the password step there was a
   * PIN success, taken in the PIN step, after which the panel never left the
   * password step.
   */
  lemma {:induction false} PasswordOnlyAfterPin(userId: string, es: seq<Event>)
    requires ValidTrace(userId, Start, es) && Run(userId, Start, es).step == Password
    ensures exists i :: 0 <= i < |es| && es[i] == PinSuccess && Run(userId, Start, es[..i]).step == Pin &&
              forall k :: i < k <= |es| ==> Run(userId, Start, es[..k]).step == Password
    decreases |es|
  {
    var n := |es| - 1;
    var prefix := es[..n];
    assert es[..|es|] == es;
    var s := Run(userId, Start, prefix);
    StepGraph(userId, s, es[n]);
    if s.step == Password {
      PasswordOnlyAfterPin(userId, prefix);
      var i :| 0 <= i < |prefix| && prefix[i] == PinSuccess && Run(userId, Start, prefix[..i]).step == Pin &&
               forall k :: i < k <= |prefix| ==> Run(userId, Start, prefix[..k]).step == Password;
      assert es[i] == PinSuccess && es[..i] == prefix[..i];
      forall k | i < k <= |es| ensures Run(userId, Start, es[..k]).step == Password {
        if k <= n {
          assert es[..k] == prefix[..k];
        } else {
          assert k == |es|;
        }
      }
    } else {
      assert 0 <= n < |es| && es[n] == PinSuccess && Run(userId, Start, es[..n]).step == Pin;
      forall k | n < k <= |es| ensures Run(userId, Start, es[..k]).step == Password {
        assert k == |es|;
      }
    }
  }

  /**
   * The password service is called only by a submit in the password step,
   * so only after a PIN success from which the panel stayed in that step;
   * and it receives a confirmed password that passes every rule.
   */
  lemma ChangeOnlyAfterPin(userId: string, es: seq<Event>, e: Event)
    requires ValidTrace(userId, Start, es) && Enabled(Run(userId, Start, es), e)
    requires Next(userId, Run(userId, Start, es), e).call.Some?
    ensures exists i :: 0 <= i < |es| && es[i] == PinSuccess && Run(userId, Start, es[..i]).step == Pin &&
              forall k :: i < k <= |es| ==> Run(userId, Start, es[..k]).step == Password
    ensures Acceptable(Next(userId, Run(userId, Start, es), e).call.value.newPassword)
  {
    StepGraph(userId, Run(userId, Start, es), e);
    PasswordOnlyAfterPin(userId, es);
  }

  /** The panel component, its state held in fields as the handlers set them. */
  class PasswordChangePanel {
    const userId: string
    var step: Step
    var newPassword: string
    var confirmPassword: string
    var isLoading: bool

    function State(): Panel
      reads this
    {
      Panel(step, newPassword, confirmPassword, isLoading)
    }

    constructor (userId: string)
      ensures this.userId == userId && State() == Start
    {
      this.userId := userId;
      step, newPassword, confirmPassword, isLoading := Initial, "", "", false;
    }

    /** The initial step's button: `setStep('pin')`. */
    method RequestChange()
      modifies this
      ensures State() == Next(userId, old(State()), Event.RequestChange).panel
      ensures step == Pin && newPassword == old(newPassword) && confirmPassword == old(confirmPassword)
    {
      step := Pin;
    }

    /** `handlePinSuccess`. */
    method HandlePinSuccess()
      modifies this
      ensures State() == Next(userId, old(State()), PinSuccess).panel
      ensures step == Password && newPassword == old(newPassword) && confirmPassword == old(confirmPassword)
    {
      step := Password;
    }

    /** `handlePinError`: only a notification, so the state is untouched. */
    method HandlePinError(message: string)
      ensures State() == Next(userId, State(), PinError(message)).panel
    {
    }

    /** The PIN step's cancel button: `setStep('initial')`. */
    method CancelPin()
      modifies this
      ensures State() == Next(userId, old(State()), Event.CancelPin).panel
      ensures step == Initial && newPassword == old(newPassword) && confirmPassword == old(confirmPassword)
    {
      step := Initial;
    }

    method EditNewPassword(p: string)
      modifies this
      ensures State() == Next(userId, old(State()), EditNew(p)).panel
    {
      newPassword := p;
    }

    method EditConfirmPassword(p: string)
      modifies this
      ensures State() == Next(userId, old(State()), EditConfirm(p)).panel
    {
      confirmPassword := p;
    }

    /** The form's cancel button: back to the initial step with both fields cleared. */
    method CancelPassword()
      modifies this
      ensures State() == Next(userId, old(State()), Event.CancelPassword).panel
      ensures step == Initial && newPassword == "" && confirmPassword == ""
    {
      step, newPassword, confirmPassword := Initial, "", "";
    }

    /**
     * `handleSubmit`. `changeSucceeds` is the outcome the password service
     * would give; `call` is the call made to it, if any.
     */
    method HandleSubmit(changeSucceeds: bool) returns (call: Option<ChangeCall>)
      modifies this
      ensures State() == Next(userId, old(State()), Submit(changeSucceeds)).panel
      ensures call == Next(userId, old(State()), Submit(changeSucceeds)).call
      ensures call.Some? ==> old(newPassword) == old(confirmPassword) && Acceptable(old(newPassword)) && !isLoading
    {
      if newPassword != confirmPassword {
        return None;
      }
      var broken := ValidatePassword(newPassword);
      if broken.Some? {
        return None;
      }
      isLoading := true;
      call := Some(ChangeCall(userId, newPassword));
      if changeSucceeds {
        step := Initial;
        newPassword := "";
        confirmPassword := "";
      }
      isLoading := false;
    }
  }
}
