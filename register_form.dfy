/** register.component.ts: the three-step registration form. Each control's
    validity is an input (the Angular validators are not modelled); the
    component moves between steps and guards submission. */
module RegisterForm {

  /** The validity of each control, plus the two password values. */
  datatype Controls = Controls(
    firstName: bool, lastName: bool, email: bool, phone: bool, dateOfBirth: bool,
    password: bool, confirmPassword: bool, securityQuestion: bool, securityAnswer: bool,
    acceptTerms: bool, acceptPrivacy: bool,
    passwordValue: string, confirmPasswordValue: string)

  /** `registerForm.valid`: every control is valid. */
  predicate FormValid(c: Controls) {
    && c.firstName && c.lastName && c.email && c.phone && c.dateOfBirth
    && c.password && c.confirmPassword && c.securityQuestion && c.securityAnswer
    && c.acceptTerms && c.acceptPrivacy
  }

  /** `canProceedToNextStep` on step `step`. The `passwordsMatch()` call that
      follows the step-2 `return` is never reached, so the passwords need not
      match to leave step 2. */
  function CanProceed(step: int, c: Controls): (ok: bool)
    ensures step == 1 ==> (ok <==> c.firstName && c.lastName && c.email && c.phone && c.dateOfBirth)
    ensures step == 2 ==> (ok <==> c.password && c.confirmPassword && c.securityQuestion && c.securityAnswer)
    ensures step != 1 && step != 2 ==> ok
  {
    if step == 1 then c.firstName && c.lastName && c.email && c.phone && c.dateOfBirth
    else if step == 2 then c.password && c.confirmPassword && c.securityQuestion && c.securityAnswer
    else true
  }

  /** `passwordsMatch`. */
  predicate PasswordsMatch(c: Controls) {
    c.passwordValue == c.confirmPasswordValue
  }

  /** Step 2 may be left with passwords that differ. */
  lemma MismatchDoesNotBlockStep2(c: Controls)
    requires c.password && c.confirmPassword && c.securityQuestion && c.securityAnswer
    requires !PasswordsMatch(c)
    ensures CanProceed(2, c)
  {
  }

  /** A valid form may leave any step. */
  lemma ValidFormProceeds(step: int, c: Controls)
    requires FormValid(c)
    ensures CanProceed(step, c)
  {
  }

  class RegisterComponent {
    var currentStep: int
    var isSubmitting: bool
    var controls: Controls

    /** The step never drops below the first. */
    ghost predicate Valid()
      reads this
    {
      currentStep >= 1
    }

    constructor (controls: Controls)
      ensures Valid() && currentStep == 1 && !isSubmitting && this.controls == controls
    {
      currentStep := 1;
      isSubmitting := false;
      this.controls := controls;
    }

    method NextStep()
      requires Valid()
      modifies this
      ensures Valid()
      ensures currentStep == if CanProceed(old(currentStep), controls) then old(currentStep) + 1 else old(currentStep)
      ensures controls == old(controls) && isSubmitting == old(isSubmitting)
    {
      if CanProceed(currentStep, controls) {
        currentStep := currentStep + 1;
      }
    }

    method PreviousStep()
      requires Valid()
      modifies this
      ensures Valid()
      ensures currentStep == if old(currentStep) > 1 then old(currentStep) - 1 else old(currentStep)
      ensures controls == old(controls) && isSubmitting == old(isSubmitting)
    {
      if currentStep > 1 {
        currentStep := currentStep - 1;
      }
    }

    /** `onSubmit` up to the simulated delay: only a valid form starts
        submitting. */
    method OnSubmit()
      modifies this
      ensures isSubmitting == (old(isSubmitting) || FormValid(controls))
      ensures controls == old(controls) && currentStep == old(currentStep)
    {
      if FormValid(controls) {
        isSubmitting := true;
      }
    }
  }
}
