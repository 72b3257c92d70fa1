/** transfer.component.ts: the transfer form. Its field validators and the
    last checks before sending are functions of the form's values and the
    user's accounts; the component's flags (confirmation, single submission,
    destination check, step indicators) are fields updated in place.
    Amounts are integer cents. */
module TransferForm {
  import opened Common
  import opened Http
  import opened Domain
  import opened Notifications
  import AccountGateway

  const MinAmount := 1                  // 0.01 euro
  const MaxAmount := 999999 * 100
  const AccountNumberMinLength := 10
  const AccountNumberMaxLength := 20
  const DescriptionMaxLength := 200

  /** The form's value. An empty amount input is `None`. */
  datatype FormValue = FormValue(
    fromAccountNumber: string, toAccountNumber: string, amount: Option<int>, description: string)

  const EmptyForm := FormValue("", "", None, "")

  /** The controls of the form, as `Object.keys(controls)` lists them. */
  datatype Field = FromField | ToField | AmountField | DescriptionField

  const AllFields := {FromField, ToField, AmountField, DescriptionField}

  // ---------------------------------------------------------------------
  // Field validators
  // ---------------------------------------------------------------------

  /** A character of the class `[A-Z0-9]`. */
  predicate InPattern(c: char) {
    IsAsciiUpper(c) || IsDigit(c)
  }

  /** `/^[A-Z0-9]{10,20}$/.test(s)`. */
  predicate MatchesAccountPattern(s: string) {
    && AccountNumberMinLength <= |s| <= AccountNumberMaxLength
    && forall i :: 0 <= i < |s| ==> InPattern(s[i])
  }

  /** `accountNumberValidator` reports nothing: an empty value is left to
      `required`, any other must match the pattern once uppercased. */
  predicate AccountNumberAccepted(v: string) {
    v == "" || MatchesAccountPattern(Upper(v))
  }

  /** The validator accepts a non-empty value exactly when it has 10 to 20
      characters, each an ASCII letter of either case or a digit. */
  lemma AccountNumberAcceptedChars(v: string)
    requires v != ""
    ensures AccountNumberAccepted(v) <==>
      10 <= |v| <= 20 && forall i :: 0 <= i < |v| ==> IsAsciiLower(v[i]) || IsAsciiUpper(v[i]) || IsDigit(v[i])
  {
    var u := Upper(v);
    forall i | 0 <= i < |v| ensures InPattern(u[i]) <==> IsAsciiLower(v[i]) || IsAsciiUpper(v[i]) || IsDigit(v[i]) {
      assert u[i] == UpperChar(v[i]);
    }
  }

  /** Lowercase input is accepted: `toUpperCase` runs before the pattern. */
  lemma LowercaseNumberAccepted()
    ensures AccountNumberAccepted("acc0123abcd")
  {
    AccountNumberAcceptedChars("acc0123abcd");
  }

  /** The source account the form designates, among the user's accounts. */
  function SelectedSource(form: FormValue, accounts: seq<Account>): Option<Account> {
    FindAccount(accounts, form.fromAccountNumber)
  }

  /** JavaScript's numeric reading of the amount: an empty input is 0. */
  function Numeric(amount: Option<int>): int {
    if amount.Some? then amount.value else 0
  }

  /** `amountValidator` reports `insufficientFunds`. */
  function InsufficientFunds(form: FormValue, accounts: seq<Account>): (b: bool)
    ensures b <==> && form.amount.Some? && form.amount.value != 0
                   && (exists a :: a in accounts && a.accountNumber == form.fromAccountNumber)
                   && form.amount.value > SelectedSource(form, accounts).value.balance
  {
    var source := SelectedSource(form, accounts);
    form.amount.Some? && form.amount.value != 0 && source.Some? && form.amount.value > source.value.balance
  }

  /** Sending the whole balance does not trip the validator. */
  lemma WholeBalancePasses(form: FormValue, accounts: seq<Account>)
    requires SelectedSource(form, accounts).Some?
    requires form.amount == Some(SelectedSource(form, accounts).value.balance)
    ensures !InsufficientFunds(form, accounts)
  {
  }

  predicate FromValid(form: FormValue) {
    form.fromAccountNumber != ""
  }

  /** `required`, `minLength(10)` and `accountNumberValidator`. */
  predicate ToValid(form: FormValue) {
    && form.toAccountNumber != ""
    && |form.toAccountNumber| >= AccountNumberMinLength
    && AccountNumberAccepted(form.toAccountNumber)
  }

  /** `required`, `min(0.01)`, `max(999999)` and `amountValidator`. */
  predicate AmountValid(form: FormValue, accounts: seq<Account>) {
    && form.amount.Some?
    && MinAmount <= form.amount.value <= MaxAmount
    && !InsufficientFunds(form, accounts)
  }

  predicate DescriptionValid(form: FormValue) {
    |form.description| <= DescriptionMaxLength
  }

  /** `transferForm.valid`. */
  predicate FormValid(form: FormValue, accounts: seq<Account>) {
    FromValid(form) && ToValid(form) && AmountValid(form, accounts) && DescriptionValid(form)
  }

  predicate FieldValid(f: Field, form: FormValue, accounts: seq<Account>) {
    match f
    case FromField => FromValid(form)
    case ToField => ToValid(form)
    case AmountField => AmountValid(form, accounts)
    case DescriptionField => DescriptionValid(form)
  }

  // ---------------------------------------------------------------------
  // Final validation
  // ---------------------------------------------------------------------

  // Written in two pieces so that the verifier sees their first characters.
  const SameAccountError := "Les " + "comptes source et destinataire doivent être différents"
  const BalanceError := "Solde " + "insuffisant dans le compte source"
  const MinimumPrefix := "Le montant minimum est de "

  function MinimumError(formatMoney: int -> string): string {
    MinimumPrefix + formatMoney(MinAmount)
  }

  lemma ErrorsDistinct(formatMoney: int -> string)
    ensures SameAccountError != BalanceError
    ensures MinimumError(formatMoney) != SameAccountError
    ensures MinimumError(formatMoney) != BalanceError
  {
    assert SameAccountError[0] == 'L' && BalanceError[0] == 'S';
    assert MinimumPrefix[0] == 'L' && MinimumPrefix[2] == ' ' && SameAccountError[2] == 's';
    assert MinimumError(formatMoney)[0] == MinimumPrefix[0];
    assert MinimumError(formatMoney)[2] == MinimumPrefix[2];
  }

  /** `performFinalValidation`: one message per failed check, in the order
      the checks run. */
  function FinalValidation(form: FormValue, accounts: seq<Account>, formatMoney: int -> string): (errors: seq<string>)
    ensures SameAccountError in errors <==> form.fromAccountNumber == form.toAccountNumber
    ensures BalanceError in errors <==>
      SelectedSource(form, accounts).Some? && SelectedSource(form, accounts).value.balance < Numeric(form.amount)
    ensures MinimumError(formatMoney) in errors <==> Numeric(form.amount) < MinAmount
    ensures forall e :: e in errors ==> e in {SameAccountError, BalanceError, MinimumError(formatMoney)}
    ensures |errors| == (if form.fromAccountNumber == form.toAccountNumber then 1 else 0)
                      + (if SelectedSource(form, accounts).Some? && SelectedSource(form, accounts).value.balance < Numeric(form.amount) then 1 else 0)
                      + (if Numeric(form.amount) < MinAmount then 1 else 0)
    ensures SameAccountError in errors ==> errors[0] == SameAccountError
    ensures MinimumError(formatMoney) in errors ==> errors[|errors| - 1] == MinimumError(formatMoney)
  {
    ErrorsDistinct(formatMoney);
    var source := SelectedSource(form, accounts);
    (if form.fromAccountNumber == form.toAccountNumber then [SameAccountError] else [])
    + (if source.Some? && source.value.balance < Numeric(form.amount) then [BalanceError] else [])
    + (if Numeric(form.amount) < MinAmount then [MinimumError(formatMoney)] else [])
  }

  /** On a form that passes its validators, the only last check that can fail
      is the one for identical accounts. */
  lemma ValidFormFinalChecks(form: FormValue, accounts: seq<Account>, formatMoney: int -> string)
    requires FormValid(form, accounts)
    ensures FinalValidation(form, accounts, formatMoney) == [] <==> form.fromAccountNumber != form.toAccountNumber
  {
    var errors := FinalValidation(form, accounts, formatMoney);
    ErrorsDistinct(formatMoney);
    assert BalanceError !in errors;
    assert MinimumError(formatMoney) !in errors;
  }

  // ---------------------------------------------------------------------
  // formatAccountNumber: `replace(/(.{4})/g, '$1 ').trim()`
  // ---------------------------------------------------------------------

  /** The characters `.` does not match. */
  predicate IsLineTerminator(c: char) {
    c == '\n' || c == '\r' || c as int == 0x2028 || c as int == 0x2029
  }

  /** The characters `trim` removes. */
  predicate IsWhitespace(c: char) {
    || c == ' ' || c == '\t' || c == '\n' || c == '\r'
    || c as int == 0x0B || c as int == 0x0C || c as int == 0xA0 || c as int == 0x1680
    || 0x2000 <= c as int <= 0x200A
    || c as int == 0x2028 || c as int == 0x2029 || c as int == 0x202F || c as int == 0x205F
    || c as int == 0x3000 || c as int == 0xFEFF
  }

  predicate NoWhitespace(s: string) {
    forall i :: 0 <= i < |s| ==> !IsWhitespace(s[i])
  }

  /** The global replace: where four characters other than line terminators
      start, they are copied with a space after them; elsewhere one
      character is copied and the search moves on. */
  function GroupByFour(s: string): string
    decreases |s|
  {
    if |s| >= 4 && forall i :: 0 <= i < 4 ==> !IsLineTerminator(s[i]) then s[..4] + " " + GroupByFour(s[4..])
    else if s == [] then []
    else [s[0]] + GroupByFour(s[1..])
  }

  function TrimStart(s: string): string
    decreases |s|
  {
    if s != [] && IsWhitespace(s[0]) then TrimStart(s[1..]) else s
  }

  function TrimEnd(s: string): string
    decreases |s|
  {
    if s != [] && IsWhitespace(s[|s| - 1]) then TrimEnd(s[..|s| - 1]) else s
  }

  function Trim(s: string): string {
    TrimEnd(TrimStart(s))
  }

  function FormatAccountNumber(s: string): string {
    Trim(GroupByFour(s))
  }

  /** The groups of four, the last one holding what is left. */
  function Chunks(s: string): (cs: seq<string>)
    ensures cs == [] <==> s == []
    decreases |s|
  {
    if s == [] then []
    else if |s| <= 4 then [s]
    else [s[..4]] + Chunks(s[4..])
  }

  /** The groups separated by single spaces. */
  function JoinBySpace(cs: seq<string>): string
    decreases |cs|
  {
    if cs == [] then ""
    else if |cs| == 1 then cs[0]
    else cs[0] + " " + JoinBySpace(cs[1..])
  }

  function Concat(cs: seq<string>): string
    decreases |cs|
  {
    if cs == [] then "" else cs[0] + Concat(cs[1..])
  }

  predicate IsNotSpace(c: char) {
    c != ' '
  }

  function WithoutSpaces(s: string): string {
    Filter(s, IsNotSpace)
  }

  /** Every group but the last has four characters, the last one to four,
      and together they spell the input. */
  lemma {:induction false} ChunksShape(s: string)
    ensures forall i :: 0 <= i < |Chunks(s)| - 1 ==> |Chunks(s)[i]| == 4
    ensures s != [] ==> 1 <= |Chunks(s)[|Chunks(s)| - 1]| <= 4
    ensures Concat(Chunks(s)) == s
    decreases |s|
  {
    if |s| > 4 {
      ChunksShape(s[4..]);
      assert s == s[..4] + s[4..];
    } else if s != [] {
      assert Concat([s]) == s + "";
    }
  }

  lemma {:induction false} GroupByFourShort(s: string)
    requires |s| < 4
    ensures GroupByFour(s) == s
    decreases |s|
  {
    if s != [] {
      GroupByFourShort(s[1..]);
      assert s == [s[0]] + s[1..];
    }
  }

  /** Without line terminators, the replace joins the groups by spaces and
      leaves one trailing space exactly when the last group is full. */
  lemma {:induction false} GroupByFourJoins(s: string)
    requires forall i :: 0 <= i < |s| ==> !IsLineTerminator(s[i])
    ensures GroupByFour(s) == JoinBySpace(Chunks(s)) + (if s != [] && |s| % 4 == 0 then " " else "")
    decreases |s|
  {
    if |s| < 4 {
      GroupByFourShort(s);
    } else if |s| == 4 {
      assert GroupByFour(s) == s[..4] + " " + GroupByFour(s[4..]);
      assert s[..4] == s;
    } else {
      var rest := s[4..];
      GroupByFourJoins(rest);
      assert |Chunks(rest)| >= 1;
      assert Chunks(s) == [s[..4]] + Chunks(rest);
      assert JoinBySpace(Chunks(s)) == s[..4] + " " + JoinBySpace(Chunks(rest));
      assert |rest| % 4 == |s| % 4;
    }
  }

  /** The joined groups begin with the input's first character and end with
      its last one. */
  lemma {:induction false} JoinEnds(s: string)
    requires s != []
    ensures JoinBySpace(Chunks(s)) != []
    ensures JoinBySpace(Chunks(s))[0] == s[0]
    ensures JoinBySpace(Chunks(s))[|JoinBySpace(Chunks(s))| - 1] == s[|s| - 1]
    decreases |s|
  {
    if |s| > 4 {
      var rest := s[4..];
      JoinEnds(rest);
      assert |Chunks(rest)| >= 1;
      assert JoinBySpace(Chunks(s)) == s[..4] + " " + JoinBySpace(Chunks(rest));
    }
  }

  lemma {:induction false} RemoveSpacesJoin(cs: seq<string>)
    requires forall i, k :: 0 <= i < |cs| && 0 <= k < |cs[i]| ==> cs[i][k] != ' '
    ensures WithoutSpaces(JoinBySpace(cs)) == Concat(cs)
    decreases |cs|
  {
    if |cs| == 1 {
      FilterAll(cs[0], IsNotSpace);
      assert Concat(cs) == cs[0] + "";
    } else if |cs| > 1 {
      RemoveSpacesJoin(cs[1..]);
      FilterAll(cs[0], IsNotSpace);
      FilterAppend(cs[0], " ", IsNotSpace);
      FilterAppend(cs[0] + " ", JoinBySpace(cs[1..]), IsNotSpace);
      assert Filter(" ", IsNotSpace) == [];
    }
  }

  /** For an input without whitespace, the display form is the groups of four
      joined by single spaces: every group but the last is full, and removing
      the spaces gives the input back. */
  lemma FormatAccountNumberGroups(s: string)
    requires NoWhitespace(s)
    ensures FormatAccountNumber(s) == JoinBySpace(Chunks(s))
    ensures WithoutSpaces(FormatAccountNumber(s)) == s
  {
    GroupByFourJoins(s);
    ChunksShape(s);
    var joined := JoinBySpace(Chunks(s));
    if s != [] {
      JoinEnds(s);
      var g := GroupByFour(s);
      assert TrimStart(g) == g;
      if |s| % 4 == 0 {
        assert g[..|g| - 1] == joined;
      }
      assert TrimEnd(g) == joined;
    }
    forall i, k | 0 <= i < |Chunks(s)| && 0 <= k < |Chunks(s)[i]| ensures Chunks(s)[i][k] != ' ' {
      ChunkChars(s, i, k);
    }
    RemoveSpacesJoin(Chunks(s));
  }

  /** Each character of a group is a character of the input. */
  lemma {:induction false} ChunkChars(s: string, i: int, k: int)
    requires 0 <= i < |Chunks(s)| && 0 <= k < |Chunks(s)[i]|
    ensures Chunks(s)[i][k] in s
    decreases |s|
  {
    if |s| > 4 && i > 0 {
      ChunkChars(s[4..], i - 1, k);
    }
  }

  // ---------------------------------------------------------------------
  // Destination check
  // ---------------------------------------------------------------------

  datatype DestinationInfo = DestinationInfo(
    isValid: bool, isValidating: bool, message: Option<string>, error: Option<string>)

  const Unchecked := DestinationInfo(false, false, None, None)
  const OwnAccountError := "Impossible de transférer vers votre propre compte"
  const CheckingMessage := "Vérification en cours..."
  const ValidMessage := "Compte destinataire valide"
  const NotFoundError := "Compte destinataire introuvable"
  const LookupError := "Erreur lors de la validation du compte"

  /** The state the account-number pipeline writes before any lookup:
      `None` when a lookup is to be made. */
  function Gate(n: string, accounts: seq<Account>): (r: Option<DestinationInfo>)
    ensures |n| < AccountNumberMinLength ==> r == Some(Unchecked)
    ensures |n| >= AccountNumberMinLength ==>
      (r.None? <==> forall a :: a in accounts ==> a.accountNumber != n)
    ensures |n| >= AccountNumberMinLength && (exists a :: a in accounts && a.accountNumber == n) ==>
      r == Some(DestinationInfo(false, false, None, Some(OwnAccountError)))
    ensures r.Some? ==> !r.value.isValid && !r.value.isValidating
  {
    if n == "" || |n| < AccountNumberMinLength then Some(Unchecked)
    else if exists a :: a in accounts && a.accountNumber == n then
      Some(DestinationInfo(false, false, None, Some(OwnAccountError)))
    else None
  }

  /** The state after the lookup settles (`r` is what the account service
      delivers, a rejection being `Fail`). */
  function LookupOutcome(r: Result<bool>): (info: DestinationInfo)
    ensures !info.isValidating
    ensures info.isValid <==> r == Ok(true)
    ensures info.isValid <==> info.message.Some? && info.error.None?
    ensures !info.isValid ==> info.error.Some? && info.message.None?
    ensures r == Ok(true) ==> info.message == Some(ValidMessage)
    ensures r == Ok(false) ==> info.error == Some(NotFoundError)
    ensures r.Fail? ==> info.error == Some(LookupError)
  {
    match r
    case Ok(exists_) =>
      if exists_ then DestinationInfo(true, false, Some(ValidMessage), None)
      else DestinationInfo(false, false, None, Some(NotFoundError))
    case Fail(_) => DestinationInfo(false, false, None, Some(LookupError))
  }

  /** A destination becomes valid exactly when the server answers with
      success and `data == true`. */
  lemma ValidDestinationNeedsConfirmation(reply: Reply<bool>)
    ensures LookupOutcome(AccountGateway.CheckExists(reply)).isValid <==>
      reply.Delivered? && reply.envelope.success && reply.envelope.data == Some(true)
  {
  }

  // ---------------------------------------------------------------------
  // Steps
  // ---------------------------------------------------------------------

  datatype Step = Step(
    number: int, title: string, description: string, isCompleted: bool, isActive: bool, hasError: bool)

  const InitialSteps := [
    Step(1, "Compte source", "Sélectionnez le compte à débiter", false, true, false),
    Step(2, "Destinataire", "Numéro du compte à créditer", false, false, false),
    Step(3, "Montant", "Somme à transférer", false, false, false),
    Step(4, "Confirmation", "Vérifiez les détails", false, false, false)]

  const ValidationTitle := "Erreur de validation"
  const SuccessTitle := "Transfert réussi"
  const TransferErrorTitle := "Erreur de transfert"
  const TransferErrorDefault := "Une erreur est survenue lors du transfert"

  /** The toasts `executeTransfer` raises for the failed last checks, the
      generator having issued `start` ids before. */
  function ValidationToasts(errors: seq<string>, start: nat, ids: nat -> string): (r: seq<Notification>)
    ensures |r| == |errors|
    ensures forall i :: 0 <= i < |errors| ==>
      r[i].kind == Error && r[i].title == ValidationTitle && r[i].message == errors[i]
  {
    seq(|errors|, i requires 0 <= i < |errors| => Stamped(Draft(Error, ValidationTitle, errors[i], None), ids(start + i)))
  }

  class TransferComponent {
    var userAccounts: seq<Account>
    var form: FormValue
    var touched: set<Field>
    var destinationAccountInfo: DestinationInfo
    var steps: seq<Step>
    var isSubmitting: bool
    var showConfirmation: bool
    var transferCompleted: bool
    var completedTransfer: Option<Transfer>
    /** The account numbers handed to `checkAccountExists`, in order. */
    var lookups: seq<string>
    /** The form values handed to `createTransfer`, in order. */
    var createCalls: seq<FormValue>
    const notifier: NotificationService
    /** `formatCurrency` (Intl, fr-FR, EUR), taken as given. */
    const formatMoney: int -> string

    ghost predicate Valid()
      reads this
    {
      |steps| == 4
    }

    /** The form's state once `loadUserAccounts` has delivered `accounts`. */
    constructor (accounts: seq<Account>, notifier: NotificationService, formatMoney: int -> string)
      ensures Valid()
      ensures userAccounts == accounts && form == EmptyForm && touched == {}
      ensures destinationAccountInfo == Unchecked && steps == InitialSteps
      ensures !isSubmitting && !showConfirmation && !transferCompleted && completedTransfer == None
      ensures lookups == [] && createCalls == []
      ensures this.notifier == notifier && this.formatMoney == formatMoney
    {
      userAccounts := accounts;
      form := EmptyForm;
      touched := {};
      destinationAccountInfo := Unchecked;
      steps := InitialSteps;
      isSubmitting := false;
      showConfirmation := false;
      transferCompleted := false;
      completedTransfer := None;
      lookups := [];
      createCalls := [];
      this.notifier := notifier;
      this.formatMoney := formatMoney;
    }

    /** A control shows an error once it is invalid and touched. */
    predicate ShowsError(f: Field)
      reads this
    {
      !FieldValid(f, form, userAccounts) && f in touched
    }

    /** What `onSubmit` demands before going further. */
    predicate Ready()
      reads this
    {
      FormValid(form, userAccounts) && destinationAccountInfo.isValid
    }

    function Errors(): seq<string>
      reads this
    {
      FinalValidation(form, userAccounts, formatMoney)
    }

    /** `updateStepsStatus`: the flags of each step follow the form, the
        destination check and the confirmation state; numbers, titles and
        the first three steps' `isActive` stay. */
    /** The step flags `updateStepsStatus` derives from the current state,
        over the steps as they were before. */
    ghost predicate StepsFollow(before: seq<Step>)
      reads this
    {
      && |before| == 4 && |steps| == 4
      && steps[0] == before[0].(isCompleted := FromValid(form), hasError := ShowsError(FromField))
      && steps[1] == before[1].(isCompleted := destinationAccountInfo.isValid,
                                hasError := ShowsError(ToField) || Truthy(destinationAccountInfo.error))
      && steps[2] == before[2].(isCompleted := form.amount.Some? && form.amount.value != 0 && AmountValid(form, userAccounts),
                                hasError := ShowsError(AmountField))
      && steps[3] == before[3].(isCompleted := transferCompleted, isActive := showConfirmation)
    }

    method UpdateStepsStatus()
      requires Valid()
      modifies this
      ensures Valid()
      ensures StepsFollow(old(steps))
      ensures steps[0] == old(steps[0]).(isCompleted := FromValid(form), hasError := ShowsError(FromField))
      ensures steps[1] == old(steps[1]).(isCompleted := destinationAccountInfo.isValid,
                                         hasError := ShowsError(ToField) || Truthy(destinationAccountInfo.error))
      ensures steps[2] == old(steps[2]).(isCompleted := form.amount.Some? && form.amount.value != 0 && AmountValid(form, userAccounts),
                                         hasError := ShowsError(AmountField))
      ensures steps[3] == old(steps[3]).(isCompleted := transferCompleted, isActive := showConfirmation)
      ensures userAccounts == old(userAccounts) && form == old(form) && touched == old(touched)
      ensures destinationAccountInfo == old(destinationAccountInfo)
      ensures isSubmitting == old(isSubmitting) && showConfirmation == old(showConfirmation)
      ensures transferCompleted == old(transferCompleted) && completedTransfer == old(completedTransfer)
      ensures lookups == old(lookups) && createCalls == old(createCalls)
    {
      var fromStep := steps[0].(isCompleted := form.fromAccountNumber != "", hasError := ShowsError(FromField));
      var toStep := steps[1].(isCompleted := destinationAccountInfo.isValid,
                              hasError := ShowsError(ToField) || Truthy(destinationAccountInfo.error));
      var amountStep := steps[2].(isCompleted := form.amount.Some? && form.amount.value != 0 && AmountValid(form, userAccounts),
                                  hasError := ShowsError(AmountField));
      var confirmStep := steps[3].(isCompleted := transferCompleted, isActive := showConfirmation);
      steps := [fromStep, toStep, amountStep, confirmStep];
    }

    /** The switch-mapped handler of a new destination value: the length
        gate, the own-account test, then the lookup request. */
    method OnAccountNumber(n: string)
      modifies this
      ensures Gate(n, userAccounts).Some? ==>
        destinationAccountInfo == Gate(n, userAccounts).value && lookups == old(lookups)
      ensures Gate(n, userAccounts).None? ==>
        destinationAccountInfo == DestinationInfo(false, true, Some(CheckingMessage), None) && lookups == old(lookups) + [n]
      ensures userAccounts == old(userAccounts) && form == old(form) && touched == old(touched) && steps == old(steps)
      ensures isSubmitting == old(isSubmitting) && showConfirmation == old(showConfirmation)
      ensures transferCompleted == old(transferCompleted) && completedTransfer == old(completedTransfer)
      ensures createCalls == old(createCalls)
    {
      if n == "" || |n| < AccountNumberMinLength {
        destinationAccountInfo := Unchecked;
        return;
      }
      var i := 0;
      var own := false;
      while i < |userAccounts| && !own
        invariant 0 <= i <= |userAccounts|
        invariant own <==> exists k :: 0 <= k < i && userAccounts[k].accountNumber == n
      {
        own := userAccounts[i].accountNumber == n;
        i := i + 1;
      }
      if own {
        destinationAccountInfo := DestinationInfo(false, false, None, Some(OwnAccountError));
        return;
      }
      assert forall a :: a in userAccounts ==> a.accountNumber != n;
      destinationAccountInfo := DestinationInfo(false, true, Some(CheckingMessage), None);
      lookups := lookups + [n];
    }

    /** The lookup of `validateDestinationAccount` settles. */
    method SettleLookup(r: Result<bool>)
      modifies this
      ensures destinationAccountInfo == LookupOutcome(r)
      ensures userAccounts == old(userAccounts) && form == old(form) && touched == old(touched) && steps == old(steps)
      ensures isSubmitting == old(isSubmitting) && showConfirmation == old(showConfirmation)
      ensures transferCompleted == old(transferCompleted) && completedTransfer == old(completedTransfer)
      ensures lookups == old(lookups) && createCalls == old(createCalls)
    {
      destinationAccountInfo := LookupOutcome(r);
    }

    /** `validationErrors.forEach(err => notificationService.error(...))`. */
    method NotifyValidationErrors(errors: seq<string>)
      modifies notifier
      ensures notifier.issued == old(notifier.issued) + |errors|
      ensures notifier.notifications == old(notifier.notifications) + ValidationToasts(errors, old(notifier.issued), notifier.idSource)
    {
      var i := 0;
      while i < |errors|
        invariant 0 <= i <= |errors|
        invariant notifier.issued == old(notifier.issued) + i
        invariant notifier.notifications == old(notifier.notifications) + ValidationToasts(errors[..i], old(notifier.issued), notifier.idSource)
      {
        notifier.NotifyError(ValidationTitle, errors[i], None);
        assert ValidationToasts(errors[..i + 1], old(notifier.issued), notifier.idSource)
            == ValidationToasts(errors[..i], old(notifier.issued), notifier.idSource)
               + [Stamped(Draft(Error, ValidationTitle, errors[i], None), notifier.idSource(old(notifier.issued) + i))];
        i := i + 1;
      }
      assert errors[..i] == errors;
    }

    /** `executeTransfer`, up to the moment the create call is issued. */
    method ExecuteTransfer()
      requires Valid()
      modifies this, notifier
      ensures Valid()
      ensures old(isSubmitting) ==>
        && isSubmitting && createCalls == old(createCalls)
        && notifier.notifications == old(notifier.notifications) && notifier.issued == old(notifier.issued)
      ensures !old(isSubmitting) && Errors() != [] ==>
        && !isSubmitting && createCalls == old(createCalls)
        && notifier.issued == old(notifier.issued) + |Errors()|
        && notifier.notifications == old(notifier.notifications) + ValidationToasts(Errors(), old(notifier.issued), notifier.idSource)
      ensures !old(isSubmitting) && Errors() == [] ==>
        && isSubmitting && createCalls == old(createCalls) + [form]
        && notifier.notifications == old(notifier.notifications) && notifier.issued == old(notifier.issued)
      ensures userAccounts == old(userAccounts) && form == old(form) && touched == old(touched) && steps == old(steps)
      ensures destinationAccountInfo == old(destinationAccountInfo) && showConfirmation == old(showConfirmation)
      ensures transferCompleted == old(transferCompleted) && completedTransfer == old(completedTransfer)
      ensures lookups == old(lookups)
    {
      if isSubmitting {
        return;
      }
      isSubmitting := true;
      var errors := FinalValidation(form, userAccounts, formatMoney);
      if |errors| > 0 {
        NotifyValidationErrors(errors);
        isSubmitting := false;
        return;
      }
      createCalls := createCalls + [form];
    }

    /** The create call settles: `handleTransferSuccess` or
        `handleTransferError`, then `finalize`. */
    method SettleTransfer(r: Result<Transfer>)
      requires Valid()
      modifies this, notifier
      ensures Valid()
      ensures !isSubmitting
      ensures notifier.issued == old(notifier.issued) + 1
      ensures r.Ok? ==>
        && completedTransfer == Some(r.value) && transferCompleted && showConfirmation == old(showConfirmation)
        && notifier.notifications == old(notifier.notifications)
             + [Stamped(Draft(Success, SuccessTitle, formatMoney(r.value.amount) + " transféré avec succès", None),
                        notifier.idSource(old(notifier.issued)))]
      ensures r.Fail? ==>
        && !showConfirmation && completedTransfer == old(completedTransfer) && transferCompleted == old(transferCompleted)
        && notifier.notifications == old(notifier.notifications)
             + [Stamped(Draft(Error, TransferErrorTitle, OrElse(Some(r.message), TransferErrorDefault), None),
                        notifier.idSource(old(notifier.issued)))]
      ensures userAccounts == old(userAccounts) && form == old(form) && touched == old(touched) && steps == old(steps)
      ensures destinationAccountInfo == old(destinationAccountInfo)
      ensures lookups == old(lookups) && createCalls == old(createCalls)
    {
      match r {
        case Ok(t) =>
          completedTransfer := Some(t);
          transferCompleted := true;
          notifier.NotifySuccess(SuccessTitle, formatMoney(t.amount) + " transféré avec succès", None);
        case Fail(m) =>
          notifier.NotifyError(TransferErrorTitle, OrElse(Some(m), TransferErrorDefault), None);
          showConfirmation := false;
      }
      isSubmitting := false;
    }

    /** `onSubmit`: an unready form is marked touched and nothing is sent; the
        first ready submit only asks for confirmation; the next one runs
        `executeTransfer`. */
    method OnSubmit()
      requires Valid()
      modifies this, notifier
      ensures Valid()
      ensures !old(Ready()) ==>
        && touched == old(touched) + AllFields && StepsFollow(old(steps))
        && showConfirmation == old(showConfirmation) && isSubmitting == old(isSubmitting)
        && createCalls == old(createCalls)
        && notifier.notifications == old(notifier.notifications) && notifier.issued == old(notifier.issued)
      ensures old(Ready()) && !old(showConfirmation) ==>
        && showConfirmation && steps[3].isActive && StepsFollow(old(steps)) && touched == old(touched)
        && isSubmitting == old(isSubmitting)
        && createCalls == old(createCalls)
        && notifier.notifications == old(notifier.notifications) && notifier.issued == old(notifier.issued)
      ensures old(Ready()) && old(showConfirmation) ==>
        && showConfirmation && touched == old(touched) && steps == old(steps)
        && (createCalls == old(createCalls) + [form] <==> !old(isSubmitting) && Errors() == [])
        && (createCalls == old(createCalls) <==> old(isSubmitting) || Errors() != [])
      ensures old(Ready()) && old(showConfirmation) && old(isSubmitting) ==>
        && isSubmitting
        && notifier.notifications == old(notifier.notifications) && notifier.issued == old(notifier.issued)
      ensures old(Ready()) && old(showConfirmation) && !old(isSubmitting) && Errors() != [] ==>
        && !isSubmitting
        && notifier.issued == old(notifier.issued) + |Errors()|
        && notifier.notifications == old(notifier.notifications) + ValidationToasts(Errors(), old(notifier.issued), notifier.idSource)
      ensures old(Ready()) && old(showConfirmation) && !old(isSubmitting) && Errors() == [] ==>
        && isSubmitting
        && notifier.notifications == old(notifier.notifications) && notifier.issued == old(notifier.issued)
      ensures userAccounts == old(userAccounts) && form == old(form)
      ensures destinationAccountInfo == old(destinationAccountInfo)
      ensures transferCompleted == old(transferCompleted) && completedTransfer == old(completedTransfer)
      ensures lookups == old(lookups)
    {
      if !Ready() {
        touched := touched + AllFields;
        UpdateStepsStatus();
        return;
      }
      if !showConfirmation {
        showConfirmation := true;
        UpdateStepsStatus();
      } else {
        ExecuteTransfer();
      }
    }
  }

  /** A ready form whose accounts differ gets past the last checks: the
      second submit issues the create call. */
  lemma ReadyFormIsSent(form: FormValue, accounts: seq<Account>, formatMoney: int -> string)
    requires FormValid(form, accounts)
    requires form.fromAccountNumber != form.toAccountNumber
    ensures FinalValidation(form, accounts, formatMoney) == []
  {
    ValidFormFinalChecks(form, accounts, formatMoney);
  }
}
