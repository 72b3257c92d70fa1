# Money transfer: a verified model of its decision logic

The system is a small banking application. An Angular front end lets a signed-in user:

- see their accounts and a dashboard;
- browse and filter their transfer history;
- register in three steps;
- send money from one of their accounts to any account number.

A Spring back end stores users, accounts and transfers. Registration gives each new user one account holding 1000.00 EUR. A transfer debits the source account and credits the destination account.

This project models the parts of both sides that decide things:

- the transfer form:
  - field validation, with the final checks before sending;
  - the two-step submit, guarded by a single-flight flag;
  - the destination-account check;
  - the wizard's step flags;
  - the grouping of account numbers by four;
- the HTTP stages:
  - a time-limited GET cache keyed by URL;
  - the retry decision, with linear backoff;
  - the status-to-message classifier, which stays silent on 401;
  - bearer-token injection, with logout on 401;
- the session:
  - the token and user pair, and its restoration from storage;
  - the expiry test;
  - the route guard;
- the gateways:
  - the unwrapping of `{success, message, data}` replies;
  - the direction of a transfer as seen by the signed-in user;
  - the client-side transfer checks;
- the notification list;
- the views:
  - the account summary, its sort and the status classes;
  - the dashboard figures, its five most recent transfers and the most frequent destination;
  - the history filters;
- the registration step machine;
- on the back end, `createTransfer` and `register`, including the account-number format and the user map returned to the client.

## Modelling decisions

**Types**
- Money is integer cents. The UI's `0.01` minimum is 1 cent, and the 100-euro "low" threshold is 10000 cents.
- Dates are `Stamp(millis, year, month)` values.
- Session storage is a `map<string, string>`.
- Each notification id comes from an `idSource` function applied to the number of notifications issued so far.

**Components as classes**
- Each component and service whose fields the source updates in place is a `class` with those fields.
- Their methods state the new state in full.
- Side effects are appended to sequence fields and specified exactly:
  - the navigations a router receives;
  - the toasts the notifier shows;
  - the lookups and create calls a component issues;
  - the load requests a view makes.

**Pure code**
- Validators, reply unwrapping, classification, filters and aggregates are functions.
- Lemmas beside them state what the code promises.

**Back end**
- The database is the `Store.Database` class, holding three tables as sequences.
- `TransferService.createTransfer` and `AuthService.register` are methods on it.
- Money conservation, unique emails and the account-number format are proved about them.

**Abstract inputs**
- These are parameters of the model: the password encoder, the token payload decoder, the UUID, `Intl` number and date formatting, and the `localeCompare` order used by the name sort.
- Clocks enter as a `now` argument.

**The HTTP pipeline**
- `next(req)` is given as the outcome it produces. For the retry stage, that is the sequence of attempt outcomes.

**Where the code and the written design disagree, the model follows the code:**
- **Cache expiry.** It uses a strict `>`, so an entry exactly five minutes old is still served.
- **Retry.** `retryInterceptor` is not registered in `main.ts`. Its policy is modelled on its own.
- **401 handling.** A 401 reaches `/login` twice: once through `logout()` and once through the interceptor's own navigation. The guard's refusal also navigates twice.
- **Destination lookup.** A stale destination lookup is not discarded: whichever lookup settles last writes the state.
- **Token expiry.** A token payload without `exp` never expires. In the code, `exp * 1000` is `NaN`, and `NaN` compared with anything is false.
- **Leaving registration step 2.** Step 2 can be left with passwords that differ, because the `passwordsMatch()` call sits after the `return`.
- **Failed replies.** An unsuccessful reply that arrives with status 200 surfaces each service's default text, not the server's message.

**The three defects under "Findings"** are modelled as written by every member that runs the code:

- the cache interceptor's `HttpCache.Intercept`;
- the session's constructor and `LoadStoredAuth`;
- the back end's `Signup.Login`.

Each corrected rule is a separate member that says "corrected" in its row, with the intended property proved about it: `Session.Restore`, `HttpCache.Cacheable` with `HttpCache.Answer` and `HttpCache.StoreAfter`, and `Signup.UserInfo`.

## Model

| member | source | states |
|---|---|---|
| TransferForm.AccountNumberAccepted | frontend/src/app/components/transfer/transfer.component.ts:310-314 | an empty value is accepted (left to `required`); any other value is accepted exactly when its uppercased form matches `[A-Z0-9]{10,20}` |
| TransferForm.AccountNumberAcceptedChars | frontend/src/app/components/transfer/transfer.component.ts:310-314 | a non-empty value is accepted iff it has 10 to 20 characters, each an ASCII letter of either case or a digit |
| TransferForm.LowercaseNumberAccepted | frontend/src/app/components/transfer/transfer.component.ts:312-313 | a lowercase account number passes, since `toUpperCase` runs before the pattern |
| TransferForm.InsufficientFunds | frontend/src/app/components/transfer/transfer.component.ts:316-321 | `insufficientFunds` is reported iff the amount is non-empty and non-zero, a source account with the selected number exists, and the amount exceeds its balance |
| TransferForm.WholeBalancePasses | frontend/src/app/components/transfer/transfer.component.ts:320 | an amount equal to the selected balance is not reported |
| TransferForm.FinalValidation | frontend/src/app/components/transfer/transfer.component.ts:323-330 | the same-account message is present iff from == to; the balance message iff a found source has balance < amount; the minimum message iff amount < 0.01; nothing else; exactly one message per failed check, the same-account one first and the minimum one last |
| TransferForm.ErrorsDistinct | frontend/src/app/components/transfer/transfer.component.ts:325-328 | the three final-check messages are pairwise different, so each membership above is independent |
| TransferForm.ValidFormFinalChecks | frontend/src/app/components/transfer/transfer.component.ts:323-330 | on a form that passes its field validators the final list is empty iff the two account numbers differ |
| TransferForm.ReadyFormIsSent | frontend/src/app/components/transfer/transfer.component.ts:232-239 | a valid form with distinct accounts produces no final-check message, so `executeTransfer` reaches the create call |
| TransferForm.FormatAccountNumberGroups | frontend/src/app/components/transfer/transfer.component.ts:366-368 | for input without whitespace the output is the groups of four joined by single spaces, and removing the spaces gives the input back |
| TransferForm.FormatAccountNumber | frontend/src/app/components/transfer/transfer.component.ts:366-368 | the grouped and trimmed text whose shape FormatAccountNumberGroups states |
| TransferForm.ChunksShape | frontend/src/app/components/transfer/transfer.component.ts:367 | every group but the last has exactly 4 characters, the last has 1 to 4, and the groups concatenate to the input |
| TransferForm.GroupByFourJoins | frontend/src/app/components/transfer/transfer.component.ts:367 | without line terminators the global replace joins the groups by spaces, with one trailing space exactly when the length is a positive multiple of 4 (which `trim` removes) |
| TransferForm.Gate | frontend/src/app/components/transfer/transfer.component.ts:164-168 | an empty value or one shorter than 10 resets the check to not valid, not validating, no message, no error; otherwise no lookup is made iff the value is one of the user's own account numbers, and then the state is invalid, not validating, with the own-account error |
| TransferForm.LookupOutcome | frontend/src/app/components/transfer/transfer.component.ts:183-194 | after the lookup the check is never validating; it is valid iff the service answered true, and then carries 'Compte destinataire valide' and no error; an answer of false gives the 'introuvable' error; a failed lookup gives the validation-error text; an invalid state carries no message |
| TransferForm.ValidDestinationNeedsConfirmation | frontend/src/app/components/transfer/transfer.component.ts:184-190 | the destination becomes valid iff the server reply is delivered with `success` and `data == true` (absent data counts as false) |
| TransferForm.ValidationToasts | frontend/src/app/components/transfer/transfer.component.ts:234 | one error toast per failed final check, in order, each titled 'Erreur de validation' with that check's message |
| TransferForm.TransferComponent.constructor | frontend/src/app/components/transfer/transfer.component.ts:48-64 | the initial state: empty form, unchecked destination, the four initial steps, no confirmation, not submitting, nothing completed, no calls made |
| TransferForm.TransferComponent.UpdateStepsStatus | frontend/src/app/components/transfer/transfer.component.ts:332-351 | each step's completed and error flags follow the form, the touched controls, the destination check and the confirmation state (`StepsFollow`); numbers, titles and the other fields stay; nothing else changes |
| TransferForm.TransferComponent.OnAccountNumber | frontend/src/app/components/transfer/transfer.component.ts:164-182 | applies the gate; when it lets the value through, the state becomes validating with the 'Vérification en cours...' message and exactly one lookup of that value is recorded; no other state changes |
| TransferForm.TransferComponent.SettleLookup | frontend/src/app/components/transfer/transfer.component.ts:184-194 | the destination state becomes the lookup outcome and nothing else changes |
| TransferForm.TransferComponent.NotifyValidationErrors | frontend/src/app/components/transfer/transfer.component.ts:234 | the notifier gains exactly the validation toasts for the given messages, in order, with consecutive ids |
| TransferForm.TransferComponent.ExecuteTransfer | frontend/src/app/components/transfer/transfer.component.ts:226-248 | while submitting it does nothing; with final-check errors it notifies each one, clears `isSubmitting` and makes no create call; otherwise it sets `isSubmitting` and records exactly one create call with the form |
| TransferForm.TransferComponent.SettleTransfer | frontend/src/app/components/transfer/transfer.component.ts:242-262 | `isSubmitting` ends false; success stores the transfer, sets `transferCompleted` and shows one success toast; failure hides the confirmation, keeps the form and shows one error toast with the message or the default text |
| TransferForm.TransferComponent.OnSubmit | frontend/src/app/components/transfer/transfer.component.ts:208-224 | an unready form (invalid, or destination not valid) only marks every control touched and refreshes the steps, with no confirmation change, no call and no toast; the first ready submit only shows the confirmation and refreshes the steps; a later one runs `executeTransfer`: while submitting nothing happens; otherwise failed final checks clear `isSubmitting` and show one toast per message in order, and passing checks set `isSubmitting` and make exactly one create call with the form |
| RegisterForm.CanProceed | frontend/src/app/components/register/register.component.ts:69-87 | step 1 may proceed iff its five controls are valid; step 2 iff its four controls are valid (the password comparison after the `return` is never reached); any other step always |
| RegisterForm.PasswordsMatch | frontend/src/app/components/register/register.component.ts:59-61 | true iff the password and its confirmation are equal |
| RegisterForm.MismatchDoesNotBlockStep2 | frontend/src/app/components/register/register.component.ts:78-85 | step 2 may be left with passwords that differ |
| RegisterForm.ValidFormProceeds | frontend/src/app/components/register/register.component.ts:69-87 | a fully valid form may leave every step |
| RegisterForm.RegisterComponent.constructor | frontend/src/app/components/register/register.component.ts:18 | the component starts at step 1, not submitting |
| RegisterForm.RegisterComponent.NextStep | frontend/src/app/components/register/register.component.ts:66 | the step goes up by one iff the current step may proceed; it never drops below 1 |
| RegisterForm.RegisterComponent.PreviousStep | frontend/src/app/components/register/register.component.ts:67 | the step goes down by one iff it is above 1, so it stays at least 1 |
| RegisterForm.RegisterComponent.OnSubmit | frontend/src/app/components/register/register.component.ts:89-91 | `isSubmitting` is set iff the form is valid (or already was); the step and controls are untouched |
| HttpCache.Lookup | frontend/src/app/interceptors/cache.interceptor.ts:16-27 | an answer exists iff the URL has an entry at most 300000 ms old (expiry is a strict `>`), and it is that entry's response |
| HttpCache.AfterLookup | frontend/src/app/interceptors/cache.interceptor.ts:20-24 | `get` deletes only the URL's entry, and only when it is expired; every other entry is kept unchanged |
| HttpCache.StoredThenLooked | frontend/src/app/interceptors/cache.interceptor.ts:14-34 | a response stored at t is answered at now iff now - t <= 300000, whatever else the store holds; in particular at the same instant |
| HttpCache.HttpCacheService.constructor | frontend/src/app/interceptors/cache.interceptor.ts:13 | the store starts empty |
| HttpCache.HttpCacheService.Get | frontend/src/app/interceptors/cache.interceptor.ts:16-27 | returns the lookup answer and leaves the store as the lookup leaves it |
| HttpCache.HttpCacheService.Set | frontend/src/app/interceptors/cache.interceptor.ts:29-34 | overwrites the URL's entry with the response stamped now; nothing else changes |
| HttpCache.HttpCacheService.Clear | frontend/src/app/interceptors/cache.interceptor.ts:36-38 | the store is empty afterwards |
| HttpCache.CacheableAsWritten | frontend/src/app/interceptors/cache.interceptor.ts:46-57 | the eligibility test as written: a GET without the skip header whose URL contains neither `/auth/` nor `/transfers`, whatever its query |
| HttpCache.Answer | frontend/src/app/interceptors/cache.interceptor.ts:46-64 | an ineligible request is never served from the store; an eligible one is served what the lookup of its URL answers (for the test as written or the corrected one) |
| HttpCache.AsWrittenAnswersOtherQuery | frontend/src/app/interceptors/cache.interceptor.ts:60-63 | as written, once the first of two eligible GETs of one URL with different queries has stored its response, the second is served that response for five minutes instead of being forwarded |
| HttpCache.Cacheable | frontend/src/app/interceptors/cache.interceptor.ts:46-57 | corrected eligibility (not the code): eligible as written and without query parameters |
| HttpCache.CachedAnswerMatchesQuery | frontend/src/app/interceptors/cache.interceptor.ts:60-63 | corrected rule: intercepting one request never changes what the store serves to another request for the same URL with a different query |
| HttpCache.AfterEventsStoresLastResponse | frontend/src/app/interceptors/cache.interceptor.ts:67-74 | forwarding changes only the URL's entry, which ends up holding the last `HttpResponse` event (if any) stamped now |
| HttpCache.Intercept | frontend/src/app/interceptors/cache.interceptor.ts:44-75 | as written (eligibility ignores the query): an ineligible request is forwarded and the store is untouched; an eligible hit is answered from the store without calling `next`; an eligible miss is forwarded and stores only `HttpResponse` events; `next` is called iff nothing is served from the store |
| RetryPolicy.ShouldRetry | frontend/src/app/interceptors/retry.interceptor.ts:8-10 | a request is retried iff it is a GET or its URL contains `/accounts` or `/transfers` |
| RetryPolicy.Decide | frontend/src/app/interceptors/retry.interceptor.ts:19-27 | the error is rethrown iff the 0-based count is at least 2 or the status is below 500; otherwise the retry waits 1000·(count+1) ms |
| RetryPolicy.LinearBackoff | frontend/src/app/interceptors/retry.interceptor.ts:26 | the delays are 1000 ms then 2000 ms, and the third error is rethrown |
| RetryPolicy.Run | frontend/src/app/interceptors/retry.interceptor.ts:16-30 | the subscription ends after one to three attempts with the last attempt's outcome, the original error object when it failed |
| RetryPolicy.Intercept | frontend/src/app/interceptors/retry.interceptor.ts:8-30 | without GET, `/accounts` or `/transfers` there is exactly one attempt; otherwise at most three, every attempt before the last failed with a status of 500 or more, delay j is 1000·(j+1), and a run that stops early stops on a non-retryable outcome |
| RetryPolicy.ClientErrorsRunOnce | frontend/src/app/interceptors/retry.interceptor.ts:21-23 | a first failure below 500 (status 0 included) makes exactly one attempt |
| ErrorClassifier.MessageFor | frontend/src/app/interceptors/error.interceptor.ts:14-44 | statuses 0, 401, 403, 404, 422, 500 and 503 give their fixed text; 400 gives the server message or 'Données invalides'; any other status the server message or the generic text; never empty |
| ErrorClassifier.Intercept | frontend/src/app/interceptors/error.interceptor.ts:12-61 | the outcome is passed on unchanged; exactly one 'Erreur' toast with the classified message is shown iff the request failed with a status other than 401 |
| AuthInterceptor.WithCredentials | frontend/src/app/interceptors/auth.interceptor.ts:13-24 | with a truthy token the request gains `Authorization: Bearer <token>` and `Content-Type: application/json` and keeps its method, URL, query and other headers; otherwise it is forwarded as is |
| AuthInterceptor.Intercept | frontend/src/app/interceptors/auth.interceptor.ts:8-37 | the outcome of `next` is passed on unchanged; a 401 clears the session and storage and navigates to /login (once in `logout`, once here); any other outcome changes nothing |
| Session.RestoreAsWritten | frontend/src/app/services/auth.service.ts:28-41 | as written: the session stays empty iff the token or the user text is missing or empty; storage is cleared iff the user text fails to parse; otherwise the token is adopted with the parsed user, with no user exactly when the text parses to null |
| Session.RestoreAsWrittenUnpairs | frontend/src/app/services/auth.service.ts:32-36 | storage with a token and the user text "null" makes the as-written restoration adopt a token with no user |
| Session.Restore | frontend/src/app/services/auth.service.ts:28-41 | corrected restoration (not the code): kept empty iff the token or the user text is missing or empty; adopted iff both are present and the text parses to a user object, then holding exactly those; anything else clears storage |
| Session.RestoreAgreesUnlessNull | frontend/src/app/services/auth.service.ts:28-41 | the corrected restoration equals the written one whenever the stored user text does not parse to null |
| Session.ProfileOf | frontend/src/app/services/auth.service.ts:107-116 | the profile holds the user, `fullName` is first + ' ' + last, and `initials` is the uppercased first letter of each non-empty name: two, one or no characters |
| Session.TokenExpired | frontend/src/app/services/auth.service.ts:119-130 | no or empty token, or an undecodable payload, counts as expired; a payload without `exp` never expires; otherwise expired iff now > exp·1000 |
| Session.ValidAtExpiry | frontend/src/app/services/auth.service.ts:125-126 | a token is still valid at exactly exp·1000 ms and expired one millisecond later |
| Session.LoginOutcome | frontend/src/app/services/auth.service.ts:43-59 | `login` yields the data iff the reply succeeded with data; otherwise it fails with the server's message or 'Erreur de connexion' |
| Session.AuthService.constructor | frontend/src/app/services/auth.service.ts:21-26 | a new service runs the as-written restoration on the given storage; there is never a user without a token, and token and user are paired unless the stored user text parses to null |
| Session.AuthService.LoadStoredAuth | frontend/src/app/services/auth.service.ts:28-41 | the session and storage become what the as-written restoration says; a user never appears without a token, and a paired session stays paired unless the stored user text parses to null |
| Session.AuthService.SetAuth | frontend/src/app/services/auth.service.ts:81-86 | token and user are both set, and storage holds the token and the serialized user |
| Session.AuthService.ClearAuth | frontend/src/app/services/auth.service.ts:88-93 | token and user are both cleared, and both storage keys are removed |
| Session.AuthService.Login | frontend/src/app/services/auth.service.ts:43-59 | on success the session holds the returned token and user; on failure the session and storage are unchanged |
| Session.AuthService.Logout | frontend/src/app/services/auth.service.ts:76-79 | the session and both storage keys are cleared and exactly one navigation to /login is recorded |
| Session.AuthService.IsAuthenticated | frontend/src/app/services/auth.service.ts:95-97 | signed in iff the token is present and non-empty |
| Session.AuthService.IsTokenExpired | frontend/src/app/services/auth.service.ts:119-130 | a session that is not signed in counts as expired; otherwise the token's payload decides: undecodable means expired, no `exp` never expires, else expired iff now > exp·1000 |
| Session.AuthService.GetUserProfile | frontend/src/app/services/auth.service.ts:107-116 | null iff there is no user; otherwise the profile of the current user |
| Guard.LoginWithReturn | frontend/src/app/guards/auth.guard.ts:33 | the refusal navigation goes to /login with `returnUrl` set to the requested URL |
| Guard.AuthGuard.CanActivate | frontend/src/app/guards/auth.guard.ts:17-35 | the route is allowed iff the session is authenticated and its token is not expired; allowed means no toast, logout or navigation; refused means one 'Session expirée' warning, the session and storage cleared, and two navigations: /login from `logout`, then /login with `returnUrl` |
| AccountGateway.RequireData | frontend/src/app/services/account.service.ts:35-39 | the `map` step of a gateway that demands `success` and `data` |
| AccountGateway.UserAccounts | frontend/src/app/services/account.service.ts:17-30 | the accounts are delivered iff the reply arrived with `success`, and are `data` or `[]`; a failure carries the server message or the default text |
| AccountGateway.AccountByNumber | frontend/src/app/services/account.service.ts:32-45 | an account is delivered iff the reply arrived with `success` and `data`; a failure carries the server message or the default text |
| AccountGateway.NotFoundTextIsReplaced | frontend/src/app/services/account.service.ts:36-42 | an unsuccessful reply that did arrive surfaces the default text, never 'Compte introuvable' |
| AccountGateway.CheckExists | frontend/src/app/services/account.service.ts:47-61 | a result is delivered iff the reply arrived with `success`; it is true iff `data` is true (absent data means false) |
| AccountGateway.SearchRequest | frontend/src/app/services/account.service.ts:48-50 | the check is a GET of `/accounts/search` whose only query parameter is `accountNumber` |
| AccountGateway.SearchesShareUrl | frontend/src/app/services/account.service.ts:48-50 | two searches for different numbers share one URL and differ only in their query |
| AccountGateway.MapToAccountSummary | frontend/src/app/services/account.service.ts:70-78 | number, balance and currency are copied; the display text is the formatted balance; `isActive` iff balance >= 0 |
| AccountGateway.AccountSummaries | frontend/src/app/services/account.service.ts:64-68 | one summary per delivered account, in order; a failure is passed on with its message |
| TransferGateway.CreateTransfer | frontend/src/app/services/transfer.service.ts:21-34 | the transfer is delivered iff the reply arrived with `success` and `data`; a failure carries the server message or 'Erreur lors du transfert' |
| TransferGateway.RefusedTransferShowsDefault | frontend/src/app/services/transfer.service.ts:25-32 | an unsuccessful reply that did arrive surfaces the default text, not the server's message |
| TransferGateway.UserTransfers | frontend/src/app/services/transfer.service.ts:36-49 | the transfers are delivered iff the reply arrived with `success`, and are `data` or `[]` |
| TransferGateway.TransferById | frontend/src/app/services/transfer.service.ts:51-64 | the transfer is delivered iff the reply arrived with `success` and `data` |
| TransferGateway.FormatAmount | frontend/src/app/services/transfer.service.ts:90-97 | the formatted amount behind '-' for an outgoing transfer and '+' otherwise |
| TransferGateway.MapToTransferSummary | frontend/src/app/services/transfer.service.ts:73-88 | outgoing iff the source account's owner is the signed-in user; the counterpart is the destination when outgoing and the source otherwise; an absent or empty description becomes 'Aucune description'; the other fields are copied; the sign matches the direction |
| TransferGateway.SignedOutSeesIncoming | frontend/src/app/services/transfer.service.ts:74-75 | with no signed-in user every transfer reads as incoming from its source |
| TransferGateway.ValidateTransfer | frontend/src/app/services/transfer.service.ts:111-131 | the same-account message iff from == to; the amount message iff amount <= 0; the balance message iff a found source has balance < amount; exactly one message per failed check, the same-account one first and the balance one last |
| TransferGateway.ValidateTransferAccepts | frontend/src/app/services/transfer.service.ts:111-131 | the list is empty iff the accounts differ, the amount is positive and no found source is short of it |
| Navigation.Router.constructor | frontend/src/app/services/auth.service.ts:23 | the router stand-in starts with no navigations |
| Navigation.Router.Navigate | frontend/src/app/services/auth.service.ts:78 | each `navigate` call appends exactly one navigation to the log |
| Notifications.Stamped | frontend/src/app/services/notification.service.ts:22-28 | the caller's kind, title and message with the generated id; the duration is the caller's when present and non-zero, else 5000 |
| Notifications.WithoutId | frontend/src/app/services/notification.service.ts:57-61 | exactly the entries whose id differs from the removed one |
| Notifications.WithoutIdKeepsOrder | frontend/src/app/services/notification.service.ts:59 | the remaining entries keep their order |
| Notifications.WithoutUnknownId | frontend/src/app/services/notification.service.ts:57-61 | removing an id no entry carries changes nothing |
| Notifications.NotificationService.constructor | frontend/src/app/services/notification.service.ts:17 | the list starts empty |
| Notifications.NotificationService.Show | frontend/src/app/services/notification.service.ts:22-31 | exactly one stamped entry is appended after the earlier ones, with the next generated id |
| Notifications.NotificationService.NotifySuccess | frontend/src/app/services/notification.service.ts:41-43 | `show` with the success kind |
| Notifications.NotificationService.NotifyError | frontend/src/app/services/notification.service.ts:45-47 | `show` with the error kind |
| Notifications.NotificationService.NotifyWarning | frontend/src/app/services/notification.service.ts:49-51 | `show` with the warning kind |
| Notifications.NotificationService.NotifyInfo | frontend/src/app/services/notification.service.ts:53-55 | `show` with the info kind |
| Notifications.NotificationService.Remove | frontend/src/app/services/notification.service.ts:57-61 | the list becomes the entries without that id |
| Notifications.NotificationService.Clear | frontend/src/app/services/notification.service.ts:63-65 | the list is empty |
| AccountsView.MaxOf | frontend/src/app/components/accounts/account.component.ts:171 | `Math.max` of a non-empty list is an element no element exceeds |
| AccountsView.MinOf | frontend/src/app/components/accounts/account.component.ts:172 | `Math.min` of a non-empty list is an element no element is below |
| AccountsView.Enrich | frontend/src/app/components/accounts/account.component.ts:135-143 | one entry per account, in order; an account is main iff it is the first or carries the highest balance |
| AccountsView.AtHighest | frontend/src/app/components/accounts/account.component.ts:138 | an account carries the highest balance iff no account has a larger one |
| AccountsView.ActiveInactiveSplit | frontend/src/app/components/accounts/account.component.ts:169-170 | active + inactive = the number of accounts |
| AccountsView.Balances | frontend/src/app/components/accounts/account.component.ts:165 | the balances of the accounts, in order |
| AccountsView.AverageRestoresTotal | frontend/src/app/components/accounts/account.component.ts:173 | the average times the count gives the total back |
| AccountsView.ExtremesBound | frontend/src/app/components/accounts/account.component.ts:171-172 | lowest <= every balance <= highest, and both are balances of the list |
| AccountsView.SummaryOf | frontend/src/app/components/accounts/account.component.ts:152-175 | with no accounts every figure is 0; otherwise the total is the sum of balances, active/inactive count balance >= 0 / < 0, highest and lowest are the extremes, and the average is total / count |
| AccountsView.StatusClass | frontend/src/app/components/accounts/account.component.ts:306-311 | 'negative' iff balance < 0; 'low' iff 0 <= balance < 100 euros; 'primary' iff not low and main; 'positive' otherwise |
| AccountsView.StatusText | frontend/src/app/components/accounts/account.component.ts:313-318 | one of the four status texts |
| AccountsView.StatusTextMatchesClass | frontend/src/app/components/accounts/account.component.ts:306-318 | the text is the one that goes with the class: both follow the same order of tests |
| AccountsView.BalancePercentage | frontend/src/app/components/accounts/account.component.ts:320-323 | 0 when the total is 0; otherwise the percentage times the total is 100 times the balance |
| AccountsView.SumOfPercentagesScales | frontend/src/app/components/accounts/account.component.ts:320-323 | the percentages of a list against a non-zero total add up to (sum / total)·100 |
| AccountsView.PercentagesAddUp | frontend/src/app/components/accounts/account.component.ts:320-323 | against their own non-zero total, the accounts' percentages add up to 100 |
| AccountsView.Flip | frontend/src/app/components/accounts/account.component.ts:238 | the direction toggle always changes the direction |
| AccountsView.BalanceSortOrders | frontend/src/app/components/accounts/account.component.ts:247-265 | the balance sort is a permutation, ascending for 'asc' and descending for 'desc' |
| AccountsView.SortKey | frontend/src/app/components/accounts/account.component.ts:248-263 | the comparator as a key: balance, creation time or the name order, negated for 'desc' |
| AccountsView.AccountComponent.constructor | frontend/src/app/components/accounts/account.component.ts:44-66 | the initial state: no accounts, empty summary, loading, sorted by balance descending |
| AccountsView.AccountComponent.CalculateSummary | frontend/src/app/components/accounts/account.component.ts:152-175 | the summary becomes the figures of the current accounts; nothing else changes |
| AccountsView.AccountComponent.SortAccounts | frontend/src/app/components/accounts/account.component.ts:247-265 | the accounts become their sort by the current criterion and direction: a permutation, ordered by balance when that is the criterion |
| AccountsView.AccountComponent.SetSortBy | frontend/src/app/components/accounts/account.component.ts:236-245 | the same criterion flips the direction; a new one is set with direction 'desc'; then the accounts are re-sorted |
| AccountsView.AccountComponent.LoadAccounts | frontend/src/app/components/accounts/account.component.ts:108-111 | a load sets loading, clears the error flag and records one request |
| AccountsView.AccountComponent.RefreshAccounts | frontend/src/app/components/accounts/account.component.ts:187-193 | while loading nothing at all changes; otherwise refreshing and loading are set, one request is recorded and one info toast is shown |
| AccountsView.AccountComponent.Adopt | frontend/src/app/components/accounts/account.component.ts:121-128 | the delivered accounts are kept, enriched, summarised and sorted, and the error flag is cleared |
| AccountsView.AccountComponent.SettleLoad | frontend/src/app/components/accounts/account.component.ts:115-131 | loading and refreshing end; success adopts, summarises and sorts the accounts, keeps the message and shows no toast; failure sets the error flag and message and shows one error toast |
| Dashboard.NewestFirstHeadIsLatest | frontend/src/app/components/dashboard/dashboard.component.ts:167-172 | the head of the newest-first order is a transfer of the list carrying the latest date |
| Dashboard.RecentTransfers | frontend/src/app/components/dashboard/dashboard.component.ts:175-180 | at most five entries (all of them when fewer), a sub-multiset of the list, newest first |
| Dashboard.NewestPrefix | frontend/src/app/components/dashboard/dashboard.component.ts:177-179 | every prefix of a newest-first arrangement holds transfers of the list in descending date order |
| Dashboard.RecentAreNewest | frontend/src/app/components/dashboard/dashboard.component.ts:175-180 | every transfer left out is no newer than any recent entry |
| Dashboard.Greeting | frontend/src/app/components/dashboard/dashboard.component.ts:240-248 | 'Bonjour' iff 6 <= hour < 12; 'Bon après-midi' iff 12 <= hour < 18; 'Bonsoir' iff 18 <= hour < 22; 'Bonne nuit' otherwise |
| Dashboard.StatusColor | frontend/src/app/components/dashboard/dashboard.component.ts:268-279 | COMPLETED gives 'success', PENDING 'warning', FAILED 'danger', anything else 'secondary', each iff |
| Dashboard.TotalIncomingThisMonth | frontend/src/app/components/dashboard/dashboard.component.ts:300-312 | the sum of the amounts of this month's incoming transfers |
| Dashboard.TotalOutgoingThisMonth | frontend/src/app/components/dashboard/dashboard.component.ts:314-326 | the sum of the amounts of this month's outgoing transfers |
| Dashboard.MonthTotalsSplit | frontend/src/app/components/dashboard/dashboard.component.ts:300-326 | the incoming and outgoing monthly totals add up to the total of this month's transfers |
| Dashboard.Destinations | frontend/src/app/components/dashboard/dashboard.component.ts:360 | the counterparts of the outgoing transfers, in order |
| Dashboard.FirstOccurrences | frontend/src/app/components/dashboard/dashboard.component.ts:365-370 | the distinct destinations in the order `accountCounts` receives them |
| Dashboard.ScanFindsFirstMaximum | frontend/src/app/components/dashboard/dashboard.component.ts:373-381 | with positive counts the strict `>` scan ends on the first key of maximal count |
| Dashboard.CountDestinations | frontend/src/app/components/dashboard/dashboard.component.ts:365-370 | the loop leaves each destination counted by its number of occurrences, keyed in first-occurrence order |
| Dashboard.PickMostFrequent | frontend/src/app/components/dashboard/dashboard.component.ts:373-381 | the loop's running maximum ends on the scan's winner |
| Dashboard.MostFrequentDestination | frontend/src/app/components/dashboard/dashboard.component.ts:359-386 | null without outgoing transfers; otherwise a destination no other outnumbers, the first seen among those that tie; null also exactly when that winner is the empty string, which is then maximal and first among ties |
| Dashboard.WinnerIsMaximal | frontend/src/app/components/dashboard/dashboard.component.ts:373-381 | the scan's winner is a destination no other destination outnumbers |
| Dashboard.WinnerComesFirst | frontend/src/app/components/dashboard/dashboard.component.ts:373-381 | among the destinations that tie with the winner, the winner was seen first |
| Dashboard.DashboardComponent.constructor | frontend/src/app/components/dashboard/dashboard.component.ts:40-59 | the initial state: no data, zero stats, loading |
| Dashboard.DashboardComponent.CalculateStats | frontend/src/app/components/dashboard/dashboard.component.ts:146-173 | the total is the sum of balances, the count is the number of accounts, this month's count is the number of transfers in the current month and year, and the last transaction date is the latest date when transfers exist and unchanged otherwise |
| Dashboard.DashboardComponent.PrepareRecentTransfers | frontend/src/app/components/dashboard/dashboard.component.ts:175-180 | the recent list becomes the five newest transfers |
| Dashboard.DashboardComponent.LoadDashboardData | frontend/src/app/components/dashboard/dashboard.component.ts:111-113 | a load sets loading, clears the error flag and records one request |
| Dashboard.DashboardComponent.RefreshData | frontend/src/app/components/dashboard/dashboard.component.ts:184-189 | while loading nothing changes; otherwise refreshing is set and one load is requested |
| Dashboard.DashboardComponent.SettleLoad | frontend/src/app/components/dashboard/dashboard.component.ts:119-138 | loading and refreshing end; success stores both lists, recomputes every stat (the last transaction date only when there are transfers, then the newest date) and the recent list, keeps the message and shows no toast; failure sets the error flag and message and shows one error toast |
| History.Filtered | frontend/src/app/components/transfer-history/transfer-history.component.ts:72-88 | a transfer is listed iff it matches the type filter ('all' keeps every type) and, for a non-empty term, its lowercased description or account number contains the lowercased term |
| History.FilteredIsSubsequence | frontend/src/app/components/transfer-history/transfer-history.component.ts:72-88 | the filtered list is an order-preserving subsequence of the full list |
| History.NoFilterKeepsAll | frontend/src/app/components/transfer-history/transfer-history.component.ts:75-86 | 'all' with an empty term lists every transfer, in order |
| History.TransferHistoryComponent.constructor | frontend/src/app/components/transfer-history/transfer-history.component.ts:21-25 | the initial state: empty lists, loading, filter 'all', empty search |
| History.TransferHistoryComponent.ApplyFilters | frontend/src/app/components/transfer-history/transfer-history.component.ts:72-88 | the filtered list becomes the filter of the full list; the full list and every other field are unchanged |
| History.TransferHistoryComponent.OnFilterChange | frontend/src/app/components/transfer-history/transfer-history.component.ts:61-64 | the filter is set and the list recomputed |
| History.TransferHistoryComponent.OnSearchChange | frontend/src/app/components/transfer-history/transfer-history.component.ts:66-69 | the search term is set and the list recomputed |
| History.TransferHistoryComponent.FilterCount | frontend/src/app/components/transfer-history/transfer-history.component.ts:96-99 | the number of transfers listed under the filter with no search term, at most the length |
| History.TransferHistoryComponent.DirectionCountsAddUp | frontend/src/app/components/transfer-history/transfer-history.component.ts:96-99 | the incoming and outgoing counts add up to the count under 'all' |
| History.FilterCompose | frontend/src/app/components/transfer-history/transfer-history.component.ts:72-88 | running the type filter and then the search filter lists the same transfers as one filter testing both conditions |
| History.DirectionSplit | frontend/src/app/components/transfer-history/transfer-history.component.ts:96-99 | every transfer is counted as incoming or as outgoing, never both |
| Guard.AuthGuard.constructor | frontend/src/app/guards/auth.guard.ts:11-15 | the guard holds the given session and notifier |
| Dashboard.ScanWinner | frontend/src/app/components/dashboard/dashboard.component.ts:373-381 | the scan's winner is a destination whose number of occurrences no destination exceeds and every destination seen before it falls short of |
| Sorting.SortByKey | frontend/src/app/components/accounts/account.component.ts:248-264 | the sort keeps the length and the multiset of elements |
| Sorting.SortByKeyOrdered | frontend/src/app/components/accounts/account.component.ts:248-264 | the result is ascending by the comparator's key |
| Sorting.SortByKeyMembers | frontend/src/app/components/dashboard/dashboard.component.ts:177-179 | the result holds exactly the elements it was given |
| Sorting.SortOrderedIsIdentity | frontend/src/app/components/accounts/account.component.ts:248-264 | an already ordered list is left as it is |
| Domain.FindAccount | frontend/src/app/components/transfer/transfer.component.ts:326 | `find` answers None iff no account carries the number; otherwise an account of the list with that number |
| Domain.FindAccountIsFirst | frontend/src/app/components/transfer/transfer.component.ts:326 | the account found is the first with that number |
| Ledger.IndexOf | src/main/java/com/moneytransfer/MoneyTransferApplication/service/TransferService.java:23-27 | the lookup by number fails iff no row carries it; otherwise it is the first such row |
| Ledger.Credit | src/main/java/com/moneytransfer/MoneyTransferApplication/service/TransferService.java:34-39 | one row's balance moves by the delta; every other row is unchanged |
| Ledger.CreditShiftsTotal | src/main/java/com/moneytransfer/MoneyTransferApplication/service/TransferService.java:34-39 | crediting one row moves the total of balances by exactly the delta |
| Ledger.SettledConservesTotal | src/main/java/com/moneytransfer/MoneyTransferApplication/service/TransferService.java:33-39 | debit then credit leaves the total of all balances unchanged |
| Ledger.SettledMovesAmount | src/main/java/com/moneytransfer/MoneyTransferApplication/service/TransferService.java:33-39 | for distinct accounts the source loses the amount, the destination gains it, their sum is kept; a transfer to the same row changes nothing; no other row and no other field changes |
| Ledger.SourceNotOverdrawn | src/main/java/com/moneytransfer/MoneyTransferApplication/service/TransferService.java:29-34 | a source whose balance covers the amount is not negative afterwards |
| Ledger.Move | src/main/java/com/moneytransfer/MoneyTransferApplication/service/TransferService.java:33-39 | the rows become the settled rows; users and transfers are unchanged |
| Ledger.CreateTransfer | src/main/java/com/moneytransfer/MoneyTransferApplication/service/TransferService.java:21-44 | a missing source or destination, or a balance below the amount, throws its message and changes nothing; otherwise the rows are settled and one COMPLETED transfer holding the updated accounts, the amount and the description is appended and returned |
| Signup.GenerateAccountNumber | backend/src/main/java/com/moneytransfer/MoneyTransferApplication/service/AuthService.java:86-88 | 13 characters: 'ACC' then the uppercased first ten hex digits of the UUID with its dashes removed |
| Signup.UuidDigits | backend/src/main/java/com/moneytransfer/MoneyTransferApplication/service/AuthService.java:87 | removing the dashes of a UUID text leaves its 32 hex digits, the first eight and the next two in place |
| Signup.AccountNumberFormat | backend/src/main/java/com/moneytransfer/MoneyTransferApplication/service/AuthService.java:86-88 | a generated number is 'ACC' followed by 10 uppercase hex characters, 13 in total |
| Signup.NewUser | backend/src/main/java/com/moneytransfer/MoneyTransferApplication/service/AuthService.java:64-73 | the saved user carries the request's fields and the encoded (not the raw) password |
| Signup.DefaultAccount | backend/src/main/java/com/moneytransfer/MoneyTransferApplication/entity/Account.java:46-50 | the default account holds the number, a balance of 1000.00, the currency EUR and the saved user |
| Signup.Register | backend/src/main/java/com/moneytransfer/MoneyTransferApplication/service/AuthService.java:59-84 | a taken email throws 'Email déjà utilisé' and saves nothing; otherwise exactly one user and one default account for it are appended; emails stay unique |
| Signup.UserInfoAsWritten | backend/src/main/java/com/moneytransfer/MoneyTransferApplication/service/AuthService.java:90-102 | the user map as written: its nine keys, with `idNumber` filled from the phone number |
| Signup.AsWrittenHidesIdNumber | backend/src/main/java/com/moneytransfer/MoneyTransferApplication/service/AuthService.java:99 | a user whose id number differs from the phone number is reported with the phone number in its place |
| Signup.UserInfo | backend/src/main/java/com/moneytransfer/MoneyTransferApplication/service/AuthService.java:90-102 | corrected user map (not the code): the nine keys, each read from its own field |
| Signup.UserInfoOmitsPassword | backend/src/main/java/com/moneytransfer/MoneyTransferApplication/service/AuthService.java:90-102 | neither the map as written nor the corrected one has a password key or an entry holding the password |
| Signup.FindUser | backend/src/main/java/com/moneytransfer/MoneyTransferApplication/service/AuthService.java:50 | None iff no user has the email; otherwise a user with that email |
| Signup.Login | backend/src/main/java/com/moneytransfer/MoneyTransferApplication/service/AuthService.java:39-57 | a result exists iff authentication issued a token and a user has the email; it has exactly the keys 'token' and 'user', holding the token and that user's map as written |
| Signup.LoginProfileIsUnique | backend/src/main/java/com/moneytransfer/MoneyTransferApplication/service/AuthService.java:50-56 | with unique emails the result's profile is the signed-in user's map as written, which is the user's own fields except `idNumber`, holding the phone number |
| Store.Database.constructor | backend/src/main/java/com/moneytransfer/MoneyTransferApplication/service/AuthService.java:60 | the tables start empty, with unique emails |

## Left out

- Timers are not modelled:
  - the automatic removal of a notification after its duration;
  - the delayed navigation after a completed transfer;
  - the simulated delay of registration;
  - the dashboard's refresh interval;
  - animations.

  The retry stage models the delay values, not the waiting.
- Randomness is an input: notification ids, `UUID.randomUUID` and the simulated statistics (`Math.random`) of the accounts and dashboard views. The simulated figures themselves are not modelled.
- `Intl.NumberFormat`, `DateTimeFormat`, the currency pipe and `localeCompare` are parameters. Their output text is not modelled.
- IEEE doubles are not modelled. Amounts are exact integer cents, and the back end's `BigDecimal` is exact too. The percentage and the summary average are exact `real` quotients, with no floating-point rounding.
- String lengths count characters, not UTF-16 code units.
- Case mapping covers ASCII letters only, for the search filter, the account-number validator, the profile initials and the UUID digits.
- Base64 and JSON decoding of the token is an abstract `decodePayload` that may fail. `JSON.parse` of the stored user is an abstract parser that may fail.
- The rxjs machinery is not modelled: `debounceTime`, `distinctUntilChanged`, `switchMap`, `takeUntil`, `finalize` and `forkJoin`. The destination check is modelled as the gate on the debounced value plus the state the lookup writes when it settles.
- Angular templates, lifecycle hooks and `Validators` internals are not modelled. The registration form takes each control's validity as a boolean input; the transfer form computes its validity from the form value and the user's accounts. The Router is a log of navigations.
- Not modelled, because they are component wiring rather than logic:
  - the transfer component's own `loadUserAccounts`, including its `balance > 0` filter and redirect; the component is built with its account list;
  - `handleRouteParams`;
  - `cancelTransfer`, `goBack`, `setQuickAmount` and `setMaxAmount`.
- The following are not modelled: account-number copying, CSV export, navigation helpers and `getTransferSummaries` (a `map` of `MapToTransferSummary`).
- `loading.interceptor`, the front end's `register` call, the navbar, the login component and the notification component are not part of this model.
- Not modelled on the Spring side:
  - controllers, JPA repositories and their queries;
  - `@Transactional` atomicity and database unique constraints;
  - `AuthenticationManager` and `JwtTokenProvider`.

  `login` receives the token that authentication produced, or none.
- `Ledger.CreateTransfer` does not check that the requester owns the source account, and neither does the source. It does not check that the amount is positive either; the source checks that only in its controller.
- `Sorting.SortByKey` is an insertion sort. It stands in for `Array.prototype.sort`, and only its ordering and permutation properties are stated. Stability is not stated.
- The numeric-key ordering of `Object.entries` in the most-frequent-destination loop is not modelled. Keys are taken in first-occurrence order, whereas JavaScript lists integer-like keys first.

- TransferForm.FormValid: validity is recomputed from the current form values. In the source, `amountValidator` re-runs only when the amount changes. So after the source account is switched to one whose balance is below the amount, the source still treats the form as valid. `TransferForm.TransferComponent.OnSubmit` therefore marks the controls touched where the source would show the confirmation; the later 'Solde insuffisant' toast of the final checks is not reached.
- Notifications.Stamped: the `timestamp` (`new Date()`) is not part of the modelled notification.
- HttpCache.SkipsCache and AuthInterceptor.WithCredentials: header names are compared case-sensitively. Angular's `HttpHeaders` compares them case-insensitively.
- HttpCache.Intercept: one `now` serves both the lookup and the storing of responses. The source reads the clock separately in `get` and in each `set`.
- Signup.NewUser: the `username` column of the user entity is not modelled. The column is declared unique and non-null, and `register` never sets it, so the insert would depend on the database constraints, which are not modelled.
- Navigation.Router: the router is not part of the source. It stands in for Angular's `Router` as a log of the navigations requested.

## Findings

| source | as written | input that shows it | evidently intended | confidence | as-written member | corrected member |
|---|---|---|---|---|---|---|
| frontend/src/app/services/auth.service.ts:32-36 | a stored user text is adopted whenever it parses, and `JSON.parse("null")` yields `null` | storage with `token = "t"` and `currentUser = "null"` | restore only when the parsed user is an object; otherwise clear storage, keeping token and user paired | not executed | Session.RestoreAsWrittenUnpairs | Session.Restore |
| frontend/src/app/interceptors/cache.interceptor.ts:60 | cache entries are keyed by `req.url`, which leaves out the query parameters | two `checkAccountExists` calls for different numbers within five minutes: both are `GET /accounts/search`, so the second is answered from the first one's cache entry | a request with query parameters is not served from or stored under its bare URL | not executed | HttpCache.AsWrittenAnswersOtherQuery | HttpCache.CachedAnswerMatchesQuery |
| backend/src/main/java/com/moneytransfer/MoneyTransferApplication/service/AuthService.java:99 | the `idNumber` entry is filled from `getPhoneNumber()` | a user with phone "0600000000" and id number "AB123" is reported with `idNumber = "0600000000"` | `idNumber` reports the user's id number | not executed | Signup.AsWrittenHidesIdNumber | Signup.UserInfo |
