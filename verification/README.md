# Eco-chain dashboard: session and balance model

A Dafny model of the logic core of a browser dashboard for a recycling-incentive
application with three roles: end user, collection point and factory. The model covers:

- the session store (`AuthProvider`): at most one signed-in user, a mock login that accepts any non-empty username and password, logout, and a signed balance update;
- the start page's dispatch from the session to one of four views;
- the three dashboard handlers that drive the session:
  - the factory's transfer, guarded by required fields and by sufficiency;
  - the collection point's QR scan, which credits a random amount between 2000 and 11999;
  - the end user's submission form, which never touches the balance;
- the login / registration form: validation, request bodies, and interpretation of the server's reply.

Every handler is a pure transition function. Its result records the new state and the outcome the page
would report. The `App` module puts all handlers over one shared session and proves trace properties of
that composition:

- the balance of a signed-in user never becomes negative;
- only login and logout change who is signed in;
- only the factory transfer can lower a balance;
- the credential form never creates a session.

Two limits apply to these properties:

- No page calls the store's login. The `SignIn` event stands for a caller outside the pages.
- The deferred scan update is applied to the session as it is when the timer fires. The source applies it to the user captured when the scan was submitted. So in the source, a scan that completes after logout signs that user back in. "Only login and logout change who is signed in" holds of the model, not of the source.

Facts about the program the model relies on:

- A collection point's scan credits a random amount. There is no price table, and the point is never debited.
- A fresh factory starts at 500 000.
- The mock login needs a non-empty password as well as a non-empty username.
- A successful remote login stores a token and navigates by the role picked in the form. It never creates a local session.
- The transfer's sufficiency guard compares with the user's balance, or with 0 when nobody is signed in.

Inputs from outside the program are parameters:

- the random id drawn at login;
- the random draw of a scan, a real in [0, 1);
- the server's reply or a transport failure;
- a file picked in the browser, known only by its name.

## Model

| member | source | states |
|---|---|---|
| AuthContext.TagInjective | src/contexts/AuthContext.tsx:3 | the three role tags are pairwise distinct, so a tag identifies at most one role |
| AuthContext.Login | src/contexts/AuthContext.tsx:38-51 | accepted exactly when username and password are both non-empty; a refusal leaves the session as it was; an acceptance yields a user with the given id, username and role, balance 50000 / 150000 / 500000 by role, and the fixed Tashkent location exactly when the role is not end user |
| AuthContext.InitialBalanceTiers | src/contexts/AuthContext.tsx:44 | the starting balances are positive and ordered end user < collection point < factory |
| AuthContext.LoginReplacesSession | src/contexts/AuthContext.tsx:47 | an accepted login yields the same session whatever was signed in before |
| AuthContext.Logout | src/contexts/AuthContext.tsx:53-55 | after logout nobody is signed in |
| AuthContext.LogoutIdempotent | src/contexts/AuthContext.tsx:53-55 | logging out twice equals logging out once |
| AuthContext.UpdateBalance | src/contexts/AuthContext.tsx:57-61 | without a user nothing changes; with one, the balance grows by exactly the delta and id, username, role and location are kept |
| AuthContext.UpdateBalanceInverse | src/contexts/AuthContext.tsx:57-61 | updating by d and then by -d restores the session |
| AuthContext.UpdateBalanceCompose | src/contexts/AuthContext.tsx:57-61 | two updates equal one update by their sum |
| Index.ViewForTag | src/pages/Index.tsx:15-24 | a tag selects the dashboard owned by the role it names, and the login view exactly when it names no role |
| Index.Dispatch | src/pages/Index.tsx:8-25 | the login view exactly when nobody is signed in; otherwise the dashboard owned by the user's role |
| Index.DispatchDependsOnlyOnRole | src/pages/Index.tsx:15-24 | two users with the same role see the same view, whatever their balance, name, id or location |
| Index.DispatchByRole | src/pages/Index.tsx:15-21 | end user, collection point and factory land on the user, collection-point and factory dashboards |
| Index.DispatchAfterLogout | src/pages/Index.tsx:11-13 | after logout the start page shows the login view |
| FactoryDashboard.HandleTransfer | src/components/dashboards/FactoryDashboard.tsx:19-40 | ignored (nothing changes) exactly when point or amount is empty; refused (nothing changes) exactly when the amount exceeds the balance, a missing user counting as 0; otherwise the balance drops by exactly the amount, stays non-negative, the account is otherwise kept and the form is cleared |
| FactoryDashboard.TransferWholeBalance | src/components/dashboards/FactoryDashboard.tsx:24 | an amount equal to the balance is accepted and leaves 0 |
| FactoryDashboard.TransferStaysInRange | src/components/dashboards/FactoryDashboard.tsx:24-33 | an amount in 0..balance commits and keeps the balance between 0 and its old value |
| FactoryDashboard.NegativeAmountRaisesBalance | src/components/dashboards/FactoryDashboard.tsx:23-33 | a negative amount passes the guard and raises a non-negative balance |
| FactoryDashboard.WasteTypeNotRequired | src/components/dashboards/FactoryDashboard.tsx:21 | the waste type never changes the outcome or the session |
| FactoryDashboard.RefusalIsStable | src/components/dashboards/FactoryDashboard.tsx:24-31 | a refused transfer leaves session and form as they were, so resubmitting is refused identically |
| FactoryDashboard.ScenarioCommit | src/components/dashboards/FactoryDashboard.tsx:19-40 | a freshly logged-in factory (500 000) sending 100 000 to point1 for plastic keeps 400 000 and gets an empty form |
| FactoryDashboard.ScenarioRefuse | src/components/dashboards/FactoryDashboard.tsx:24-31 | a freshly logged-in factory cannot send 600 000 and keeps 500 000 |
| CollectionPointDashboard.Credit | src/components/dashboards/CollectionPointDashboard.tsx:22 | every draw in [0, 1) yields a credit between 2000 and 11999 |
| CollectionPointDashboard.CreditCoversRange | src/components/dashboards/CollectionPointDashboard.tsx:22 | every amount between 2000 and 11999 is the credit of some draw, so the bounds are tight |
| CollectionPointDashboard.EditCode | src/components/dashboards/CollectionPointDashboard.tsx:112-118 | typing is ignored while a scan runs and otherwise sets the code |
| CollectionPointDashboard.StartScan | src/components/dashboards/CollectionPointDashboard.tsx:14-19 | a completion is scheduled exactly when the code is non-empty; an empty code changes nothing; a scheduled scan raises the flag and keeps the code |
| CollectionPointDashboard.Submit | src/components/dashboards/CollectionPointDashboard.tsx:110-125 | as the page allows it, a scan starts exactly when no scan runs and the code is non-empty |
| CollectionPointDashboard.ScanningBlocksInput | src/components/dashboards/CollectionPointDashboard.tsx:117-124 | while a scan runs, neither typing nor submitting changes the form or starts a second scan |
| CollectionPointDashboard.CompleteScan | src/components/dashboards/CollectionPointDashboard.tsx:21-32 | the credit is the draw's credit and so lies in 2000..11999, the balance rises by exactly it (strictly), the account is otherwise kept, and the form is back to an empty code with the flag down |
| CollectionPointDashboard.EmptyCodeIsIgnored | src/components/dashboards/CollectionPointDashboard.tsx:16 | an empty code schedules nothing and leaves the form, flag included, unchanged |
| UserDashboard.HandleFileUpload | src/components/dashboards/UserDashboard.tsx:20-22 | the named slot holds the file; the other slot and both text fields are unchanged |
| UserDashboard.EditLocation | src/components/dashboards/UserDashboard.tsx:143 | typing into the location field sets the location and leaves every other field of the form unchanged |
| UserDashboard.EditDescription | src/components/dashboards/UserDashboard.tsx:153 | typing into the description field sets the description and leaves every other field of the form unchanged |
| UserDashboard.HandleSubmit | src/components/dashboards/UserDashboard.tsx:24-39 | any form is accepted, and afterwards both text fields are empty and both slots hold nothing |
| UserDashboard.SubmitForgetsInput | src/components/dashboards/UserDashboard.tsx:24-39 | there is no validation: any two forms submit to the same result |
| UserDashboard.UploadOverwrites | src/components/dashboards/UserDashboard.tsx:20-22 | a second upload into the same slot keeps only the second file |
| UserDashboard.UploadsCommute | src/components/dashboards/UserDashboard.tsx:20-22 | uploads into different slots commute |
| LoginForm.RouteFor | src/components/auth/LoginForm.tsx:122-124 | the navigation path of a role is "/" followed by the role's tag |
| LoginForm.Submit | src/components/auth/LoginForm.tsx:100-114 | a request is sent exactly when the mode's required fields are filled (email and password, plus full name, phone and address when registering); then the error is cleared and the body carries login = email, password, and when registering fullname, phone and location = address; otherwise no request and the error is the validation message |
| LoginForm.CompanyNameIgnored | src/components/auth/LoginForm.tsx:135-147 | the company name is neither required nor sent |
| LoginForm.Interpret | src/components/auth/LoginForm.tsx:116-168 | login succeeds exactly on status "ok" with a non-empty token and then navigates to the selected role's route with the email as username; registration succeeds exactly on status "ok" and then resets every text field and the role and returns to login mode; otherwise the error is the server's message if non-empty, else the mode's default, and a transport failure sets the mode's fixed text |
| LoginForm.HandleSubmit | src/components/auth/LoginForm.tsx:100-169 | without a complete form no request is sent, the outcome is to stay, and the form changes only in its error, which becomes the validation message; a sign-in follows only the login request of the form's email and password; after a registration the form is in login mode with no error |
| LoginForm.NavigationIgnoresReply | src/components/auth/LoginForm.tsx:118-124 | every successful login from the same form goes to the same route, the selected role's |
| LoginForm.SelectMode | src/components/auth/LoginForm.tsx:229-238 | switching modes changes only the mode |
| App.InitialValid | src/contexts/AuthContext.tsx:35 | the initial state, with nobody signed in and every form empty, satisfies the invariant |
| App.StepPreservesValid | src/App.tsx:22-42 | every event keeps a signed-in balance non-negative, a pending scan exactly while the flag shows, and a code while scanning |
| App.RunPreservesValid | src/App.tsx:22-42 | the invariant holds after any sequence of events |
| App.StepKeepsAccount | src/contexts/AuthContext.tsx:57-61 | events other than login and logout keep the same account signed in, or nobody |
| App.RunKeepsAccount | src/contexts/AuthContext.tsx:57-61 | the same holds for any sequence of such events |
| App.StepOnlyTransferDebits | src/components/dashboards/FactoryDashboard.tsx:33 | apart from login and logout, no event but the factory transfer lowers a signed-in balance |
| App.RunWithoutTransferNeverDebits | src/components/dashboards/FactoryDashboard.tsx:33 | over any sequence without login, logout or transfer, the balance never falls |
| App.StepCredentialsOrUploadKeepSession | src/components/dashboards/UserDashboard.tsx:12 | the credential form's events and the user dashboard's events leave the session untouched |
| App.CredentialFormNeverSignsIn | src/components/auth/LoginForm.tsx:118-124 | signed out, any use of the credential form, whatever the replies, leaves the start page on the login view |

## Left out

- Rendering: markup, styling, icons, the static activity and order lists, and number formatting are not modelled.
- Localisation: the label tables and role descriptions are not modelled. The validation message is kept, because it ends up in the form's error. The registration notice is kept, because it is carried in the registration outcome. The four fixed error texts of the two modes are kept as well.
- Local storage: the saved language, token and username are not modelled. A successful login reports the token, username and route in its outcome instead.
- Network: the two POST calls are not modelled. How a request ends is an input to `LoginForm.Interpret`. `Response` is a reply with a 2xx status, together with its envelope. Every non-2xx reply is a `TransportFailure`, as is a server that cannot be reached: the HTTP client rejects non-2xx replies, so their message is never shown. A reply's missing status is any string other than "ok".
- Notifications: toasts and the alert become outcome values.
- Randomness: the user id is a parameter. The scan draw is an exact real in [0, 1), so floating-point rounding of the scaled draw is not modelled.
- Timer: the two-second scan delay is two events, a start and a completion. A completion that fires after its page is gone, and the stale copy of the user captured by the deferred balance update, are left out. Both are matters of the UI framework's closures.
- Component lifetime: each dashboard's form state lives as long as the application state. Unmounting a page on logout does not reset it.
- Asynchrony of the credential form: the reply is applied to the form as it stood at submission. Edits made while the request is in flight are not modelled.
- FactoryDashboard.HandleTransfer: the amount is taken as already parsed. Lenient number parsing and NaN are not modelled.
- The browser's form validation (the min, max and required attributes) is left out. Each handler is taken as reachable with any input.
  - For a signed-in factory, the page itself refuses an amount below 1000 or above the balance. `FactoryDashboard.NegativeAmountRaisesBalance` and the refusal path of `FactoryDashboard.HandleTransfer` therefore describe the handler, not what the page lets through.
  - The page refuses an empty email or password, and an empty full name when registering, so the login-mode validation message is likewise handler behaviour.
- Balances are unbounded integers. The source's double-precision numbers round any result whose magnitude exceeds 2^53. Such a result arises, for example, when a very large negative amount is transferred. That rounding is not modelled.
- Routing configuration: the router's matching rules are not modelled. Its routes are not gated on the session, which is why every event is allowed in every `App.State`.
- The falling-leaves animation is not modelled. It only draws random floating-point parameters.
