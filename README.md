# Client of the store's account system, modelled in Dafny

This project models the browser client (`cliente-app`) of a small account
system. The client is made of two services and four page controllers:

- `AuthService` logs in and registers against the authentication API. It
  keeps the session (`token` and `role`) in `localStorage` and schedules a
  logout four hours after a login.
- `AccountService` reads and updates the signed-in user's profile with the
  stored token as a bearer credential.
- `Main` shows the navigation that fits the stored session.
- `Login` and `Register` validate their forms, call the services and render
  the server's field errors.
- `Account` displays the profile and submits the "add data" modal as an
  update.

The model follows the code's own structure:

- `js.dfy` holds the JSON values the client handles, JavaScript truthiness,
  optional property reads and `String()` coercion.
- `text.dfy` holds `trim`, `join` and `split`.
- `browser.dfy` holds `localStorage` and the HTTP transport. The server
  behind axios is a function of the request and its position in the
  session, and the network keeps the log of requests sent.
- `auth_service.dfy`, `account_service.dfy` and `main_nav.dfy` model the
  services and the landing page.
- `forms.dfy` holds the part of the document the two form pages share.
- `login_page.dfy`, `register_page.dfy` and `account_page.dfy` model the
  pages.

Objects whose fields the code updates are classes: the services, the pages,
storage, the network and the document. What they compute is pinned to pure
functions, and the properties are proved about those functions.

## Model

| member | source | states |
|---|---|---|
| Text.Trim | cliente-app/src/pages/login/login.js:162 | the trimmed value is no longer than the input and, when not empty, neither starts nor ends with ECMAScript whitespace |
| Text.TrimCuts | cliente-app/src/pages/login/login.js:162 | `trim` only cuts: the input is a whitespace prefix, then the trimmed value, then a whitespace suffix |
| Text.TrimEmptyIff | cliente-app/src/pages/login/login.js:162-165 | a value is empty after `trim` exactly when it is all whitespace, which is what the "required" checks test |
| Text.Split | cliente-app/src/pages/account/account.js:90-94 | `split(',')` yields at least one piece and no piece contains the separator |
| Text.SplitRoundTrip | cliente-app/src/pages/account/account.js:90-94 | joining the pieces of `split(',')` with ',' gives back the original string |
| Text.SplitJoined | cliente-app/src/pages/account/account.js:90-94 | splitting on ',' the ", "-joined address gives back the parts, each after the first with its leading space, provided no part contains a comma |
| Browser.LocalStorage.GetItem | cliente-app/src/service/AuthService.js:57-59 | `getItem` yields the stored string exactly when the key is present, and `null` otherwise |
| Browser.LocalStorage.SetItem | cliente-app/src/service/AuthService.js:52-55 | `setItem` overwrites one key and leaves the others |
| Browser.LocalStorage.RemoveItem | cliente-app/src/service/AuthService.js:61-63 | `removeItem` deletes one key and leaves the others |
| Browser.Network.Send | cliente-app/src/service/AccountService.js:56 | a request is appended to the log and ends with the server's outcome for its position in the session |
| Auth.HandleError | cliente-app/src/service/AuthService.js:80-88 | an error with a response becomes a failed envelope carrying the response body; any other error is rethrown unchanged |
| Auth.LoginResult | cliente-app/src/service/AuthService.js:18-35 | `login` resolves with `ok` exactly on a 2xx whose body is not `null`; an HTTP error resolves not-ok with its body; a lost request or a `null` body throws |
| Auth.RegisterResult | cliente-app/src/service/AuthService.js:37-50 | `register` resolves with `ok` exactly on a 2xx; it throws exactly when no response came back |
| Auth.SavedSession | cliente-app/src/service/AuthService.js:52-55 | saving writes `token` and `role` from the body and keeps every other key |
| Auth.ClearedSession | cliente-app/src/service/AuthService.js:61-64 | logging out removes exactly `token` and `role` |
| Auth.AuthService.constructor | cliente-app/src/service/AuthService.js:3-8 | a new service has no expiry timer and nothing scheduled |
| Auth.AuthService.GetToken | cliente-app/src/service/AuthService.js:57-59 | the token is the stored one, and absent exactly when storage has none |
| Auth.AuthService.SaveToken | cliente-app/src/service/AuthService.js:52-55 | a non-nullish body stores its session; a `null` or `undefined` body throws before anything is stored |
| Auth.AuthService.StopLogoutTimer | cliente-app/src/service/AuthService.js:73-78 | afterwards no expiry timeout is pending, whatever was pending before, so a second call changes nothing |
| Auth.AuthService.StartLogoutTimer | cliente-app/src/service/AuthService.js:68-71 | any earlier timeout is cancelled and exactly one new one is pending, due four hours later |
| Auth.AuthService.Logout | cliente-app/src/service/AuthService.js:61-66 | both session keys are gone, nothing else in storage changes, and no timeout is pending |
| Auth.AuthService.Tick | cliente-app/src/service/AuthService.js:70 | a pending timeout whose deadline has passed fires and logs out; a cancelled or not-yet-due timeout does nothing |
| Auth.AuthService.Login | cliente-app/src/service/AuthService.js:18-35 | one POST of the credentials; on `ok` the session is stored from the body and the timer restarted; on any failure storage and the timer are untouched |
| Auth.AuthService.Register | cliente-app/src/service/AuthService.js:37-50 | one POST of the new account, classified as `RegisterResult`; neither the session nor the timer can change |
| Accounts.RequestConfig | cliente-app/src/service/AccountService.js:44-54 | every request carries `Bearer <token>`; the JSON content type appears exactly on a PUT; a body is attached exactly when the data is truthy |
| Accounts.HandleError | cliente-app/src/service/AccountService.js:68-77 | an error with a response becomes a failed envelope with its body and status; any other error becomes `Error(fallback)` |
| Accounts.FallbackMessage | cliente-app/src/service/AccountService.js:64 | the fallback message starts with "Erro ao executar " and ends with the URL |
| Accounts.Envelope | cliente-app/src/service/AccountService.js:56-65 | a request resolves exactly when the server answered, with `ok` exactly on a 2xx and the body and status passed on; otherwise it throws the message naming verb and URL |
| Accounts.AccountService.Create | cliente-app/src/service/AccountService.js:10-18 | the service is built exactly when a non-empty token is stored, and it captures that token; otherwise the constructor throws the missing-token error |
| Accounts.AccountService.MakeRequest | cliente-app/src/service/AccountService.js:44-66 | one request with the built config is sent, and its outcome is turned into the envelope |
| Accounts.AccountService.Profile | cliente-app/src/service/AccountService.js:32-34 | one GET of the profile URL with no body |
| Accounts.AccountService.UpdateData | cliente-app/src/service/AccountService.js:36-42 | anything that is not a truthy object is rejected before any request is sent; an object is sent as a PUT to the details URL |
| Navigation.Visibility | cliente-app/src/main.js:37-59 | the client sees dropdown, account and logout; the admin also sees the admin bar; anyone else sees only login and register; guest and signed-in entry points are never shown together |
| Navigation.Main.constructor | cliente-app/src/main.js:12-18 | token and role are read from storage once, and the page starts showing the view the table gives for them |
| Navigation.Main.CheckAuth | cliente-app/src/main.js:37-59 | the six affordances end as the table gives, whatever they showed before, so repeated calls agree |
| Navigation.Main.ClickLogout | cliente-app/src/main.js:61-69 | a click on logout clears the session and cancels the expiry timeout |
| Forms.Decorated | cliente-app/src/pages/login/login.js:66-74 | an input with an error has every error class and none of the page's neutral ones, and keeps its unrelated classes |
| Forms.Undecorated | cliente-app/src/pages/login/login.js:86-95 | a cleared input has every neutral class and none of the error ones, and keeps its unrelated classes |
| Forms.WithoutFieldError | cliente-app/src/pages/login/login.js:82-101 | clearing a field resets its input and hides and empties its error line; no other field changes |
| Forms.ClearAll | cliente-app/src/pages/login/login.js:103-104 | clearing a list of fields keeps the page's set of fields |
| Forms.ClearAllAt | cliente-app/src/pages/login/login.js:103-104 | clearing a list of fields resets exactly the listed ones, however often one is listed, and leaves the rest |
| Forms.FirstNullish | cliente-app/src/pages/login/login.js:36 | `forEach` reaches exactly the entries before the first `null` or `undefined` one, where destructuring throws |
| Forms.LastMessage | cliente-app/src/pages/login/login.js:36-38 | no message exactly when no complete entry names the field; otherwise the message of a complete entry naming it after which no other complete entry names it, so the last one wins |
| LoginPage.WithFieldError | cliente-app/src/pages/login/login.js:62-80 | showing an error changes only that field: the error classes go on and the line shows the message |
| LoginPage.ClearUndoesShow | cliente-app/src/pages/login/login.js:62-101 | on a neutral input, showing then clearing an error restores the classes and leaves the line empty and hidden |
| LoginPage.MarkedTwice | cliente-app/src/pages/login/login.js:76-79 | a second error on a field replaces the first |
| LoginPage.ShowEntries | cliente-app/src/pages/login/login.js:36-38 | the array branch touches no field that the page lacks |
| LoginPage.ShowEntriesAt | cliente-app/src/pages/login/login.js:36-38 | after an error array, each field shows the message of the last complete entry naming it, and a field no entry names is untouched |
| LoginPage.MessageClass | cliente-app/src/pages/login/login.js:57-59 | the banner is green exactly for "success" and red for any other kind |
| LoginPage.ClearedScreen | cliente-app/src/pages/login/login.js:103-116 | `clearErrors` keeps the set of fields, and a banner that exists is emptied and hidden with its class kept; a missing banner stays missing |
| LoginPage.GenericMessage | cliente-app/src/pages/login/login.js:43 | the banner text is the payload's `message` when truthy, and "Email ou senha incorretos." otherwise |
| LoginPage.FailureScreen | cliente-app/src/pages/login/login.js:32-48 | an array shows its complete entries and then the "corrija" banner, and throws exactly at a `null` entry, leaving the banner; a single complete field error shows exactly that field error and leaves the banner; anything else leaves the fields and shows `GenericMessage` as an error; only the array branch can throw |
| LoginPage.LoginScreen | cliente-app/src/pages/login/login.js:13-20 | a thrown `login` shows the connection message with the fields unchanged; `ok` shows the success message in green; a failure is `FailureScreen`, whose throw ends in the connection message |
| LoginPage.LoadingButton | cliente-app/src/pages/login/login.js:122-125 | an existing button ends disabled exactly when loading, reading "Entrando..." then and "Sign in" otherwise; a missing button stays missing |
| LoginPage.InputsSet | cliente-app/src/pages/login/login.js:127-129 | with the form present every input's `disabled` equals the flag; without it the inputs are untouched |
| LoginPage.Login.ShowMessage | cliente-app/src/pages/login/login.js:50-60 | the banner shows the message with its colour class; a page without a banner is left alone |
| LoginPage.Login.ShowFieldError | cliente-app/src/pages/login/login.js:62-80 | the document's fields become `WithFieldError` of the old ones |
| LoginPage.Login.ClearFieldError | cliente-app/src/pages/login/login.js:82-101 | the document's fields become `WithoutFieldError` of the old ones |
| LoginPage.Login.ClearErrors | cliente-app/src/pages/login/login.js:103-116 | email and password are reset, the banner is hidden and emptied, and the error list is emptied |
| LoginPage.Login.SetLoading | cliente-app/src/pages/login/login.js:118-130 | the button's disabled flag and content follow `on`, and every input of the form gets `disabled == on` |
| LoginPage.Login.HandleSuccess | cliente-app/src/pages/login/login.js:26-30 | the success banner is shown and the result is true |
| LoginPage.Login.HandleFailure | cliente-app/src/pages/login/login.js:32-48 | the screen becomes `FailureScreen` of the old one, and `threw` reports the TypeError of a `null` array entry |
| LoginPage.Login.LoginHandled | cliente-app/src/pages/login/login.js:8-24 | one login request is logged; the screen is `LoginScreen` of the cleared screen; the error list is emptied; button and inputs are enabled; on `ok` the session is saved and one expiry timeout is pending four hours later; otherwise session and timer are unchanged |
| LoginPage.Login.Undisturbed | cliente-app/src/pages/login/login.js:165-166 | banner, error list, button, inputs, session, expiry timer and request log are all unchanged |
| LoginPage.Login.HandleLogin | cliente-app/src/pages/login/login.js:8-24 | the result is true exactly when `login` resolved `ok`, and the whole new state is `LoginHandled` |
| LoginPage.Login.Submit | cliente-app/src/pages/login/login.js:159-169 | a blank email, then an empty password, puts that field's error on and leaves everything else `Undisturbed` with nothing sent; otherwise the state is `LoginHandled` for the trimmed email and the raw password |
| LoginPage.Login.SubmitTrimmed | cliente-app/src/pages/login/login.js:165-168 | an empty email, then an empty password, shows that field's error and leaves the rest `Undisturbed`; otherwise the state is `LoginHandled` for those credentials |
| LoginPage.Login.InputChanged | cliente-app/src/pages/login/login.js:142-153 | typing in a field clears that field's error and hides the banner |
| RegisterPage.Accumulate | cliente-app/src/pages/register/register.js:105-111 | a non-empty line that does not hold exactly this message string becomes the old text, a space and the message; otherwise the line becomes the message alone |
| RegisterPage.AccumulateKeeps | cliente-app/src/pages/register/register.js:106-111 | a line keeps its text exactly when the message is that very string, or when both print as nothing |
| RegisterPage.AccumulateTwo | cliente-app/src/pages/register/register.js:106-111 | two different messages on one field read "first second" |
| RegisterPage.WithError | cliente-app/src/pages/register/register.js:83-114 | showing an error changes only that field |
| RegisterPage.ResubmitClears | cliente-app/src/pages/register/register.js:21-60 | whatever field errors a failed registration showed, the `clearErrors` that opens the next submit restores each form field whose input was neutral and empties and hides its error line |
| RegisterPage.ShowErrors | cliente-app/src/pages/register/register.js:49-54 | the array branch touches no field that the page lacks |
| RegisterPage.Messages | cliente-app/src/pages/register/register.js:49-54 | the messages aimed at a field are empty exactly when no complete entry names it |
| RegisterPage.AccumulateAll | cliente-app/src/pages/register/register.js:49-54 | no messages keep the line as it was; otherwise the line ends with the last message shown |
| RegisterPage.ShowErrorsAt | cliente-app/src/pages/register/register.js:49-54 | after an error array, a field no entry names is untouched; any other field carries the error classes and shows all its messages accumulated in order |
| RegisterPage.FailureFields | cliente-app/src/pages/register/register.js:46-60 | an array shows its entries up to the first `null` one; a single complete field error is shown on that field; anything else, `null` included, leaves the fields alone |
| RegisterPage.FailureThrows | cliente-app/src/pages/register/register.js:49-55 | the failure branch throws exactly when the body is nullish, or is an array with a nullish entry before which the entries are shown |
| RegisterPage.ResultAlerts | cliente-app/src/pages/register/register.js:40-64 | at most one alert: the connection alert when the request or the error handling threw, none on success, the "register failed" alert for a payload that is neither an array nor a field error, and none for the field-error branches |
| RegisterPage.Register.ShowError | cliente-app/src/pages/register/register.js:83-114 | the document's fields become `WithError` of the old ones |
| RegisterPage.Register.ClearFieldError | cliente-app/src/pages/register/register.js:116-142 | the document's fields become `WithoutFieldError` of the old ones |
| RegisterPage.Register.ClearErrors | cliente-app/src/pages/register/register.js:144-147 | name, email and password are reset and nothing else changes |
| RegisterPage.Register.HandleFailure | cliente-app/src/pages/register/register.js:46-60 | the fields become `FailureFields`; the generic alert is raised only for a non-null payload without a field error; `threw` reports a `null` entry or body |
| RegisterPage.Register.LoginSideKept | cliente-app/src/pages/register/register.js:40-64 | the banner, error list, login button and inputs, stored session and expiry timer are unchanged |
| RegisterPage.Register.RegisterHandled | cliente-app/src/pages/register/register.js:40-64 | one register request; the alerts get `ResultAlerts`; a throw leaves the cleared fields, a failure shows `FailureFields` and keeps the login side; a success sends the login with the same credentials and leaves the state `handleLogin` leaves over the cleared fields |
| RegisterPage.Register.Submitted | cliente-app/src/pages/register/register.js:17-65 | the form fields are cleared first; unaccepted terms add the terms alert, send nothing and keep the login side; accepted terms lead to `RegisterHandled` |
| RegisterPage.Register.SubmitAccepted | cliente-app/src/pages/register/register.js:40-64 | the new state is `RegisterHandled` over the fields as they were |
| RegisterPage.Register.SubmitTrimmed | cliente-app/src/pages/register/register.js:21-64 | the new state is `Submitted` for the given values |
| RegisterPage.Register.Submit | cliente-app/src/pages/register/register.js:17-65 | the new state is `Submitted` with the trimmed name and email and the raw password |
| AccountPage.AddressParts | cliente-app/src/pages/account/account.js:53-59 | the address line is made of five parts, each the street, number, neighbourhood, city and state as displayed |
| AccountPage.Shown | cliente-app/src/pages/account/account.js:49-61 | a truthy value is displayed as its string, anything else as the placeholder |
| AccountPage.AddressLine | cliente-app/src/pages/account/account.js:53-59 | when no part contains a comma, splitting the displayed line on ',' gives back the five parts, every one after the first with the space the ", " join put in front of it |
| AccountPage.Rendered | cliente-app/src/pages/account/account.js:49-61 | a `null` body changes nothing; otherwise name, email and phone show the value or the placeholder; with an address, the address line is `AddressLine` and cpf is shown; without one, the address and cpf keep their old text |
| AccountPage.RenderedForgetsOld | cliente-app/src/pages/account/account.js:49-61 | a complete render does not depend on the previous view, and rendering the same body twice changes nothing |
| AccountPage.Refreshed | cliente-app/src/pages/account/account.js:32-47 | a 2xx answer renders its body; any other answer or a thrown error leaves the view |
| AccountPage.OrShown | cliente-app/src/pages/account/account.js:87 | a non-blank input gives its trimmed, non-empty value; a blank one gives the displayed text |
| AccountPage.AddressPiece | cliente-app/src/pages/account/account.js:90-94 | a non-blank input gives its trimmed, non-empty value; a blank one gives the piece of the displayed address at its position, or `undefined` past the last piece |
| AccountPage.UpdatePayload | cliente-app/src/pages/account/account.js:86-97 | the update is built from the form and the view, field by field; what it holds is stated by `PayloadFieldChoice`, `AddressFallback` and `PlaceholderSubmitted` |
| AccountPage.UpdateJson | cliente-app/src/pages/account/account.js:86-97 | the update has exactly the keys name, phone, address and cpf (no email), each holding the payload's value, the address an object of the five pieces; it always passes `updateData`'s object check |
| AccountPage.AddressFallback | cliente-app/src/pages/account/account.js:90-94 | with blank address inputs, the update carries back the five displayed parts, the last four with the leading space left by the join |
| AccountPage.PlaceholderSubmitted | cliente-app/src/pages/account/account.js:86-96 | a field the server left empty is displayed as the placeholder, and a blank input then sends the placeholder text itself |
| AccountPage.PayloadFieldChoice | cliente-app/src/pages/account/account.js:86-96 | name, phone and cpf are the trimmed input when it is not blank, and otherwise exactly the displayed text |
| AccountPage.UpdatedTimesLog | cliente-app/src/pages/account/account.js:99-105 | after any number of listener runs the log is extended, holds exactly that many updates since, and every one of them is the same request |
| AccountPage.UpdatedModalStep | cliente-app/src/pages/account/account.js:99-105 | one listener run either closes the modal and refetches the profile, or, when its update threw, leaves the modal, the view and the refetches in the log as they were |
| AccountPage.UpdatedTimesModal | cliente-app/src/pages/account/account.js:99-105 | after the listeners ran, the modal is closed if any of them refetched the profile; if none did, the modal and the view are unchanged |
| AccountPage.Account.constructor | cliente-app/src/pages/account/account.js:9-12 | building the page runs `init` once: one profile fetch refreshes the view it starts from, the modal is left as it was, and there is one submit listener |
| AccountPage.Account.Init | cliente-app/src/pages/account/account.js:26-30 | each `init` fetches the profile once, refreshing the view, and adds one more submit listener |
| AccountPage.Account.UpdateProfileUI | cliente-app/src/pages/account/account.js:49-61 | the view becomes `Rendered`; it throws exactly on a `null` body or a missing address |
| AccountPage.Account.Profile | cliente-app/src/pages/account/account.js:32-47 | one GET; true exactly when the server answered 2xx and the body rendered completely; the view changes only on a 2xx |
| AccountPage.Account.ClickAddData | cliente-app/src/pages/account/account.js:64-66 | the modal opens |
| AccountPage.Account.ClickClose | cliente-app/src/pages/account/account.js:68-70 | the modal closes |
| AccountPage.Account.ClickWindow | cliente-app/src/pages/account/account.js:72-76 | a click on the backdrop closes the modal; any other click leaves it |
| AccountPage.Account.SendUpdate | cliente-app/src/pages/account/account.js:99-105 | one PUT; unless it threw, the modal closes and the profile is fetched again and rendered, whatever the status; if it threw, the view and the modal stay; the new state is `Updated` of the old one |
| AccountPage.Account.SubmitEvent | cliente-app/src/pages/account/account.js:83-105 | one submit leaves the log, the view and the modal as the listeners leave them one after the other (`UpdatedTimes`), all with the payload built from the form and the view shown before the submit, and sends exactly as many updates as there are listeners |
| AccountPage.Account.RunListeners | cliente-app/src/pages/account/account.js:99-105 | the listeners' `try` blocks in turn: the new state is `UpdatedTimes` of the old one, so each adds its update, and its refetch when the update returned, and earlier requests are kept |
| AccountPage.Account.StartAsWritten | cliente-app/src/pages/account/account.js:111-112 | as the module starts the page, the form has two submit listeners and the profile is fetched twice, the view refreshed each time |
| AccountPage.Account.Start | cliente-app/src/pages/account/account.js:9-12 | started by the constructor alone, the form has one listener and the profile is fetched once |
| AccountPage.Account.SubmitAfterStartAsWritten | cliente-app/src/pages/account/account.js:111-112 | after the module's start-up, one submit sends the update twice, and the page ends as two listener runs leave it |
| AccountPage.Account.SubmitAfterStart | cliente-app/src/pages/account/account.js:26-30 | with a single `init`, one submit sends the update once, and the page ends as one `SendUpdate` leaves it: modal closed and profile refetched unless the update threw |

## Left out

- Axios and the server are one function from (position in the session, request) to outcome. Timing, retries and concurrent requests are not modelled.
- `window.location.reload()` after logout and the redirect one second after a successful login are navigation and are not modelled. That redirect unloads the page and, with it, the pending logout timeout; the model keeps the timeout, so `Auth.AuthService.Tick` describes a page that stays open.
- `console.log` and `console.error` calls have no observable effect on the model and are left out.
- `alert` is a log of messages in the document. Its blocking of the page is not modelled.
- `document.querySelector` is a lookup of a field id in a map. The invalid-selector `SyntaxError` that a field name which is not a valid CSS id would raise is not modelled.
- `classList` is a set of class names, not an ordered token list.
- Numbers are integers. Fractional numbers in a JSON body are not modelled, and `String()` of a number covers integers only.
- Properties that primitives and arrays inherit (`"abc".length`, `[].message`) read as `undefined` in the model.
- `toUpperCase` is modelled only for the three HTTP verbs the client uses.
- The spinner markup of `loadingButtonContent` (login.js:132-140) is represented by its text "Entrando...".
- Asynchronous interleaving is not modelled:
  - `register` does not await `handleLogin`, but the model runs it to completion before the listener returns.
  - `init` does not await `profile`.
  - The two submit listeners of the account page run one after the other in the model. In the browser their PUTs and GETs may interleave.
- The `DOMContentLoaded` wrapper of `updateData` is assumed to fire after both `init` calls. Each `init` therefore adds one submit listener.
- Missing modal elements on the account page (null `#myModal` or `.close`) are assumed present. So are the form's inputs, whose absence would throw.
- `Login.login()` and the module start of login.js (lines 155-176) are reduced to the submit and input listeners, `Submit` and `InputChanged`. The console error for a missing `#login-form` has no effect on the model.
- On the register page, the imported login.js module also builds its own `Login` over the same document. Without a `#login-form` it only logs an error. The `Login` that `Register` uses has its own `AuthService`, and so its own expiry timer.
- `Main.setupLogout` assumes `#logoutBtn` exists. When it is missing no listener is added, and `CheckAuth` would already have thrown writing its style.
- `AuthService.getRegisterUrl`/`getLoginUrl` and the other getters only return constants and fields, so they are not separate members.
- JSON serialisation of the request body (for example `JSON.stringify` dropping `undefined` address pieces) is not modelled. The body is the JSON value itself.
- Every absent profile field shows the placeholder, except the address object itself: without an address, `updateProfileUI` throws after name, email and phone are written, and `profile()` returns false. The model captures this in `AccountPage.Rendered` and `AccountPage.Account.Profile`.

## Findings

| source | as written | input that shows it | evidently intended | confidence | as-written member | corrected member |
|---|---|---|---|---|---|---|
| cliente-app/src/pages/account/account.js:111-112 | the constructor already calls `init()`, and the module calls `account.init()` again, so `updateData` registers two submit listeners | any submit of the "add data" form after the page loads sends the PUT twice, and the profile is also fetched twice at start-up | one `init` per page, so one update per submit | high (not executed) | AccountPage.Account.SubmitAfterStartAsWritten | AccountPage.Account.SubmitAfterStart |
