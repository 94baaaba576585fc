/** The login page (`Login`): validates the form, calls `AuthService.login`
    with the button and inputs disabled meanwhile, and renders the server's
    answer as field errors or as a banner. */
module LoginPage {
  import opened Js
  import opened Text
  import opened Browser
  import opened Forms
  import Auth

  /** The classes of an input without an error on this page. */
  const NEUTRAL_CLASSES: set<string> :=
    {"bg-gray-50", "border-gray-300", "focus:ring-primary-600", "focus:border-primary-600"}

  const SIGN_IN := "Sign in"
  /** The button content while a login is in flight (a spinner, then this text). */
  const LOADING := "Entrando..."
  const CONNECTION_ERROR := "Erro de conexão. Verifique sua internet e tente novamente."
  const LOGIN_SUCCESS := "Login realizado com sucesso!"
  const FIX_ERRORS := "Por favor, corrija os erros abaixo."
  const WRONG_CREDENTIALS := "Email ou senha incorretos."
  const EMAIL_REQUIRED := "Email é obrigatório"
  const PASSWORD_REQUIRED := "Senha é obrigatória"

  /** The fields `clearErrors` resets, in order. */
  const FORM_FIELDS: seq<string> := ["email", "password"]

  /** One field after `showFieldError(id, message)`: the message replaces
      whatever the error line held. */
  function Marked(f: Field, message: string): Field {
    Field(if f.input.Some? then Some(Decorated(f.input.value, NEUTRAL_CLASSES)) else None,
          if f.error.Some? then Some(ErrorLine(message, Block)) else None)
  }

  /** The fields after `showFieldError(id, message)`: only `id` changes, and
      only when the page has something under it. */
  function WithFieldError(fs: map<string, Field>, id: string, message: string): (r: map<string, Field>)
    ensures r.Keys == fs.Keys
    ensures id in fs ==> r[id] == Marked(fs[id], message)
    ensures forall k :: k in fs && k != id ==> r[k] == fs[k]
  {
    if id in fs then fs[id := Marked(fs[id], message)] else fs
  }

  /** On an input that starts neutral, showing an error and clearing it
      gives the original classes back and leaves the error line empty and
      hidden. */
  lemma ClearUndoesShow(f: Field, message: string)
    requires f.input.Some? ==> NEUTRAL_CLASSES <= f.input.value && f.input.value !! ERROR_CLASSES
    ensures Unmarked(Marked(f, message), NEUTRAL_CLASSES).input == f.input
    ensures Unmarked(Marked(f, message), NEUTRAL_CLASSES).error == if f.error.Some? then Some(ErrorLine("", Hidden)) else None
  {
    if f.input.Some? {
      var c := f.input.value;
      assert Undecorated(Decorated(c, NEUTRAL_CLASSES), NEUTRAL_CLASSES) == c;
    }
  }

  /** Showing a second error on a field is the same as showing only the
      second one: this page overwrites. */
  lemma MarkedTwice(f: Field, first: string, second: string)
    ensures Marked(Marked(f, first), second) == Marked(f, second)
  {
    if f.input.Some? {
      var c := f.input.value;
      assert Decorated(Decorated(c, NEUTRAL_CLASSES), NEUTRAL_CLASSES) == Decorated(c, NEUTRAL_CLASSES);
    }
  }

  /** The fields after the `forEach` of `handleFailure` over `entries`
      (none of them `null`): each complete entry shows its message on the
      field it names, in order. */
  function ShowEntries(fs: map<string, Field>, entries: seq<Json>): (r: map<string, Field>)
    ensures r.Keys == fs.Keys
    decreases |entries|
  {
    if entries == [] then fs
    else
      var before := ShowEntries(fs, entries[..|entries| - 1]);
      var last := entries[|entries| - 1];
      if IsComplete(last) then WithFieldError(before, FieldId(last), JsString(Prop(last, "message")))
      else before
  }

  /** After the array branch, a field shows the message of the last complete
      entry that names it, and a field no complete entry names is untouched. */
  lemma {:induction false} ShowEntriesAt(fs: map<string, Field>, entries: seq<Json>, id: string)
    requires id in fs
    ensures ShowEntries(fs, entries)[id] ==
              match LastMessage(entries, id)
              case None => fs[id]
              case Some(m) => Marked(fs[id], JsString(m))
    decreases |entries|
  {
    if entries != [] {
      var prefix := entries[..|entries| - 1];
      var last := entries[|entries| - 1];
      ShowEntriesAt(fs, prefix, id);
      if IsComplete(last) && FieldId(last) == id {
        match LastMessage(prefix, id)
        case None =>
        case Some(m) => MarkedTwice(fs[id], JsString(m), JsString(Prop(last, "message")));
      }
    }
  }

  /** What the page shows: the fields and the banner. */
  datatype Screen = Screen(fields: map<string, Field>, banner: Option<Banner>)

  /** The `className` of the banner: green for "success", red for any other
      kind. */
  function MessageClass(kind: string): (c: string)
    ensures kind == "success" ==> c == "text-sm font-medium text-green-600"
    ensures kind != "success" ==> c == "text-sm font-medium text-red-600"
  {
    "text-sm font-medium " + (if kind == "success" then "text-green-600" else "text-red-600")
  }

  /** The banner after `showMessage(message, kind)`; a page without one is
      left alone. */
  function WithMessage(b: Option<Banner>, message: string, kind: string): Option<Banner> {
    if b.Some? then Some(Banner(message, Block, MessageClass(kind))) else None
  }

  /** The screen after `clearErrors`. */
  function ClearedScreen(s: Screen): (c: Screen)
    ensures c.fields.Keys == s.fields.Keys
    ensures c.banner.Some? <==> s.banner.Some?
    ensures c.banner.Some? ==> c.banner.value == Banner("", Hidden, s.banner.value.className)
  {
    Screen(ClearAll(s.fields, FORM_FIELDS, NEUTRAL_CLASSES),
           if s.banner.Some? then Some(s.banner.value.(display := Hidden, text := "")) else None)
  }

  /** The banner text for a payload that is neither an array nor a single
      field error: its `message` when truthy, else the default. */
  function GenericMessage(data: Json): (m: string)
    ensures Truthy(Prop(data, "message")) ==> m == JsString(Prop(data, "message"))
    ensures !Truthy(Prop(data, "message")) ==> m == WRONG_CREDENTIALS
  {
    var m := Prop(data, "message");
    if Truthy(m) then JsString(m) else WRONG_CREDENTIALS
  }

  /** The screen after `handleFailure(data)`, and whether it threw. */
  datatype Handled = Handled(screen: Screen, threw: bool)

  /** `handleFailure(responseData)`, three ways: an array shows each complete
      entry and then the "corrija" banner (a `null` entry throws first); a
      single complete `{field, message}` shows that field error and no
      banner; anything else shows its message, or the default, in the
      banner. */
  function FailureScreen(s: Screen, data: Json): (h: Handled)
    ensures h.screen.fields.Keys == s.fields.Keys
    ensures h.threw <==> data.Arr? && FirstNullish(data.items) < |data.items|
    ensures data.Arr? ==> h.screen.fields == ShowEntries(s.fields, data.items[..FirstNullish(data.items)])
    ensures data.Arr? && !h.threw ==> h.screen.banner == WithMessage(s.banner, FIX_ERRORS, "error")
    ensures !data.Arr? && IsComplete(data) ==>
              h.screen == Screen(WithFieldError(s.fields, FieldId(data), JsString(Prop(data, "message"))), s.banner)
    ensures !data.Arr? && !IsComplete(data) ==>
              h.screen == Screen(s.fields, WithMessage(s.banner, GenericMessage(data), "error"))
    ensures !data.Arr? ==> !h.threw
    ensures h.threw ==> h.screen.banner == s.banner
  {
    if data.Arr? then
      var k := FirstNullish(data.items);
      var fs := ShowEntries(s.fields, data.items[..k]);
      if k < |data.items| then Handled(Screen(fs, s.banner), true)
      else Handled(Screen(fs, WithMessage(s.banner, FIX_ERRORS, "error")), false)
    else if IsComplete(data) then
      Handled(Screen(WithFieldError(s.fields, FieldId(data), JsString(Prop(data, "message"))), s.banner), false)
    else
      Handled(Screen(s.fields, WithMessage(s.banner, GenericMessage(data), "error")), false)
  }

  /** The screen once `handleLogin` has the result `r` of `login`. */
  function LoginScreen(s: Screen, r: Call<Auth.AuthResult>): (after: Screen)
    ensures after.fields.Keys == s.fields.Keys
    ensures r.Threw? ==> after == Screen(s.fields, WithMessage(s.banner, CONNECTION_ERROR, "error"))
    ensures r.Returned? && r.value.ok ==> after == Screen(s.fields, WithMessage(s.banner, LOGIN_SUCCESS, "success"))
    ensures r.Returned? && !r.value.ok && !FailureScreen(s, r.value.responseData).threw ==>
              after == FailureScreen(s, r.value.responseData).screen
    ensures r.Returned? && !r.value.ok && FailureScreen(s, r.value.responseData).threw ==>
              after.fields == FailureScreen(s, r.value.responseData).screen.fields
              && after.banner == WithMessage(s.banner, CONNECTION_ERROR, "error")
  {
    match r
    case Threw(_) => Screen(s.fields, WithMessage(s.banner, CONNECTION_ERROR, "error"))
    case Returned(res) =>
      if res.ok then Screen(s.fields, WithMessage(s.banner, LOGIN_SUCCESS, "success"))
      else
        var h := FailureScreen(s, res.responseData);
        if h.threw then Screen(h.screen.fields, WithMessage(h.screen.banner, CONNECTION_ERROR, "error"))
        else h.screen
  }

  /** The login button after `setLoading(on)`. */
  function LoadingButton(b: Option<Button>, on: bool): (after: Option<Button>)
    ensures after.Some? <==> b.Some?
    ensures after.Some? ==> after.value.disabled == on && after.value.content == (if on then LOADING else SIGN_IN)
  {
    if b.Some? then Some(Button(on, if on then LOADING else SIGN_IN)) else None
  }

  /** The `disabled` flags of the login form's inputs after `setLoading(on)`:
      all equal to `on` when the page has the form, untouched otherwise. */
  predicate InputsSet(before: seq<bool>, after: seq<bool>, hasForm: bool, on: bool) {
    && |after| == |before|
    && (hasForm ==> forall j :: 0 <= j < |after| ==> after[j] == on)
    && (!hasForm ==> after == before)
  }

  class Login {
    const auth: Auth.AuthService
    const doc: Document

    constructor(auth: Auth.AuthService, doc: Document)
      ensures this.auth == auth && this.doc == doc
    {
      this.auth := auth;
      this.doc := doc;
    }

    /** `showMessage(message, type)`. */
    method ShowMessage(message: string, kind: string)
      modifies doc`banner
      ensures doc.banner == WithMessage(old(doc.banner), message, kind)
    {
      if doc.banner.None? {
        return;
      }
      var b := doc.banner.value.(text := message);
      b := b.(display := Block);
      doc.banner := Some(b.(className := MessageClass(kind)));
    }

    /** `showFieldError(field, message)`. */
    method ShowFieldError(id: string, message: string)
      modifies doc`fields
      ensures doc.fields == WithFieldError(old(doc.fields), id, message)
    {
      if id !in doc.fields {
        return;
      }
      var f := doc.fields[id];
      if f.input.Some? {
        f := f.(input := Some((f.input.value - NEUTRAL_CLASSES) + ERROR_CLASSES));
      }
      if f.error.Some? {
        f := f.(error := Some(ErrorLine(message, Block)));
      }
      doc.fields := doc.fields[id := f];
    }

    /** `clearFieldError(field)`. */
    method ClearFieldError(id: string)
      modifies doc`fields
      ensures doc.fields == WithoutFieldError(old(doc.fields), id, NEUTRAL_CLASSES)
    {
      if id !in doc.fields {
        return;
      }
      var f := doc.fields[id];
      if f.input.Some? {
        f := f.(input := Some((f.input.value - ERROR_CLASSES) + NEUTRAL_CLASSES));
      }
      if f.error.Some? {
        f := f.(error := Some(ErrorLine("", Hidden)));
      }
      doc.fields := doc.fields[id := f];
    }

    /** `clearErrors()`: resets the email and password fields, empties and
        hides the banner and empties `#error-messages`. */
    method ClearErrors()
      modifies doc`fields, doc`banner, doc`errorMessages
      ensures Screen(doc.fields, doc.banner) == ClearedScreen(Screen(old(doc.fields), old(doc.banner)))
      ensures doc.errorMessages == if old(doc.errorMessages).Some? then Some("") else None
    {
      for i := 0 to |FORM_FIELDS|
        invariant doc.fields == ClearAll(old(doc.fields), FORM_FIELDS[..i], NEUTRAL_CLASSES)
        invariant doc.banner == old(doc.banner) && doc.errorMessages == old(doc.errorMessages)
      {
        ClearFieldError(FORM_FIELDS[i]);
        assert FORM_FIELDS[..i + 1][..i] == FORM_FIELDS[..i];
      }
      assert FORM_FIELDS[..|FORM_FIELDS|] == FORM_FIELDS;
      if doc.banner.Some? {
        doc.banner := Some(doc.banner.value.(display := Hidden, text := ""));
      }
      if doc.errorMessages.Some? {
        doc.errorMessages := Some("");
      }
    }

    /** `setLoading(on)`: the button's state and content, and the `disabled`
        flag of every input of the form. */
    method SetLoading(on: bool)
      modifies doc`loginButton, doc.loginInputs
      ensures doc.loginButton == LoadingButton(old(doc.loginButton), on)
      ensures InputsSet(old(doc.loginInputs[..]), doc.loginInputs[..], doc.hasLoginForm, on)
    {
      if doc.loginButton.Some? {
        doc.loginButton := Some(Button(on, if on then LOADING else SIGN_IN));
      }
      if doc.hasLoginForm {
        var inputs := doc.loginInputs;
        for j := 0 to inputs.Length
          invariant forall i :: 0 <= i < j ==> inputs[i] == on
          invariant doc.loginButton == LoadingButton(old(doc.loginButton), on)
        {
          inputs[j] := on;
        }
      }
    }

    /** `handleSuccess()`: the success banner; the redirect a second later is
        not modelled. */
    method HandleSuccess() returns (ok: bool)
      modifies doc`banner
      ensures ok
      ensures doc.banner == WithMessage(old(doc.banner), LOGIN_SUCCESS, "success")
    {
      ShowMessage(LOGIN_SUCCESS, "success");
      ok := true;
    }

    /** `handleFailure(responseData)`; `threw` reports the TypeError a `null`
        array entry raises. */
    method HandleFailure(data: Json) returns (threw: bool)
      modifies doc`fields, doc`banner
      ensures Handled(Screen(doc.fields, doc.banner), threw) == FailureScreen(Screen(old(doc.fields), old(doc.banner)), data)
    {
      if data.Arr? {
        var entries := data.items;
        var i := 0;
        while i < |entries| && !IsNullish(entries[i])
          invariant 0 <= i <= |entries|
          invariant forall j :: 0 <= j < i ==> !IsNullish(entries[j])
          invariant doc.fields == ShowEntries(old(doc.fields), entries[..i])
          invariant doc.banner == old(doc.banner)
        {
          var entry := entries[i];
          if IsComplete(entry) {
            ShowFieldError(FieldId(entry), JsString(Prop(entry, "message")));
          }
          assert entries[..i + 1][..i] == entries[..i];
          i := i + 1;
        }
        assert i == FirstNullish(entries);
        if i < |entries| {
          return true;
        }
        ShowMessage(FIX_ERRORS, "error");
      } else if IsComplete(data) {
        ShowFieldError(FieldId(data), JsString(Prop(data, "message")));
      } else {
        ShowMessage(GenericMessage(data), "error");
      }
      threw := false;
    }

    /** Everything `handleLogin(email, password)` at time `now` leaves
        behind, against the state it started from: one login request; the
        cleared screen then shows the outcome; the button and the inputs are
        enabled again; on `ok` the session is stored and the expiry timer
        restarted, otherwise both stay as they were. */
    twostate predicate LoginHandled(email: string, password: string, now: int)
      reads doc, doc.loginInputs, auth, auth.store, auth.net
    {
      var r := Auth.LoginResult(auth.net.server(|old(auth.net.sent)|, Auth.LoginRequest(email, password)));
      && auth.net.sent == old(auth.net.sent) + [Auth.LoginRequest(email, password)]
      && Screen(doc.fields, doc.banner) == LoginScreen(ClearedScreen(Screen(old(doc.fields), old(doc.banner))), r)
      && doc.errorMessages == (if old(doc.errorMessages).Some? then Some("") else None)
      && doc.loginButton == LoadingButton(old(doc.loginButton), false)
      && InputsSet(old(doc.loginInputs[..]), doc.loginInputs[..], doc.hasLoginForm, false)
      && (r.Returned? && r.value.ok ==>
            && auth.store.items == Auth.SavedSession(old(auth.store.items), r.value.responseData)
            && auth.logoutTimer == Some(old(auth.nextTimerId))
            && auth.timeouts == map[old(auth.nextTimerId) := now + Auth.FOUR_HOURS_MS])
      && (!(r.Returned? && r.value.ok) ==>
            && auth.store.items == old(auth.store.items)
            && auth.logoutTimer == old(auth.logoutTimer)
            && auth.timeouts == old(auth.timeouts))
    }

    /** Nothing but the fields changes: banner, error list, button, inputs,
        session, expiry timer and the request log stay as they were. */
    twostate predicate Undisturbed()
      reads doc, doc.loginInputs, auth, auth.store, auth.net
    {
      && doc.banner == old(doc.banner)
      && doc.errorMessages == old(doc.errorMessages)
      && doc.loginButton == old(doc.loginButton)
      && doc.loginInputs[..] == old(doc.loginInputs[..])
      && auth.store.items == old(auth.store.items)
      && auth.logoutTimer == old(auth.logoutTimer)
      && auth.timeouts == old(auth.timeouts)
      && auth.net.sent == old(auth.net.sent)
    }

    /** `handleLogin(email, password)` at time `now`. Whatever happens, the
        button and the inputs end enabled and the button reads "Sign in";
        `ok` is true exactly when `login` resolved with `ok`. */
    method HandleLogin(email: string, password: string, now: int) returns (ok: bool)
      requires auth.Valid()
      modifies doc`fields, doc`banner, doc`errorMessages, doc`loginButton, doc.loginInputs
      modifies auth, auth.store, auth.net
      ensures auth.Valid()
      ensures var r := Auth.LoginResult(auth.net.server(|old(auth.net.sent)|, Auth.LoginRequest(email, password)));
              ok == (r.Returned? && r.value.ok)
      ensures LoginHandled(email, password, now)
    {
      ClearErrors();
      SetLoading(true);
      var r := auth.Login(email, password, now);
      match r {
        case Threw(_) =>
          ShowMessage(CONNECTION_ERROR, "error");
          ok := false;
        case Returned(res) =>
          if res.ok {
            ok := HandleSuccess();
          } else {
            var threw := HandleFailure(res.responseData);
            if threw {
              ShowMessage(CONNECTION_ERROR, "error");
            }
            ok := false;
          }
      }
      SetLoading(false);
    }

    /** The submit listener of `login()`: the email is trimmed, the password
        is not; an empty email, then an empty password, is reported on its
        field and stops the submission before any request, leaving the rest
        of the page and the session alone; otherwise the login runs with the
        trimmed email. */
    method Submit(emailValue: string, passwordValue: string, now: int)
      requires auth.Valid()
      modifies doc`fields, doc`banner, doc`errorMessages, doc`loginButton, doc.loginInputs
      modifies auth, auth.store, auth.net
      ensures auth.Valid()
      ensures Trim(emailValue) == "" ==>
                doc.fields == WithFieldError(old(doc.fields), "email", EMAIL_REQUIRED) && Undisturbed()
      ensures Trim(emailValue) != "" && passwordValue == "" ==>
                doc.fields == WithFieldError(old(doc.fields), "password", PASSWORD_REQUIRED) && Undisturbed()
      ensures Trim(emailValue) != "" && passwordValue != "" ==> LoginHandled(Trim(emailValue), passwordValue, now)
    {
      SubmitTrimmed(Trim(emailValue), passwordValue, now);
    }

    /** The validation and login of the submit listener, once the email is
        trimmed. */
    method SubmitTrimmed(email: string, password: string, now: int)
      requires auth.Valid()
      modifies doc`fields, doc`banner, doc`errorMessages, doc`loginButton, doc.loginInputs
      modifies auth, auth.store, auth.net
      ensures auth.Valid()
      ensures email == "" ==>
                doc.fields == WithFieldError(old(doc.fields), "email", EMAIL_REQUIRED) && Undisturbed()
      ensures email != "" && password == "" ==>
                doc.fields == WithFieldError(old(doc.fields), "password", PASSWORD_REQUIRED) && Undisturbed()
      ensures email != "" && password != "" ==> LoginHandled(email, password, now)
    {
      if email == "" {
        ShowFieldError("email", EMAIL_REQUIRED);
      } else if password == "" {
        ShowFieldError("password", PASSWORD_REQUIRED);
      } else {
        var _ := HandleLogin(email, password, now);
      }
    }

    /** The `input` listener of the email and password fields: clears that
        field's error and hides the banner. */
    method InputChanged(id: string)
      modifies doc`fields, doc`banner
      ensures doc.fields == WithoutFieldError(old(doc.fields), id, NEUTRAL_CLASSES)
      ensures doc.banner == if old(doc.banner).Some? then Some(old(doc.banner).value.(display := Hidden)) else None
    {
      ClearFieldError(id);
      if doc.banner.Some? {
        doc.banner := Some(doc.banner.value.(display := Hidden));
      }
    }
  }
}
