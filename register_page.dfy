/** The registration page (`Register`): submits the new account once the
    terms are accepted, signs the user in through the login page's
    `handleLogin` on success, and otherwise shows the server's field errors,
    accumulating the messages that land on the same field. */
module RegisterPage {
  import opened Js
  import opened Text
  import opened Browser
  import opened Forms
  import Auth
  import LoginPage

  /** The classes of an input without an error on this page. */
  const NEUTRAL_CLASSES: set<string> :=
    {"bg-gray-50", "border-gray-300", "text-gray-900", "focus:ring-primary-600", "focus:border-primary-600"}

  const TERMS_REQUIRED := "Você deve aceitar os termos e condições"
  const REGISTER_FAILED := "Erro ao criar conta. Verifique os dados e tente novamente."
  const CONNECTION_ERROR := "Erro de conexão. Verifique sua internet e tente novamente."

  /** The fields `clearErrors` resets and `addInputListeners` watches. */
  const FORM_FIELDS: seq<string> := ["name", "email", "password"]

  /** The text of an error line after `showError(field, message)` on a line
      holding `existing`: the message is appended after a space, unless the
      line was empty or already holds exactly that string. The comparison is
      strict, so a message that is not a string is always appended. */
  function Accumulate(existing: string, message: Json): (t: string)
    ensures |JsString(message)| <= |t| && t[|t| - |JsString(message)|..] == JsString(message)
    ensures existing != "" && message != Str(existing) ==> |existing| < |t| && t[..|existing|] == existing
    ensures existing != "" && message != Str(existing) ==> t == existing + " " + JsString(message)
    ensures existing == "" || message == Str(existing) ==> t == JsString(message)
  {
    if existing != "" && message != Str(existing) then existing + " " + JsString(message)
    else JsString(message)
  }

  /** The line keeps its text exactly when the message is that very string,
      or when the line is empty and the message prints as nothing: repeating
      the last message is harmless only if it was the only one. */
  lemma AccumulateKeeps(existing: string, message: Json)
    ensures Accumulate(existing, message) == existing <==>
              (message == Str(existing) || (existing == "" && JsString(message) == ""))
  {
    if existing != "" && message != Str(existing) {
      assert |Accumulate(existing, message)| > |existing|;
    }
  }

  /** A second, different message on a non-empty line is appended rather than
      replacing it: showing "a" then "b" gives "a b". */
  lemma AccumulateTwo(first: string, second: string)
    requires first != "" && second != first
    ensures Accumulate(Accumulate("", Str(first)), Str(second)) == first + " " + second
  {
  }

  /** One field after `showError(field, message)`. */
  function Marked(f: Field, message: Json): Field {
    Field(if f.input.Some? then Some(Decorated(f.input.value, NEUTRAL_CLASSES)) else None,
          if f.error.Some? then Some(ErrorLine(Accumulate(f.error.value.text, message), Block)) else None)
  }

  /** The fields after `showError(field, message)`: only `id` changes. */
  function WithError(fs: map<string, Field>, id: string, message: Json): (r: map<string, Field>)
    ensures r.Keys == fs.Keys
    ensures id in fs ==> r[id] == Marked(fs[id], message)
    ensures forall k :: k in fs && k != id ==> r[k] == fs[k]
  {
    if id in fs then fs[id := Marked(fs[id], message)] else fs
  }

  /** The fields after the `forEach` over `entries` (none of them `null`):
      each complete entry shows its message on the field it names. */
  function ShowErrors(fs: map<string, Field>, entries: seq<Json>): (r: map<string, Field>)
    ensures r.Keys == fs.Keys
    decreases |entries|
  {
    if entries == [] then fs
    else
      var before := ShowErrors(fs, entries[..|entries| - 1]);
      var last := entries[|entries| - 1];
      if IsComplete(last) then WithError(before, FieldId(last), Prop(last, "message")) else before
  }

  /** The messages of the complete entries that name `id`, in order. */
  function Messages(entries: seq<Json>, id: string): (ms: seq<Json>)
    ensures |ms| <= |entries|
    ensures ms == [] <==> forall j :: 0 <= j < |entries| ==> !(IsComplete(entries[j]) && FieldId(entries[j]) == id)
    decreases |entries|
  {
    if entries == [] then []
    else
      var before := Messages(entries[..|entries| - 1], id);
      var last := entries[|entries| - 1];
      if IsComplete(last) && FieldId(last) == id then before + [Prop(last, "message")] else before
  }

  /** The text of an error line after `messages` were shown on it in turn. */
  function AccumulateAll(text: string, messages: seq<Json>): (t: string)
    ensures messages == [] ==> t == text
    ensures messages != [] ==> var last := JsString(messages[|messages| - 1]);
                               |last| <= |t| && t[|t| - |last|..] == last
    decreases |messages|
  {
    if messages == [] then text
    else Accumulate(AccumulateAll(text, messages[..|messages| - 1]), messages[|messages| - 1])
  }

  /** After the array branch a field is untouched when no complete entry
      names it; otherwise its input carries the error classes and its error
      line is shown, holding every message that names it accumulated in
      order onto what it held before. */
  lemma {:induction false} ShowErrorsAt(fs: map<string, Field>, entries: seq<Json>, id: string)
    requires id in fs
    ensures var f := ShowErrors(fs, entries)[id];
            var ms := Messages(entries, id);
            && (ms == [] ==> f == fs[id])
            && (ms != [] ==> f.input == (if fs[id].input.Some? then Some(Decorated(fs[id].input.value, NEUTRAL_CLASSES)) else None))
            && (ms != [] ==> f.error == (if fs[id].error.Some? then Some(ErrorLine(AccumulateAll(fs[id].error.value.text, ms), Block)) else None))
    decreases |entries|
  {
    if entries != [] {
      var prefix := entries[..|entries| - 1];
      var last := entries[|entries| - 1];
      ShowErrorsAt(fs, prefix, id);
      var ms := Messages(entries, id);
      var before := Messages(prefix, id);
      if IsComplete(last) && FieldId(last) == id {
        assert ms == before + [Prop(last, "message")];
        assert ms[..|ms| - 1] == before;
        if fs[id].input.Some? && before != [] {
          var c := fs[id].input.value;
          assert Decorated(Decorated(c, NEUTRAL_CLASSES), NEUTRAL_CLASSES) == Decorated(c, NEUTRAL_CLASSES);
        }
      }
    }
  }

  /** `true` when the failure branch throws a TypeError: reading `field` off
      a `null` entry, or off a `null` body. */
  predicate FailureThrows(data: Json) {
    if data.Arr? then FirstNullish(data.items) < |data.items| else IsNullish(data)
  }

  /** The fields after the failure branch of the submit listener, up to the
      point where it throws, if it does. */
  function FailureFields(fs: map<string, Field>, data: Json): (r: map<string, Field>)
    ensures r.Keys == fs.Keys
    ensures data.Arr? ==> r == ShowErrors(fs, data.items[..FirstNullish(data.items)])
    ensures !data.Arr? && !IsNullish(data) && IsComplete(data) ==> r == WithError(fs, FieldId(data), Prop(data, "message"))
    ensures !data.Arr? && !(!IsNullish(data) && IsComplete(data)) ==> r == fs
  {
    if data.Arr? then ShowErrors(fs, data.items[..FirstNullish(data.items)])
    else if !IsNullish(data) && IsComplete(data) then WithError(fs, FieldId(data), Prop(data, "message"))
    else fs
  }

  /** Errors never outlive a submission: whatever the last failure showed,
      the `clearErrors` that starts the next submission gives each form field
      whose input was neutral its original classes back, and leaves its error
      line empty and hidden. */
  lemma ResubmitClears(fs: map<string, Field>, data: Json, id: string)
    requires id in fs && id in FORM_FIELDS
    requires fs[id].input.Some? ==> NEUTRAL_CLASSES <= fs[id].input.value && fs[id].input.value !! ERROR_CLASSES
    ensures var f := ClearAll(FailureFields(fs, data), FORM_FIELDS, NEUTRAL_CLASSES)[id];
            && f.input == fs[id].input
            && f.error == if fs[id].error.Some? then Some(ErrorLine("", Hidden)) else None
  {
    var shown := FailureFields(fs, data);
    ClearAllAt(shown, FORM_FIELDS, NEUTRAL_CLASSES, id);
    if data.Arr? {
      ShowErrorsAt(fs, data.items[..FirstNullish(data.items)], id);
    }
    if fs[id].input.Some? {
      var c := fs[id].input.value;
      assert Undecorated(c, NEUTRAL_CLASSES) == c;
      assert Undecorated(Decorated(c, NEUTRAL_CLASSES), NEUTRAL_CLASSES) == c;
    }
  }

  /** The alerts the submit listener adds once `register` has produced `r`
      (the login that follows a success adds none). */
  function ResultAlerts(r: Call<Auth.AuthResult>): (a: seq<string>)
    ensures r.Threw? ==> a == [CONNECTION_ERROR]
    ensures r.Returned? && r.value.ok ==> a == []
    ensures r.Returned? && !r.value.ok && FailureThrows(r.value.responseData) ==> a == [CONNECTION_ERROR]
    ensures r.Returned? && !r.value.ok && !FailureThrows(r.value.responseData) ==>
              var d := r.value.responseData;
              a == (if !d.Arr? && !IsComplete(d) then [REGISTER_FAILED] else [])
    ensures |a| <= 1
  {
    match r
    case Threw(_) => [CONNECTION_ERROR]
    case Returned(res) =>
      if res.ok then []
      else if FailureThrows(res.responseData) then [CONNECTION_ERROR]
      else if !res.responseData.Arr? && !IsComplete(res.responseData) then [REGISTER_FAILED]
      else []
  }

  class Register {
    const auth: Auth.AuthService
    const login: LoginPage.Login
    const doc: Document

    /** `new Register(authService, login)` on the page `doc`. */
    constructor(auth: Auth.AuthService, login: LoginPage.Login, doc: Document)
      ensures this.auth == auth && this.login == login && this.doc == doc
    {
      this.auth := auth;
      this.login := login;
      this.doc := doc;
    }

    /** The login page object renders on this page and talks to the same
        network and storage: both services are built over the page's
        `localStorage` and the one axios. */
    predicate Wired() {
      login.doc == doc && login.auth.net == auth.net && login.auth.store == auth.store
    }

    /** `showError(field, message)`. */
    method ShowError(id: string, message: Json)
      modifies doc`fields
      ensures doc.fields == WithError(old(doc.fields), id, message)
    {
      if id !in doc.fields {
        return;
      }
      var f := doc.fields[id];
      if f.input.Some? {
        f := f.(input := Some((f.input.value - NEUTRAL_CLASSES) + ERROR_CLASSES));
      }
      if f.error.Some? {
        var existing := f.error.value.text;
        f := f.(error := Some(ErrorLine(Accumulate(existing, message), Block)));
      }
      doc.fields := doc.fields[id := f];
    }

    /** `clearFieldError(field)`; also the `input` listener of the name,
        email and password fields. */
    method ClearFieldError(id: string)
      modifies doc`fields
      ensures doc.fields == WithoutFieldError(old(doc.fields), id, NEUTRAL_CLASSES)
    {
      if id !in doc.fields {
        return;
      }
      var f := doc.fields[id];
      if f.input.Some? {
        f := f.(input := Some((f.input.value - ERROR_CLASSES) + NEUTRAL_CLASSES));
      }
      if f.error.Some? {
        f := f.(error := Some(ErrorLine("", Hidden)));
      }
      doc.fields := doc.fields[id := f];
    }

    /** `clearErrors()`: resets the name, email and password fields. */
    method ClearErrors()
      modifies doc`fields
      ensures doc.fields == ClearAll(old(doc.fields), FORM_FIELDS, NEUTRAL_CLASSES)
    {
      for i := 0 to |FORM_FIELDS|
        invariant doc.fields == ClearAll(old(doc.fields), FORM_FIELDS[..i], NEUTRAL_CLASSES)
      {
        ClearFieldError(FORM_FIELDS[i]);
        assert FORM_FIELDS[..i + 1][..i] == FORM_FIELDS[..i];
      }
      assert FORM_FIELDS[..|FORM_FIELDS|] == FORM_FIELDS;
    }

    /** The `else` branch of the submit listener, after a failed `register`;
        `threw` reports the TypeError of a `null` entry or body. */
    method HandleFailure(data: Json) returns (threw: bool)
      modifies doc`fields, doc`alerts
      ensures threw == FailureThrows(data)
      ensures doc.fields == FailureFields(old(doc.fields), data)
      ensures doc.alerts == old(doc.alerts) +
                (if !data.Arr? && !IsNullish(data) && !IsComplete(data) then [REGISTER_FAILED] else [])
    {
      if data.Arr? {
        var entries := data.items;
        var i := 0;
        while i < |entries| && !IsNullish(entries[i])
          invariant 0 <= i <= |entries|
          invariant forall j :: 0 <= j < i ==> !IsNullish(entries[j])
          invariant doc.fields == ShowErrors(old(doc.fields), entries[..i])
          invariant doc.alerts == old(doc.alerts)
        {
          var entry := entries[i];
          if IsComplete(entry) {
            ShowError(FieldId(entry), Prop(entry, "message"));
          }
          assert entries[..i + 1][..i] == entries[..i];
          i := i + 1;
        }
        assert i == FirstNullish(entries);
        return i < |entries|;
      }
      if IsNullish(data) {
        return true;
      }
      if IsComplete(data) {
        ShowError(FieldId(data), Prop(data, "message"));
      } else {
        doc.alerts := doc.alerts + [REGISTER_FAILED];
      }
      threw := false;
    }

    /** The page's login widgets and the session stay as they were: the
        banner, the error list, the button and the inputs, the stored
        session and the expiry timer. */
    twostate predicate LoginSideKept()
      reads doc, doc.loginInputs, login.auth, auth.store
    {
      && doc.banner == old(doc.banner)
      && doc.errorMessages == old(doc.errorMessages)
      && doc.loginButton == old(doc.loginButton)
      && doc.loginInputs[..] == old(doc.loginInputs[..])
      && auth.store.items == old(auth.store.items)
      && login.auth.logoutTimer == old(login.auth.logoutTimer)
      && login.auth.timeouts == old(login.auth.timeouts)
    }

    /** What a submission with accepted terms leaves behind, once the form
        fields were cleared to `cleared`: one register request; on success
        the login page's `handleLogin` runs with the same email and password
        over the cleared fields; on failure the server's errors are shown
        and at most one alert is raised; the session and the login widgets
        change only through that login. */
    twostate predicate RegisterHandled(name: string, email: string, password: string, now: int,
                                       cleared: map<string, Field>)
      reads this, doc, doc.loginInputs, auth, auth.net, auth.store, login, login.auth
    {
      var req := Auth.RegisterRequest(name, email, password);
      var r := Auth.RegisterResult(auth.net.server(|old(auth.net.sent)|, req));
      var lr := Auth.LoginResult(auth.net.server(|old(auth.net.sent)| + 1, Auth.LoginRequest(email, password)));
      && doc.alerts == old(doc.alerts) + ResultAlerts(r)
      && (r.Threw? ==> doc.fields == cleared)
      && (r.Returned? && !r.value.ok ==> doc.fields == FailureFields(cleared, r.value.responseData))
      && (!(r.Returned? && r.value.ok) ==> auth.net.sent == old(auth.net.sent) + [req] && LoginSideKept())
      && (r.Returned? && r.value.ok ==>
            && auth.net.sent == old(auth.net.sent) + [req, Auth.LoginRequest(email, password)]
            && LoginPage.Screen(doc.fields, doc.banner) ==
                 LoginPage.LoginScreen(LoginPage.ClearedScreen(LoginPage.Screen(cleared, old(doc.banner))), lr)
            && doc.errorMessages == (if old(doc.errorMessages).Some? then Some("") else None)
            && doc.loginButton == LoginPage.LoadingButton(old(doc.loginButton), false)
            && LoginPage.InputsSet(old(doc.loginInputs[..]), doc.loginInputs[..], doc.hasLoginForm, false)
            && (lr.Returned? && lr.value.ok ==>
                  && auth.store.items == Auth.SavedSession(old(auth.store.items), lr.value.responseData)
                  && login.auth.logoutTimer == Some(old(login.auth.nextTimerId))
                  && login.auth.timeouts == map[old(login.auth.nextTimerId) := now + Auth.FOUR_HOURS_MS])
            && (!(lr.Returned? && lr.value.ok) ==>
                  && auth.store.items == old(auth.store.items)
                  && login.auth.logoutTimer == old(login.auth.logoutTimer)
                  && login.auth.timeouts == old(login.auth.timeouts)))
    }

    /** What one submission with the trimmed `name` and `email` leaves
        behind: the fields are cleared first; unaccepted terms then stop it
        with an alert before any request; accepted ones go on as
        `RegisterHandled` over the cleared fields. */
    twostate predicate Submitted(name: string, email: string, password: string, terms: bool, now: int)
      reads this, doc, doc.loginInputs, auth, auth.net, auth.store, login, login.auth
    {
      var cleared := ClearAll(old(doc.fields), FORM_FIELDS, NEUTRAL_CLASSES);
      && (!terms ==>
            && doc.fields == cleared
            && doc.alerts == old(doc.alerts) + [TERMS_REQUIRED]
            && auth.net.sent == old(auth.net.sent)
            && LoginSideKept())
      && (terms ==> RegisterHandled(name, email, password, now, cleared))
    }

    /** The `try` block of the submit listener, after the terms were
        accepted. */
    method SubmitAccepted(name: string, email: string, password: string, now: int)
      requires Wired() && login.auth.Valid()
      modifies doc`fields, doc`banner, doc`errorMessages, doc`loginButton, doc.loginInputs, doc`alerts
      modifies auth.net, login.auth, login.auth.store
      ensures login.auth.Valid()
      ensures RegisterHandled(name, email, password, now, old(doc.fields))
    {
      var r := auth.Register(name, email, password);
      match r {
        case Threw(_) =>
          doc.alerts := doc.alerts + [CONNECTION_ERROR];
        case Returned(res) =>
          if res.ok {
            var _ := login.HandleLogin(email, password, now);
          } else {
            var threw := HandleFailure(res.responseData);
            if threw {
              doc.alerts := doc.alerts + [CONNECTION_ERROR];
            }
          }
      }
    }

    /** The submit listener of `register()` once the name and email are
        trimmed. */
    method SubmitTrimmed(name: string, email: string, password: string, terms: bool, now: int)
      requires Wired() && login.auth.Valid()
      modifies doc`fields, doc`banner, doc`errorMessages, doc`loginButton, doc.loginInputs, doc`alerts
      modifies auth.net, login.auth, login.auth.store
      ensures login.auth.Valid()
      ensures Submitted(name, email, password, terms, now)
    {
      ClearErrors();
      if !terms {
        doc.alerts := doc.alerts + [TERMS_REQUIRED];
        return;
      }
      SubmitAccepted(name, email, password, now);
    }

    /** The submit listener of `register()`: trims the name and the email
        (not the password) and goes on as `SubmitTrimmed`. */
    method Submit(nameValue: string, emailValue: string, passwordValue: string, terms: bool, now: int)
      requires Wired() && login.auth.Valid()
      modifies doc`fields, doc`banner, doc`errorMessages, doc`loginButton, doc.loginInputs, doc`alerts
      modifies auth.net, login.auth, login.auth.store
      ensures login.auth.Valid()
      ensures Submitted(Trim(nameValue), Trim(emailValue), passwordValue, terms, now)
    {
      SubmitTrimmed(Trim(nameValue), Trim(emailValue), passwordValue, terms, now);
    }
  }
}
