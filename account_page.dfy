/** The account page (`Account`): shows the signed-in user's profile, opens
    and closes the "add data" modal, and submits the modal's form as an
    update in which every empty input falls back to what the page displays. */
module AccountPage {
  import opened Js
  import opened Text
  import opened Browser
  import Accounts

  /** What the page displays for a missing or falsy value. */
  const PLACEHOLDER := "Não informado"

  /** The texts of `#user-name`, `#user-email`, `#user-phone`,
      `#user-address` and `#user-cpf`. */
  datatype ProfileView = ProfileView(name: string, email: string, phone: string, address: string, cpf: string)

  /** The raw values of the modal form's inputs, before `trim`. */
  datatype ProfileForm = ProfileForm(
    name: string, phone: string,
    street: string, number: string, neighborhood: string, city: string, state: string,
    cpf: string)

  /** `value || 'Não informado'` assigned to `textContent`. */
  function Shown(v: Json): (shown: string)
    ensures Truthy(v) ==> shown == JsString(v)
    ensures !Truthy(v) ==> shown == PLACEHOLDER
  {
    if Truthy(v) then JsString(v) else PLACEHOLDER
  }

  /** The five displayed parts of an address, in order. */
  function AddressParts(address: Json): (parts: seq<string>)
    ensures |parts| == 5
    ensures parts[0] == Shown(Prop(address, "street")) && parts[1] == Shown(Prop(address, "number"))
    ensures parts[2] == Shown(Prop(address, "neighborhood")) && parts[3] == Shown(Prop(address, "city"))
    ensures parts[4] == Shown(Prop(address, "state"))
  {
    [Shown(Prop(address, "street")), Shown(Prop(address, "number")), Shown(Prop(address, "neighborhood")),
     Shown(Prop(address, "city")), Shown(Prop(address, "state"))]
  }

  /** The address line: the five parts joined with ", ". When no part holds
      a comma, splitting the line on ',' gives the parts back, every one
      after the first with the space the join put in front of it. */
  function AddressLine(address: Json): (line: string)
    ensures (forall i :: 0 <= i < 5 ==> ',' !in AddressParts(address)[i]) ==>
              var pieces := Split(line, ',');
              && |pieces| == 5 && pieces[0] == AddressParts(address)[0]
              && forall i :: 1 <= i < 5 ==> pieces[i] == " " + AddressParts(address)[i]
  {
    var parts := AddressParts(address);
    if forall i :: 0 <= i < 5 ==> ',' !in parts[i] then
      assert ", " == [','] + " ";
      SplitJoined(parts, ',', " ");
      Join(parts, ", ")
    else
      Join(parts, ", ")
  }

  /** Whether `updateProfileUI(data)` runs to the end: it throws reading
      `name` off a `null` body, or reading `street` off a missing address. */
  predicate Renders(data: Json) {
    !IsNullish(data) && !IsNullish(Prop(data, "address"))
  }

  /** The view after `updateProfileUI(data)`, up to the point where it
      throws: with no address, name, email and phone are already written
      and the address and cpf keep their old text. */
  function Rendered(v: ProfileView, data: Json): (r: ProfileView)
    ensures IsNullish(data) ==> r == v
    ensures !IsNullish(data) ==>
              r.name == Shown(Prop(data, "name")) && r.email == Shown(Prop(data, "email"))
              && r.phone == Shown(Prop(data, "phone"))
    ensures !Renders(data) ==> r.address == v.address && r.cpf == v.cpf
    ensures Renders(data) ==> r.address == AddressLine(Prop(data, "address")) && r.cpf == Shown(Prop(data, "cpf"))
  {
    if IsNullish(data) then v
    else
      var named := v.(name := Shown(Prop(data, "name")), email := Shown(Prop(data, "email")),
                      phone := Shown(Prop(data, "phone")));
      var address := Prop(data, "address");
      if IsNullish(address) then named
      else named.(address := AddressLine(address), cpf := Shown(Prop(data, "cpf")))
  }

  /** A complete render does not depend on what was displayed before, and
      rendering the same body again changes nothing. */
  lemma RenderedForgetsOld(v: ProfileView, w: ProfileView, data: Json)
    requires Renders(data)
    ensures Rendered(v, data) == Rendered(w, data)
    ensures Rendered(Rendered(v, data), data) == Rendered(v, data)
  {
  }

  /** The view after `profile()` has got `r` from the service: rendered on
      a 2xx, untouched on any other answer or a thrown error. */
  function Refreshed(v: ProfileView, r: Call<Accounts.AccountResult>): (after: ProfileView)
    ensures !(r.Returned? && r.value.ok) ==> after == v
    ensures r.Returned? && r.value.ok ==> after == Rendered(v, r.value.responseData)
  {
    if r.Returned? && r.value.ok then Rendered(v, r.value.responseData) else v
  }

  /** `input.value.trim() || displayedText`. */
  function OrShown(value: string, shown: string): (r: string)
    ensures !AllWhitespace(value) ==> r == Trim(value) && r != ""
    ensures AllWhitespace(value) ==> r == shown
  {
    TrimEmptyIff(value);
    var t := Trim(value);
    if t != "" then t else shown
  }

  /** An address input, or else the `i`-th piece of the displayed address
      split on ","; `undefined` when there are not that many pieces. */
  function AddressPiece(value: string, shown: string, i: nat): (piece: Json)
    ensures !AllWhitespace(value) ==> piece == Str(Trim(value)) && Trim(value) != ""
    ensures AllWhitespace(value) ==>
              piece == if i < |Split(shown, ',')| then Str(Split(shown, ',')[i]) else Undefined
  {
    TrimEmptyIff(value);
    var t := Trim(value);
    if t != "" then Str(t)
    else
      var pieces := Split(shown, ',');
      if i < |pieces| then Str(pieces[i]) else Undefined
  }

  /** The `address` object of the update. */
  datatype AddressUpdate = AddressUpdate(street: Json, number: Json, neighborhood: Json, city: Json, state: Json)

  /** The `formData` object of the update: there is no email in it. */
  datatype ProfileUpdate = ProfileUpdate(name: string, phone: string, address: AddressUpdate, cpf: string)

  /** The `formData` the submit listener builds from the form and the view:
      each trimmed input, or else what the view displays for it. */
  function UpdatePayload(form: ProfileForm, v: ProfileView): ProfileUpdate {
    ProfileUpdate(
      OrShown(form.name, v.name),
      OrShown(form.phone, v.phone),
      AddressUpdate(
        AddressPiece(form.street, v.address, 0),
        AddressPiece(form.number, v.address, 1),
        AddressPiece(form.neighborhood, v.address, 2),
        AddressPiece(form.city, v.address, 3),
        AddressPiece(form.state, v.address, 4)),
      OrShown(form.cpf, v.cpf))
  }

  /** The update as the object handed to `updateData`: four keys, no email,
      and always an object, so `updateData`'s check lets it through. */
  function UpdateJson(u: ProfileUpdate): (j: Json)
    ensures j.Obj? && j.props.Keys == {"name", "phone", "address", "cpf"}
    ensures Accounts.IsFormObject(j)
    ensures j.props["name"] == Str(u.name) && j.props["phone"] == Str(u.phone) && j.props["cpf"] == Str(u.cpf)
    ensures var a := j.props["address"];
            && a.Obj? && a.props.Keys == {"street", "number", "neighborhood", "city", "state"}
            && a.props["street"] == u.address.street && a.props["number"] == u.address.number
            && a.props["neighborhood"] == u.address.neighborhood && a.props["city"] == u.address.city
            && a.props["state"] == u.address.state
  {
    var a := u.address;
    Obj(map["name" := Str(u.name),
            "phone" := Str(u.phone),
            "address" := Obj(map["street" := a.street, "number" := a.number, "neighborhood" := a.neighborhood,
                                 "city" := a.city, "state" := a.state]),
            "cpf" := Str(u.cpf)])
  }

  /** An input left blank submits what is displayed: on a rendered view
      with no commas inside the address parts, the blank address inputs
      give back the displayed parts, the first as it is and the other four
      with the leading space the ", " join put there. */
  lemma AddressFallback(form: ProfileForm, v: ProfileView, address: Json)
    requires v.address == AddressLine(address)
    requires forall i :: 0 <= i < 5 ==> ',' !in AddressParts(address)[i]
    requires AllWhitespace(form.street) && AllWhitespace(form.number) && AllWhitespace(form.neighborhood)
    requires AllWhitespace(form.city) && AllWhitespace(form.state)
    ensures var a := UpdatePayload(form, v).address;
            var parts := AddressParts(address);
            && a.street == Str(parts[0])
            && a.number == Str(" " + parts[1])
            && a.neighborhood == Str(" " + parts[2])
            && a.city == Str(" " + parts[3])
            && a.state == Str(" " + parts[4])
  {
    var parts := AddressParts(address);
    assert ", " == [','] + " ";
    SplitJoined(parts, ',', " ");
  }

  /** A profile field the server left out (or sent falsy) is displayed as
      the placeholder, so submitting the form with that input blank sends
      the placeholder text itself. */
  lemma PlaceholderSubmitted(form: ProfileForm, v: ProfileView, data: Json)
    requires Renders(data)
    ensures var p := UpdatePayload(form, Rendered(v, data));
            && (!Truthy(Prop(data, "name")) && AllWhitespace(form.name) ==> p.name == PLACEHOLDER)
            && (!Truthy(Prop(data, "phone")) && AllWhitespace(form.phone) ==> p.phone == PLACEHOLDER)
            && (!Truthy(Prop(data, "cpf")) && AllWhitespace(form.cpf) ==> p.cpf == PLACEHOLDER)
  {
    TrimEmptyIff(form.name);
    TrimEmptyIff(form.phone);
    TrimEmptyIff(form.cpf);
  }

  /** Each of name, phone and cpf is the trimmed input when that is not
      blank, and otherwise exactly the displayed text. */
  lemma PayloadFieldChoice(form: ProfileForm, v: ProfileView)
    ensures var p := UpdatePayload(form, v);
            && (!AllWhitespace(form.name) ==> p.name == Trim(form.name) != "")
            && (!AllWhitespace(form.phone) ==> p.phone == Trim(form.phone) != "")
            && (!AllWhitespace(form.cpf) ==> p.cpf == Trim(form.cpf) != "")
            && (AllWhitespace(form.name) ==> p.name == v.name)
            && (AllWhitespace(form.phone) ==> p.phone == v.phone)
            && (AllWhitespace(form.cpf) ==> p.cpf == v.cpf)
  {
    TrimEmptyIff(form.name);
    TrimEmptyIff(form.phone);
    TrimEmptyIff(form.cpf);
  }

  /** The request `profile()` sends with `token`. */
  function ProfileRequest(token: string): HttpRequest {
    Accounts.RequestConfig(Get, Accounts.PROFILE_URL, token, Null)
  }

  /** The request `updateData(payload)` sends with `token`. */
  function UpdateRequest(token: string, payload: Json): HttpRequest {
    Accounts.RequestConfig(Put, Accounts.DETAILS_URL, token, payload)
  }

  /** How many of `reqs` are updates (PUTs). */
  function PutCount(reqs: seq<HttpRequest>): (n: nat)
    ensures n <= |reqs|
    decreases |reqs|
  {
    if reqs == [] then 0 else PutCount(reqs[..|reqs| - 1]) + (if reqs[|reqs| - 1].verb == Put then 1 else 0)
  }

  lemma {:induction false} PutCountAppend(a: seq<HttpRequest>, b: seq<HttpRequest>)
    ensures PutCount(a + b) == PutCount(a) + PutCount(b)
    decreases |b|
  {
    if b != [] {
      var b' := b[..|b| - 1];
      assert (a + b)[..|a + b| - 1] == a + b';
      assert (a + b)[|a + b| - 1] == b[|b| - 1];
      PutCountAppend(a, b');
    } else {
      assert a + b == a;
    }
  }

  /** One listener run appends its update and possibly a refetch to the
      log: the updates counted since `before` grow by exactly one, and all of
      them are still the same request. */
  lemma LogStep(before: seq<HttpRequest>, mid: seq<HttpRequest>, put: HttpRequest, extra: seq<HttpRequest>)
    requires |before| <= |mid| && mid[..|before|] == before
    requires put.verb == Put
    requires |extra| <= 1 && forall j :: 0 <= j < |extra| ==> extra[j].verb != Put
    requires forall j :: |before| <= j < |mid| && mid[j].verb == Put ==> mid[j] == put
    ensures var now := mid + [put] + extra;
            && |before| <= |now| && now[..|before|] == before
            && PutCount(now[|before|..]) == PutCount(mid[|before|..]) + 1
            && forall j :: |before| <= j < |now| && now[j].verb == Put ==> now[j] == put
  {
    var now := mid + [put] + extra;
    var added := [put] + extra;
    assert now == mid + added;
    assert now[|before|..] == mid[|before|..] + added;
    PutCountAppend(mid[|before|..], added);
    assert added[..1] == [put] && [put][..0] == [];
    if |extra| == 1 {
      assert added[..|added| - 1] == [put];
    }
  }

  /** Start-up only fetches the profile, so every update counted after it
      comes from the submit. */
  lemma StartThenSubmit(before: seq<HttpRequest>, started: seq<HttpRequest>, after: seq<HttpRequest>, token: string)
    requires |before| <= |started| && forall j :: |before| <= j < |started| ==> started[j] == ProfileRequest(token)
    requires started[..|before|] == before
    requires |started| <= |after| && after[..|started|] == started
    ensures PutCount(after[|before|..]) == PutCount(after[|started|..])
  {
    var boot := started[|before|..];
    assert after[|before|..] == boot + after[|started|..];
    PutCountAppend(boot, after[|started|..]);
    NoUpdates(boot, token);
  }

  /** A log of profile fetches holds no update. */
  lemma {:induction false} NoUpdates(reqs: seq<HttpRequest>, token: string)
    requires forall j :: 0 <= j < |reqs| ==> reqs[j] == ProfileRequest(token)
    ensures PutCount(reqs) == 0
    decreases |reqs|
  {
    if reqs != [] {
      NoUpdates(reqs[..|reqs| - 1], token);
    }
  }

  /** What a submit of the form can change on the page: the request log,
      the displayed profile and the modal's display. */
  datatype PageState = PageState(sent: seq<HttpRequest>, view: ProfileView, modal: Display)

  /** The page after `profile()` on `s`, with `server` answering. */
  function Fetched(server: (nat, HttpRequest) -> Outcome, token: string, s: PageState): PageState {
    var get := ProfileRequest(token);
    PageState(s.sent + [get],
              Refreshed(s.view, Accounts.Envelope(server(|s.sent|, get), Accounts.FallbackMessage(Get, Accounts.PROFILE_URL))),
              s.modal)
  }

  /** The page after one `submit` listener's `try` block on `s`, for a
      payload that passes `updateData`'s object check: the update is sent
      and, unless that threw, the modal is closed and the profile fetched
      again, whatever the update's status. */
  function Updated(server: (nat, HttpRequest) -> Outcome, token: string, payload: Json, s: PageState): PageState {
    var put := UpdateRequest(token, payload);
    var r := Accounts.Envelope(server(|s.sent|, put), Accounts.FallbackMessage(Put, Accounts.DETAILS_URL));
    if r.Threw? then s.(sent := s.sent + [put])
    else Fetched(server, token, PageState(s.sent + [put], s.view, Hidden))
  }

  /** The page after `n` listeners ran their `try` blocks one after the
      other. */
  function UpdatedTimes(server: (nat, HttpRequest) -> Outcome, token: string, payload: Json, s: PageState, n: nat): PageState
    decreases n
  {
    if n == 0 then s else Updated(server, token, payload, UpdatedTimes(server, token, payload, s, n - 1))
  }

  /** Whether a log holds a profile fetch. */
  predicate Refetched(reqs: seq<HttpRequest>) {
    exists j :: 0 <= j < |reqs| && reqs[j].verb == Get
  }

  /** `n` listeners extend the log, adding exactly `n` updates, all of them
      the same request. */
  lemma {:induction false} UpdatedTimesLog(server: (nat, HttpRequest) -> Outcome, token: string, payload: Json,
                                           s: PageState, n: nat)
    ensures var r := UpdatedTimes(server, token, payload, s, n);
            && |s.sent| <= |r.sent| && r.sent[..|s.sent|] == s.sent
            && PutCount(r.sent[|s.sent|..]) == n
            && forall j :: |s.sent| <= j < |r.sent| && r.sent[j].verb == Put ==> r.sent[j] == UpdateRequest(token, payload)
    decreases n
  {
    if n == 0 {
      assert s.sent[|s.sent|..] == [];
    } else {
      var p := UpdatedTimes(server, token, payload, s, n - 1);
      UpdatedTimesLog(server, token, payload, s, n - 1);
      var put := UpdateRequest(token, payload);
      var r := Accounts.Envelope(server(|p.sent|, put), Accounts.FallbackMessage(Put, Accounts.DETAILS_URL));
      var extra := if r.Threw? then [] else [ProfileRequest(token)];
      assert UpdatedTimes(server, token, payload, s, n).sent == p.sent + [put] + extra;
      LogStep(s.sent, p.sent, put, extra);
    }
  }

  /** One listener either closes the modal and fetches the profile again,
      or (its update threw) changes neither the modal, nor the view, nor
      whether the log since `k` holds a refetch. */
  lemma UpdatedModalStep(server: (nat, HttpRequest) -> Outcome, token: string, payload: Json, k: nat, p: PageState)
    requires k <= |p.sent|
    ensures var q := Updated(server, token, payload, p);
            && |p.sent| <= |q.sent|
            && ((q.modal == Hidden && Refetched(q.sent[k..]))
                || (q.modal == p.modal && q.view == p.view && (Refetched(q.sent[k..]) <==> Refetched(p.sent[k..]))))
  {
    var put := UpdateRequest(token, payload);
    var r := Accounts.Envelope(server(|p.sent|, put), Accounts.FallbackMessage(Put, Accounts.DETAILS_URL));
    var q := Updated(server, token, payload, p);
    var before := p.sent[k..];
    var added := q.sent[k..];
    if r.Threw? {
      assert q.sent == p.sent + [put];
      assert added == before + [put];
      assert Refetched(added) <==> Refetched(before) by {
        if Refetched(added) {
          var j :| 0 <= j < |added| && added[j].verb == Get;
          assert j < |before| && before[j].verb == Get;
        }
        if Refetched(before) {
          var j :| 0 <= j < |before| && before[j].verb == Get;
          assert added[j] == before[j];
        }
      }
    } else {
      assert q.sent == p.sent + [put] + [ProfileRequest(token)];
      assert added == before + [put] + [ProfileRequest(token)];
      assert added[|before| + 1].verb == Get;
    }
  }

  /** After `n` listeners the modal is closed once any of them fetched the
      profile again; when none did, every update threw, and the modal and
      the view are as they were. */
  lemma {:induction false} UpdatedTimesModal(server: (nat, HttpRequest) -> Outcome, token: string, payload: Json,
                                             s: PageState, n: nat)
    ensures var r := UpdatedTimes(server, token, payload, s, n);
            && |s.sent| <= |r.sent|
            && (Refetched(r.sent[|s.sent|..]) ==> r.modal == Hidden)
            && (!Refetched(r.sent[|s.sent|..]) ==> r.modal == s.modal && r.view == s.view)
    decreases n
  {
    if n == 0 {
      assert s.sent[|s.sent|..] == [];
    } else {
      var p := UpdatedTimes(server, token, payload, s, n - 1);
      UpdatedTimesModal(server, token, payload, s, n - 1);
      UpdatedModalStep(server, token, payload, |s.sent|, p);
    }
  }

  class Account {
    const service: Accounts.AccountService
    var userName: string
    var userEmail: string
    var userPhone: string
    var userAddress: string
    var userCpf: string
    /** The display of `#myModal`. */
    var modal: Display
    /** How many `submit` listeners `updateData` has put on the form. */
    var submitListeners: nat

    function View(): ProfileView
      reads this
    {
      ProfileView(userName, userEmail, userPhone, userAddress, userCpf)
    }

    /** The page's log, view and modal. */
    function State(): PageState
      reads this, service.net
    {
      PageState(service.net.sent, View(), modal)
    }

    /** `new Account(accountService)` over a page that displays `v` with the
        modal in `modal`: the constructor runs `init` once. */
    constructor(service: Accounts.AccountService, v: ProfileView, modal: Display)
      modifies service.net
      ensures this.service == service && this.modal == modal && submitListeners == 1
      ensures service.net.sent == old(service.net.sent) + [ProfileRequest(service.token)]
      ensures View() == Refreshed(v, Accounts.Envelope(service.net.server(|old(service.net.sent)|, ProfileRequest(service.token)),
                                                       Accounts.FallbackMessage(Get, Accounts.PROFILE_URL)))
      ensures State() == Fetched(service.net.server, service.token, PageState(old(service.net.sent), v, modal))
    {
      this.service := service;
      userName, userEmail, userPhone, userAddress, userCpf := v.name, v.email, v.phone, v.address, v.cpf;
      this.modal := modal;
      submitListeners := 0;
      new;
      Init();
    }

    /** `init()`: fetches the profile, installs the modal's click handlers
        (`ClickAddData`, `ClickClose`, `ClickWindow`) and adds one more
        `submit` listener to the form. */
    method Init()
      modifies this, service.net
      ensures submitListeners == old(submitListeners) + 1 && modal == old(modal)
      ensures service.net.sent == old(service.net.sent) + [ProfileRequest(service.token)]
      ensures View() == Refreshed(old(View()), Accounts.Envelope(service.net.server(|old(service.net.sent)|, ProfileRequest(service.token)),
                                                                 Accounts.FallbackMessage(Get, Accounts.PROFILE_URL)))
      ensures State() == Fetched(service.net.server, service.token, old(State()))
    {
      var _ := Profile();
      submitListeners := submitListeners + 1;
    }

    /** `updateProfileUI(userData)`; `threw` reports the TypeError of a
        `null` body or a missing address. */
    method UpdateProfileUI(data: Json) returns (threw: bool)
      modifies this`userName, this`userEmail, this`userPhone, this`userAddress, this`userCpf
      ensures threw == !Renders(data)
      ensures View() == Rendered(old(View()), data)
    {
      if IsNullish(data) {
        return true;
      }
      userName := Shown(Prop(data, "name"));
      userEmail := Shown(Prop(data, "email"));
      userPhone := Shown(Prop(data, "phone"));
      var address := Prop(data, "address");
      if IsNullish(address) {
        return true;
      }
      userAddress := AddressLine(address);
      userCpf := Shown(Prop(data, "cpf"));
      threw := false;
    }

    /** `profile()`: `ok` exactly when the service answered 2xx and the body
        rendered completely. */
    method Profile() returns (ok: bool)
      modifies this`userName, this`userEmail, this`userPhone, this`userAddress, this`userCpf, service.net
      ensures service.net.sent == old(service.net.sent) + [ProfileRequest(service.token)]
      ensures var r := Accounts.Envelope(service.net.server(|old(service.net.sent)|, ProfileRequest(service.token)),
                                         Accounts.FallbackMessage(Get, Accounts.PROFILE_URL));
              && ok == (r.Returned? && r.value.ok && Renders(r.value.responseData))
              && View() == Refreshed(old(View()), r)
    {
      var r := service.Profile();
      if r.Threw? || !r.value.ok {
        return false;
      }
      var threw := UpdateProfileUI(r.value.responseData);
      ok := !threw;
    }

    /** The click handler of `#add-dados-modal`. */
    method ClickAddData()
      modifies this`modal
      ensures modal == Block
    {
      modal := Block;
    }

    /** The click handler of the `close` span. */
    method ClickClose()
      modifies this`modal
      ensures modal == Hidden
    {
      modal := Hidden;
    }

    /** `window.onclick`: a click on the modal's backdrop closes it; any
        other click changes nothing. */
    method ClickWindow(targetIsModal: bool)
      modifies this`modal
      ensures modal == if targetIsModal then Hidden else old(modal)
    {
      if targetIsModal {
        modal := Hidden;
      }
    }

    /** The `try` block of the `submit` listener: sends the update and,
        unless that threw, closes the modal and refetches the profile,
        whatever the update's status. */
    method SendUpdate(payload: Json)
      requires Accounts.IsFormObject(payload)
      modifies this`modal, this`userName, this`userEmail, this`userPhone, this`userAddress, this`userCpf, service.net
      ensures var put := UpdateRequest(service.token, payload);
              var r := Accounts.Envelope(service.net.server(|old(service.net.sent)|, put),
                                         Accounts.FallbackMessage(Put, Accounts.DETAILS_URL));
              && service.net.sent == old(service.net.sent) + [put] + (if r.Returned? then [ProfileRequest(service.token)] else [])
              && modal == (if r.Returned? then Hidden else old(modal))
              && (r.Threw? ==> View() == old(View()))
              && (r.Returned? ==>
                    View() == Refreshed(old(View()),
                                        Accounts.Envelope(service.net.server(|old(service.net.sent)| + 1, ProfileRequest(service.token)),
                                                          Accounts.FallbackMessage(Get, Accounts.PROFILE_URL))))
      ensures State() == Updated(service.net.server, service.token, payload, old(State()))
    {
      var r := service.UpdateData(payload);
      if r.Threw? {
        return;
      }
      modal := Hidden;
      var _ := Profile();
    }

    /** A `submit` event: every listener `init` added builds the same
        payload from the form and the view before any of them waits, and
        each sends one update; the page ends as the listeners leave it one
        after the other. */
    method SubmitEvent(form: ProfileForm)
      modifies this`modal, this`userName, this`userEmail, this`userPhone, this`userAddress, this`userCpf, service.net
      ensures State() == UpdatedTimes(service.net.server, service.token, UpdateJson(UpdatePayload(form, old(View()))),
                                      old(State()), submitListeners)
      ensures |old(service.net.sent)| <= |service.net.sent|
      ensures service.net.sent[..|old(service.net.sent)|] == old(service.net.sent)
      ensures PutCount(service.net.sent[|old(service.net.sent)|..]) == submitListeners
      ensures forall j :: |old(service.net.sent)| <= j < |service.net.sent| && service.net.sent[j].verb == Put ==>
                service.net.sent[j] == UpdateRequest(service.token, UpdateJson(UpdatePayload(form, old(View()))))
    {
      RunListeners(UpdateJson(UpdatePayload(form, View())));
    }

    /** The listeners' `try` blocks, one after the other. */
    method RunListeners(payload: Json)
      requires Accounts.IsFormObject(payload)
      modifies this`modal, this`userName, this`userEmail, this`userPhone, this`userAddress, this`userCpf, service.net
      ensures |old(service.net.sent)| <= |service.net.sent|
      ensures service.net.sent[..|old(service.net.sent)|] == old(service.net.sent)
      ensures PutCount(service.net.sent[|old(service.net.sent)|..]) == submitListeners
      ensures forall j :: |old(service.net.sent)| <= j < |service.net.sent| && service.net.sent[j].verb == Put ==>
                service.net.sent[j] == UpdateRequest(service.token, payload)
      ensures State() == UpdatedTimes(service.net.server, service.token, payload, old(State()), submitListeners)
    {
      ghost var start := State();
      for i := 0 to submitListeners
        invariant State() == UpdatedTimes(service.net.server, service.token, payload, start, i)
      {
        SendUpdate(payload);
      }
      UpdatedTimesLog(service.net.server, service.token, payload, start, submitListeners);
    }

    /** The page as its module starts it: `new Account()` runs `init`, and
        the module calls `init` again, so the form ends up with two `submit`
        listeners and the profile is fetched twice. */
    static method StartAsWritten(service: Accounts.AccountService, v: ProfileView, modal: Display) returns (a: Account)
      modifies service.net
      ensures fresh(a) && a.service == service && a.submitListeners == 2
      ensures service.net.sent == old(service.net.sent) + [ProfileRequest(service.token), ProfileRequest(service.token)]
      ensures a.State() == Fetched(service.net.server, service.token,
                                   Fetched(service.net.server, service.token, PageState(old(service.net.sent), v, modal)))
    {
      a := new Account(service, v, modal);
      a.Init();
    }

    /** The page started with a single `init` (the constructor's): one
        listener, so each submit sends exactly one update. */
    static method Start(service: Accounts.AccountService, v: ProfileView, modal: Display) returns (a: Account)
      modifies service.net
      ensures fresh(a) && a.service == service && a.submitListeners == 1
      ensures service.net.sent == old(service.net.sent) + [ProfileRequest(service.token)]
      ensures a.State() == Fetched(service.net.server, service.token, PageState(old(service.net.sent), v, modal))
    {
      a := new Account(service, v, modal);
    }

    /** As the page is started, one submit of the form sends the update
        twice. */
    static method SubmitAfterStartAsWritten(service: Accounts.AccountService, v: ProfileView, modal: Display,
                                            form: ProfileForm) returns (a: Account)
      modifies service.net
      ensures |old(service.net.sent)| <= |service.net.sent|
      ensures PutCount(service.net.sent[|old(service.net.sent)|..]) == 2
      ensures var started := Fetched(service.net.server, service.token,
                                     Fetched(service.net.server, service.token, PageState(old(service.net.sent), v, modal)));
              a.State() == UpdatedTimes(service.net.server, service.token, UpdateJson(UpdatePayload(form, started.view)),
                                        started, 2)
    {
      ghost var before := service.net.sent;
      a := StartAsWritten(service, v, modal);
      ghost var started := service.net.sent;
      assert |before| <= |started| && started[..|before|] == before;
      assert forall j :: |before| <= j < |started| ==> started[j] == ProfileRequest(service.token);
      a.SubmitEvent(form);
      ghost var after := service.net.sent;
      assert |started| <= |after| && after[..|started|] == started;
      assert PutCount(after[|started|..]) == a.submitListeners;
      StartThenSubmit(before, started, after, service.token);
    }

    /** Started with a single `init`, one submit sends the update once. */
    static method SubmitAfterStart(service: Accounts.AccountService, v: ProfileView, modal: Display,
                                   form: ProfileForm) returns (a: Account)
      modifies service.net
      ensures |old(service.net.sent)| <= |service.net.sent|
      ensures PutCount(service.net.sent[|old(service.net.sent)|..]) == 1
      ensures var started := Fetched(service.net.server, service.token, PageState(old(service.net.sent), v, modal));
              a.State() == Updated(service.net.server, service.token, UpdateJson(UpdatePayload(form, started.view)), started)
    {
      ghost var before := service.net.sent;
      a := Start(service, v, modal);
      ghost var started := service.net.sent;
      assert |before| <= |started| && started[..|before|] == before;
      assert forall j :: |before| <= j < |started| ==> started[j] == ProfileRequest(service.token);
      a.SubmitEvent(form);
      ghost var after := service.net.sent;
      assert |started| <= |after| && after[..|started|] == started;
      assert PutCount(after[|started|..]) == a.submitListeners;
      StartThenSubmit(before, started, after, service.token);
    }
  }
}
