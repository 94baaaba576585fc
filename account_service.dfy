/** `AccountService`: the authenticated gateway to the profile API. It
    captures the stored token once, when it is built, and sends it as a
    bearer credential with every request. */
module Accounts {
  import opened Js
  import opened Browser
  import Auth

  const BASE_URL := "http://localhost:8080/my"
  const DETAILS_URL := BASE_URL + "/details"
  const PROFILE_URL := BASE_URL + "/profile"
  const MISSING_TOKEN := "Token não encontrado. Usuário não autenticado."
  const INVALID_FORM := "Dados do formulário inválidos"

  /** The envelope every request resolves to:
      `{ response: { ok }, responseData, status }`. */
  datatype AccountResult = AccountResult(ok: bool, responseData: Json, status: int)

  /** What the `catch` of `#makeRequest` receives: an axios error with the
      server's response, or one without. */
  datatype AxiosError = Responded(data: Json, status: int) | Unanswered

  /** The axios config `#makeRequest(method, url, data)` builds: always the
      bearer header, the JSON content type only for a PUT, and the body only
      when `data` is truthy. */
  function RequestConfig(verb: Method, url: string, token: string, data: Json): (req: HttpRequest)
    ensures req.verb == verb && req.url == url
    ensures "Authorization" in req.headers && req.headers["Authorization"] == "Bearer " + token
    ensures "Content-Type" in req.headers <==> verb == Put
    ensures "Content-Type" in req.headers ==> req.headers["Content-Type"] == "application/json"
    ensures req.headers.Keys <= {"Authorization", "Content-Type"}
    ensures req.body.Some? <==> Truthy(data)
    ensures req.body.Some? ==> req.body.value == data
  {
    var bearer := map["Authorization" := "Bearer " + token];
    HttpRequest(verb, url,
                if verb == Put then bearer["Content-Type" := "application/json"] else bearer,
                if Truthy(data) then Some(data) else None)
  }

  /** The message of the error `#makeRequest` throws when no response came
      back. */
  function FallbackMessage(verb: Method, url: string): (m: string)
    ensures |m| >= 17 + |url| && m[..17] == "Erro ao executar "
    ensures m[|m| - |url|..] == url
  {
    "Erro ao executar " + verb.Upper() + " em " + url
  }

  /** `#handleError(error, fallbackMessage)`: an error with a response
      becomes a failed envelope with its body and status; any other error is
      replaced by a new `Error(fallbackMessage)`. */
  function HandleError(error: AxiosError, fallback: string): (r: Call<AccountResult>)
    ensures r.Returned? <==> error.Responded?
    ensures error.Responded? ==> r.value == AccountResult(false, error.data, error.status)
    ensures error.Unanswered? ==> r.thrown == Error(fallback)
  {
    match error
    case Responded(data, status) => Returned(AccountResult(false, data, status))
    case Unanswered => Threw(Error(fallback))
  }

  /** What `#makeRequest` resolves to or throws once its request has ended
      with `o`: `ok` exactly on a 2xx, body and status passed on whenever
      the server answered, and a thrown error naming verb and URL when it
      did not. */
  function Envelope(o: Outcome, fallback: string): (r: Call<AccountResult>)
    ensures r.Returned? <==> !o.NoResponse?
    ensures r.Returned? ==> r.value == AccountResult(o.Success?, o.data, o.status)
    ensures r.Threw? ==> r.thrown == Error(fallback)
  {
    match o
    case Success(data, status) => Returned(AccountResult(true, data, status))
    case HttpError(data, status) => HandleError(Responded(data, status), fallback)
    case NoResponse => HandleError(Unanswered, fallback)
  }

  /** The guard of `updateData`: `formData` is truthy and `typeof` gives
      "object", that is, an object or an array. */
  predicate IsFormObject(formData: Json) {
    Truthy(formData) && TypeOf(formData) == "object"
  }

  class AccountService {
    const auth: Auth.AuthService
    const net: Network
    /** `#token`, captured when the service is built. */
    const token: string

    constructor WithToken(auth: Auth.AuthService, token: string)
      ensures this.auth == auth && this.net == auth.net && this.token == token
    {
      this.auth := auth;
      this.net := auth.net;
      this.token := token;
    }

    /** `new AccountService(authService)`: reads the token through
        `getToken()` and throws when there is none (or it is empty). */
    static method Create(auth: Auth.AuthService) returns (r: Call<AccountService>)
      ensures HasStoredToken(auth) ==>
                && r.Returned? && fresh(r.value)
                && r.value.token == auth.GetToken().value
                && r.value.auth == auth && r.value.net == auth.net
      ensures !HasStoredToken(auth) ==> r == Threw(Error(MISSING_TOKEN))
    {
      var t := auth.GetToken();
      if t.None? || t.value == "" {
        return Threw(Error(MISSING_TOKEN));
      }
      var service := new AccountService.WithToken(auth, t.value);
      r := Returned(service);
    }

    /** `#makeRequest(method, url, data)`. */
    method MakeRequest(verb: Method, url: string, data: Json) returns (r: Call<AccountResult>)
      modifies net
      ensures net.sent == old(net.sent) + [RequestConfig(verb, url, token, data)]
      ensures r == Envelope(net.server(|old(net.sent)|, RequestConfig(verb, url, token, data)),
                            FallbackMessage(verb, url))
    {
      var o := net.Send(RequestConfig(verb, url, token, data));
      match o {
        case Success(body, status) =>
          r := Returned(AccountResult(true, body, status));
        case HttpError(body, status) =>
          r := HandleError(Responded(body, status), FallbackMessage(verb, url));
        case NoResponse =>
          r := HandleError(Unanswered, FallbackMessage(verb, url));
      }
    }

    /** `profile()`: a GET of the profile URL with no body. */
    method Profile() returns (r: Call<AccountResult>)
      modifies net
      ensures net.sent == old(net.sent) + [RequestConfig(Get, PROFILE_URL, token, Null)]
      ensures r == Envelope(net.server(|old(net.sent)|, RequestConfig(Get, PROFILE_URL, token, Null)),
                            FallbackMessage(Get, PROFILE_URL))
    {
      r := MakeRequest(Get, PROFILE_URL, Null);
    }

    /** `updateData(formData)`: rejects anything but an object before a
        request is built; otherwise a PUT of the details URL carrying it. */
    method UpdateData(formData: Json) returns (r: Call<AccountResult>)
      modifies net
      ensures !IsFormObject(formData) ==> r == Threw(Error(INVALID_FORM)) && net.sent == old(net.sent)
      ensures IsFormObject(formData) ==>
                && net.sent == old(net.sent) + [RequestConfig(Put, DETAILS_URL, token, formData)]
                && r == Envelope(net.server(|old(net.sent)|, RequestConfig(Put, DETAILS_URL, token, formData)),
                                 FallbackMessage(Put, DETAILS_URL))
    {
      if !IsFormObject(formData) {
        return Threw(Error(INVALID_FORM));
      }
      r := MakeRequest(Put, DETAILS_URL, formData);
    }
  }

  /** The constructor's test `!this.#token`: `getToken()` gave `null` or "". */
  predicate HasStoredToken(auth: Auth.AuthService)
    reads auth.store
  {
    auth.GetToken().Some? && auth.GetToken().value != ""
  }
}
