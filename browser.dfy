/** The browser facilities the client talks to, reduced to what the client
    can observe of them: `localStorage` as a string map, the HTTP transport
    (axios and the server behind it) as a function from the request and its
    position in the session to an outcome, and element visibility. */
module Browser {
  import opened Js

  /** An HTTP verb; `Name` is how the config spells it, `Upper` is its
      `toUpperCase()`. */
  datatype Method = Get | Post | Put {
    function Name(): string {
      match this
      case Get => "get"
      case Post => "post"
      case Put => "put"
    }

    function Upper(): string {
      match this
      case Get => "GET"
      case Post => "POST"
      case Put => "PUT"
    }
  }

  /** What axios is asked to send: verb, URL, headers and an optional body. */
  datatype HttpRequest = HttpRequest(verb: Method, url: string, headers: map<string, string>, body: Option<Json>)

  /** How an axios call ends: a 2xx response, a rejection that carries the
      server's response, or a rejection with no response at all. */
  datatype Outcome =
    | Success(data: Json, status: int)
    | HttpError(data: Json, status: int)
    | NoResponse

  /** A `style.display` value; `Hidden` is `"none"`. */
  datatype Display = Hidden | Block | InlineFlex

  /** `window.localStorage`. */
  class LocalStorage {
    var items: map<string, string>

    constructor(items: map<string, string>)
      ensures this.items == items
    {
      this.items := items;
    }

    /** `getItem(key)`: the stored string, or `null` when there is none. */
    function GetItem(key: string): (r: Option<string>)
      reads this
      ensures r.Some? <==> key in items
      ensures r.Some? ==> r.value == items[key]
    {
      if key in items then Some(items[key]) else None
    }

    /** `setItem(key, value)`. */
    method SetItem(key: string, value: string)
      modifies this
      ensures items == old(items)[key := value]
    {
      items := items[key := value];
    }

    /** `removeItem(key)`. */
    method RemoveItem(key: string)
      modifies this
      ensures items == old(items) - {key}
    {
      items := items - {key};
    }
  }

  /** The HTTP transport together with the server: the `n`-th request of the
      session, `r`, ends with `server(n, r)`. `sent` records the requests in
      the order they were issued. */
  class Network {
    const server: (nat, HttpRequest) -> Outcome
    var sent: seq<HttpRequest>

    constructor(server: (nat, HttpRequest) -> Outcome)
      ensures this.server == server && sent == []
    {
      this.server := server;
      sent := [];
    }

    /** Issues `req` and waits for its outcome. */
    method Send(req: HttpRequest) returns (o: Outcome)
      modifies this
      ensures sent == old(sent) + [req]
      ensures o == server(|old(sent)|, req)
    {
      o := server(|sent|, req);
      sent := sent + [req];
    }
  }
}
