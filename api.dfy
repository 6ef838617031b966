/**
  The HTTP client wrapper: the default headers every request starts from, the
  Authorization bookkeeping of `setAuthToken`/`initAuth`, the request
  interceptor, and the shapes of the order request and of its outcome.
  The network itself is not modelled: a request's outcome is a parameter.
*/
module Api {
  import opened Wrappers
  import Store

  const Authorization: string := "Authorization"
  const ContentType: string := "Content-Type"

  /** The Authorization value for a token. */
  function Bearer(token: string): string {
    "Bearer " + token
  }

  /**
    The default headers after `setAuthToken(token)`: a truthy token sets
    Authorization to its bearer value, `null` or `""` deletes it, and every
    other header is left as it was.
  */
  function WithAuth(headers: map<string, string>, token: Option<string>): (r: map<string, string>)
    ensures Truthy(token) ==> Authorization in r && r[Authorization] == Bearer(token.value)
    ensures !Truthy(token) ==> Authorization !in r
    ensures forall k :: k != Authorization ==> (k in r <==> k in headers)
    ensures forall k :: k != Authorization && k in headers ==> r[k] == headers[k]
  {
    if Truthy(token) then headers[Authorization := Bearer(token.value)]
    else headers - {Authorization}
  }

  /**
    A request's headers after the interceptor: with a truthy stored token,
    Authorization is overwritten by its bearer value; otherwise the headers are
    returned as they came.
  */
  function Intercepted(headers: map<string, string>, stored: Option<string>): (r: map<string, string>)
    ensures Truthy(stored) ==> Authorization in r && r[Authorization] == Bearer(stored.value)
    ensures !Truthy(stored) ==> r == headers
    ensures forall k :: k != Authorization ==> (k in r <==> k in headers)
    ensures forall k :: k != Authorization && k in headers ==> r[k] == headers[k]
  {
    if Truthy(stored) then headers[Authorization := Bearer(stored.value)] else headers
  }

  /** Calling `setAuthToken` twice with the same argument is calling it once. */
  lemma WithAuthIdempotent(headers: map<string, string>, token: Option<string>)
    ensures WithAuth(WithAuth(headers, token), token) == WithAuth(headers, token)
  {
  }

  /** The last `setAuthToken` wins, whatever the one before it did. */
  lemma WithAuthOverrides(headers: map<string, string>, t1: Option<string>, t2: Option<string>)
    ensures WithAuth(WithAuth(headers, t1), t2) == WithAuth(headers, t2)
  {
  }

  /**
    After `setAuthToken(t)` with the same truthy token that sits in storage,
    the interceptor changes nothing: both agree on the bearer value.
  */
  lemma InterceptorAgreesWithDefaults(headers: map<string, string>, token: Option<string>)
    requires Truthy(token)
    ensures Intercepted(WithAuth(headers, token), token) == WithAuth(headers, token)
  {
  }

  /** One item of the `POST /api/orders` body. */
  datatype OrderItem = OrderItem(productId: string, name: string, price: int, quantity: int)

  /** An order request as sent: its items and the headers it carries. */
  datatype OrderRequest = OrderRequest(items: seq<OrderItem>, headers: map<string, string>)

  /**
    How the backend answers: created, rejected with an optional `error` and
    `message` in the response body, or no response at all.
  */
  datatype PostOutcome = Created | Rejected(error: Option<string>, message: Option<string>) | NoResponse

  /** The axios instance's default headers. */
  class Client {
    var headers: map<string, string>

    /** The client is created with a JSON content type as its only default header. */
    constructor ()
      ensures headers == map[ContentType := "application/json"]
    {
      headers := map[ContentType := "application/json"];
    }

    /** setAuthToken: install or delete the default Authorization header. */
    method SetAuthToken(token: Option<string>)
      modifies this
      ensures headers == WithAuth(old(headers), token)
    {
      if Truthy(token) {
        headers := headers[Authorization := Bearer(token.value)];
      } else {
        headers := headers - {Authorization};
      }
    }

    /**
      initAuth: a truthy stored token is installed as by `setAuthToken`;
      with no token or an empty one the headers are left alone (nothing is deleted).
    */
    method InitAuth(browser: Store.Browser)
      modifies this
      ensures Truthy(browser.token) ==> headers == WithAuth(old(headers), browser.token)
      ensures !Truthy(browser.token) ==> headers == old(headers)
    {
      var token := browser.token;
      if Truthy(token) {
        SetAuthToken(token);
      }
    }

    /** The headers a fresh request starts from, put through the request interceptor. */
    method Prepare(browser: Store.Browser) returns (headers': map<string, string>)
      ensures headers' == Intercepted(headers, browser.token)
    {
      var config := new RequestConfig(headers);
      config.Intercept(browser);
      headers' := config.headers;
    }
  }

  /** The `config` object a request interceptor receives. */
  class RequestConfig {
    var headers: map<string, string>

    constructor (headers: map<string, string>)
      ensures this.headers == headers
    {
      this.headers := headers;
    }

    /** The request interceptor: reads the stored token afresh on every request. */
    method Intercept(browser: Store.Browser)
      modifies this
      ensures headers == Intercepted(old(headers), browser.token)
    {
      var token := browser.token;
      if Truthy(token) {
        headers := headers[Authorization := Bearer(token.value)];
      }
    }
  }
}
