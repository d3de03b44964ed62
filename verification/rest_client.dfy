/** The REST client's request interceptor, which attaches the stored
    bearer token to every outgoing request. */
module RestClient {
  import opened Outcomes
  import opened Storage

  const AuthorizationHeader: string := "Authorization"

  type Headers = map<string, string>

  /** `config.headers || {}`. */
  function HeadersOrEmpty(headers: Option<Headers>): Headers {
    if headers.Some? then headers.value else map[]
  }

  /** The headers after the interceptor has seen token `token`: with a
      truthy token, the existing headers (or a new empty set) plus
      `Authorization: Bearer <token>`; otherwise exactly as they were. */
  function BearerHeaders(headers: Option<Headers>, token: Option<string>): (r: Option<Headers>)
    ensures !Truthy(token) ==> r == headers
    ensures Truthy(token) ==> r.Some? && r.value.Keys == HeadersOrEmpty(headers).Keys + {AuthorizationHeader}
    ensures Truthy(token) ==> r.value[AuthorizationHeader] == "Bearer " + token.value
    ensures Truthy(token) ==> forall k :: k in HeadersOrEmpty(headers) && k != AuthorizationHeader ==>
      r.value[k] == HeadersOrEmpty(headers)[k]
  {
    if Truthy(token) then Some(HeadersOrEmpty(headers)[AuthorizationHeader := "Bearer " + token.value])
    else headers
  }

  /** Running the interceptor a second time changes nothing more. */
  lemma BearerIdempotent(headers: Option<Headers>, token: Option<string>)
    ensures BearerHeaders(BearerHeaders(headers, token), token) == BearerHeaders(headers, token)
  {
    if Truthy(token) {
      var once := HeadersOrEmpty(headers)[AuthorizationHeader := "Bearer " + token.value];
      assert once[AuthorizationHeader := "Bearer " + token.value] == once;
    }
  }

  /** Right after a login that stored a non-empty token, requests carry
      that token. */
  lemma BearerAfterLogin(items: map<string, string>, accessToken: string, headers: Option<Headers>)
    requires accessToken != ""
    ensures BearerHeaders(headers, Lookup(items[TokenKey := accessToken], TokenKey)).Some?
    ensures BearerHeaders(headers, Lookup(items[TokenKey := accessToken], TokenKey)).value[AuthorizationHeader]
      == "Bearer " + accessToken
  {
  }

  /** Right after a logout, which removes the stored token, requests go
      out with their headers untouched. */
  lemma NoBearerAfterLogout(items: map<string, string>, headers: Option<Headers>)
    ensures BearerHeaders(headers, Lookup(items - {TokenKey}, TokenKey)) == headers
  {
  }

  /** The parts of an axios request configuration the interceptor sees. */
  class RequestConfig {
    var url: string
    var verb: string  // the HTTP method
    var headers: Option<Headers>

    constructor (url: string, verb: string, headers: Option<Headers>)
      ensures this.url == url && this.verb == verb && this.headers == headers
    {
      this.url := url;
      this.verb := verb;
      this.headers := headers;
    }
  }

  /** The request interceptor: updates the headers of `config` in place
      from the stored token and hands back the same object. */
  method Intercept(config: RequestConfig, storage: LocalStorage) returns (result: RequestConfig)
    modifies config`headers
    ensures result == config
    ensures config.headers == BearerHeaders(old(config.headers), Lookup(storage.items, TokenKey))
    ensures config.url == old(config.url) && config.verb == old(config.verb)
  {
    var token := storage.GetItem(TokenKey);
    if Truthy(token) {
      config.headers := Some(HeadersOrEmpty(config.headers));
      config.headers := Some(config.headers.value[AuthorizationHeader := "Bearer " + token.value]);
    }
    result := config;
  }
}
