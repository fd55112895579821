/**
  The HTTP client setup (src/api/api.jsx): a request interceptor that adds
  the identity headers from `localStorage` to every request, and the path of
  the request that fetches one conversation's messages.
 */
module Api {
  import opened Js
  import opened Storage

  import opened Headers

  /** The headers the interceptor leaves on a request: `X-User-Email` is set
      to the stored e-mail exactly when that value is truthy (so the string
      "null" the home page stores for a missing e-mail is sent as well), and
      `X-Session-ID` to the stored session id exactly when that is truthy. The
      two decisions are independent, and no other header is added, changed or
      removed. */
  function WithIdentityHeaders(headers: map<string, string>, email: Option<string>, sessionId: Option<string>)
    : (r: map<string, string>)
    ensures Truthy(OfNullable(email)) ==> Get(r, UserEmailHeader) == email
    ensures !Truthy(OfNullable(email)) ==> Get(r, UserEmailHeader) == Get(headers, UserEmailHeader)
    ensures Truthy(OfNullable(sessionId)) ==> Get(r, SessionIdHeader) == sessionId
    ensures !Truthy(OfNullable(sessionId)) ==> Get(r, SessionIdHeader) == Get(headers, SessionIdHeader)
    ensures forall k :: k != UserEmailHeader && k != SessionIdHeader ==> Get(r, k) == Get(headers, k)
  {
    var withEmail := if Truthy(OfNullable(email)) then headers[UserEmailHeader := email.value] else headers;
    if Truthy(OfNullable(sessionId)) then withEmail[SessionIdHeader := sessionId.value] else withEmail
  }

  /** The request configuration the interceptor receives and returns. */
  class RequestConfig {
    var headers: map<string, string>

    constructor (headers: map<string, string>)
      ensures this.headers == headers
    {
      this.headers := headers;
    }
  }

  /** The interceptor: it reads both identifiers from the store, writes the
      headers into the configuration in place and returns that same
      configuration. */
  method InterceptRequest(config: RequestConfig, storage: LocalStorage) returns (r: RequestConfig)
    modifies config
    ensures r == config
    ensures config.headers ==
      WithIdentityHeaders(old(config.headers), Get(storage.items, EmailKey), Get(storage.items, SessionIdKey))
  {
    var email := storage.GetItem(EmailKey);
    if Truthy(OfNullable(email)) {
      config.headers := config.headers[UserEmailHeader := email.value];
    }

    var sessionId := storage.GetItem(SessionIdKey);
    if Truthy(OfNullable(sessionId)) {
      config.headers := config.headers[SessionIdHeader := sessionId.value];
    }

    r := config;
  }

  const MessagesPathPrefix := "/conversations/"

  /** The path of `GET /conversations/{id}/`, built by a template literal, so
      the id is converted with `String` (a missing id gives
      "/conversations/undefined/"). */
  function MessagesPath(conversationId: Value): string
  {
    MessagesPathPrefix + ToStr(conversationId) + "/"
  }

  /** Reads the conversation id back out of a messages path. */
  function ConversationIdOfPath(path: string): Option<string>
  {
    if |path| >= |MessagesPathPrefix| + 1
      && path[..|MessagesPathPrefix|] == MessagesPathPrefix && path[|path| - 1] == '/'
    then Some(path[|MessagesPathPrefix|..|path| - 1])
    else None
  }

  /** The path carries the conversation id unchanged: parsing it back yields
      the string form of the id, so ids with distinct string forms give
      distinct paths. */
  lemma MessagesPathRoundTrip(conversationId: Value)
    ensures ConversationIdOfPath(MessagesPath(conversationId)) == Some(ToStr(conversationId))
  {
    var path := MessagesPath(conversationId);
    assert path[..|MessagesPathPrefix|] == MessagesPathPrefix;
    assert path[|MessagesPathPrefix|..|path| - 1] == ToStr(conversationId);
  }
}
