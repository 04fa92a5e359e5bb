/** The boundary to the identity provider (Discord). The two HTTP calls,
    exchanging an authorization code for tokens and fetching the profile of
    an access token, are network I/O: the handlers receive them as oracles,
    functions from their string argument to a reply, and report the calls
    they made. */
module Provider {
  import opened Common

  /** The outcome of one provider call: the decoded JSON object of a 200
      response, or the error text (the response body of a non-200 status,
      or a transport or decoding error). */
  datatype ProviderReply = Fetched(body: Payload) | Failed(message: string)

  /** One outbound call, in the order the handler made it. */
  datatype ProviderCall =
    | ExchangeCode(code: string)    // POST to the token endpoint
    | FetchUserInfo(token: string)  // GET of the current user's profile

  /** ExchangeCodeForTokens and FetchUserInfo, as seen by a handler. */
  type Oracle = string -> ProviderReply
}
