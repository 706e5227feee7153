/** The boundary to the backend and the browser host. Every response a handler
    waits for is an input of the model; every request or host call a handler
    makes is appended to a log, so that "nothing was sent" and "create came
    before publish" are statements about that log. */
module Gateway {
  import opened Domain

  datatype Option<T> = None | Some(value: T)

  /** What awaiting `fetch(...)` followed by `response.json()` yields:
      - Ok: the response was ok and its body parsed;
      - Rejected: the response was not ok; `error` is the body's `error` field,
        the empty string when the body has none;
      - Unreachable: the request or the body parsing threw. */
  datatype Response<T> = Ok(data: T) | Rejected(error: string) | Unreachable

  /** A request to the backend or a call into the browser host. */
  datatype Call =
    | CreatePostRequest(body: FormData)   // POST /posts
    | PublishPost(id: PostId)             // POST /posts/{id}/publish
    | BeginConnect(platform: Platform)    // POST /social-accounts/connect/{platform}
    | OpenWindow(url: string)             // window.open of the authorization page
    | ListAccounts                        // GET /social-accounts
    | DeleteAccount(id: AccountId)        // DELETE /social-accounts/{id}

  /** The body of a successful create response. */
  datatype CreateData = CreateData(post: Post)

  /** The body of a successful publish response. */
  datatype PublishData = PublishData(post: Post, results: seq<PlatformResult>)

  /** The body of a successful connect response. */
  datatype ConnectData = ConnectData(authUrl: string)

  const ConnectionError: string := "Errore di connessione al server"

  /** `data.error || fallback`: the backend's message when it sent a non-empty
      one, the handler's own message otherwise. */
  function ErrorText(backend: string, fallback: string): (r: string)
    ensures backend != "" ==> r == backend
    ensures backend == "" ==> r == fallback
  {
    if backend != "" then backend else fallback
  }
}
