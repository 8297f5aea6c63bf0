/**
 * The two pieces of process-wide browser state the pages share: the session
 * token kept in `localStorage` under the key "token", and the router's
 * navigation history. Remote calls are abstract outcomes.
 */
module BrowserState {
  import opened Wrappers

  /**
   * The guard `if (!token)` on `localStorage.getItem("token")`: both a
   * missing entry (`null`) and the empty string are falsy.
   */
  predicate HasToken(token: Option<string>)
  {
    token.Some? && token.value != ""
  }

  /** What an awaited `fetch` gave back: a response whose `ok` is false, or an ok response with its decoded body. */
  datatype Response<T> = NotOk | Ok(body: T)

  /** How a page operation ended: refused for lack of a token, failed (a toast is shown), or succeeded. */
  datatype Outcome = Unauthenticated | Failed | Succeeded

  /** The browser window: the stored token and the routes pushed on the router so far. */
  class Browser {
    var token: Option<string>
    var history: seq<string>

    constructor (token: Option<string>)
      ensures this.token == token && history == []
    {
      this.token := token;
      history := [];
    }
  }
}
