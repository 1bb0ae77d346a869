/**
 * The request wrapper every authenticated API call goes through: the header
 * preparation that attaches the bearer token, and the retry-once policy on a
 * 401 reply (`prepareHeaders` and `baseQueryWithRetry`).
 *
 * The identity provider is an input: a `Session` says whether a user is
 * signed in and what a plain token request yields; a `Refresh` says what the
 * forced token refresh yields. The replies of the underlying HTTP calls are
 * inputs too, in the order the calls are made.
 */
module BaseQuery {
  import opened Text

  /** What `user.getIdToken()` gives for the signed-in user: a token, or `None` when it throws. */
  datatype Session = NoUser | SignedIn(token: Option<string>)

  /** The outcome of the forced refresh `user.getIdToken(true)`. */
  datatype Refresh = Refreshed(token: string) | RefreshFailed

  /** How an underlying call failed: an HTTP status, or a failure before any status arrived. */
  datatype FetchError = HttpStatus(code: int) | FetchFailed(reason: string)

  datatype QueryResult = Ok(data: string) | Err(error: FetchError)

  predicate IsUnauthorized(r: QueryResult)
  {
    r.Err? && r.error == HttpStatus(401)
  }

  /** The header map after a token has been attached. */
  function WithBearer(entries: map<string, string>, token: string): (r: map<string, string>)
    ensures r.Keys == entries.Keys + {"authorization", "content-type"}
    ensures r["authorization"] == "Bearer " + token && r["content-type"] == "application/json"
    ensures forall k :: k in entries && k !in {"authorization", "content-type"} ==> r[k] == entries[k]
  {
    entries["authorization" := "Bearer " + token]["content-type" := "application/json"]
  }

  /** The header map a request is sent with, for a given session. */
  function HeadersFor(entries: map<string, string>, session: Session): (r: map<string, string>)
    ensures session.SignedIn? && session.token.Some? ==> r == WithBearer(entries, session.token.value)
    ensures session.NoUser? || session.token.None? ==> r == entries
  {
    if session.SignedIn? && session.token.Some? then WithBearer(entries, session.token.value) else entries
  }

  /** A request's mutable header list; names are lower-case, as `Headers.set` stores them. */
  class Headers {
    var entries: map<string, string>

    constructor (initial: map<string, string>)
      ensures entries == initial
    {
      entries := initial;
    }

    method Set(name: string, value: string)
      modifies this
      ensures entries == old(entries)[name := value]
    {
      entries := entries[name := value];
    }
  }

  /**
   * `prepareHeaders`: with a signed-in user whose token request succeeds, sets
   * `authorization` and `content-type`; otherwise leaves the headers as they were.
   */
  method PrepareHeaders(headers: Headers, session: Session)
    modifies headers
    ensures session.SignedIn? && session.token.Some? ==>
              headers.entries == WithBearer(old(headers.entries), session.token.value)
    ensures session.NoUser? || session.token.None? ==> headers.entries == old(headers.entries)
  {
    if session.SignedIn? {
      match session.token {
        case Some(token) =>
          headers.Set("authorization", "Bearer " + token);
          headers.Set("content-type", "application/json");
        case None =>
      }
    }
  }

  /** One underlying call: the headers it is sent with, for a request starting from `initial`. */
  method Send(initial: map<string, string>, session: Session) returns (sent: map<string, string>)
    ensures sent == HeadersFor(initial, session)
  {
    var headers := new Headers(initial);
    PrepareHeaders(headers, session);
    sent := headers.entries;
  }

  /**
   * `baseQueryWithRetry`. `first` and `second` are the replies the first and a
   * possible second underlying call receive; `sent` lists the headers of each
   * call actually made, in order.
   */
  method BaseQueryWithRetry(initial: map<string, string>, session: Session, refresh: Refresh,
                            first: QueryResult, second: QueryResult)
    returns (result: QueryResult, sent: seq<map<string, string>>, refreshed: bool)
    ensures 1 <= |sent| <= 2
    ensures sent[0] == HeadersFor(initial, session)
    ensures refreshed <==> IsUnauthorized(first) && session.SignedIn?
    ensures |sent| == 2 <==> IsUnauthorized(first) && session.SignedIn? && refresh.Refreshed?
    ensures |sent| == 1 ==> result == first
    ensures |sent| == 2 ==> result == second && sent[1] == WithBearer(initial, refresh.token)
  {
    sent := [];
    refreshed := false;
    var headers := Send(initial, session);
    sent := sent + [headers];
    result := first;
    if IsUnauthorized(result) {
      if session.SignedIn? {
        refreshed := true;
        match refresh {
          case Refreshed(token) =>
            // after a forced refresh the user's cached token is the new one
            headers := Send(initial, SignedIn(Some(token)));
            sent := sent + [headers];
            result := second;
          case RefreshFailed =>
        }
      }
    }
  }
}
