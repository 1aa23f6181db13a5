/**
 * The axios interceptors of the client's API module: every request carries
 * the stored token as a bearer credential, and a 401 answer either
 * refreshes the token and re-sends the request, or clears the session.
 */
module Api {
  import opened Wrappers
  import opened Js
  import opened Storage

  const AUTHORIZATION := "Authorization"
  const LOGIN_PATH := "/login"

  /** The credentials form of section 2.1 of RFC 6750: "Bearer", one space, the token. */
  function Bearer(token: string): (h: string)
    ensures |h| == 7 + |token|
    ensures h[..7] == "Bearer " && h[7..] == token
  {
    "Bearer " + token
  }

  type Headers = map<string, string>

  /**
   * The request interceptor: the Authorization header is set exactly when
   * a non-empty token is stored, and carries that token; every other
   * header is left as it was.
   */
  function AttachToken(items: Items, headers: Headers): (r: Headers)
    ensures AUTHORIZATION in r <==> AUTHORIZATION in headers || TextOf(items, TOKEN).Some?
    ensures TextOf(items, TOKEN).Some? ==> r[AUTHORIZATION] == Bearer(TextOf(items, TOKEN).value)
    ensures TextOf(items, TOKEN).None? ==> r == headers
    ensures forall h | h in headers && h != AUTHORIZATION :: h in r && r[h] == headers[h]
    ensures forall h | h in r && h != AUTHORIZATION :: h in headers
  {
    match TextOf(items, TOKEN)
    case Some(token) => headers[AUTHORIZATION := Bearer(token)]
    case None => headers
  }

  /**
   * What the rejected-response handler hands back to the caller: the
   * original error, or the result of re-sending the original request with
   * the given Authorization header.
   */
  datatype Settled = Rejected(status: Option<int>) | Resent(authorization: string)

  /**
   * The response-error interceptor. `status` is the failed response's
   * status (None when no response arrived); `refresh` is the outcome of the
   * token-refresh call, consulted only when that call is made. `called`
   * tells whether the refresh endpoint was called, `nav` where the page
   * was sent.
   */
  method OnResponseError(store: LocalStorage, status: Option<int>, refresh: Reply<string>)
    returns (settled: Settled, called: bool, nav: Option<string>)
    modifies store
    ensures called <==> status == Some(401) && HasTruthy(old(store.items), REFRESH_TOKEN)
    ensures status != Some(401) ==>
      settled == Rejected(status) && nav.None? && store.items == old(store.items)
    ensures called && refresh.Success? ==>
      store.items == old(store.items)[TOKEN := Plain(refresh.data)]
      && settled == Resent(Bearer(refresh.data)) && nav.None?
    ensures status == Some(401) && !(called && refresh.Success?) ==>
      store.items == old(store.items) - AUTH_KEYS
      && settled == Rejected(status) && nav == Some(LOGIN_PATH)
  {
    called := false;
    nav := None;
    if status == Some(401) {
      if HasTruthy(store.items, REFRESH_TOKEN) {
        called := true;
        match refresh
        case Success(access) =>
          store.SetItem(TOKEN, Plain(access));
          return Resent(Bearer(access)), called, nav;
        case Failed(_, _) =>
          store.RemoveItem(TOKEN);
          store.RemoveItem(REFRESH_TOKEN);
          store.RemoveItem(USER);
          nav := Some(LOGIN_PATH);
      } else {
        store.RemoveItem(TOKEN);
        store.RemoveItem(REFRESH_TOKEN);
        store.RemoveItem(USER);
        nav := Some(LOGIN_PATH);
      }
    }
    settled := Rejected(status);
  }

  /**
   * The refresh calls made while the server answers successive attempts of
   * one request with `statuses`, a refresh token being stored and every
   * refresh succeeding: each 401 refreshes and re-sends, and the re-sent
   * request passes through the same interceptor with nothing marking it as
   * a retry.
   */
  function RefreshCalls(statuses: seq<Option<int>>): (n: nat)
    ensures n <= |statuses|
    ensures n == |statuses| ==> forall i | 0 <= i < |statuses| :: statuses[i] == Some(401)
  {
    if |statuses| == 0 || statuses[0] != Some(401) then 0 else 1 + RefreshCalls(statuses[1..])
  }

  /** A status axios resolves with, so that the error interceptor is not reached. */
  predicate Delivered(status: Option<int>) {
    status.Some? && 200 <= status.value < 300
  }

  /**
   * The refresh calls one request causes when attempt `i` is answered with
   * `statuses[i]` and the refresh it may trigger ends with `refreshes[i]`;
   * `stored` tells whether a refresh token is stored. A failed refresh is
   * the last call.
   */
  function RefreshesMade(statuses: seq<Option<int>>, refreshes: seq<Reply<string>>, stored: bool): (n: nat)
    requires |refreshes| == |statuses|
    ensures n <= |statuses|
    ensures !stored ==> n == 0
  {
    if |statuses| == 0 || statuses[0] != Some(401) || !stored then 0
    else if refreshes[0].Failed? then 1
    else 1 + RefreshesMade(statuses[1..], refreshes[1..], true)
  }

  /** Whether the attempts of one request end in the 401 logout. */
  predicate EndsInLogout(statuses: seq<Option<int>>, refreshes: seq<Reply<string>>, stored: bool)
    requires |refreshes| == |statuses|
  {
    |statuses| > 0 && statuses[0] == Some(401)
    && (!stored || refreshes[0].Failed? || EndsInLogout(statuses[1..], refreshes[1..], true))
  }

  /** When every refresh succeeds, the calls made are the calls `RefreshCalls` counts. */
  lemma {:induction false} RefreshesMadeWhenAllSucceed(statuses: seq<Option<int>>, refreshes: seq<Reply<string>>)
    requires |refreshes| == |statuses|
    requires forall i | 0 <= i < |refreshes| :: refreshes[i].Success?
    ensures RefreshesMade(statuses, refreshes, true) == RefreshCalls(statuses)
    ensures !EndsInLogout(statuses, refreshes, true)
  {
    if |statuses| > 0 && statuses[0] == Some(401) {
      RefreshesMadeWhenAllSucceed(statuses[1..], refreshes[1..]);
    }
  }

  /** A failed refresh ends the request: no refresh is made after it, and the user is logged out. */
  lemma {:induction false} FailedRefreshStops(statuses: seq<Option<int>>, refreshes: seq<Reply<string>>, j: nat)
    requires |refreshes| == |statuses| && j < |statuses|
    requires forall i | 0 <= i <= j :: statuses[i] == Some(401)
    requires forall i | 0 <= i < j :: refreshes[i].Success?
    requires refreshes[j].Failed?
    ensures RefreshesMade(statuses, refreshes, true) == j + 1
    ensures EndsInLogout(statuses, refreshes, true)
  {
    if j > 0 {
      FailedRefreshStops(statuses[1..], refreshes[1..], j - 1);
    }
  }

  /** The two functions above, unfolded once at attempt `i`. */
  lemma SuffixStep(statuses: seq<Option<int>>, refreshes: seq<Reply<string>>, i: nat, stored: bool)
    requires |refreshes| == |statuses| && i < |statuses|
    ensures RefreshesMade(statuses[i..], refreshes[i..], stored)
      == if statuses[i] != Some(401) || !stored then 0
         else if refreshes[i].Failed? then 1
         else 1 + RefreshesMade(statuses[i + 1..], refreshes[i + 1..], true)
    ensures EndsInLogout(statuses[i..], refreshes[i..], stored)
      == (statuses[i] == Some(401)
          && (!stored || refreshes[i].Failed? || EndsInLogout(statuses[i + 1..], refreshes[i + 1..], true)))
  {
    assert statuses[i..][1..] == statuses[i + 1..];
    assert refreshes[i..][1..] == refreshes[i + 1..];
  }

  /**
   * One request through the interceptors: attempt after attempt is sent
   * while the error handler answers with a re-send. `calls` counts the
   * refresh calls and `nav` is where the page was sent.
   */
  method SendRequest(store: LocalStorage, statuses: seq<Option<int>>, refreshes: seq<Reply<string>>)
    returns (calls: nat, nav: Option<string>)
    requires |refreshes| == |statuses|
    modifies store
    ensures calls == RefreshesMade(statuses, refreshes, HasTruthy(old(store.items), REFRESH_TOKEN))
    ensures nav == (if EndsInLogout(statuses, refreshes, HasTruthy(old(store.items), REFRESH_TOKEN))
                    then Some(LOGIN_PATH) else None)
    ensures EndsInLogout(statuses, refreshes, HasTruthy(old(store.items), REFRESH_TOKEN)) ==>
      store.items == old(store.items) - AUTH_KEYS
    ensures !EndsInLogout(statuses, refreshes, HasTruthy(old(store.items), REFRESH_TOKEN)) && calls == 0 ==>
      store.items == old(store.items)
    ensures !EndsInLogout(statuses, refreshes, HasTruthy(old(store.items), REFRESH_TOKEN)) && calls > 0 ==>
      refreshes[calls - 1].Success?
      && store.items == old(store.items)[TOKEN := Plain(refreshes[calls - 1].data)]
  {
    ghost var stored0 := HasTruthy(store.items, REFRESH_TOKEN);
    calls := 0;
    nav := None;
    var i := 0;
    while i < |statuses|
      invariant i <= |statuses| && calls == i && nav.None?
      invariant i > 0 ==>
        stored0 && refreshes[i - 1].Success? && HasTruthy(store.items, REFRESH_TOKEN)
        && store.items == old(store.items)[TOKEN := Plain(refreshes[i - 1].data)]
      invariant i == 0 ==> store.items == old(store.items)
      invariant RefreshesMade(statuses, refreshes, stored0)
        == i + RefreshesMade(statuses[i..], refreshes[i..], HasTruthy(store.items, REFRESH_TOKEN))
      invariant EndsInLogout(statuses, refreshes, stored0)
        == EndsInLogout(statuses[i..], refreshes[i..], HasTruthy(store.items, REFRESH_TOKEN))
    {
      SuffixStep(statuses, refreshes, i, HasTruthy(store.items, REFRESH_TOKEN));
      if Delivered(statuses[i]) {
        break;
      }
      var settled, called, n := OnResponseError(store, statuses[i], refreshes[i]);
      if called {
        calls := calls + 1;
      }
      nav := n;
      if !settled.Resent? {
        break;
      }
      i := i + 1;
    }
  }

  /** `k` answers of 401 before a success cost `k` refreshes: nothing bounds the retries to one. */
  lemma {:induction false} RetriesAreUnbounded(k: nat)
    ensures RefreshCalls(seq(k, _ => Some(401)) + [Some(200)]) == k
  {
    var s := seq(k, _ => Some(401)) + [Some(200)];
    if k > 0 {
      RetriesAreUnbounded(k - 1);
      assert s[1..] == seq(k - 1, _ => Some(401)) + [Some(200)];
    }
  }

  /**
   * With a refresh token stored and every refresh succeeding, a request
   * answered `k` times with 401 and then with 200 makes `k` refresh calls
   * and stays logged in.
   */
  lemma SendRequestRetriesUnbounded(k: nat, access: string)
    ensures var statuses := seq(k, _ => Some(401)) + [Some(200)];
            var refreshes := seq(k + 1, _ => Success(access));
            RefreshesMade(statuses, refreshes, true) == k && !EndsInLogout(statuses, refreshes, true)
  {
    RetriesAreUnbounded(k);
    RefreshesMadeWhenAllSucceed(seq(k, _ => Some(401)) + [Some(200)], seq(k + 1, _ => Success(access)));
  }

  /** The header attached after a successful refresh is the one the next request gets from storage. */
  lemma RefreshedTokenIsAttached(items: Items, access: string, headers: Headers)
    requires access != ""
    ensures AttachToken(items[TOKEN := Plain(access)], headers)[AUTHORIZATION] == Bearer(access)
  {
  }
}
