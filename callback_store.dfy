/**
 * The receiving end of the authorization response (section 4.1.2 of RFC 6749)
 * in AvanzareMk2.py: the `auth_codes` table (state -> code) and the `/callback`
 * handler that validates `code` and `state` and records them.
 */
module CallbackStore {

  import opened Wrappers

  const FailureReply := "❌ 認証に失敗しました"
  const SuccessReply := "✅ 認証完了しました。Discordに戻ってください。"

  /** The outcome of reading the stored table at start-up. */
  datatype Loaded = Loaded(codes: map<string, string>) | LoadFailed

  /** A query argument passes `not arg` when it is present and non-empty. */
  predicate Given(arg: Option<string>) {
    arg.Some? && arg.value != ""
  }

  /** The table after one `/callback` request with the arguments `code` and `state`. */
  function Accept(codes: map<string, string>, code: Option<string>, state: Option<string>): (r: map<string, string>)
    ensures !(Given(code) && Given(state)) ==> r == codes
    ensures Given(code) && Given(state) ==>
              && r.Keys == codes.Keys + {state.value}
              && r[state.value] == code.value
              && forall k :: k in codes && k != state.value ==> r[k] == codes[k]
  {
    if Given(code) && Given(state) then codes[state.value := code.value] else codes
  }

  /** The page `/callback` answers with. */
  function Reply(code: Option<string>, state: Option<string>): (page: string)
    ensures page == SuccessReply <==> Given(code) && Given(state)
    ensures page == FailureReply <==> !(Given(code) && Given(state))
  {
    if Given(code) && Given(state) then SuccessReply else FailureReply
  }

  /** The module-level `auth_codes` table and the handler that writes it. */
  class AuthCodeStore {
    var authCodes: map<string, string>

    /** Start-up: the stored table, or the empty one when loading failed for any reason. */
    constructor (loaded: Loaded)
      ensures authCodes == if loaded.Loaded? then loaded.codes else map[]
    {
      authCodes := if loaded.Loaded? then loaded.codes else map[];
    }

    /** `/callback?code=…&state=…` */
    method Callback(code: Option<string>, state: Option<string>) returns (page: string)
      modifies this
      ensures authCodes == Accept(old(authCodes), code, state)
      ensures page == Reply(code, state)
    {
      if code.None? || code.value == "" || state.None? || state.value == "" {
        return FailureReply;
      }
      authCodes := authCodes[state.value := code.value];
      page := SuccessReply;
    }
  }

  /** A request's arguments, as the handler reads them. */
  datatype Request = Request(code: Option<string>, state: Option<string>)

  /** The table after a series of requests, handled one after the other. */
  function Replay(codes: map<string, string>, requests: seq<Request>): map<string, string>
    decreases |requests|
  {
    if requests == [] then codes
    else Replay(Accept(codes, requests[0].code, requests[0].state), requests[1..])
  }

  /** The code of the last valid request for `state`, if there is one. */
  function LastCodeFor(requests: seq<Request>, state: string): (c: Option<string>)
    ensures c.Some? ==> exists i :: 0 <= i < |requests| && Given(requests[i].code) && requests[i].state == Some(state) && requests[i].code == c
    decreases |requests|
  {
    if requests == [] then None
    else
      var last := requests[|requests| - 1];
      if Given(last.code) && last.state == Some(state) && state != "" then Some(last.code.value)
      else LastCodeFor(requests[..|requests| - 1], state)
  }

  lemma {:induction false} ReplaySnoc(codes: map<string, string>, requests: seq<Request>, r: Request)
    ensures Replay(codes, requests + [r]) == Accept(Replay(codes, requests), r.code, r.state)
    decreases |requests|
  {
    if requests != [] {
      assert (requests + [r])[1..] == requests[1..] + [r];
      ReplaySnoc(Accept(codes, requests[0].code, requests[0].state), requests[1..], r);
    }
  }

  /** Last write wins: after any series of requests, each state holds the code of
      the last valid request for it, or what it held before if there was none. */
  lemma {:induction false} LastWriteWins(codes: map<string, string>, requests: seq<Request>, state: string)
    ensures var final := Replay(codes, requests);
            match LastCodeFor(requests, state)
            case Some(c) => state in final && final[state] == c
            case None => (state in final <==> state in codes) && (state in codes ==> final[state] == codes[state])
    decreases |requests|
  {
    if requests != [] {
      var init := requests[..|requests| - 1];
      var last := requests[|requests| - 1];
      assert requests == init + [last];
      ReplaySnoc(codes, init, last);
      LastWriteWins(codes, init, state);
    }
  }

  /** A repeated callback for the same state replaces the earlier code and
      leaves one entry for that state. */
  lemma RepeatedCallbackReplaces(codes: map<string, string>, state: string, first: string, second: string)
    requires state != "" && first != "" && second != ""
    ensures Accept(Accept(codes, Some(first), Some(state)), Some(second), Some(state))
         == Accept(codes, Some(second), Some(state))
  {
  }
}
