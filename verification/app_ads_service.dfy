/** app/ads/service.py: `complete_token`, the single conditional transition of
    a status-string session from "pending" to "completed". */
module AppAdsService {
  import opened Common
  import opened StatusStore

  /** One `update_one({"token": t, "status": "pending"}, ...)` and whether it
      modified a document. */
  function CompleteStep(sessions: map<string, StatusSession>, token: string, now: Time): (r: (map<string, StatusSession>, bool))
    ensures r.1 <==> token in sessions && IsPending(sessions[token])
    ensures !r.1 ==> r.0 == sessions
    ensures r.0.Keys == sessions.Keys
    ensures forall k :: k in sessions && k != token ==> r.0[k] == sessions[k]
    ensures r.1 ==> IsCompleted(r.0[token]) && r.0[token].completedAt == Some(now) &&
                    r.0[token].(status := sessions[token].status, completedAt := sessions[token].completedAt) == sessions[token]
  {
    if token in sessions && IsPending(sessions[token]) then
      (sessions[token := sessions[token].(status := Some(COMPLETED), completedAt := Some(now))], true)
    else (sessions, false)
  }

  /** A second completion of the same token reports false and changes nothing. */
  lemma SecondCompleteIsNoop(sessions: map<string, StatusSession>, token: string, t1: Time, t2: Time)
    ensures var once := CompleteStep(sessions, token, t1).0;
            CompleteStep(once, token, t2) == (once, false)
  {
  }

  /** Completing the same token at each of the instants `times`: the final
      sessions and how many calls reported true. */
  function CompleteRun(sessions: map<string, StatusSession>, token: string, times: seq<Time>): (map<string, StatusSession>, nat)
    decreases |times|
  {
    if times == [] then (sessions, 0)
    else
      var s := CompleteStep(sessions, token, times[0]);
      var rest := CompleteRun(s.0, token, times[1..]);
      (rest.0, rest.1 + if s.1 then 1 else 0)
  }

  /** Exactly-once completion: however many times the token is completed, one
      call reports true if the session was pending and none otherwise, and the
      recorded instant is that of the first call. */
  lemma {:induction false} CompletesExactlyOnce(sessions: map<string, StatusSession>, token: string, times: seq<Time>)
    ensures var r := CompleteRun(sessions, token, times);
            && r.1 == (if |times| > 0 && token in sessions && IsPending(sessions[token]) then 1 else 0)
            && (r.1 == 1 ==> r.0 == CompleteStep(sessions, token, times[0]).0)
            && (r.1 == 0 ==> r.0 == sessions)
    decreases |times|
  {
    if times != [] {
      var s := CompleteStep(sessions, token, times[0]);
      CompletesExactlyOnce(s.0, token, times[1..]);
    }
  }

  method CompleteToken(store: SessionStore, token: string, now: Time) returns (modified: bool)
    modifies store
    ensures store.sessions == CompleteStep(old(store.sessions), token, now).0
    ensures modified == CompleteStep(old(store.sessions), token, now).1
  {
    if token in store.sessions && IsPending(store.sessions[token]) {
      var s := store.sessions[token];
      store.sessions := store.sessions[token := s.(status := Some(COMPLETED), completedAt := Some(now))];
      return true;
    }
    return false;
  }
}
