/** The backend routes the client calls. The three session routes are
    built from the session id; each can be parsed back to it. */
module Endpoints {
  import opened Common

  const Signup := "/signup/"
  const Login := "/login/"
  const ForgotPassword := "/forgot-password/"
  const VerifyOtp := "/verify-otp/"
  const ResetPassword := "/reset-password/"
  const RefreshToken := "/token/refresh/"
  const UserProfile := "/user/profile/"

  const SubmitIntake := "/intake/"

  const AskQuestion := "/ask/"
  const AnswerMcq := "/mcq-response/"
  const ListSessions := "/sessions/"

  /** Every fixed route. */
  const FixedRoutes: seq<string> :=
    [Signup, Login, ForgotPassword, VerifyOtp, ResetPassword, RefreshToken, UserProfile,
     SubmitIntake, AskQuestion, AnswerMcq, ListSessions]

  function History(sessionId: string): (path: string)
    ensures StartsWith(path, "/history/") && EndsWith(path, "/")
    ensures |path| == |sessionId| + 10
  {
    "/history/" + sessionId + "/"
  }

  function UpdateTitle(sessionId: string): (path: string)
    ensures StartsWith(path, "/sessions/") && EndsWith(path, "/title/")
    ensures |path| == |sessionId| + 17
  {
    "/sessions/" + sessionId + "/title/"
  }

  function SessionIntake(sessionId: string): (path: string)
    ensures StartsWith(path, "/sessions/") && EndsWith(path, "/intake/")
    ensures |path| == |sessionId| + 18
  {
    "/sessions/" + sessionId + "/intake/"
  }

  /** The session id inside `prefix + id + suffix`, if `path` has that shape. */
  function Between(path: string, prefix: string, suffix: string): (r: Option<string>)
    ensures r.Some? <==> |prefix| + |suffix| <= |path| && StartsWith(path, prefix) && EndsWith(path, suffix)
    ensures r.Some? ==> path == prefix + r.value + suffix
  {
    if |prefix| + |suffix| <= |path| && StartsWith(path, prefix) && EndsWith(path, suffix) then
      var id := path[|prefix|..|path| - |suffix|];
      assert path == path[..|prefix|] + id + path[|path| - |suffix|..];
      Some(id)
    else None
  }

  /** The session-route builders are inverted by `Between`. */
  lemma SessionRoutesRoundTrip(sessionId: string)
    ensures Between(History(sessionId), "/history/", "/") == Some(sessionId)
    ensures Between(UpdateTitle(sessionId), "/sessions/", "/title/") == Some(sessionId)
    ensures Between(SessionIntake(sessionId), "/sessions/", "/intake/") == Some(sessionId)
  {
    var h := History(sessionId);
    assert h[9..|h| - 1] == sessionId;
    var t := UpdateTitle(sessionId);
    assert t[10..|t| - 7] == sessionId;
    var i := SessionIntake(sessionId);
    assert i[10..|i| - 8] == sessionId;
  }

  /** Hence different sessions never share a route. */
  lemma SessionRoutesInjective(a: string, b: string)
    requires a != b
    ensures History(a) != History(b)
    ensures UpdateTitle(a) != UpdateTitle(b)
    ensures SessionIntake(a) != SessionIntake(b)
  {
    SessionRoutesRoundTrip(a);
    SessionRoutesRoundTrip(b);
  }

  /** The fixed routes are pairwise distinct. */
  lemma FixedRoutesDistinct()
    ensures forall i, j :: 0 <= i < j < |FixedRoutes| ==> FixedRoutes[i] != FixedRoutes[j]
  {
  }

  /** Every fixed route begins and ends with a slash, as the backend's
      routes do. */
  lemma FixedRoutesSlashed()
    ensures forall r :: r in FixedRoutes ==> StartsWith(r, "/") && EndsWith(r, "/")
  {
  }
}
