/**
 * The "set identity server" screen's view model: the user types a candidate
 * identity server, submits it, the candidate is normalised to a URL and its
 * terms of service are fetched; the reply is classified into one of three
 * navigation events, and every failure collapses into one error message.
 *
 * The view model is modelled as pure transitions from a state snapshot to the
 * sequence of effects it produces, in program order: state updates
 * (`setState`), the outgoing terms request, and navigation events.
 */
module SetIdentityServer {
  import opened Wrappers
  import opened Text

  /** The two string resources the screen can show; their ids are opaque. */
  datatype MessageId = PleaseEnterServer | BadIdentityServer

  /** The observable state of the screen. */
  datatype SetIdentityServerState = SetIdentityServerState(
    existingIdentityServer: Option<string>,
    newIdentityServer: Option<string>,
    errorMessageId: Option<MessageId>,
    isVerifyingServer: bool)

  /** The state the screen opens with: the defaults of the state record. */
  function InitialState(existingIdentityServer: Option<string>): (s: SetIdentityServerState)
    ensures s.existingIdentityServer == existingIdentityServer
    ensures s.newIdentityServer.None? && s.errorMessageId.None?
    ensures !s.isVerifyingServer
  {
    SetIdentityServerState(existingIdentityServer, None, None, false)
  }

  /** The services a terms request can be addressed to. */
  datatype ServiceType = IntegrationManager | IdentityService

  /** The three navigation events the screen can emit. */
  datatype NavigateEvent = NavigateShowTerms | NavigateNoTerms | NavigateTermsAccepted

  /** A localized policy document, identified by its localized URL. */
  datatype Policy = Policy(localizedUrl: string)

  /**
   * A successful terms reply: the policy document localized for the user's
   * language (absent when the server declares none) and the URLs of the
   * documents the account has already accepted.
   */
  datatype TermsResponse = TermsResponse(
    localizedPolicy: Option<Policy>,
    alreadyAcceptedTermUrls: set<string>)

  /** The four callbacks a terms request can end in. */
  datatype TermsReply =
    | Success(info: TermsResponse)
    | UnexpectedError
    | NetworkError
    | MatrixError

  /** What one transition does, in the order it does it. */
  datatype Effect =
    | SetState(next: SetIdentityServerState)
    | RequestTerms(serviceType: ServiceType, baseUrl: string)
    | Navigate(event: NavigateEvent)

  /** The string a navigation event is published as. */
  function Tag(e: NavigateEvent): (r: string)
    ensures ParseTag(r) == Some(e)
  {
    match e
    case NavigateShowTerms => "NAVIGATE_SHOW_TERMS"
    case NavigateNoTerms => "NAVIGATE_NO_TERMS"
    case NavigateTermsAccepted => "NAVIGATE_TERMS_ACCEPTED"
  }

  /** How an observer of the published string recovers the event. */
  function ParseTag(s: string): (r: Option<NavigateEvent>)
    ensures r.Some? <==> s in {"NAVIGATE_SHOW_TERMS", "NAVIGATE_NO_TERMS", "NAVIGATE_TERMS_ACCEPTED"}
  {
    if s == "NAVIGATE_SHOW_TERMS" then Some(NavigateShowTerms)
    else if s == "NAVIGATE_NO_TERMS" then Some(NavigateNoTerms)
    else if s == "NAVIGATE_TERMS_ACCEPTED" then Some(NavigateTermsAccepted)
    else None
  }

  /** The three published strings are distinct, so no event is mistaken for another. */
  lemma TagRoundTrip(e: NavigateEvent)
    ensures ParseTag(Tag(e)) == Some(e)
  {
  }

  /** The state a sequence of effects leaves behind: the last update wins. */
  function Replay(s: SetIdentityServerState, effects: seq<Effect>): SetIdentityServerState
    decreases |effects|
  {
    if effects == [] then s
    else Replay(if effects[0].SetState? then effects[0].next else s, effects[1..])
  }

  /** Replaying a non-empty sequence is replaying its first effect, then the rest. */
  lemma ReplayFirst(s: SetIdentityServerState, e: Effect, rest: seq<Effect>)
    ensures Replay(s, [e] + rest) == Replay(if e.SetState? then e.next else s, rest)
  {
    assert ([e] + rest)[1..] == rest;
  }

  predicate NoNavigation(effects: seq<Effect>) {
    forall i | 0 <= i < |effects| :: !effects[i].Navigate?
  }

  predicate NoRequest(effects: seq<Effect>) {
    forall i | 0 <= i < |effects| :: !effects[i].RequestTerms?
  }

  /** At most one effect of the sequence is a terms request. */
  predicate AtMostOneRequest(effects: seq<Effect>) {
    forall i, j | 0 <= i < j < |effects| :: !(effects[i].RequestTerms? && effects[j].RequestTerms?)
  }

  // ---------------------------------------------------------------------------
  // URL normalisation
  // ---------------------------------------------------------------------------

  const HttpScheme: string := "http://"
  const HttpsScheme: string := "https://"

  predicate HasScheme(url: string) {
    StartsWith(url, HttpScheme) || StartsWith(url, HttpsScheme)
  }

  /**
   * Gives the candidate an explicit scheme: a URL already starting with
   * `http://` or `https://` is kept, anything else is taken to be `https`.
   */
  function SanitizeBaseUrl(baseUrl: string): (r: string)
    ensures HasScheme(r)
    ensures HasScheme(baseUrl) ==> r == baseUrl
    ensures !HasScheme(baseUrl) ==> r == HttpsScheme + baseUrl
    ensures |r| >= |baseUrl| && r[|r| - |baseUrl|..] == baseUrl
  {
    if !StartsWith(baseUrl, HttpScheme) && !StartsWith(baseUrl, HttpsScheme) then
      HttpsScheme + baseUrl
    else
      baseUrl
  }

  /** Normalising twice is normalising once. */
  lemma SanitizeIdempotent(baseUrl: string)
    ensures SanitizeBaseUrl(SanitizeBaseUrl(baseUrl)) == SanitizeBaseUrl(baseUrl)
  {
  }

  lemma SanitizeExamples()
    ensures SanitizeBaseUrl("matrix.org") == "https://matrix.org"
    ensures SanitizeBaseUrl("http://x") == "http://x"
    ensures SanitizeBaseUrl("https://vector.im") == "https://vector.im"
    ensures SanitizeBaseUrl("HTTP://x") == "https://HTTP://x"
  {
    assert "matrix.org"[0] != HttpScheme[0];
    assert "HTTP://x"[0] != HttpScheme[0];
  }

  // ---------------------------------------------------------------------------
  // Terms classification
  // ---------------------------------------------------------------------------

  /**
   * The candidate documents that are present and whose URL the account has
   * not accepted yet, in order.
   */
  function PendingPolicies(candidates: seq<Option<Policy>>, accepted: set<string>): (r: seq<Policy>)
    ensures |r| <= |candidates|
    ensures forall p :: p in r <==> Some(p) in candidates && p.localizedUrl !in accepted
  {
    if candidates == [] then []
    else
      var rest := PendingPolicies(candidates[1..], accepted);
      assert forall o :: o in candidates <==> o == candidates[0] || o in candidates[1..];
      if candidates[0].Some? && candidates[0].value.localizedUrl !in accepted then
        [candidates[0].value] + rest
      else
        rest
  }

  /** True iff the optional document exists and has not been accepted. */
  predicate Unaccepted(p: Option<Policy>, accepted: set<string>) {
    p.Some? && p.value.localizedUrl !in accepted
  }

  /**
   * Classifies the terms of service document `tos` and the privacy policy
   * `policy` of a server against the URLs already accepted.
   */
  function Classify(tos: Option<Policy>, policy: Option<Policy>, accepted: set<string>): (r: NavigateEvent)
    ensures r == NavigateNoTerms <==> tos.None? && policy.None?
    ensures r == NavigateShowTerms <==> Unaccepted(tos, accepted) || Unaccepted(policy, accepted)
    ensures r == NavigateTermsAccepted <==>
      && (tos.Some? || policy.Some?)
      && (tos.Some? ==> tos.value.localizedUrl in accepted)
      && (policy.Some? ==> policy.value.localizedUrl in accepted)
  {
    if tos.None? && policy.None? then NavigateNoTerms
    else
      var pending := PendingPolicies([tos, policy], accepted);
      if |pending| > 0 then
        assert pending[0] in pending;
        NavigateShowTerms
      else
        assert tos.Some? ==> tos.value !in pending;
        assert policy.Some? ==> policy.value !in pending;
        NavigateTermsAccepted
  }

  /**
   * Both documents are looked up with the same call, so in practice the two
   * inputs coincide; the classification then depends on one document only.
   */
  lemma ClassifySameDocument(p: Option<Policy>, accepted: set<string>)
    ensures p.None? ==> Classify(p, p, accepted) == NavigateNoTerms
    ensures p.Some? && p.value.localizedUrl in accepted ==> Classify(p, p, accepted) == NavigateTermsAccepted
    ensures p.Some? && p.value.localizedUrl !in accepted ==> Classify(p, p, accepted) == NavigateShowTerms
  {
  }

  // ---------------------------------------------------------------------------
  // Transitions
  // ---------------------------------------------------------------------------

  /** The user edits the candidate: it is stored and any error is cleared. */
  function UpdateServerName(s: SetIdentityServerState, server: string): (r: SetIdentityServerState)
    ensures r.newIdentityServer == Some(server)
    ensures r.errorMessageId.None?
    ensures r.existingIdentityServer == s.existingIdentityServer
    ensures r.isVerifyingServer == s.isVerifyingServer
  {
    s.(newIdentityServer := Some(server), errorMessageId := None)
  }

  /**
   * The user submits the candidate. A missing or blank candidate only sets
   * the "please enter a server" error. Otherwise the screen starts
   * verifying and, when there is a session to send it with, requests the
   * identity-service terms of the normalised URL; without a session nothing
   * is sent and the screen is left verifying.
   */
  function DoChangeServerName(s: SetIdentityServerState, hasSession: bool): (r: seq<Effect>)
    ensures NoNavigation(r)
    ensures AtMostOneRequest(r)
    ensures IsNullOrBlank(s.newIdentityServer) ==>
      && NoRequest(r)
      && Replay(s, r) == s.(errorMessageId := Some(PleaseEnterServer))
    ensures !IsNullOrBlank(s.newIdentityServer) ==>
      && Replay(s, r) == s.(isVerifyingServer := true)
      && (forall i | 0 <= i < |r| && r[i].RequestTerms? ::
            r[i] == RequestTerms(IdentityService, SanitizeBaseUrl(s.newIdentityServer.value)))
      && (hasSession <==> !NoRequest(r))
      && (forall i | 0 <= i < |r| && r[i].RequestTerms? ::
            0 < i && r[0].SetState? && r[0].next.isVerifyingServer)
  {
    if IsNullOrBlank(s.newIdentityServer) then
      var rejected := SetState(s.(errorMessageId := Some(PleaseEnterServer)));
      ReplayFirst(s, rejected, []);
      assert [rejected] + [] == [rejected];
      [rejected]
    else
      var baseUrl := SanitizeBaseUrl(s.newIdentityServer.value);
      var verifying := SetState(s.(isVerifyingServer := true));
      ReplayFirst(s, verifying, []);
      assert [verifying] + [] == [verifying];
      if hasSession then
        var request := RequestTerms(IdentityService, baseUrl);
        ReplayFirst(s, verifying, [request]);
        ReplayFirst(s.(isVerifyingServer := true), request, []);
        assert [request] + [] == [request];
        [verifying] + [request]
      else
        [verifying]
  }

  /**
   * The terms request completes. A success stops verifying, leaves the error
   * untouched and then emits exactly one navigation event; each of the three
   * failures stops verifying and shows the generic "bad identity server"
   * error without navigating.
   */
  function OnTermsReply(s: SetIdentityServerState, reply: TermsReply): (r: seq<Effect>)
    ensures NoRequest(r)
    ensures !Replay(s, r).isVerifyingServer
    ensures Replay(s, r).existingIdentityServer == s.existingIdentityServer
    ensures Replay(s, r).newIdentityServer == s.newIdentityServer
    ensures reply.Success? ==>
      && Replay(s, r).errorMessageId == s.errorMessageId
      && |r| == 2 && r[0].SetState? && !r[0].next.isVerifyingServer
      && r[1] == Navigate(Classify(reply.info.localizedPolicy, reply.info.localizedPolicy,
                                   reply.info.alreadyAcceptedTermUrls))
    ensures !reply.Success? ==>
      && Replay(s, r).errorMessageId == Some(BadIdentityServer)
      && NoNavigation(r)
  {
    match reply
    case Success(info) =>
      var tos := info.localizedPolicy;
      var policy := info.localizedPolicy;
      var stopped := SetState(s.(isVerifyingServer := false));
      var navigate := Navigate(Classify(tos, policy, info.alreadyAcceptedTermUrls));
      ReplayFirst(s, stopped, [navigate]);
      assert Replay(s.(isVerifyingServer := false), [navigate]) == s.(isVerifyingServer := false);
      [stopped] + [navigate]
    case UnexpectedError =>
      [SetState(s.(isVerifyingServer := false, errorMessageId := Some(BadIdentityServer)))]
    case NetworkError =>
      [SetState(s.(isVerifyingServer := false, errorMessageId := Some(BadIdentityServer)))]
    case MatrixError =>
      [SetState(s.(isVerifyingServer := false, errorMessageId := Some(BadIdentityServer)))]
  }

  /** The three failure callbacks cannot be told apart by their effects. */
  lemma FailuresCollapse(s: SetIdentityServerState, a: TermsReply, b: TermsReply)
    requires !a.Success? && !b.Success?
    ensures OnTermsReply(s, a) == OnTermsReply(s, b)
    ensures Replay(s, OnTermsReply(s, a)) ==
      s.(isVerifyingServer := false, errorMessageId := Some(BadIdentityServer))
  {
  }

  /**
   * A submission that sends a request always ends verifying once the reply
   * arrives, whatever the reply: the spinner can never be left on.
   */
  lemma {:induction false} SubmitThenReply(s: SetIdentityServerState, reply: TermsReply)
    requires !IsNullOrBlank(s.newIdentityServer)
    ensures var submitted := Replay(s, DoChangeServerName(s, true));
      && submitted.isVerifyingServer
      && !Replay(submitted, OnTermsReply(submitted, reply)).isVerifyingServer
      && (reply.Success? ==> Replay(submitted, OnTermsReply(submitted, reply)).errorMessageId == s.errorMessageId)
  {
  }

  /**
   * Without a session the submission sends nothing, so no reply can come and
   * the screen keeps verifying.
   */
  lemma NoSessionLeavesVerifying(s: SetIdentityServerState)
    requires !IsNullOrBlank(s.newIdentityServer)
    ensures NoRequest(DoChangeServerName(s, false))
    ensures Replay(s, DoChangeServerName(s, false)).isVerifyingServer
  {
  }

  /**
   * A blank candidate is rejected locally whatever the state: no request,
   * no navigation, the verifying flag untouched.
   */
  lemma BlankCandidateRejected(s: SetIdentityServerState, blank: string, hasSession: bool)
    requires IsBlank(blank)
    ensures var typed := UpdateServerName(s, blank);
      var r := DoChangeServerName(typed, hasSession);
      && NoRequest(r) && NoNavigation(r)
      && Replay(typed, r).errorMessageId == Some(PleaseEnterServer)
      && Replay(typed, r).isVerifyingServer == s.isVerifyingServer
  {
  }

  /**
   * Typing a candidate, submitting it and receiving a reply without any
   * policy document: the request goes to the normalised URL and the screen
   * proceeds without showing terms, idle and without error.
   */
  lemma {:induction false} NoTermsFlow(existing: Option<string>, candidate: string, accepted: set<string>)
    requires !IsBlank(candidate)
    ensures var typed := UpdateServerName(InitialState(existing), candidate);
      var submit := DoChangeServerName(typed, true);
      var submitted := Replay(typed, submit);
      var reply := OnTermsReply(submitted, Success(TermsResponse(None, accepted)));
      && RequestTerms(IdentityService, SanitizeBaseUrl(candidate)) in submit
      && Navigate(NavigateNoTerms) in reply
      && Replay(submitted, reply) == SetIdentityServerState(existing, Some(candidate), None, false)
  {
    var typed := UpdateServerName(InitialState(existing), candidate);
    var submit := DoChangeServerName(typed, true);
    assert !NoRequest(submit);
    var k :| 0 <= k < |submit| && submit[k].RequestTerms?;
    assert submit[k] == RequestTerms(IdentityService, SanitizeBaseUrl(candidate));
    var submitted := Replay(typed, submit);
    var reply := OnTermsReply(submitted, Success(TermsResponse(None, accepted)));
    assert reply[1] == Navigate(NavigateNoTerms);
  }

  /** The flow above for `id.example.org`, which is sent as `https://id.example.org`. */
  lemma NoTermsScenario(existing: Option<string>, accepted: set<string>)
    ensures var typed := UpdateServerName(InitialState(existing), "id.example.org");
      var submit := DoChangeServerName(typed, true);
      var submitted := Replay(typed, submit);
      var reply := OnTermsReply(submitted, Success(TermsResponse(None, accepted)));
      && RequestTerms(IdentityService, "https://id.example.org") in submit
      && Navigate(NavigateNoTerms) in reply
      && Replay(submitted, reply) == SetIdentityServerState(existing, Some("id.example.org"), None, false)
  {
    var candidate := "id.example.org";
    assert !IsWhitespace(candidate[0]);
    assert candidate[0] != HttpScheme[0];
    assert SanitizeBaseUrl(candidate) == "https://id.example.org";
    NoTermsFlow(existing, candidate, accepted);
  }
}
