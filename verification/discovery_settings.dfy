/**
 * The decision logic of the discovery settings screen, with the dialogs and
 * fragment plumbing stripped away: whether changing or disconnecting the
 * identity server must first be confirmed, which pending email bindings are
 * re-checked when the screen resumes, and which shared navigation events are
 * forwarded to the settings view model.
 *
 * Every decision is a pure function from the settings state (or an event) to
 * the calls it makes on the view model, in order.
 */
module DiscoverySettings {
  import opened Wrappers

  /** The binding state of a third-party identifier on the identity server. */
  datatype SharedState = Shared | NotShared | NotVerifiedForBind | NotVerifiedForUnbind

  /**
   * One third-party identifier (an email address or a phone number). Its
   * binding state is loaded asynchronously and is absent until loaded.
   */
  datatype PidInfo = PidInfo(value: string, isShared: Option<SharedState>)

  /** The part of the settings state the decisions read; an absent list is not loaded. */
  datatype DiscoverySettingsState = DiscoverySettingsState(
    identityServer: Option<string>,
    emailList: Option<seq<PidInfo>>,
    phoneNumbersList: Option<seq<PidInfo>>)

  datatype Medium = Email | Msisdn

  /** The calls the screen makes on the settings view model or the navigation stack. */
  datatype Call =
    | Add3pid(medium: Medium, address: string, bind: bool)
    | ChangeIdentityServer(server: Option<string>)
    | OpenChangeIdentityServer(current: Option<string>)

  /** The user's answer to a confirmation dialog. */
  datatype Choice = Continue | Cancel

  /**
   * How a tap is handled: either the calls are made at once, or the user is
   * asked first and the calls are made only if they continue.
   */
  datatype Reaction = Proceed(calls: seq<Call>) | AskConfirmation(onContinue: seq<Call>)

  /** The calls a reaction is about: made at once, or once the user continues. */
  function Planned(r: Reaction): seq<Call> {
    match r
    case Proceed(calls) => calls
    case AskConfirmation(onContinue) => onContinue
  }

  /**
   * The calls a reaction ends up making once the user has answered (if
   * asked): "continue" makes the planned calls, "cancel" dismisses the
   * dialog without a call, and a reaction that asks nothing ignores the answer.
   */
  function Answer(r: Reaction, c: Choice): (calls: seq<Call>)
    ensures calls == Planned(r) || calls == []
    ensures c == Continue ==> calls == Planned(r)
    ensures r.Proceed? ==> calls == Planned(r)
    ensures r.AskConfirmation? && c == Cancel ==> calls == []
  {
    match r
    case Proceed(calls) => calls
    case AskConfirmation(onContinue) => if c == Continue then onContinue else []
  }

  // ---------------------------------------------------------------------------
  // The bound-identifier gate
  // ---------------------------------------------------------------------------

  /** The identifiers of a list, where a list that is not loaded has none. */
  function Loaded(list: Option<seq<PidInfo>>): (r: seq<PidInfo>)
    ensures list.None? ==> r == []
    ensures list.Some? ==> r == list.value
  {
    list.GetOr([])
  }

  predicate IsBound(p: PidInfo) {
    p.isShared == Some(Shared)
  }

  /** True iff some identifier of the list is bound. */
  function AnyBound(pids: seq<PidInfo>): (r: bool)
    ensures r <==> exists i | 0 <= i < |pids| :: IsBound(pids[i])
  {
    if pids == [] then false
    else if IsBound(pids[0]) then true
    else
      var rest := AnyBound(pids[1..]);
      assert forall i | 1 <= i < |pids| :: pids[i] == pids[1..][i - 1];
      assert rest ==> exists i | 1 <= i < |pids| :: IsBound(pids[i]);
      rest
  }

  /** Emails first, then phone numbers, as the screen collects them. */
  function PidList(st: DiscoverySettingsState): (r: seq<PidInfo>)
    ensures |r| == |Loaded(st.emailList)| + |Loaded(st.phoneNumbersList)|
    ensures r[..|Loaded(st.emailList)|] == Loaded(st.emailList)
    ensures r[|Loaded(st.emailList)|..] == Loaded(st.phoneNumbersList)
    ensures forall p :: p in r <==> p in Loaded(st.emailList) || p in Loaded(st.phoneNumbersList)
  {
    Loaded(st.emailList) + Loaded(st.phoneNumbersList)
  }

  /** True iff some loaded email or phone number is bound to the identity server. */
  function HasBoundIds(st: DiscoverySettingsState): (r: bool)
    ensures r <==>
      || (exists p | p in Loaded(st.emailList) :: IsBound(p))
      || (exists p | p in Loaded(st.phoneNumbersList) :: IsBound(p))
  {
    var pids := PidList(st);
    var r := AnyBound(pids);
    assert r ==> exists i | 0 <= i < |pids| :: pids[i] in pids && IsBound(pids[i]);
    assert (exists p | p in pids :: IsBound(p)) ==> r;
    r
  }

  /** Lists that are not loaded never trigger a confirmation. */
  lemma UnloadedListsAreUnbound(identityServer: Option<string>)
    ensures !HasBoundIds(DiscoverySettingsState(identityServer, None, None))
  {
  }

  /**
   * Tapping "change identity server" opens the change screen with the current
   * server; when an identifier is bound the user is asked first, and
   * cancelling does nothing.
   */
  function OnTapChangeIdentityServer(st: DiscoverySettingsState): (r: Reaction)
    ensures r.AskConfirmation? <==> HasBoundIds(st)
    ensures Answer(r, Continue) == [OpenChangeIdentityServer(st.identityServer)]
    ensures Answer(r, Cancel) == [] <==> HasBoundIds(st)
    ensures forall c :: Answer(r, c) == [] || Answer(r, c) == [OpenChangeIdentityServer(st.identityServer)]
  {
    var open := [OpenChangeIdentityServer(st.identityServer)];
    if HasBoundIds(st) then AskConfirmation(open) else Proceed(open)
  }

  /**
   * Tapping "disconnect" clears the identity server; when an identifier is
   * bound the user is asked first, and cancelling does nothing.
   */
  function OnTapDisconnectIdentityServer(st: DiscoverySettingsState): (r: Reaction)
    ensures r.AskConfirmation? <==> HasBoundIds(st)
    ensures Answer(r, Continue) == [ChangeIdentityServer(None)]
    ensures Answer(r, Cancel) == [] <==> HasBoundIds(st)
    ensures forall c :: Answer(r, c) == [] || Answer(r, c) == [ChangeIdentityServer(None)]
  {
    var disconnect := [ChangeIdentityServer(None)];
    if HasBoundIds(st) then AskConfirmation(disconnect) else Proceed(disconnect)
  }

  /** Changing and disconnecting are gated by the same test. */
  lemma ChangeAndDisconnectAgree(st: DiscoverySettingsState)
    ensures OnTapChangeIdentityServer(st).AskConfirmation? == OnTapDisconnectIdentityServer(st).AskConfirmation?
  {
  }

  /**
   * Only a bound identifier matters: marking one identifier bound in a loaded
   * list forces the confirmation, whatever the rest of the state.
   */
  lemma BindingForcesConfirmation(st: DiscoverySettingsState, i: nat)
    requires st.emailList.Some? && i < |st.emailList.value|
    requires IsBound(st.emailList.value[i])
    ensures OnTapDisconnectIdentityServer(st) == AskConfirmation([ChangeIdentityServer(None)])
    ensures Answer(OnTapDisconnectIdentityServer(st), Cancel) == []
  {
    assert st.emailList.value[i] in Loaded(st.emailList);
  }

  // ---------------------------------------------------------------------------
  // Resume reconciliation
  // ---------------------------------------------------------------------------

  /** A binding or unbinding that waits for the user to verify it. */
  predicate IsPending(state: Option<SharedState>) {
    state == Some(NotVerifiedForBind) || state == Some(NotVerifiedForUnbind)
  }

  /** The re-check of a pending email: bind again if a bind was pending, unbind otherwise. */
  function RecheckCall(info: PidInfo): (c: Call)
    ensures c.Add3pid? && c.medium == Email && c.address == info.value
    ensures IsPending(info.isShared) ==> (c.bind <==> info.isShared == Some(NotVerifiedForBind))
    ensures IsPending(info.isShared) ==> (!c.bind <==> info.isShared == Some(NotVerifiedForUnbind))
  {
    Add3pid(Email, info.value, info.isShared == Some(NotVerifiedForBind))
  }

  /** The re-checks for a list of emails, one per pending email, in list order. */
  function Rechecks(emails: seq<PidInfo>): (r: seq<Call>)
    ensures |r| <= |emails|
    ensures forall k | 0 <= k < |r| :: r[k].Add3pid? && r[k].medium == Email
  {
    if emails == [] then []
    else if IsPending(emails[0].isShared) then [RecheckCall(emails[0])] + Rechecks(emails[1..])
    else Rechecks(emails[1..])
  }

  /** Every re-check is the re-check of some pending email. */
  lemma {:induction false} RechecksSound(emails: seq<PidInfo>, k: nat)
    requires k < |Rechecks(emails)|
    ensures exists i | 0 <= i < |emails| ::
      IsPending(emails[i].isShared) && Rechecks(emails)[k] == RecheckCall(emails[i])
    decreases |emails|
  {
    if IsPending(emails[0].isShared) && k == 0 {
      assert IsPending(emails[0].isShared) && Rechecks(emails)[0] == RecheckCall(emails[0]);
    } else {
      var k' := if IsPending(emails[0].isShared) then k - 1 else k;
      assert Rechecks(emails)[k] == Rechecks(emails[1..])[k'];
      RechecksSound(emails[1..], k');
      var i :| 0 <= i < |emails[1..]| && IsPending(emails[1..][i].isShared)
        && Rechecks(emails[1..])[k'] == RecheckCall(emails[1..][i]);
      assert emails[1..][i] == emails[i + 1];
    }
  }

  /** Every pending email is re-checked. */
  lemma {:induction false} RechecksComplete(emails: seq<PidInfo>, i: nat)
    requires i < |emails| && IsPending(emails[i].isShared)
    ensures RecheckCall(emails[i]) in Rechecks(emails)
    decreases |emails|
  {
    if i > 0 {
      assert emails[1..][i - 1] == emails[i];
      RechecksComplete(emails[1..], i - 1);
    }
  }

  /** Re-checks of a concatenation are the re-checks of each part, in order. */
  lemma {:induction false} RechecksAppend(a: seq<PidInfo>, b: seq<PidInfo>)
    ensures Rechecks(a + b) == Rechecks(a) + Rechecks(b)
    decreases |a|
  {
    if a == [] {
      assert a + b == b;
    } else {
      assert (a + b)[1..] == a[1..] + b;
      RechecksAppend(a[1..], b);
    }
  }

  /** The re-checks of one email: one call exactly when it is pending. */
  lemma RechecksSingle(info: PidInfo)
    ensures IsPending(info.isShared) ==> Rechecks([info]) == [RecheckCall(info)]
    ensures !IsPending(info.isShared) ==> Rechecks([info]) == []
  {
  }

  /** The number of pending emails in a list. */
  function PendingCount(emails: seq<PidInfo>): nat {
    if emails == [] then 0
    else (if IsPending(emails[0].isShared) then 1 else 0) + PendingCount(emails[1..])
  }

  /** Exactly one re-check per pending email. */
  lemma {:induction false} RechecksCount(emails: seq<PidInfo>)
    ensures |Rechecks(emails)| == PendingCount(emails)
    decreases |emails|
  {
    if emails != [] {
      RechecksCount(emails[1..]);
    }
  }

  /** A bind re-check is made exactly for an email whose bind is pending. */
  lemma BindFlagMatchesState(info: PidInfo)
    requires IsPending(info.isShared)
    ensures RecheckCall(info).bind <==> info.isShared == Some(NotVerifiedForBind)
    ensures !RecheckCall(info).bind <==> info.isShared == Some(NotVerifiedForUnbind)
  {
  }

  /** The re-checks the screen makes when it resumes; phone numbers are never re-checked. */
  function OnResume(st: DiscoverySettingsState): (r: seq<Call>)
    ensures st.emailList.None? ==> r == []
    ensures st.emailList.Some? ==> |r| == PendingCount(st.emailList.value)
    ensures forall k | 0 <= k < |r| :: r[k].Add3pid? && r[k].medium == Email
  {
    RechecksCount(Loaded(st.emailList));
    Rechecks(Loaded(st.emailList))
  }

  /** The phone numbers, and the current server, play no part in resuming. */
  lemma ResumeIgnoresPhones(st: DiscoverySettingsState, phones: Option<seq<PidInfo>>, server: Option<string>)
    ensures OnResume(st) == OnResume(st.(phoneNumbersList := phones, identityServer := server))
  {
  }

  /**
   * The resume handler as the screen runs it: one pass over the loaded
   * emails, issuing a re-check for each pending one.
   */
  method ResumeReconciliation(st: DiscoverySettingsState) returns (calls: seq<Call>)
    ensures calls == OnResume(st)
    ensures forall k | 0 <= k < |calls| :: calls[k].Add3pid? && calls[k].medium == Email
  {
    calls := [];
    if st.emailList.Some? {
      var emails := st.emailList.value;
      var i := 0;
      while i < |emails|
        invariant 0 <= i <= |emails|
        invariant calls == Rechecks(emails[..i])
      {
        var info := emails[i];
        if info.isShared == Some(NotVerifiedForBind) || info.isShared == Some(NotVerifiedForUnbind) {
          var bind := info.isShared == Some(NotVerifiedForBind);
          calls := calls + [Add3pid(Email, info.value, bind)];
        }
        RechecksAppend(emails[..i], [info]);
        assert emails[..i + 1] == emails[..i] + [info];
        i := i + 1;
      }
      assert emails[..i] == emails;
    }
  }

  // ---------------------------------------------------------------------------
  // Shared navigation events
  // ---------------------------------------------------------------------------

  /** The tag of the shared event that carries a newly chosen identity server. */
  const NewIdentityServerSetRequest: string := "NEW_IDENTITY_SERVER_SET_REQUEST"

  /** An event published on the screen's shared view model: a tag and a payload. */
  datatype SharedNavigateEvent = SharedNavigateEvent(tag: string, payload: Option<string>)

  /** A new-server request is forwarded to the settings view model; any other tag is ignored. */
  function OnSharedNavigateEvent(ev: SharedNavigateEvent): (r: seq<Call>)
    ensures r != [] <==> ev.tag == NewIdentityServerSetRequest
    ensures forall k | 0 <= k < |r| :: r[k] == ChangeIdentityServer(ev.payload)
    ensures |r| <= 1
  {
    if ev.tag == NewIdentityServerSetRequest then [ChangeIdentityServer(ev.payload)] else []
  }
}
