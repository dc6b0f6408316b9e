# Identity-server discovery settings, modelled in Dafny

This project models the decision logic of two screens of the Riot Android client. Both deal with "discovery": choosing the identity server that maps email addresses and phone numbers to Matrix accounts.

- **Set identity server** (`SetIdentityServer`, in `set_identity_server.dfy`). This is the view model behind the screen where the user types a new identity server. Its state is the record `SetIdentityServerState {existingIdentityServer, newIdentityServer, errorMessageId, isVerifyingServer}`. Each operation is a pure function from a state to the effects it produces, in program order. An effect is a state update, the outgoing terms request or a navigation event. `Replay` gives the state those effects leave behind.
  - `UpdateServerName` stores the typed text.
  - `DoChangeServerName` rejects a missing or blank candidate. Otherwise it normalises the candidate with `SanitizeBaseUrl` and starts verifying. It issues one identity-service terms request when a session exists.
  - `OnTermsReply` is the request's four callbacks. A success becomes exactly one of `NAVIGATE_NO_TERMS`, `NAVIGATE_SHOW_TERMS` or `NAVIGATE_TERMS_ACCEPTED`, chosen by `Classify`. The unexpected, network and Matrix errors all become the same "bad identity server" error.
- **Discovery settings** (`DiscoverySettings`, in `discovery_settings.dfy`). This is the settings fragment, reduced to its decisions.
  - `HasBoundIds` is the gate that makes "change" and "disconnect" ask for confirmation. It holds when a loaded email or phone number is `SHARED`.
  - `OnTapChangeIdentityServer` and `OnTapDisconnectIdentityServer` give what each tap does, and what happens on "continue" and on "cancel".
  - `Rechecks`, `OnResume` and the loop `ResumeReconciliation` list the `add3pid` re-checks made on resume. There is one per email whose bind or unbind is pending.
  - `OnSharedNavigateEvent` forwards a new-server request to `changeIdentityServer`.

Kotlin's `null` is `Option.None` (module `Wrappers`). Kotlin's `isNullOrBlank` and `startsWith` are in module `Text`.

Notes on what the code does:
- The code has no mechanism that discards a late reply from a superseded submission. A reply is applied to whatever the state is when it arrives.
- The "show terms" outcome carries no list of URLs. It is only the string `NAVIGATE_SHOW_TERMS`.
- Both the "terms" and the "policy" document come from the same localized lookup (`SetIdentityServerViewModel.kt:77-78`). So a reply carries one optional document, and `OnTermsReply` passes it twice to `Classify`, which treats its two inputs as independent.
- When there is no session, the submission sets `isVerifyingServer` and sends nothing. No callback can then clear the flag. This is modelled as written (`NoSessionLeavesVerifying`).
- The configured server is not changed by this view model. What happens after "no terms" or "terms accepted" is decided by screens that are not part of this model.

## Model

| member | source | states |
|---|---|---|
| SetIdentityServer.InitialState | vector/src/main/java/im/vector/fragments/discovery/SetIdentityServerViewModel.kt:33-38 | a screen opened on an existing server starts with that server, no candidate, no error and not verifying (the record's defaults, as the factory builds it at line 141) |
| SetIdentityServer.Tag | vector/src/main/java/im/vector/fragments/discovery/SetIdentityServerViewModel.kt:134-136 | each navigation event is published as its own constant string, from which it is recovered unambiguously |
| SetIdentityServer.SanitizeBaseUrl | vector/src/main/java/im/vector/fragments/discovery/SetIdentityServerViewModel.kt:123-129 | the result always starts with `http://` or `https://`; an input that already does is returned unchanged, any other gets `https://` prepended; the input is always a suffix of the result |
| SetIdentityServer.SanitizeIdempotent | vector/src/main/java/im/vector/fragments/discovery/SetIdentityServerViewModel.kt:123-129 | normalising twice gives the same URL as normalising once |
| SetIdentityServer.SanitizeExamples | vector/src/main/java/im/vector/fragments/discovery/SetIdentityServerViewModel.kt:123-129 | `matrix.org` becomes `https://matrix.org`, `http://x` is kept, and the scheme test is case-sensitive (`HTTP://x` gets a second scheme) |
| SetIdentityServer.ParseTag | vector/src/main/java/im/vector/fragments/discovery/SetIdentityServerViewModel.kt:134-136 | exactly the three navigation constants are recognised as events |
| SetIdentityServer.TagRoundTrip | vector/src/main/java/im/vector/fragments/discovery/SetIdentityServerViewModel.kt:134-136 | the three navigation constants are distinct, so every event is recovered from its string |
| SetIdentityServer.UpdateServerName | vector/src/main/java/im/vector/fragments/discovery/SetIdentityServerViewModel.kt:47-54 | the typed text becomes the candidate and the error is cleared; the existing server and the verifying flag are unchanged |
| SetIdentityServer.DoChangeServerName | vector/src/main/java/im/vector/fragments/discovery/SetIdentityServerViewModel.kt:56-69 | a null or blank candidate only sets the "please enter a server" error, sending no request and no navigation and keeping the verifying flag; a non-blank one sets the verifying flag and nothing else; it sends a request if and only if there is a session; any request is the only one, goes to the identity service at the normalised URL, and follows the state update that starts verifying |
| SetIdentityServer.PendingPolicies | vector/src/main/java/im/vector/fragments/discovery/SetIdentityServerViewModel.kt:83-84 | a document is kept exactly when it is present and its localized URL is not among the accepted ones |
| SetIdentityServer.Classify | vector/src/main/java/im/vector/fragments/discovery/SetIdentityServerViewModel.kt:79-90 | "no terms" if and only if both documents are absent; "show terms" if and only if some present document is not accepted; "terms accepted" if and only if some document is present and every present one is accepted |
| SetIdentityServer.ClassifySameDocument | vector/src/main/java/im/vector/fragments/discovery/SetIdentityServerViewModel.kt:76-90 | with the one document the lookup returns: absent gives "no terms", accepted gives "terms accepted", unaccepted gives "show terms" |
| SetIdentityServer.OnTermsReply | vector/src/main/java/im/vector/fragments/discovery/SetIdentityServerViewModel.kt:71-118 | every reply clears the verifying flag, keeps both server fields and sends no request; a success first updates the state, keeps the error, and then emits exactly one navigation event, the classification of its document; a failure sets the "bad identity server" error and does not navigate |
| SetIdentityServer.FailuresCollapse | vector/src/main/java/im/vector/fragments/discovery/SetIdentityServerViewModel.kt:93-118 | the unexpected, network and Matrix error callbacks have identical effects: verifying off, "bad identity server" error |
| SetIdentityServer.SubmitThenReply | vector/src/main/java/im/vector/fragments/discovery/SetIdentityServerViewModel.kt:56-118 | a non-blank submission with a session leaves the screen verifying, and any reply then clears it; after a success the error is the one from before submitting |
| SetIdentityServer.NoSessionLeavesVerifying | vector/src/main/java/im/vector/fragments/discovery/SetIdentityServerViewModel.kt:64-69 | without a session a non-blank submission sends no request yet leaves the verifying flag set |
| SetIdentityServer.BlankCandidateRejected | vector/src/main/java/im/vector/fragments/discovery/SetIdentityServerViewModel.kt:47-63 | typing any blank text and submitting sends nothing, navigates nowhere, shows "please enter a server" and keeps the verifying flag |
| SetIdentityServer.NoTermsFlow | vector/src/main/java/im/vector/fragments/discovery/SetIdentityServerViewModel.kt:47-90 | typing any non-blank candidate and submitting requests the normalised URL; a reply without documents navigates to "no terms" and leaves the screen idle without error |
| SetIdentityServer.NoTermsScenario | vector/src/main/java/im/vector/fragments/discovery/SetIdentityServerViewModel.kt:47-90 | typing `id.example.org` and submitting requests `https://id.example.org`; a reply without documents navigates to "no terms" and leaves the screen idle without error |
| DiscoverySettings.Answer | vector/src/main/java/im/vector/fragments/discovery/VectorSettingsDiscoveryFragment.kt:146-149 | "continue" makes the planned calls; "cancel" (a button without a listener) makes none; a tap that asked nothing makes its calls whatever the answer; the same buttons are at lines 175-178 |
| DiscoverySettings.Loaded | vector/src/main/java/im/vector/fragments/discovery/VectorSettingsDiscoveryFragment.kt:132-133 | a list that is not loaded contributes no identifiers; a loaded one contributes all of its identifiers |
| DiscoverySettings.AnyBound | vector/src/main/java/im/vector/fragments/discovery/VectorSettingsDiscoveryFragment.kt:136 | true if and only if some identifier of the list is `SHARED` |
| DiscoverySettings.PidList | vector/src/main/java/im/vector/fragments/discovery/VectorSettingsDiscoveryFragment.kt:131-134 | the collected identifiers are the loaded emails followed by the loaded phone numbers; a list not loaded contributes none |
| DiscoverySettings.HasBoundIds | vector/src/main/java/im/vector/fragments/discovery/VectorSettingsDiscoveryFragment.kt:130-136 | true if and only if some loaded email or some loaded phone number is `SHARED` |
| DiscoverySettings.UnloadedListsAreUnbound | vector/src/main/java/im/vector/fragments/discovery/VectorSettingsDiscoveryFragment.kt:131-134 | with neither list loaded the gate is false |
| DiscoverySettings.OnTapChangeIdentityServer | vector/src/main/java/im/vector/fragments/discovery/VectorSettingsDiscoveryFragment.kt:127-155 | asks for confirmation if and only if an identifier is bound; "continue" (or no question) opens the change screen with the current server; "cancel" does nothing exactly when a confirmation was asked |
| DiscoverySettings.OnTapDisconnectIdentityServer | vector/src/main/java/im/vector/fragments/discovery/VectorSettingsDiscoveryFragment.kt:157-184 | asks for confirmation if and only if an identifier is bound; without bound identifiers it calls `changeIdentityServer(null)` at once; with them only "continue" does, and "cancel" does nothing |
| DiscoverySettings.ChangeAndDisconnectAgree | vector/src/main/java/im/vector/fragments/discovery/VectorSettingsDiscoveryFragment.kt:130-165 | "change" and "disconnect" ask for confirmation in exactly the same states |
| DiscoverySettings.BindingForcesConfirmation | vector/src/main/java/im/vector/fragments/discovery/VectorSettingsDiscoveryFragment.kt:159-180 | one bound email is enough for disconnect to ask first, and cancelling then makes no call |
| DiscoverySettings.RecheckCall | vector/src/main/java/im/vector/fragments/discovery/VectorSettingsDiscoveryFragment.kt:85-86 | the re-check of an email is an email `add3pid` with the email's address; for a pending email `bind` is true exactly for a pending bind and false exactly for a pending unbind |
| DiscoverySettings.Rechecks | vector/src/main/java/im/vector/fragments/discovery/VectorSettingsDiscoveryFragment.kt:81-89 | every resume call is an email `add3pid`, and there are never more calls than emails |
| DiscoverySettings.RechecksSound | vector/src/main/java/im/vector/fragments/discovery/VectorSettingsDiscoveryFragment.kt:81-89 | every re-check is the re-check of some email whose bind or unbind is pending |
| DiscoverySettings.RechecksComplete | vector/src/main/java/im/vector/fragments/discovery/VectorSettingsDiscoveryFragment.kt:81-89 | every email whose bind or unbind is pending is re-checked |
| DiscoverySettings.RechecksAppend | vector/src/main/java/im/vector/fragments/discovery/VectorSettingsDiscoveryFragment.kt:81-89 | the re-checks of two lists joined are the re-checks of the first followed by those of the second, so they follow list order |
| DiscoverySettings.RechecksSingle | vector/src/main/java/im/vector/fragments/discovery/VectorSettingsDiscoveryFragment.kt:82-87 | one email gives exactly one re-check when its bind or unbind is pending; if it is `SHARED`, `NOT_SHARED` or of unknown state it gives none |
| DiscoverySettings.RechecksCount | vector/src/main/java/im/vector/fragments/discovery/VectorSettingsDiscoveryFragment.kt:81-89 | the number of re-checks equals the number of pending emails |
| DiscoverySettings.BindFlagMatchesState | vector/src/main/java/im/vector/fragments/discovery/VectorSettingsDiscoveryFragment.kt:83-86 | for a pending email the `bind` flag is true exactly for a pending bind and false exactly for a pending unbind |
| DiscoverySettings.OnResume | vector/src/main/java/im/vector/fragments/discovery/VectorSettingsDiscoveryFragment.kt:79-90 | no email list loaded means no call; otherwise one email `add3pid` per pending email |
| DiscoverySettings.ResumeIgnoresPhones | vector/src/main/java/im/vector/fragments/discovery/VectorSettingsDiscoveryFragment.kt:80-89 | the resume calls do not depend on the phone numbers or on the current server |
| DiscoverySettings.ResumeReconciliation | vector/src/main/java/im/vector/fragments/discovery/VectorSettingsDiscoveryFragment.kt:80-90 | the single pass over the emails makes exactly the re-checks `OnResume` describes, all of them email `add3pid`s |
| DiscoverySettings.OnSharedNavigateEvent | vector/src/main/java/im/vector/fragments/discovery/VectorSettingsDiscoveryFragment.kt:61-65 | an event tagged as a new-server request makes exactly one call, `changeIdentityServer` with its payload; any other tag makes none |

## Left out

- MvRx plumbing is left out: the view-model factory's session lookup (`SetIdentityServerViewModel.kt:138-142`), `withArgs`/`newInstance`, fragment transactions and animations, `invalidate`, the loading-spinner visibility, `setTitle` and the dialog titles, labels and message arguments. None of it makes a decision. The session lookup is reduced to a `hasSession` flag.
- MvRx applies `setState` reducers asynchronously. The model applies state updates in program order, against the state the transition started from.
- The terms request itself (`TermsManager.get`), the network, and `startListenToIdentityManager`/`stopListenToIdentityManager` (`onResume`/`onPause`) are left out. They are foreign asynchronous calls. The request is an emitted `RequestTerms` effect and its outcome is a `TermsReply` input.
- `getLocalizedPrivacyPolicies` and the user's language are left out. They are library code. The lookup's result is an input: an optional `Policy` with a localized URL. The policy type is not part of this model, and its URL is taken as always present.
- `changeIdentityServer`, `add3pid`, `shareEmail`, `revokeEmail`, `sharePN`, `revokePN` and `submitPNToken` belong to the settings view model, which is not part of this model. They appear only as `Call` values.
- The one-line forwarders of `VectorSettingsDiscoveryFragment.kt:103-125` and the empty `onSelectIdentityServer` are left out. Each only passes its arguments on to one of those calls.
- The value of `NEW_IDENTITY_SERVER_SET_REQUEST` is left out because `DiscoverySharedViewModel` is not part of this model. The model uses the string `"NEW_IDENTITY_SERVER_SET_REQUEST"`; only equality with the tag matters.
- `ServiceType` is not part of this model. It is taken to have the two members `IntegrationManager` and `IdentityService`.
- Kotlin's `isWhitespace` is not part of this model. `Text.IsWhitespace` follows `Character.isWhitespace` or `Character.isSpaceChar` over current Unicode. Characters are Unicode scalar values rather than UTF-16 code units.
- Resource string ids are left out. They are opaque constants (`PleaseEnterServer`, `BadIdentityServer`).
