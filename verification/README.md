# Payment gateway: tokens, guards, codecs and ledgers

A Dafny model of the stateful parts of the payment gateway that decide who may
do what, how often, and only once, together with the small algorithms they rest
on. `dafny verify dfyconfig.toml` checks the whole project.

## What is modelled

| area | modules |
|---|---|
| Refresh tokens, in their memory and SQL forms | `RefreshTokenStore`, `RefreshTokenRuns`, `RefreshTokenFamilies`, `RefreshTokenHistory` |
| The authorization-code flow, its stores and its handlers | `OAuthAuthorizationStore`, `PushedAuthorizationRequestStore`, `PushedRequestRuns`, `AuthorizationFlow`, `AuthorizationSteps`, `AuthorizationProgress`, `AuthorizationOnce`, `AuthorizationOrigin`, `EarlyDecisions`, `ScopeAttenuation`, `AuthorizationPath`, `TokenLaws` |
| Consent receipts | `ConsentReceiptStore`, `ConsentLaws` |
| Revoked access tokens | `AccessTokenRevocation`, `ReuseRace` |
| Replay and rate guards | `RequestGuard`, `ReplayRuns`, `ReplayVerdicts`, `RateRuns`, `RateCapacity` |
| One-time passwords and their lockout | `Base32`, `PortalMfa` |
| Canonical JSON and signed headers | `Json`, `JsonRoundTrip`, `CanonicalJson`, `CanonicalJsonLaws`, `SparseJson`, `InternalSigner`, `SignatureBinding` |
| Developer portal: service codes, scopes, API keys | `Slugs`, `ServiceCodes`, `DeveloperPortalStore`, `DeveloperPortal`, `PortalSteps`, `ScopeLifecycle`, `OpenRequests`, `CodeClashes`, `KeyLifecycle`, `KeyResolution` |
| Payment intents and the sandbox ledger | `PaymentIntentStore`, `PaymentIntentLaws`, `SandboxSimulatorStore`, `SandboxLedgerLaws` |
| Shared | `Wrappers`, `Environments`, `Lists`, `Strings`, `Counting` |

A store that changes fields in place is a class with those fields. Each method
is proved against a function on the store's contents, and the laws are proved
about that function over sequences of calls of any length. Printers, normalisers
and checks without state are functions.

### Assumptions

- One store method is one atomic step. In the authorization flow the handlers'
  separate store calls are separate steps that interleave freely, and a handler
  may stop between any two of them.
- Random tokens, ids and codes are new when drawn. Digests, codes of
  authentication and the one-time-password function are arbitrary functions;
  where a statement needs digests that do not collide, it says so.
- Times are integers in milliseconds (claims' expiries in seconds), passed as
  parameters. A clock that does not go back is assumed only where it is written.
- A person decides only with an approval token that a consent page has shown.
  `AuthorizationOrigin.EarlyDecisionTakesPlaceholder` shows what happens otherwise.
- In the authorization flow granted scopes of a service only grow, it keeps listing
  its keys, and no two services share a key. Of the portal these are proved by
  `ScopeLifecycle.RunKeepsGrants`, `KeyLifecycle.RunKeepsKeys` and, if secrets are
  fresh, `KeyLifecycle.FingerprintsUnique`.
- The service code in the key of a payment-intent index has no colon, as no slug has.

### Where the code does less than its design suggests

- **Replay.** A signed request is protected against replay exactly when the nonce
  lifetime is at least twice the tolerance plus one second
  (`ReplayRuns.ReplayProtectedIff`). The defaults, 600 and 300 seconds
  (src/config.ts:67-70), miss it by one second: a request stamped at the far end of the
  tolerance is accepted at both ends of its window.
- **Nonce keys.** The key of a nonce is the digest of subject, colon and nonce. A colon
  in a nonce lets two subjects share a key, so that one can be refused for the other's
  nonce; without colons keys are apart (`ReplayVerdicts.ColonsMixUp`, `SameKeyIff`).
- **Due codes.** A one-time code is tried against the counter before the due one first.
  If both counters have the same code and the earlier one was used, the due code is
  refused (`PortalMfa.DueCodeVerifies`).
- **Rate.** The limit holds exactly up to as many subjects as the cache holds. With one
  more, subjects that take turns evict one another's buckets, and none of them is
  limited (`RateCapacity.RateProtectedIff`).
- **Refresh-token expiry.** In memory a rotated token keeps its family's first
  expiry; in SQL it gets a new lifetime, limited by the family's absolute one. The
  two forms agree up to the first token's lifetime and part after it. Their replies to a
  whole run are equal exactly if they see the same expiry at every rotation
  (`RefreshTokenRuns.RepliesAgreeIff`).
- **Service codes.** A code is cut at 48 characters and may then end in a hyphen,
  and a numbering suffix may exceed the limit. Every lookup slugs its argument
  (src/services/developerPortalStore.ts:371-376), a service's own code included. Codes
  longer than 48 are found under no text at all (`ServiceCodes.OverlongNeverFound`).
  A code that ends in a hyphen is found by its client's id but not by itself: the
  callback shows no consent page, or, if another service has the code without the
  hyphen, the page of that one, whose keys then refuse the token
  (`AuthorizationPath.FlowCompletes`, `FlowMints`, `FlowStops`).
- **Scope requests.** A request of a service whose code slugging changes is decided on
  the service that the slug finds. Where two services clash so, open requests stay sound
  exactly while there is no scope that both can have an open request for, in an
  environment of the one found (`CodeClashes.SoundIffUncontested`); a run from the empty portal
  that breaks them is given (`CodeClashes.SomeRunBreaks`).
- **Refresh during reuse.** If a consumed token is presented again between the rotation
  and the minting of a refresh, the family is revoked, but the access token minted then
  is not among the claims handed over, and is accepted until it expires
  (`ReuseRace.MintAfterReuse`).
- **Signed bodies.** An array of one null serializes as the empty array, so that each
  verifies under the other's signature; that is the only ambiguity
  (`SparseJson.OneNullLooksEmpty`, `InternalSigner.AcceptedBodiesIff`).
- **Early decisions.** Between the callback's claim and the verified identity the
  request already awaits consent. A decision gets the verified identity exactly if the
  callback is no longer under way, and else a code for the `pending:` placeholder
  (`EarlyDecisions.DecisionTakesVerifiedIff`).
- **Payment intents.** A creation that finds its reference taken does not bind the
  idempotency key it came with, and a later creation with a new reference may. Repeating
  a creation gives back the same intent after every possible run exactly when, at the
  first call, no key was given, or it was bound, or the reference was not taken
  (`PaymentIntentLaws.IdempotentIff`).
- **Sandbox ledger.** Both sides of a transfer are rounded half up, so that a
  transfer with half a cent creates one cent.
- **Lockout.** The failure count is not cleared when a lock ends: from then on every
  wrong code locks again. The bound on wrong codes rests on it.

## Model

| member | source | states |
|---|---|---|
| RefreshTokenStore.MemoryStore.Issue | src/services/refreshTokenStore.ts:55-67 | A new family starts with one unused token that lives for the token lifetime. |
| RefreshTokenStore.MemoryStore.Rotate | src/services/refreshTokenStore.ts:88-103 | An unknown, foreign, expired or revoked token changes nothing and is invalid; a consumed one revokes its family and hands over the family's claims; any other is consumed and replaced by a token with the same context and expiry. |
| RefreshTokenStore.MemoryStore.RecordAccessToken | src/services/refreshTokenStore.ts:150-155 | Claims are appended to the family's, also after its revocation. |
| RefreshTokenStore.MemoryStore.RevokeByConsent | src/services/refreshTokenStore.ts:164-169 | Exactly the families with a token of the consent join the revoked ones. |
| RefreshTokenStore.MemoryStore.RevokeToken | src/services/refreshTokenStore.ts:186-194 | The token's family is revoked, whatever the token's state, unless it is unknown or another service's. |
| RefreshTokenStore.MemoryStore.RevokeByService | src/services/refreshTokenStore.ts:216-221 | Exactly the families with a token of the service join the revoked ones. |
| RefreshTokenStore.MemoryStore.RevokeBySubject | src/services/refreshTokenStore.ts:238-254 | Exactly the families the filter covers are revoked, and exactly their recorded claims are returned. |
| RefreshTokenStore.SqlStore.InsertToken | src/services/refreshTokenStore.ts:277-283 | The new row has a full lifetime of its own. |
| RefreshTokenStore.SqlStore.RevokeFamilies | src/services/refreshTokenStore.ts:173-180 | The two updates mark exactly the given families and all their tokens. |
| RefreshTokenStore.SqlStore.Issue | src/services/refreshTokenStore.ts:68-86 | A family row with its absolute expiry, and one token row. |
| RefreshTokenStore.SqlStore.Rotate | src/services/refreshTokenStore.ts:104-148 | The same decision on rows, the absolute expiry of the family included; the replacement gets a new lifetime. |
| RefreshTokenStore.SqlStore.RecordAccessToken | src/services/refreshTokenStore.ts:156-162 | Claims are appended unless the family is revoked or missing. |
| RefreshTokenStore.SqlStore.RevokeByConsent | src/services/refreshTokenStore.ts:170-184 | Revokes exactly the families of the consent and their tokens. |
| RefreshTokenStore.SqlStore.RevokeToken | src/services/refreshTokenStore.ts:195-214 | Revokes the token's family and tokens if the token is the service's. |
| RefreshTokenStore.SqlStore.RevokeByService | src/services/refreshTokenStore.ts:222-236 | Revokes exactly the families of the service and their tokens. |
| RefreshTokenStore.SqlStore.RevokeBySubject | src/services/refreshTokenStore.ts:255-275 | Revokes exactly the families the filter covers, and returns exactly their recorded claims. |
| RefreshTokenRuns.StepSimulates | src/services/refreshTokenStore.ts:55-275 | From related states, a call that sees the same expiry gets the same reply from both forms and leaves them related: an SQL token is revoked exactly when its family is, and its family exactly when memory's set holds it. |
| RefreshTokenRuns.RunSimulates | src/services/refreshTokenStore.ts:55-275 | The same over whole runs: all replies are equal, contexts and handed-over claims included. |
| RefreshTokenRuns.RotateAgrees | src/services/refreshTokenStore.ts:88-148 | The replies of the two forms to a rotation are equal if and only if both see the token expired or both do not, for a token of the service in a family that is not revoked. |
| RefreshTokenRuns.RepliesAgreeIff | src/services/refreshTokenStore.ts:55-275 | The replies of the two forms to a whole run are equal if and only if, at every rotation of a token of the service in a family that is not revoked, both see it expired or both do not. |
| RefreshTokenRuns.EarlyRunSameExpiry | src/services/refreshTokenStore.ts:92-116 | No rotation sees different expiries in a run that presents no token past its family's first lifetime. |
| RefreshTokenRuns.StoresAgreeEarly | src/services/refreshTokenStore.ts:55-275 | From empty stores, the two forms give the same replies to every call of every such run. |
| RefreshTokenRuns.StoresPartLater | src/services/refreshTokenStore.ts:99-148 | An issue and two rotations, under the default lifetimes (src/config.ts:103-106), after which SQL rotates a token that memory calls invalid. |
| RefreshTokenRuns.SubjectClaimsAgree | src/services/refreshTokenStore.ts:238-275 | Memory hands over all claims that SQL does, and besides only claims of families already revoked. |
| RefreshTokenHistory.SqlAnswers | src/services/refreshTokenStore.ts:68-275 | From empty tables every reply of every run is the one told by the calls and their times alone: when each token was made and each family opened, which tokens were rotated, which families ended, which claims recorded. |
| RefreshTokenHistory.SqlRotatesIff | src/services/refreshTokenStore.ts:104-148 | After any run a rotation is not invalid if and only if the token is the service's, its family has not been ended, and it is before the making of the token plus the token lifetime and before the opening of the family plus the absolute one. |
| RefreshTokenHistory.MemoryAnswers | src/services/refreshTokenStore.ts:55-254 | The same of the memory form, with its own rule of time. |
| RefreshTokenHistory.MemoryRotatesIff | src/services/refreshTokenStore.ts:88-103 | After any run a rotation in memory is not invalid if and only if the token is the service's, its family has not been ended, and it is before the opening of the family plus the token lifetime. |
| RefreshTokenFamilies.OneUnusedToken | src/services/refreshTokenStore.ts:88-148 | In a state of chains no family has two tokens that are not consumed. |
| RefreshTokenFamilies.ExtendChain | src/services/refreshTokenStore.ts:97-103 | A rotation consumes the last token of its chain, and the new one becomes the last. |
| RefreshTokenFamilies.MemoryStepMoves | src/services/refreshTokenStore.ts:55-254 | Every call of the memory form starts a chain, extends one at its end, or leaves the chains alone. |
| RefreshTokenFamilies.SqlStepMoves | src/services/refreshTokenStore.ts:68-275 | The same of the SQL form. |
| RefreshTokenFamilies.MemoryRunChains | src/services/refreshTokenStore.ts:55-254 | In every reachable state each family is a chain, all tokens of a family carry one context, and no token's context ever changes. |
| RefreshTokenFamilies.MemoryRunExtendsChain | src/services/refreshTokenStore.ts:88-103 | Over a run a chain is only extended at its end. |
| RefreshTokenFamilies.SqlRunChains | src/services/refreshTokenStore.ts:68-275 | In every reachable state of the SQL form each family is a chain. |
| RefreshTokenFamilies.SqlRunExtendsChain | src/services/refreshTokenStore.ts:104-148 | Over a run of the SQL form a chain is only extended at its end. |
| RefreshTokenFamilies.MemoryRevocationIsFinal | src/services/refreshTokenStore.ts:88-103 | After reuse of a consumed token, or any revocation that covers a family, every later rotation of any of its tokens is invalid and changes nothing, after any run. |
| RefreshTokenFamilies.SqlRevocationIsFinal | src/services/refreshTokenStore.ts:104-148 | The same of the SQL form. |
| OAuthAuthorizationStore.Store.CreateRequest | src/services/oauthAuthorizationStore.ts:82-95 | The request is stored awaiting identity, without a subject. |
| OAuthAuthorizationStore.Store.CompleteIdentity | src/services/oauthAuthorizationStore.ts:97-108 | A request awaiting identity and not expired takes the subject and awaits consent; nothing else changes, and anything else fails. |
| OAuthAuthorizationStore.Store.ReplacePendingSubject | src/services/oauthAuthorizationStore.ts:122-132 | Only a request awaiting consent gets another subject. |
| OAuthAuthorizationStore.Store.Decide | src/services/oauthAuthorizationStore.ts:134-145 | Only a request awaiting consent, not expired and with this approval token is decided. |
| OAuthAuthorizationStore.Store.IssueCode | src/services/oauthAuthorizationStore.ts:147-160 | The code row copies the record it was given; a record without subject is refused. |
| OAuthAuthorizationStore.Store.ConsumeCode | src/services/oauthAuthorizationStore.ts:162-200 | A code is consumed if it is unused and not expired, and client, redirect URI and challenge match; otherwise nothing changes. |
| PushedAuthorizationRequestStore.Store.CreatePush | src/services/pushedAuthorizationRequestStore.ts:44-60 | A pushed request is stored under its uri with its expiry. |
| PushedAuthorizationRequestStore.Store.ConsumePush | src/services/pushedAuthorizationRequestStore.ts:62-104 | A pushed request of the service, unused and not expired, is marked used and returned; otherwise nothing changes. |
| PushedRequestRuns.UseSucceedsIff | src/services/pushedAuthorizationRequestStore.ts:44-104 | In every run a use succeeds if and only if the same service pushed the request, it has not expired and no earlier use succeeded; it gives back what was pushed. |
| AuthorizationSteps.UriUsedIff | src/server.ts:1749-1760 | A pushed request is used only by the service that the client's id finds. |
| AuthorizationSteps.CreatedIff | src/server.ts:1661-1690 | A request is stored if and only if the id finds an active service with the environment and the redirect URI, and scopes are asked for that are all granted. |
| AuthorizationSteps.ClaimedIff | src/services/oauthAuthorizationStore.ts:97-108 | A callback claims a request exactly if the state is its own and it awaits its identity in time. |
| AuthorizationSteps.DecidedIff | src/services/oauthAuthorizationStore.ts:134-145 | A request is decided exactly if it awaits consent in time and the approval token is its own. |
| AuthorizationSteps.RecordedConsent | src/server.ts:1811-1824 | The consent recorded is for the request's service, environment, subject and scopes. |
| AuthorizationSteps.IssuedIff | src/services/oauthAuthorizationStore.ts:147-160 | A code is issued exactly for an approval with a subject, and carries the request and the consent. |
| AuthorizationSteps.RedeemedIff | src/server.ts:1842-1848 | A code is redeemed exactly by its own active service, once, in time, with its redirect URI and challenge. |
| AuthorizationSteps.RefusedCode | src/services/oauthAuthorizationStore.ts:162-200 | Which error a refused code gets. |
| AuthorizationSteps.BegunIff | src/server.ts:1884-1888 | A rotation is begun exactly by the token's own active service, in time, for a token and a family not revoked; a consumed token revokes the family. |
| AuthorizationOnce.PastStays | src/services/oauthAuthorizationStore.ts:97-200 | What is decided, issued, redeemed or used up stays so under every step of every handler. |
| AuthorizationOnce.HappensOnce | src/server.ts:1749-1882 | A decision, a code for a request, a redemption or a use of a pushed request had not happened before it happens. |
| AuthorizationOnce.AtMostOnce | src/server.ts:1749-1882 | Over every interleaving: each request gets at most one decision and one code, each code is redeemed and each pushed uri used at most once. |
| AuthorizationOnce.NothingHappensLate | src/services/oauthAuthorizationStore.ts:97-200 | No pushed request, consent page, decision, code or token is accepted at or after its expiry. |
| AuthorizationOrigin.StepKeepsOrigins | src/server.ts:1661-1882 | Every step of every handler keeps the ties between requests, shown identities, approvals, consents and codes. |
| AuthorizationOrigin.RunKeepsOrigins | src/server.ts:1661-1882 | The same over every run. |
| AuthorizationOrigin.RedeemedCodeIsItsRequests | src/server.ts:1773-1846 | In every reachable state a redeemed code was issued for an approved request whose client, redirect URI, scopes and challenge are those presented or returned, and its subject is the identity whose consent page was shown. |
| AuthorizationOrigin.ShownIsVerified | src/server.ts:1787-1792 | A subject counts as shown only through the step that stores the verified identity and shows the page. |
| AuthorizationOrigin.EarlyDecisionTakesPlaceholder | src/server.ts:1779-1829 | A decision taken while the request still holds the callback's placeholder gets a code for the placeholder. |
| EarlyDecisions.DecisionTakesVerifiedIff | src/server.ts:1774-1829 | After any run whose verifications are not later than the decision, whoever decides: the code of a request that awaits consent carries the verified identity if and only if the request's callback is no longer under way, and else the placeholder of its claim. |
| ScopeAttenuation.RunKeepsAttenuated | src/server.ts:1842-1949 | Every run keeps each token, family and rotation tied to its code and consent, with scopes no wider. |
| ScopeAttenuation.ScopesOnlyNarrow | src/server.ts:1848-1949 | In every reachable state a token's scopes lie within its family's, those within its code's, and the code's are its request's and its consent's and granted to the service. |
| TokenLaws.GrantMintsIff | src/server.ts:1848-1870 | A redeemed code is exchanged if and only if there is a key and every scope asked for is the code's; token and family have exactly the scopes asked for, or those held if none is asked for, and the code's service, environment, subject and consent. |
| TokenLaws.RefreshMintsIff | src/server.ts:1903-1938 | A rotation is finished if and only if environment and key are there, every scope asked for is the family's, and the consent backs them; the token has exactly the scopes asked for, or the family's. |
| TokenLaws.ExchangeMintsIff | src/services/financialTokenExchange.ts:24-75 | An exchange mints if and only if the service is active, the scopes are granted to it and the consent backs service, environment, subject and scopes. |
| TokenLaws.AdmittedIff | src/server.ts:1592-1618 | A token is admitted if and only if it is usable, has not expired, its service is active and lists its key unexpired and not revoked, its scopes are granted and consented to, and the request names no other subject. |
| TokenLaws.EveryAdmission | src/server.ts:1592-1618 | In every run whatever is admitted is a stored, usable token in force, used for its own subject. |
| TokenLaws.RevokedNeverAdmitted | src/services/payServiceAuth.ts:177-180 | Once its id is recorded as revoked a token is admitted in no later run, whatever restarts and prunings come between. |
| ScopeAttenuation.UseTimeScopesHold | src/services/payServiceAuth.ts:190-193 | For a token minted in any run from services without shared keys, the scope checks at use never fail: not those against the service's grants, nor those against the consent (src/server.ts:1593-1608). |
| ScopeAttenuation.RevokedConsentEndsAccess | src/server.ts:1589-1618 | Once a consent is revoked, no step of any later run admits a token tied to it, refreshes one, or exchanges an identity for one. |
| AuthorizationPath.AdmissionOf | src/services/payServiceAuth.ts:181-193 | A live token backed by its recorded consent, its grants and its key is admitted if slugging leaves its service's code alone; otherwise no key opens it at the service that the slug finds, or there is no such service. |
| AuthorizationPath.FlowMints | src/server.ts:1661-1882 | Where the request's own code finds a service, the steps of an allowed authorization, each at its own time before the deadlines, end in a token for the verified subject with the requested scopes; it is admitted if slugging leaves the code alone, and else fails authentication. |
| AuthorizationPath.FlowStops | src/server.ts:1787-1792 | Where it finds none, the callback shows no consent page, and the rest of the steps is not possible. |
| AuthorizationPath.NothingComesOfIt | src/server.ts:1787-1846 | Such a request gets no page, no decision and no code in any later run. |
| AuthorizationPath.FlowCompletes | src/server.ts:1661-1882 | From any state with sound origins and for any client id, the steps the portal allows are possible and end in an admitted token if and only if slugging leaves alone the code that the id finds. |
| AuthorizationPath.CutNameNeverCompletes | src/services/developerPortalStore.ts:129-135 | For one written-out client name, cut behind a hyphen, they never are. |
| ConsentReceiptStore.Store.CreateReceipt | src/services/consentReceiptStore.ts:69-112 | Evidence already held for the service returns the receipt held; other evidence adds one. |
| ConsentReceiptStore.Store.RevokeReceipt | src/services/consentReceiptStore.ts:187-219 | The receipt with the id is revoked, or the id is not found. |
| ConsentLaws.HasActiveConsentMeans | src/services/consentReceiptStore.ts:221-237 | The answer is yes exactly when some receipt answers the question and is active at that instant. |
| ConsentLaws.EvaluationMeans | src/services/consentReceiptStore.ts:239-287 | The evaluation reports active, else revoked, else expired, else missing, exactly as receipts answering the question are held. |
| ConsentLaws.QueriesAgree | src/services/consentReceiptStore.ts:221-287 | Both queries give the same answer at the same instant. |
| ConsentLaws.ChosenIsLatest | src/services/consentReceiptStore.ts:239-310 | The receipt returned has the status that decided, and no other one with it expires later; renewal is asked for exactly if access is denied or the expiry is within the window, a negative window being empty. |
| ConsentLaws.CreateMeans | src/services/consentReceiptStore.ts:69-112 | New evidence adds a receipt of what was given, each scope once; held evidence returns the receipt held, with its status of now. |
| ConsentLaws.RevokeMeans | src/services/consentReceiptStore.ts:187-222 | A revocation marks its receipt with the time, once, and returns it as it then is. |
| ConsentLaws.RunGrows | src/services/consentReceiptStore.ts:69-219 | Over every run receipts are never dropped, replaced or revived, and none is added without new evidence. |
| ConsentLaws.DeniedStaysDenied | src/services/consentReceiptStore.ts:31-34 | Without new evidence a denied question stays denied, as time passes and receipts are revoked. |
| ConsentLaws.RunKeepsDistinct | src/services/consentReceiptStore.ts:69-112 | No two receipts share an id, nor a service and its evidence. |
| ConsentLaws.RevokedStaysRevoked | src/services/consentReceiptStore.ts:187-219 | A revoked receipt reads as revoked after every run. |
| ConsentLaws.SameEvidenceDoesNotRevive | src/services/consentReceiptStore.ts:69-88 | Presenting a revoked receipt's evidence again, after any run, changes nothing and returns it revoked. |
| AccessTokenRevocation.Store.Remember | src/security/serviceAccessToken.ts:76-81 | Exactly the trimmed, non-empty ids join the set. |
| AccessTokenRevocation.Store.RecordRevocation | src/services/serviceAccessTokenRevocationStore.ts:47-90 | A row is added, an existing one keeps its expiry, and the id joins the set. |
| AccessTokenRevocation.Store.LoadActiveRevocations | src/services/serviceAccessTokenRevocationStore.ts:120-131 | Exactly the ids of rows not yet expired join the set. |
| AccessTokenRevocation.Store.PruneExpiredRevocations | src/services/serviceAccessTokenRevocationStore.ts:133-140 | Exactly the rows that expired more than seven days ago are deleted. |
| AccessTokenRevocation.Store.Restart | src/services/serviceAccessTokenRevocationStore.ts:35-45 | A new process starts with an empty set, loads and then prunes. |
| AccessTokenRevocation.RevokedNeverVerifies | src/security/serviceAccessToken.ts:106-118 | A token revoked once never verifies again, over any number of restarts, loads and prunings. |
| AccessTokenRevocation.RunKeepsRows | src/services/serviceAccessTokenRevocationStore.ts:53-87 | A row's expiry is its token's, in every run in which ids are not shared. |
| AccessTokenRevocation.OnlyRevokedAreRefused | src/security/serviceAccessToken.ts:76-83 | An id that no call recorded is never in the set. |
| AccessTokenRevocation.RestartExactly | src/services/serviceAccessTokenRevocationStore.ts:120-141 | A restart refuses exactly the ids of unexpired rows, and keeps exactly the rows not more than seven days past their expiry. |
| AccessTokenRevocation.RowStaysIff | src/services/serviceAccessTokenRevocationStore.ts:133-141 | Over a run that does not record an id again its row stays if and only if no restart prunes more than seven days after its expiry. |
| AccessTokenRevocation.ReuseEndsFamily | src/server.ts:1886-1903 | After a consumed refresh token is presented again, no access token recorded for its family ever verifies again. |
| ReuseRace.RefusedIffHandedOver | src/server.ts:1884-1894 | A token nothing else is known against is accepted after the reuse, over any restarts, if and only if it has not expired and its claims were not among those handed over. |
| ReuseRace.MintAfterReuse | src/server.ts:1884-1938 | A refresh under way when its consumed token is presented again still mints; the token is admitted though its family is revoked. |
| RequestGuard.Cache.DeleteExpired | src/security/financialRequestGuard.ts:29-34 | Exactly the live entries stay, in order. |
| RequestGuard.Cache.DeleteOldest | src/security/financialRequestGuard.ts:36-40 | The newest entries stay, up to the capacity. |
| RequestGuard.Cache.PruneExpired | src/security/financialRequestGuard.ts:29-41 | Expired entries go first, then the oldest beyond the capacity. |
| RequestGuard.Cache.Set | src/security/financialRequestGuard.ts:71-84 | A known key keeps its place, a new one becomes the newest. |
| RequestGuard.AssertKeyUnused | src/security/financialRequestGuard.ts:64-71 | A cached key is refused, any other is cached with its deadline. |
| RequestGuard.AssertNonceNotReplayed | src/security/financialRequestGuard.ts:54-72 | The same for a subject and a nonce, after the checks of the nonce's length. |
| RequestGuard.AssertUnderLimit | src/security/financialRequestGuard.ts:80-90 | A missing or ended bucket opens anew, an open one counts up and refuses beyond the limit. |
| RequestGuard.AssertFinancialRateLimit | src/security/financialRequestGuard.ts:74-91 | The same for a subject; a limit or window that is not positive disables the check. |
| ReplayRuns.AcceptedNonceHeld | src/security/financialRequestGuard.ts:29-72 | After its acceptance a nonce stays cached until its deadline or at least `maxNonces` later acceptances. |
| ReplayRuns.ReplayNeedsEviction | src/server.ts:724-765 | With a nonce lifetime of at least twice the tolerance plus one second and a clock that does not go back, the same signed request is accepted again only after `maxNonces` other acceptances. |
| ReplayRuns.ReplayProtectedIff | src/security/financialRequestGuard.ts:43-72 | Every run is protected in this way if and only if the nonce lifetime is at least twice the tolerance plus one second. |
| ReplayRuns.ShortLifetimeForgets | src/config.ts:67-70 | With a shorter lifetime, a request sent at both ends of its window is accepted twice with no acceptance between. |
| ReplayRuns.CacheExplained | src/security/financialRequestGuard.ts:64-71 | Every cached nonce is that of an accepted request of the run. |
| ReplayRuns.ReplayedWasAccepted | src/security/financialRequestGuard.ts:54-72 | A nonce is called replayed only if a request with its key was accepted less than a lifetime before. |
| ReplayVerdicts.AcceptedIff | src/security/financialRequestGuard.ts:43-72 | In every run on a clock that does not go back a request is accepted if and only if timestamp, signature and nonce are in order, and no request with its key was accepted less than a lifetime before with fewer acceptances since than the cache holds. |
| ReplayVerdicts.VerdictMeans | src/security/financialRequestGuard.ts:43-72 | The same for each refusal, in their order. |
| ReplayVerdicts.SameKeyIff | src/security/financialRequestGuard.ts:59-69 | For nonces without a colon keys are shared exactly by the same subject and nonce, up to white space around them; no subject counts as anonymous. |
| ReplayVerdicts.ColonsMixUp | src/security/financialRequestGuard.ts:65-69 | Two subjects that share a key through a colon. |
| RateRuns.CheckLookup | src/security/financialRequestGuard.ts:74-91 | A check decides on its own key's live bucket alone, and leaves every other live bucket as it is. |
| RateRuns.RunKept | src/security/financialRequestGuard.ts:74-91 | In every run the bucket of a key counts exactly the acceptances in it, and buckets follow one another at least a window apart. |
| RateRuns.RateBound | src/security/financialRequestGuard.ts:74-91 | While no open bucket is evicted, a subject gets at most `maxRequests` acceptances per bucket, and at most twice as many in any half-open interval as long as the window. |
| RateCapacity.FewSubjects | src/security/financialRequestGuard.ts:29-41 | A run of at most `maxSubjects` subjects evicts no open bucket. |
| RateCapacity.InTurnUnlimited | src/security/financialRequestGuard.ts:36-40 | With one subject more, for every bound there is a run in which a subject gets more acceptances within one window. |
| RateCapacity.RateProtectedIff | src/security/financialRequestGuard.ts:74-91 | Both bounds hold in every run of at most n subjects if and only if n is at most `maxSubjects`. |
| JsonRoundTrip.PrintedTextParses | src/services/serviceWebhook.ts:6-15 | A parser after sections 4, 5 and 7 of RFC 8259 gives back every printed value, with all string escapes. |
| JsonRoundTrip.PrintInjective | src/services/serviceWebhook.ts:6-15 | Different JSON values have different texts. |
| JsonRoundTrip.Grammar | src/services/serviceWebhook.ts:6-15 | The signs, words and short escapes are those of RFC 8259. |
| CanonicalJson.OneOrder | src/services/serviceWebhook.ts:11-12 | Entries with given keys can be put in key order in one way only. |
| CanonicalJsonLaws.CanonicalIsPrinted | src/services/serviceWebhook.ts:6-15 | The recursive printers print the value's normal form: undefined fields dropped, undefined array entries null, keys sorted. |
| CanonicalJsonLaws.WebhookBodyParses | src/services/serviceWebhook.ts:6-15 | Parsing a webhook body gives back the payload in normal form. |
| CanonicalJsonLaws.OrderedIffSameContent | src/services/serviceWebhook.ts:11-12 | Ordering keys identifies exactly the values with the same content. |
| CanonicalJsonLaws.SameBodyIffSameContent | src/services/serviceWebhook.ts:6-15 | Two payloads have the same signed text if and only if they have the same content on the wire. |
| CanonicalJsonLaws.StringifiedTextParses | src/security/internalSigner.ts:3-13 | Stringifying and parsing a value gives back what the wire keeps of it. |
| CanonicalJsonLaws.SerializedAlikeAfterWire | src/security/internalSigner.ts:3-16 | A body received through JSON text, with its keys in any order, serializes as the sender's did. |
| InternalSigner.ScopeSignedIff | src/security/internalSigner.ts:89-92 | The scope check passes exactly when the required scope is one of the signed ones, up to surrounding white space. |
| InternalSigner.VerifyBuilt | src/security/internalSigner.ts:34-113 | For built headers and any received body, verification accepts exactly when worker, scopes, tolerance and code of authentication pass. |
| InternalSigner.SignedHeadersSurviveTheWire | src/security/internalSigner.ts:34-113 | For the body as received the code always passes, so that acceptance depends only on worker, scopes and tolerance. |
| InternalSigner.OnlyTheSignedBodyVerifies | src/security/internalSigner.ts:72-113 | If digests do not collide, an accepted body serializes as the signed one. |
| SparseJson.SparseInjective | src/security/internalSigner.ts:3-13 | The text without nulls fixes a value in which no array is one null alone, and the text after it. |
| SparseJson.SerializedAlikeIff | src/security/internalSigner.ts:3-13 | Two bodies serialize alike if and only if they have the same content on the wire up to key order, arrays of one null being taken as empty. |
| SparseJson.OneNullLooksEmpty | src/security/internalSigner.ts:6 | The two different contents that serialize alike. |
| InternalSigner.AcceptedBodiesIff | src/security/internalSigner.ts:34-113 | If digests do not collide, the receiver of built headers accepts a body if and only if worker, scopes and tolerance pass and the body has the content that was sent, arrays of one null being taken as empty. |
| SignatureBinding.AcceptedIff | src/security/internalSigner.ts:72-113 | Any headers are accepted if and only if all are there, the scope is signed, the time is within the tolerance, 300 seconds if none is given, and the code is that of what is read. |
| SignatureBinding.RefusedFor | src/security/internalSigner.ts:72-113 | Which error refused headers get. |
| SignatureBinding.OnlySignedPartsVerify | src/security/internalSigner.ts:34-113 | If digests do not collide and no part has a line break, an accepted code was made for the method, path, worker, scopes, time, nonce, request id and body that are read. |
| SignatureBinding.BuiltExactly | src/security/internalSigner.ts:34-65 | Exactly the headers a signer sets. |
| SignatureBinding.SeveralAreJoined | src/security/internalSigner.ts:67-70 | A header that came twice is read as one text with a comma between. |
| Base32.EncodeBase32 | src/services/portalAccessStore.ts:193-203 | The loop over given bytes writes the groups of five of their bits, the last one filled with zeros. |
| Base32.BitsToSymbols | src/services/portalAccessStore.ts:198-202 | The loop over the bits reads them in groups of five. |
| Base32.BitsToBytes | src/services/portalAccessStore.ts:186-189 | The loop keeps whole bytes and drops what is left over. |
| Base32.DecodeBase32 | src/services/portalAccessStore.ts:179-191 | Cleaning, symbols to bits, bits to bytes; or the error. |
| Base32.BitsRoundTrip | src/services/portalAccessStore.ts:179-203 | The symbols of any bits stand for those bits and at most four zeros. |
| Base32.RoundTrip | src/services/portalAccessStore.ts:179-203 | Decoding what was encoded gives back the bytes, for every number of bytes. |
| Base32.DecodeFailsIff | src/services/portalAccessStore.ts:179-187 | Decoding fails exactly when a character outside the alphabet is left after cleaning. |
| Base32.CaseIsIgnored | src/services/portalAccessStore.ts:180-181 | Letters in either case decode alike. |
| Base32.SpaceIsIgnored | src/services/portalAccessStore.ts:180-181 | White space anywhere makes no difference. |
| Base32.PaddingIsIgnored | src/services/portalAccessStore.ts:180-181 | Trailing `=` makes no difference. |
| Base32.SymbolsAreTheAlphabet | src/services/portalAccessStore.ts:180-194 | Each symbol is the character of the alphabet at its place, and the other way round. |
| PortalMfa.Account.RecordMfaFailure | src/services/portalAccessStore.ts:1417-1436 | The count goes up, and at the limit the account is locked anew. |
| PortalMfa.Account.ClearMfaFailures | src/services/portalAccessStore.ts:1438-1445 | Count and lock are cleared. |
| PortalMfa.Account.MatchTotp | src/services/portalAccessStore.ts:1447-1460 | The first of the previous, current and next counter whose code matches, unless already used. |
| PortalMfa.Account.VerifyTotp | src/services/portalAccessStore.ts:1355-1363 | A match is remembered as the last counter used. |
| PortalMfa.Account.LoginWithTotp | src/services/portalAccessStore.ts:258-298 | While locked nothing is checked; otherwise a wrong code is counted and a right one clears the count. |
| PortalMfa.MatchMeans | src/services/portalAccessStore.ts:1447-1460 | An accepted counter is within one step of the clock, above the last accepted, and its code is the six digits presented. |
| PortalMfa.AcceptedIff | src/services/portalAccessStore.ts:1447-1460 | A counter is accepted if and only if the code is six digits up to white space around them, it is the least counter within one step of the clock with the code, and it is above the last one accepted. |
| PortalMfa.DueCodeVerifies | src/services/portalAccessStore.ts:258-298 | On an account that is not locked the due code, not used before, verifies and clears the failures, unless the counter before had the same code and was used. |
| PortalMfa.WrongCodeLocks | src/services/portalAccessStore.ts:1417-1436 | A wrong code counts, and from the limit on locks the account, whatever is presented, for exactly the lock time. |
| PortalMfa.CountersIncrease | src/services/portalAccessStore.ts:1355-1363 | Over any codes and clock, accepted counters strictly increase: none is accepted twice (section 5.2 of RFC 6238). |
| PortalMfa.RejectionsSpaced | src/services/portalAccessStore.ts:1417-1436 | From the limit on, successive rejections are at least a lock apart. |
| PortalMfa.LockoutBound | src/services/portalAccessStore.ts:258-298 | From zero failures without success or reset, at most max(3, configured) plus floor(D / max(60, configured)) wrong codes are checked in any D seconds. |
| Slugs.NormalizeIsCanonical | src/services/consentReceiptStore.ts:26-27 | A normalised code has only lower-case letters, digits and single inner hyphens. |
| Slugs.NormalizeFixedIff | src/services/consentReceiptStore.ts:26-27 | Normalising leaves exactly the canonical codes alone. |
| Slugs.NormalizeIsWords | src/services/consentReceiptStore.ts:26-27 | A normalised code is the runs of letters and digits of the text in lower case, in order, joined by hyphens. |
| Slugs.SlugIsWords | src/services/developerPortalStore.ts:129-135 | A slug is that, cut at 48 characters; a text without letters and digits is called `service`. |
| Slugs.LowerLetters | src/services/consentReceiptStore.ts:26-27 | The letters and digits that a code is made of, and the capitals they come from. |
| Slugs.SlugFixedIff | src/services/developerPortalStore.ts:129-135 | Slugging leaves a code alone exactly when it is canonical, not empty and at most 48 long. |
| Slugs.CutSlugLosesItsHyphen | src/services/developerPortalStore.ts:129-135 | A slug that ends in a hyphen loses it when slugged again. |
| Slugs.IsSlugIff | src/services/developerPortalStore.ts:129-135 | Exactly the codes of 1 to 48 characters that are canonical, or of 48 characters and canonical but for a last hyphen, are slugs of some text. |
| Slugs.ChangedSlug | src/services/developerPortalStore.ts:129-135 | A slug that slugging changes has 48 characters and ends in a hyphen, which it loses, once and for all. |
| Slugs.CutSeedIsCut | src/services/developerPortalStore.ts:129-135 | A written-out name whose slug slugging changes. |
| ServiceCodes.NextServiceCode | src/services/developerPortalStore.ts:1261-1270 | The loop ends within one candidate more than there are services, with the first candidate that no service has. |
| PortalSteps.CandidatesNumbered | src/services/developerPortalStore.ts:1261-1270 | The candidates are the slug of the name, then the slug with a hyphen and a decimal number from 2 on. |
| ServiceCodes.AllTaken | src/services/developerPortalStore.ts:1261-1270 | The first k candidates are all taken only if there are k services. |
| ServiceCodes.NewCodeIsFree | src/services/developerPortalStore.ts:1261-1270 | No service has the allocated code. |
| ServiceCodes.CandidateFoundIff | src/services/developerPortalStore.ts:371-376 | A numbered candidate survives slugging exactly when the seed's slug does not end in a hyphen and all fits in 48 characters. |
| ServiceCodes.LookupFindsIff | src/services/developerPortalStore.ts:371-376 | Looking a service up by its code finds it if and only if slugging leaves the code alone. |
| ServiceCodes.OverlongNeverFound | src/services/developerPortalStore.ts:371-376 | A service with a code longer than 48 characters is found under no text. |
| DeveloperPortal.Store.SubmitApplication | src/services/developerPortalStore.ts:298-331 | The application is added first, awaiting review. |
| DeveloperPortal.Store.ApproveApplication | src/services/developerPortalStore.ts:421-481 | A service is made under a free code, with the requested scopes granted or pending; or the refusal. |
| DeveloperPortal.Store.SubmitScopeRequest | src/services/developerPortalStore.ts:535-571 | Scopes already granted or pending refuse the request; otherwise they become pending. |
| DeveloperPortal.Store.DecideScopeRequest | src/services/developerPortalStore.ts:573-612 | The request is settled and its scopes move on the service that its code finds. |
| DeveloperPortal.Store.UpdateServiceStatus | src/services/developerPortalStore.ts:614-638 | Only the status of the service changes. |
| DeveloperPortal.Store.IssueApiKey | src/services/developerPortalStore.ts:904-940 | The environment's active keys await cutover and a new active one is added; or the refusal. |
| DeveloperPortal.Store.EmergencyRotateApiKey | src/services/developerPortalStore.ts:942-995 | The same, with the previous keys revoked at once if asked for. |
| DeveloperPortal.Store.RequestApiKeyRotation | src/services/developerPortalStore.ts:832-856 | A rotation is requested and no key changes. |
| DeveloperPortal.Store.DecideApiKeyRotation | src/services/developerPortalStore.ts:858-902 | A completed rotation revokes the keys awaiting cutover. |
| DeveloperPortal.Store.RevokeApiKey | src/services/developerPortalStore.ts:997-1028 | One key of one service is revoked; or the refusal. |
| DeveloperPortal.Store.ResolveApiKey | src/services/developerPortalStore.ts:396-419 | The first usable key with the fingerprint, over active services in order. |
| PortalSteps.ApprovedOnce | src/services/developerPortalStore.ts:421-481 | An application is made a service once, first in the list, under the first free code of the operator's name or else the applicant's, with exactly its environments and its scopes granted or pending. |
| PortalSteps.RequestedIff | src/services/developerPortalStore.ts:535-571 | A request for scopes is taken exactly by a draft or active service with the environment that has none of them; and which refusal it gets otherwise. |
| PortalSteps.DecidedIff | src/services/developerPortalStore.ts:573-612 | A request is decided exactly if it is open and its code finds a draft or active service with its environment; and the refusals. |
| PortalSteps.IssuedIff | src/services/developerPortalStore.ts:904-940 | A key is issued exactly if the service is found and, for a live one, has the live environment ready. |
| PortalSteps.RotatedIff | src/services/developerPortalStore.ts:942-995 | An emergency rotation succeeds exactly if the service is found, asks for no environment, and adds one active key that does not expire. |
| PortalSteps.RotationsRecorded | src/services/developerPortalStore.ts:832-902 | A rotation is recorded as pending, and each decision writes its own status. |
| ScopeLifecycle.DecisionMovesExactly | src/services/developerPortalStore.ts:573-612 | Approving grants exactly the requested scopes, rejecting none, and exactly they stop being pending. |
| ScopeLifecycle.RunKeepsSound | src/services/developerPortalStore.ts:421-638 | In every run no service's granted and pending scopes repeat or overlap. |
| OpenRequests.RunKeepsDistinct | src/services/developerPortalStore.ts:421-638 | In every run, whatever the seeds, no two services have the same code. |
| OpenRequests.RunKeepsRequests | src/services/developerPortalStore.ts:535-612 | In every run whose approvals add no clashing service, open requests of a service are disjoint parts of its pending scopes. |
| OpenRequests.PlainSeedsKeepRequests | src/services/developerPortalStore.ts:421-612 | From the empty portal that holds of every run in which no seed's slug ends in a hyphen, however long the codes. |
| CodeClashes.RunKeepsUncontested | src/services/developerPortalStore.ts:535-612 | While no scope is contested, every possible step without approvals keeps open requests sound and no scope contested, wherever decisions land. |
| CodeClashes.ContestBreaks | src/services/developerPortalStore.ts:573-612 | From a contested scope some run without approvals, with new ids and permitted scopes only, takes that scope out of what is pending under an open request. |
| CodeClashes.SoundIffUncontested | src/services/developerPortalStore.ts:535-612 | Open requests stay sound in every possible continuation without approvals if and only if no two clashing services can both have an open request for one scope. |
| CodeClashes.SomeRunBreaks | src/services/developerPortalStore.ts:421-612 | A possible run from the empty portal, with written-out names and scopes of src/contracts/developerPortalContract.ts:26-41, after which an open request's scope is not pending. |
| OpenRequests.DecisionIsExact | src/services/developerPortalStore.ts:573-612 | If slugging leaves the code of the request's service alone, a decision settles its request and changes only that service, on which the request's scopes were pending. |
| OpenRequests.DecisionElsewhere | src/services/developerPortalStore.ts:371-376 | Where slugging changes the code and finds another service, the decision grants the scopes to that one, and the requester's stays as it is. |
| ScopeLifecycle.RunKeepsGrants | src/services/developerPortalStore.ts:421-638 | In every run granted scopes only grow. |
| KeyLifecycle.RunOneActive | src/services/developerPortalStore.ts:832-1028 | In every run each environment of a service has at most one active key. |
| KeyLifecycle.StepCounts | src/services/developerPortalStore.ts:832-1028 | Each operation adds at most the key it issues, and makes no revoked key live again. |
| KeyLifecycle.FingerprintsUnique | src/services/developerPortalStore.ts:904-995 | If secrets are fresh no fingerprint belongs to two keys. |
| KeyLifecycle.ResolvedIsUsable | src/services/developerPortalStore.ts:396-419 | What resolves is an unexpired, active or cutover key of an active service. |
| KeyLifecycle.DeadStaysDead | src/services/developerPortalStore.ts:858-1028 | A fingerprint whose keys are all revoked resolves in no later state. |
| KeyLifecycle.RevokedNeverResolves | src/services/developerPortalStore.ts:997-1028 | A key, once revoked, never resolves again. |
| KeyLifecycle.RunKeepsKeys | src/services/developerPortalStore.ts:832-1028 | In every run each service stays listed, and so do the fingerprints of all its keys, revoked ones included. |
| KeyResolution.ResolvesIff | src/services/developerPortalStore.ts:396-419 | A fingerprint resolves if and only if an active service has a key with it that is active or awaits cutover and has not expired. |
| KeyResolution.FirstServes | src/services/developerPortalStore.ts:396-419 | What resolves is the first such key of the first such service. |
| KeyResolution.StepKeepsKey | src/services/developerPortalStore.ts:832-1028 | Every call keeps every key in its place; another key for its environment has it await cutover or revokes it, a completed rotation revokes it if it awaits cutover, and so does its own revocation. |
| KeyResolution.RevokedIffEnded | src/services/developerPortalStore.ts:832-1028 | After a run a key is revoked if and only if it was before, or some call of the run ended it. |
| KeyResolution.ResolvesUntilEnded | src/services/developerPortalStore.ts:396-1028 | After any run with new secrets a key's fingerprint resolves to it exactly while its service is active, no call has ended it and it has not expired. |
| KeyResolution.IssuedAndReplacedServe | src/services/developerPortalStore.ts:904-940 | Right after a key is issued it resolves, and so do those it replaces that did before. |
| PaymentIntentStore.Store.GetIntent | src/services/paymentIntentStore.ts:94-98 | The intent if it exists and is the service's. |
| PaymentIntentStore.Store.CreateIntent | src/services/paymentIntentStore.ts:38-92 | A bound key, then a taken reference, answers with the intent held; otherwise one is made and both indexes are extended. |
| PaymentIntentStore.Store.Update | src/services/paymentIntentStore.ts:166-174 | The intent becomes the caller's copy with the patch. |
| PaymentIntentLaws.RunSound | src/services/paymentIntentStore.ts:38-174 | In every run both indexes point to intents of the same service, no intent changes id, service, reference, amount or currency, and no key is rebound. |
| PaymentIntentLaws.NewIntentHolds | src/services/paymentIntentStore.ts:61-92 | A new intent holds what it was asked for and awaits confirmation. |
| PaymentIntentLaws.UpdateChanges | src/services/paymentIntentStore.ts:118-174 | Each update changes its status and its record, and nothing else of the caller's copy. |
| PaymentIntentLaws.OnePerReference | src/services/paymentIntentStore.ts:57-59 | There is at most one intent for a service and a reference. |
| PaymentIntentLaws.CreateReturnsOwn | src/services/paymentIntentStore.ts:38-98 | A creation fails only by a fingerprint mismatch, then changing nothing, and returns a stored intent of its service. |
| PaymentIntentLaws.BoundKeyAnswers | src/services/paymentIntentStore.ts:38-55 | A key once bound answers, after every run, with its intent, or with a mismatch exactly when two fingerprints differ. |
| PaymentIntentLaws.ReferenceHitBindsNoKey | src/services/paymentIntentStore.ts:57-59 | A creation that finds its reference taken leaves its key unbound. |
| PaymentIntentLaws.SameUnlessBound | src/services/paymentIntentStore.ts:38-92 | The same creation, after any run that did not bind the key anew, returns the same intent and changes nothing. |
| PaymentIntentLaws.BoundNeverReturnsOld | src/services/paymentIntentStore.ts:38-55 | After a run that bound the key anew it never returns an intent from before. |
| PaymentIntentLaws.KeyTakesOver | src/services/paymentIntentStore.ts:57-92 | One more creation, with the same key and an unused reference, is such a run. |
| PaymentIntentLaws.IdempotentIff | src/services/paymentIntentStore.ts:38-92 | Repeating a creation returns the same intent after every possible run if and only if, at the first call, the trimmed key was empty, or bound, or the reference not taken. |
| SandboxSimulatorStore.Store.Reset | src/services/sandboxSimulatorStore.ts:75-79 | New accounts with the seed balances, and no transfers. |
| SandboxSimulatorStore.Store.GetAccount | src/services/sandboxSimulatorStore.ts:99-103 | The first account with the id. |
| SandboxSimulatorStore.Store.Check | src/services/sandboxSimulatorStore.ts:105-111 | The refusals, in their order. |
| SandboxSimulatorStore.Store.Move | src/services/sandboxSimulatorStore.ts:113-114 | Debit, then credit, each rounded, through objects that may be one and the same. |
| SandboxSimulatorStore.Store.CreateTransfer | src/services/sandboxSimulatorStore.ts:105-128 | The balances move and the transfer is put first; or the refusal, and nothing changes. |
| SandboxLedgerLaws.RoundedMoves | src/services/sandboxSimulatorStore.ts:148 | What half-up rounding makes of a whole-cent balance less or plus any amount. |
| SandboxLedgerLaws.CarriedOutIff | src/services/sandboxSimulatorStore.ts:105-128 | A transfer is carried out if and only if its amount is a positive number, both accounts exist in its currency and the amount is covered; the record tells the balances after it; and the refusals. |
| SandboxLedgerLaws.MovedRows | src/services/sandboxSimulatorStore.ts:113-114 | Each balance moves by the amount, rounded; on one account the debit comes first; no other row changes. |
| SandboxLedgerLaws.MovedSound | src/services/sandboxSimulatorStore.ts:111-114 | Balances stay whole, non-negative cents, self-transfers included. |
| SandboxLedgerLaws.MovedTotal | src/services/sandboxSimulatorStore.ts:113-114 | A transfer changes its currency's total by one cent if its amount has half a cent, and not at all otherwise. |
| SandboxLedgerLaws.RunKeepsAccount | src/services/sandboxSimulatorStore.ts:105-128 | In every run balances are sound, replaying the transfers oldest first from the seed gives them back, and each total is the seed's plus one cent for each half-cent transfer. |
| SandboxLedgerLaws.ConservedIff | src/services/sandboxSimulatorStore.ts:81-94 | From the seed a currency's total is conserved if and only if none of its transfers had half a cent. |
| SandboxLedgerLaws.SeedTotal | src/services/sandboxSimulatorStore.ts:32-69 | The ledger opens with 2,500,000 shillings on four accounts. |

## Left out

- HTTP routing, pages, redirects, audit and alert sinks, e-mail and the WebSocket hub: input and output only.
- SQL text, connection pools, schema creation and full-state persistence: tables are maps, and one transaction is one step.
- Cryptography, identity-provider verification, DPoP and key checks: arbitrary functions, or a boolean parameter where only their result matters.
- Provider adapters, webhook delivery, the core client and domain proofs: network clients.
- The input schemas: statements hold without the limits these put on lengths and alphabets.
- Client state, nonce and upstream verifier of an authorization request: carried along, and never decided on.
- `getForConsent`, `findByEvidenceHash` and `exportAudit`: queries that repeat conditions modelled elsewhere.
- The consent list in SQL mode for a service code that normalises to nothing: the memory form's filter is modelled.
- Webhook secrets, allowlists and domain verification of the portal: `liveReady` is a parameter of key issuing.
- `rejectApplication` and `provisionServiceCredentials`: the one only settles an application, the other issues a key as modelled.
- The memory mode of the revocation store: it only adds to the set, and nothing survives a restart.
- `list` and `getById` of payment intents, webhook events of the sandbox: queries.
- Storage of recovery codes: a wrong one counts as a failure like a wrong one-time code.
- Floating point: money and timestamps are exact reals. Locale collation: any strict total order on keys.
- Case folding outside ASCII: only where it can yield a character of the base32 alphabet.
- DeveloperPortal.Store.IssueApiKey: readiness of the live domains is the parameter `liveReady`, since domain records and webhook secrets are not part of this model.
- RefreshTokenStore.MemoryStore.RevokeBySubject: states which claims are returned, not their order and repetition, since they depend on the order of a map.
- RefreshTokenStore.SqlStore.RevokeBySubject: states which claims are returned, not their order, since it is the order of rows.
- Lost updates between awaits inside one handler, except in the authorization flow, whose store calls interleave.
- The SQL form of refresh tokens inside the authorization flow: it uses the memory form, which the SQL form follows.
- The choice of revocation after a failed refresh: revocations of refresh tokens are free steps of the flow, possible at any time.
