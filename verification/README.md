# Savia, verified

Models, in Dafny, of the parts of Savia where correctness is hard to see from one function at a time, with proofs
of what those parts are for. `dafny verify dfyconfig.toml` checks the whole project.

Three kinds of code are modelled.

**Codecs and printers.** The captured audio preview parses Ogg pages, joins packets across pages, checks a
table-driven CRC-32 and rewrites pages in place into a chained stream (RFC 3533, RFC 7845, RFC 6716). The loops
with their counters and buffers are in `OggValidator` and `PreviewAudio`. Each is proved against a scan over pages
(`OggPage`, `OggStream`), the scan against a definition that speaks only of whole pages and whole packets
(`OggMeaning`), and rewriting a stream is proved to give an accepted stream with the same packets (`OggRelink`).
`Crc` proves the table-driven checksum equal to long division by the polynomial 0x04c11db7 over single bits.
`CanonicalJson` and `Smtp` do the same for the canonical printer of the plugin rollout and for dot-stuffing and
replies over SMTP.

**Protocols without transactions.** Sign-ins race settings changes (`SessionPolicy`), a saga leaves a recovery row
ahead of a user (`FederatedSaga`), conditional updates serve as locks (`EmailProof`, `EmailRegistration`), counters
and names are claimed by unique keys (`MailBudget`, `TenantSlugs`). Every read and every write of a table is one
step, the runs are all interleavings, a crash is a participant that takes no more steps, and the theorems are
about every run.

**Objects driven by promises.** Connection pools with leases (`ConnectionPools`), the preview player
(`PreviewSchedule`, `PreviewPlayer`) and the plugin rollout over tenants (`Rollout`). The stretch between two
awaits is one step. Each has a state machine on values, where runs are reasoned about, and a class with the
program's own fields, each of whose methods is proved to be a step of the machine.

## What turned out not to hold

Where a property is false of the code the model keeps the code, a lemma shows it fail, and another says exactly
when it holds.

- Deleting a SAML connection, or the social settings, revokes sessions before it removes the row. What switches the
  row on again in between lets a sign-in in, and its session survives the removal: a PUT that comes later
  (`SessionPolicy.StaleSessionHappens`), a PUT that was already between its two writes
  (`SessionPolicy.LateOvertaking`), an activation of the tenant (`SessionPolicy.StaleSocialSessionHappens`). A PUT that
  finds its row removed ends without revoking, and that strands a session too (`SessionPolicy.StaleSessionByLostPut`).
  In every run, at every moment at which no request owes a revocation, a session is stale if and only if it stands on
  a row whose revocation was lost in one of these ways and nothing has revoked since (`SessionPolicy.StaleIff`); where
  nothing overtakes a DELETE there is none (`SessionPolicy.NoStaleSession`). In any state, the removal strands a
  session if and only if the row is there and switched on and a session stands on it whose sign-in has passed the
  check of the row, accepted or about to be (`SessionPolicy.RemovalStepStrandsIff`,
  `SessionPolicy.StrandedBecomesStale`); while other requests stand still, a sign-in can get there first if and only
  if the row would accept one (`SessionPolicy.RemovalStrandsIff`, `SessionPolicy.SocialRemovalStrandsIff`).
- Two registration settings requests that overlap can bring back a revision that had been switched off
  (`EmailRegistration.OverlapBringsItBack`). In every run a revision comes back if and only if a request that read it
  while it was in force writes it later (`EmailRegistration.ComesBackIff`, `EmailRegistration.UninterruptedIff`);
  requests taken one at a time never do (`EmailRegistration.EnabledWithoutInterruption`).
- A cleanup that has read the row of an attempt deletes by the id alone. When the attempt has been started again
  meanwhile, the delete takes the new row, and an unverified user gets a session although every owner was in time
  (`EmailRegistration.RestartUnderCleanup`). In every run all unfinished users are guarded if and only if no step makes
  one without its guard or takes the guard from one (`EmailRegistration.GuardedRunIff`), and from each such step a
  session is at most three steps away (`EmailRegistration.UnguardsGetsSession`).
- A federated handler that makes its user after another verification has swept its recovery row leaves the user
  unguarded (`FederatedSaga.SweptBeforeCreation`). In every run all users of the saga are guarded if and only if each
  was made while its row was there (`FederatedSaga.GuardedRunIff`).
- Preflight marks a target for update that publishing then refuses, for instance when the version has not changed
  but the archive has (`Rollout.PlannedYetRefused`; `Rollout.PlannedPublishes` says exactly when it is accepted). A
  tenant that already stores the new version with the same content from another archive is left at the new version by
  a rollback (`Rollout.TwinIsStranded`, and `Rollout.TwinStrands` for every such plan); without such twins every plan
  can be undone, and only then (`Rollout.RollbackRestoresIff`). A rollback that is repeated skips a place it had
  restored when its artifact's manifest is not the one recorded as installed (`Rollout.RollbackTwiceIsOnce`).
- Chunks of one source may overlap by a millisecond, and then the mix can be louder than full scale: twice for one
  source (`PreviewSchedule.ToleratedOverlap`), one and a half times with both (`PreviewSchedule.ToleratedMixedOverlap`).
  It stays within full scale if and only if no more chunks than one, or two with both sources, meet at any chunk's
  start (`PreviewSchedule.TooLoudIff`, and `PreviewSchedule.OneSourceTooLoudIff` in terms of overlaps).
- A verification mail is claimed without looking at the address again: when the address is changed between the read and
  the claim of a send, the token that goes to the old address proves the new one (`EmailProof.OldAddressProves`). A
  consumed token was mailed to the address it proves if and only if that address was still the one its sender had read
  when the mail was claimed (`EmailProof.AddressIsProvenIff`).
- A long name can be its own second candidate (`TenantSlugs.LongNameRepeats`), which costs an attempt; exactly when is
  `TenantSlugs.FirstCandidateDiffersIff`.
- A dot right after U+2028 or U+2029 is doubled by the sender and not undoubled by the receiver
  (`Smtp.LineRoundTripIff`).

## Model

| member | source | states |
|---|---|---|
| Crc.BuildCrcTable | apps/companion/src/preview-audio.ts:6-11 | the table holds for every byte its register shifted eight times |
| Crc.PageChecksum | apps/companion/src/preview-audio.ts:15-22 | the loop computes the checksum of the page with its checksum field taken as zeros |
| Crc.TableStepIsEightShifts | apps/companion/src/preview-audio.ts:19 | one table look-up is eight single-bit shifts of the register, with the byte fed in at the top |
| Crc.ChecksumIgnoresItsField | apps/companion/src/preview-audio.ts:18 | two pages that differ only in bytes 22 to 25 have one checksum |
| Crc.ChecksumIsRemainder | apps/companion/src/preview-audio.ts:15-22 | on a page of any length the checksum is the remainder of the page's bits, with 32 zeros appended, divided by 0x04c11db7 over GF(2) |
| OggPage.ParseEncode | apps/companion/src/preview-audio.ts:62-97 | bytes parse as these pages if and only if they are the pages' encodings joined: round trip in both directions |
| OpusPacket.FrameSamplesTable | apps/companion/src/preview-audio.ts:26-34 | the shifts give the frame size of every configuration in the table of section 3.1 of RFC 6716 |
| OpusPacket.PacketFramesMeaning | apps/companion/src/preview-audio.ts:24-40 | a packet has a sample count exactly when its frame count is 1 to 48 and it lasts at most 120 ms, and then it is frames times frame size |
| OpusPacket.FirstByteMeaning | apps/companion/src/preview-audio.ts:24-40 | the first byte is five bits of configuration, one of stereo and two of code, and a packet of code 3 has its frame count in the low six bits of the second byte |
| OpusPacket.HeadMeaning | apps/companion/src/preview-audio.ts:118-128 | a head is accepted, with this pre-skip, exactly when it is the identification header of section 5.1 of RFC 7845 for one channel and that pre-skip of at most 80 ms, written field by field |
| OpusPacket.TagsMeaning | apps/companion/src/preview-audio.ts:130-146 | the loop over comments accepts exactly the packets that are a vendor string, a count and that many prefixed comments, within the limits |
| OggMeaning.CutFromIsCut | apps/companion/src/preview-audio.ts:101-116 | cutting one lacing value at a time, with a packet already begun, is cutting the joined bodies at values below 255 |
| OggMeaning.TakeLacesIs | apps/companion/src/preview-audio.ts:101-154 | the scan of one page's laces accepts exactly the packets the page completes, each checked in its place, and refuses when one outgrows the limit |
| OggMeaning.AcceptPacketsIs | apps/companion/src/preview-audio.ts:118-153 | checking packets in order succeeds exactly when the whole list is a header, tags and audio within the time limit, and the counters are totals over that list |
| OggMeaning.RunIs | apps/companion/src/preview-audio.ts:62-183 | scanning pages succeeds exactly when each page fits its place, and the scan's counters are functions of the pages |
| OggMeaning.AcceptsIff | apps/companion/src/preview-audio.ts:43-192 | the bytes are accepted if and only if their length is allowed and they encode a well-formed stream of pages, well-formedness being said of pages and packets without counters |
| OggMeaning.AcceptedStreamTiming | apps/companion/src/preview-audio.ts:156-191 | in an accepted stream granules never decrease nor pass the samples so far, the end lies in the last packet, only the last page ends the stream, and the playable length is above 0 and at most 60 s |
| OggRelink.RelinkWellFormed | apps/companion/src/preview-audio.ts:218-225 | a new serial keeps a stream well formed |
| OggRelink.RemuxIsAccepted | apps/companion/src/preview-audio.ts:194-230 | the rewritten link is accepted again, has the same length and carries exactly the same packets under the new serial |
| OggValidator.Assemble | apps/companion/src/preview-audio.ts:108-113 | the buffer filled fragment by fragment is the packet joined |
| OggValidator.CommentsWithin | apps/companion/src/preview-audio.ts:141-146 | the loop with its offset answers whether the comments fit the packet |
| OggValidator.CheckPacket | apps/companion/src/preview-audio.ts:118-152 | the branches on a packet update the counters as the scan does, or refuse |
| OggValidator.ReadLaces | apps/companion/src/preview-audio.ts:101-154 | the loop over lacing values, with fragments kept apart, is the scan of the page's laces |
| OggValidator.ReadPage | apps/companion/src/preview-audio.ts:63-97 | the in-place reads give the page that starts at the offset, or refuse exactly when none does |
| OggValidator.ValidateOggOpus | apps/companion/src/preview-audio.ts:43-192 | the outer loop with all its variables accepts exactly the accepted streams, on any byte sequence, and ends |
| PreviewAudio.PatchedSerial | apps/companion/src/preview-audio.ts:219 | overwriting four bytes at 14 changes the serial of the page and nothing else |
| PreviewAudio.WritePage | apps/companion/src/preview-audio.ts:218-225 | copying a page and patching serial and checksum in place leaves the encoding of the page with the new serial there, and the rest of the buffer untouched |
| PreviewAudio.CopyPages | apps/companion/src/preview-audio.ts:206-228 | the loop writes the relinked stream after what was there, and fails exactly when there is no room |
| PreviewAudio.AppendOggOpusLink | apps/companion/src/preview-audio.ts:194-230 | a segment that is accepted and fits is written as its link; an invalid one, or one without room, is refused with its own error |
| PreviewAudio.CheckManifest | apps/companion/src/preview-audio.ts:240-260 | the manifest loop returns the sum of the sizes exactly for manifests numbered in order within all limits, and otherwise the error the code throws first |
| PreviewAudio.ReadSegment | apps/companion/src/preview-audio.ts:264-287 | a reply is decoded to exactly the announced number of bytes, or refused with the matching error |
| Base64.DecodeEncode | apps/companion/src/preview-audio.ts:264-279 | every byte string has a text in the alphabet of RFC 4648, with both padded tails, which is accepted and decodes to it |
| Base64.EncodeDecode | apps/companion/src/preview-audio.ts:264-279 | every accepted text is the text of the bytes it decodes to, but for the bits of a padded group that belong to no byte |
| PreviewAudio.SegmentIff | apps/companion/src/preview-audio.ts:264-287 | a reply holds a segment exactly when it is Ogg, of the announced size, and its text is the segment's but for those bits |
| PreviewAudio.LoadPreviewAudio | apps/companion/src/preview-audio.ts:236-298 | the whole loader returns the specified recording or the first error, and with a checked manifest never fails for the size of its output |
| PreviewAudio.SizeGuardsNeverFire | apps/companion/src/preview-audio.ts:214-297 | the links of a checked manifest add up to exactly the announced total, so the loader's two size guards have nothing to refuse |
| PreviewAudio.RecordingIsChain | apps/companion/src/preview-audio.ts:262-297 | what is returned parses into the pages of one accepted link per chunk, in order, with serials 1 to n and the packets of each segment, and its length is the sum of the sizes |
| PreviewAudio.CapturedIsLoaded | apps/companion/src/preview-audio.ts:236-298 | when the replies are the texts of accepted segments of the announced sizes, the recording is loaded and is the chain of exactly those segments |
| ConnectionPools.ApplyInv | apps/db-bridge/src/connection-pools.ts:18-70 | every step of uses, evictions, failures, disposals and close keeps the invariant |
| ConnectionPools.RunsAreSafe | apps/db-bridge/src/connection-pools.ts:18-70 | in every run the map holds at most the limit and the pools track at most twice it, nothing leased or still in the map was disposed or has a closing queued, nothing is disposed twice, and what the map has lost is retired and leased or closing |
| ConnectionPools.UsesAreSafe | apps/db-bridge/src/connection-pools.ts:29-63 | in every run of uses by name, the entry of a use under way is tracked, has the key it asked for, is not disposed and has no closing queued; an entry is leased as often as uses of it are under way; and only an unused entry can be disposed or forgotten next |
| ConnectionPools.UseIsGiven | apps/db-bridge/src/connection-pools.ts:29-57 | a use is refused exactly when stopping or, without an entry of its key, busy; it is given the entry the map has for its key or else a new one, and only a full map loses an entry for that, the one made first |
| ConnectionPools.DisposeNeedsNoLease | apps/db-bridge/src/connection-pools.ts:20-26 | a disposal begins only on a created resource that nobody leases and that was not disposed before |
| ConnectionPools.NothingLeaks | apps/db-bridge/src/connection-pools.ts:18-28 | in any run an entry is forgotten only when its resource has been disposed or never came to be |
| ConnectionPools.ClosedPoolsDrain | apps/db-bridge/src/connection-pools.ts:65-69 | after close, while anything is tracked some pending step is possible, each such step brings the end nearer, and at the end nothing is left |
| ConnectionPools.StoppedForGood | apps/db-bridge/src/connection-pools.ts:65-69 | close stops the pools for good: the map stays empty and no use begins any more |
| ConnectionPools.ConnectionPools.BeginUse | apps/db-bridge/src/connection-pools.ts:29-57 | the method is the step: stopping, busy, joining, or making an entry after evicting the oldest |
| ConnectionPools.ConnectionPools.Retire | apps/db-bridge/src/connection-pools.ts:18-28 | the method retires the entry and closes it when nobody leases it, once |
| ConnectionPools.ConnectionPools.EndUse | apps/db-bridge/src/connection-pools.ts:60-63 | the method gives a lease back and closes a retired entry with the last one |
| ConnectionPools.ConnectionPools.OnFailure | apps/db-bridge/src/connection-pools.ts:52-55 | the method forgets the entry only if the map still has it, and retires it |
| ConnectionPools.ConnectionPools.Close | apps/db-bridge/src/connection-pools.ts:65-69 | the method stops the pools, empties the map and retires every tracked entry |
| SessionPolicy.ApplyInv | apps/auth/src/tenant-sso.ts:340-447 | while no write waits for its revocation, every session stands by the checks its sign-in has passed since the insert |
| SessionPolicy.SecondLookDecides | apps/auth/src/tenant-sso.ts:389-447 | a sign-in whose check fails after the insert is refused with its next step and its session deleted; one that passes them all is accepted with it |
| SessionPolicy.RefusedHaveNoSession | apps/auth/src/tenant-sso.ts:389-447 | in every run a sign-in that is refused, or not yet inserted, has no session |
| SessionPolicy.ApplyOrderly | apps/auth/src/tenant-sso.ts:569-703 | with no overtaking of a DELETE, every write that made the policy stricter is still going to be followed by a revocation |
| SessionPolicy.NoStaleSession | apps/auth/src/social-sign-in.ts:437-623 | in every interleaving of SAML, social, password and delayed sign-ins with settings requests and deactivation in which nothing switches on what a DELETE has switched off, once the requests are done every accepted session would be issued under the current policy |
| SessionPolicy.SsoPutInForce | apps/auth/src/tenant-sso.ts:636-703 | in every run, from the write of a SAML PUT that found its row to the next write: passwords are accepted exactly when single sign-on is not required, social sign-ins as before but never when it is, and SAML sign-ins exactly when asked to be enabled for an active tenant, under a new revision, over a new provider when rotated and else the one the request read |
| SessionPolicy.SsoOffInForce | apps/auth/src/tenant-sso.ts:600-617 | in every run, from the first write of a PUT or DELETE, and from a removal, to the next write no SAML sign-in is accepted |
| SessionPolicy.SocialInForce | apps/auth/src/social-sign-in.ts:735-806 | in every run, from the write of a request of the social settings to the next write exactly the providers asked for are accepted, under a new revision, unless the tenant is inactive or must use single sign-on |
| SessionPolicy.ActivityInForce | apps/auth/src/tenant-sso.ts:568-594 | in every run, from a deactivation of the tenant to the next write no SAML and no social sign-in is accepted, and from an activation those of an enabled connection and the allowed providers |
| SessionPolicy.StaleIff | apps/auth/src/tenant-sso.ts:569-703 | in every run, whatever overtakes whatever, while nobody owes a revocation an accepted session is stale if and only if it stands on the connection or the social settings and, since the last revocation, a DELETE removed that row while it was switched on or a PUT that had switched the connection off found its row gone |
| SessionPolicy.DoneOwesNothing | apps/auth/src/tenant-sso.ts:600-703 | when all requests have finished nobody owes a revocation, so the above holds then |
| SessionPolicy.RemovalStepStrandsIff | apps/auth/src/tenant-sso.ts:602-618 | in any state the removal by a SAML or a social DELETE strands a session if and only if the row is there and switched on for an active tenant and a session stands on it whose sign-in has passed the check of the row since its insert |
| SessionPolicy.StrandedBecomesStale | apps/auth/src/tenant-sso.ts:602-618 | such a session is accepted, and stale, by the steps of its own sign-in |
| SessionPolicy.RemovalStrandsIff | apps/auth/src/tenant-sso.ts:602-620 | while the other requests stand still, sign-ins and the removal of a connection can leave a stale session if and only if the connection would accept a sign-in |
| SessionPolicy.SocialRemovalStrandsIff | apps/auth/src/social-sign-in.ts:750-764 | the same for the removal of social settings |
| SessionPolicy.StaleSessionHappens | apps/auth/src/tenant-sso.ts:602-703 | a run of ordinary requests from the start that ends with a stale session |
| SessionPolicy.LateOvertaking | apps/auth/src/tenant-sso.ts:679-701 | a run from the start in which the connection is off when the DELETE comes to its removal, and a PUT between its two writes overtakes it all the same |
| SessionPolicy.StaleSocialSessionHappens | apps/auth/src/social-sign-in.ts:750-764 | a run from the start that leaves a stale session of a social sign-in |
| SessionPolicy.StaleSessionByLostPut | apps/auth/src/tenant-sso.ts:691-702 | a run from the start in which a PUT finds its row removed and leaves a stale session |
| FederatedSaga.HandlerKeepsInv | apps/auth/src/microsoft-email-verification.ts:573-806 | every statement of a handler, under any interleaving, keeps: users of the saga guarded or bound as proven, rows and bindings those of their verification |
| FederatedSaga.UnfinishedUsersAreRefused | apps/auth/src/index.ts:352-365 | after any interleaving and any crashes a saga user whose verified identity is not bound is refused by the session hook, and every session it ever got came after the binding |
| FederatedSaga.RefusedIff | apps/auth/src/microsoft-email-verification.ts:594-802 | exactly when each step of a verification refuses, told by the fields of the account and of the rows: a banned account, an administrator's or another tenant's is refused; and a step that refuses writes neither users nor bindings |
| FederatedSaga.RefusedForGood | apps/auth/src/microsoft-email-verification.ts:573-806 | a verification that has refused takes no more steps |
| FederatedSaga.OwnTablesOnly | apps/auth/src/microsoft-email-verification.ts:579-648 | a verification touches only its own provider's tables, and sweeps only recovery rows past twenty minutes without a user |
| FederatedSaga.BindingsAreOwnAccounts | apps/auth/src/microsoft-email-verification.ts:753-790 | in every run a binding is added only for an account its handler saw on its last look to have the proven address and tenant, neither banned nor an administrator's, with its address verified, and after the policy had allowed the provider |
| FederatedSaga.UsersAreRegistered | apps/auth/src/microsoft-email-verification.ts:689-715 | in every run a user is made only after the policy had allowed registration, with the proven address and tenant and no elevated role |
| FederatedSaga.ProvenIsOwnAccount | apps/auth/src/microsoft-email-verification.ts:197-233 | a bound subject is an account exactly while the account it is bound to is verified, of the bound tenant and address, not banned and no administrator's |
| FederatedSaga.BindingsNeverChange | apps/auth/src/microsoft-email-verification.ts:776-787 | a binding once written keeps its user, tenant and address in every later state |
| FederatedSaga.ProvenIdentityIsStable | apps/auth/src/microsoft-email-verification.ts:197-233 | at any two moments a provider subject resolves to the same account, tenant and address |
| FederatedSaga.CrashedRegistrationCompletes | apps/auth/src/microsoft-email-verification.ts:649-679 | from any reachable state with an unfinished user, one more undisturbed verification of the same identity binds it and lifts the guard |
| FederatedSaga.GuardedRunIff | apps/auth/src/microsoft-email-verification.ts:644-715 | in every run all users of the saga are bound or refused all the time if and only if each is made while its recovery row is there |
| FederatedSaga.GuardedIffRowPresent | apps/auth/src/microsoft-email-verification.ts:644-715 | from any such state, a user being made gets a session at once, without a binding, if and only if its recovery row has been swept |
| FederatedSaga.SweptBeforeCreation | apps/auth/src/microsoft-email-verification.ts:644-715 | a run from the start in which the sweep of a second verification comes before a slow handler's user, and the user gets a session |
| EmailProof.IntentsAreProper | apps/auth/src/pending-email-verification.ts:143-217 | in every run an intent sends at most five mails, a minute apart by any callers' clocks, each with its own token, and is consumed at most once, by the token of its latest mail |
| EmailProof.ConsumesIff | apps/auth/src/pending-email-verification.ts:143-217 | in every run a token consumes its intent if and only if its mail was claimed within the last fifteen minutes, the intent has not expired, and no other mail, new address, failed delivery of its own, use or cleanup came since |
| EmailProof.AddressIsProvenIff | apps/auth/src/pending-email-verification.ts:148-170 | in every run the token that consumes an intent was mailed to the intent's address if and only if the address its sender had read was still the intent's when the mail was claimed |
| EmailProof.OldAddressProves | apps/auth/src/pending-email-verification.ts:148-170 | a run from the start in which a token mailed to the old address consumes the intent of the new one |
| EmailProof.ConsumedIsFinal | apps/auth/src/pending-email-verification.ts:197-217 | a consumed intent never takes another mail, token or address |
| EmailProof.FailureRevokesItsOwn | apps/auth/src/pending-email-verification.ts:186-195 | a failed delivery clears its own token only, so a newer mail stays good |
| MailBudget.Budgets.Limit | apps/auth/src/pending-email-verification.ts:253-262 | the loop charges budgets in order and stops at the first that is exceeded |
| MailBudget.RequestIsRun | apps/auth/src/pending-email-verification.ts:253-262 | a request is a run of single charges, let through if and only if all of them pass |
| MailBudget.BudgetsHold | apps/auth/src/pending-email-verification.ts:231-268 | in every run of charges and sweeps a budget passes at most its maximum in a clock hour and at most twice that in any 60 minutes |
| MailBudget.LetThroughIff | apps/auth/src/pending-email-verification.ts:253-262 | after every run a charge is let through exactly when fewer than the maximum of its budget were let through in this hour of the clock |
| MailBudget.SweepSparesTheHour | apps/auth/src/pending-email-verification.ts:264-268 | no sweep deletes a counter of the current hour |
| EmailRegistration.GuardedRunIff | apps/auth/src/email-registration.ts:113-343 | in every run every unfinished user is guarded by its row all the time, and no session comes before completion, if and only if no step makes a user without its guard, deletes the row of one, or marks it as another's |
| EmailRegistration.UnguardsGetsSession | apps/auth/src/email-registration.ts:350-362 | after each such step a session of an unfinished user is at most three steps away, whatever else is under way |
| EmailRegistration.RegistrationIsGuarded | apps/auth/src/email-registration.ts:224-343 | with owners in time and no restart of an attempt under an unfinished cleanup or sign-in of it, at every moment an attempt has at most one owner, its user is guarded until completed, no session is issued before that, and none of those steps is taken |
| EmailRegistration.RestartUnderCleanup | apps/auth/src/email-registration.ts:134-170 | a run from the start with every owner in time in which a cleanup deletes the row of the restarted attempt, and the unverified user gets a session |
| EmailRegistration.AdmissionUnderPolicy | apps/auth/src/email-registration.ts:350-428 | completion is recorded only by a sign-in that found the policy in force under the attempt's revision, and with that revision |
| EmailRegistration.AdmittedIsVerified | apps/auth/src/email-registration.ts:350-395 | in every run a sign-in is admitted only after it has found its user's row sent, or verified while pending, with the revision it checks, and the user verified and unedited |
| EmailRegistration.OwnersHaveClaimed | apps/auth/src/email-registration.ts:229-274 | in every run a handler owns its attempt only after it has inserted the row of an attempt without one, or has found a row of the very same input, failed or expired but in time, and claimed it failed |
| EmailRegistration.OnlyOwnUsersGo | apps/auth/src/email-registration.ts:113-133 | the service removes only a user that is unverified, unedited and was never signed in, and only as the attempt's own |
| EmailRegistration.RowMoves | apps/auth/src/email-registration.ts:134-428 | the life of a row: exactly which step inserts it, moves it from which status to which, and deletes it; nothing but its status ever changes |
| EmailRegistration.CleanupDecides | apps/auth/src/email-registration.ts:134-170 | what a cleanup makes of a row it has read, undisturbed: which rows and users go, and which rows stay as a guard that is open or shut |
| EmailRegistration.RegistrationCompletes | apps/auth/src/email-registration.ts:224-428 | wherever registration is enabled a new attempt that nobody disturbs can be started, mailed, verified and signed in, and ends completed under its revision |
| EmailRegistration.AttemptNeverInterrupted | apps/auth/src/email-registration.ts:80-95 | in every such run, before any session of a user nobody edited, a sign-in of that user was admitted, and registration was enabled under the attempt's revision at every moment from every start request of the attempt that passed its policy check under it, of which there is one, to the admission |
| EmailRegistration.RevivedIff | apps/auth/src/tenant-registration-settings.ts:194-198 | in any step a used revision that is not in force comes into force if and only if a request that read it writes it again |
| EmailRegistration.ComesBackIff | apps/auth/src/tenant-registration-settings.ts:138-215 | in every run, requests overlapping as they like, an interrupted revision is in force later if and only if such a write happens |
| EmailRegistration.UninterruptedIff | apps/auth/src/tenant-registration-settings.ts:138-215 | in every run a revision in force at two moments was in force all the time between if and only if no such write happened between |
| EmailRegistration.EnabledWithoutInterruption | apps/auth/src/tenant-registration-settings.ts:194-198 | settings requests taken one at a time: enabled under one revision at two moments means enabled under it all the time between |
| EmailRegistration.OverlapBringsItBack | apps/auth/src/tenant-registration-settings.ts:138-215 | wherever registration is enabled, two overlapping requests can interrupt its revision and bring it back |
| PreviewSchedule.ValidateChunks | apps/companion/src/preview-player.ts:111-144 | the loop with its two records accepts exactly the manifests, and returns the end of the chunk that ends last |
| PreviewSchedule.BuildPreviewSchedule | apps/companion/src/preview-player.ts:147-180 | the schedule of a window; a bad window or manifest is invalid, and only a good window on no chunks at all is reported as nothing captured |
| PreviewSchedule.PieceIsClip | apps/companion/src/preview-player.ts:163-179 | a schedule holds for every chunk its clipped piece, once, and nothing else |
| PreviewSchedule.GainMeans | apps/companion/src/preview-player.ts:160-176 | every piece of a recording of one source plays at full gain, and of both at half |
| PreviewSchedule.WindowsCompose | apps/companion/src/preview-player.ts:147-180 | the schedules of two windows that meet join, chunk by chunk, into that of the whole: adjacent on the timeline and in the source, durations adding up, same gain |
| PreviewSchedule.EveryChunkPlaysOnce | apps/companion/src/preview-player.ts:147-180 | however the timeline is cut into windows, what is played of a chunk adds up to all of it |
| PreviewSchedule.EveryInstantPlaysOnce | apps/companion/src/preview-player.ts:147-180 | and each instant of the chunk is sounded by exactly one window, at the place that instant has in the chunk, and no other instant by any |
| PreviewSchedule.NeverTooLoud | apps/companion/src/preview-player.ts:161-176 | the gains at any instant of any window add up to at most 1 when no source overlaps itself |
| PreviewSchedule.GapsAreNeverTooLoud | apps/companion/src/preview-player.ts:136 | so do those of a recording in which every chunk starts where its source's last one ended, or later |
| PreviewSchedule.TooLoudIff | apps/companion/src/preview-player.ts:136-176 | for every manifest the mix stays within full scale at every instant if and only if no more chunks than one, or two when both sources were captured, cover the start of any chunk |
| PreviewSchedule.OneSourceTooLoudIff | apps/companion/src/preview-player.ts:136 | for one source that is exactly when no two chunks overlap |
| PreviewSchedule.ToleratedOverlap | apps/companion/src/preview-player.ts:136 | an accepted manifest of one source, and an instant at which its mix is twice full scale |
| PreviewSchedule.ToleratedMixedOverlap | apps/companion/src/preview-player.ts:136 | an accepted manifest of both sources, and an instant at which its mix is one and a half times full scale |
| PreviewPlayer.PlacedInTime | apps/companion/src/preview-player.ts:326-352 | a source, however late, plays sample t at the base time plus t, never starts in the past, and is left out exactly when it would already be over |
| PreviewPlayer.StaleTaskChangesNothing | apps/companion/src/preview-player.ts:283-361 | whatever an awaited call of an earlier generation brings, it changes nothing but that it ends |
| PreviewPlayer.ApplyInv | apps/companion/src/preview-player.ts:245-414 | every call, tick, load, failure and clock step keeps the invariant of the player |
| PreviewPlayer.PlayerRunsAreSafe | apps/companion/src/preview-player.ts:245-414 | in every run at most one timer, only while playing; position within the recording; live nodes on the current context and in time; and what has been scheduled of any chunk since the last play is one piece up to the scheduled end |
| PreviewPlayer.ScheduledSounds | apps/companion/src/preview-player.ts:312-353 | in every run, while playing, for each item scheduled since the last play that was not over on the clock when its window was, exactly one source has been started, at its time or at once from where the clock had got to, and for the others none; and each is live until it ends by itself |
| PreviewPlayer.EndedByThemselves | apps/companion/src/preview-player.ts:335-340 | no step but the end of a source counts it as ended |
| PreviewPlayer.PositionMoves | apps/companion/src/preview-player.ts:245-269 | what every step does to the position: pauses, failures, ticks and the end keep it, a seek ends at its clamped target, playing begins and re-anchors where it was left, and then it goes with the clock |
| PreviewPlayer.TickKeepsAhead | apps/companion/src/preview-player.ts:363-375 | after a tick the player has reached the end and stopped, or half the lookahead is scheduled or being loaded |
| PreviewPlayer.PlayersStayAlive | apps/companion/src/preview-player.ts:276-406 | in every run a player that plays ticks or is about to, one that is loading has a load under way, and one with a context that does not play yet is being resumed |
| PreviewPlayer.ErrorIsShown | apps/companion/src/preview-player.ts:290-294 | an error is shown exactly from the failure of the current play, which stops it, until the next play or seek that is heeded; a failure of an earlier play is never shown |
| PreviewPlayer.PlayerObject.Halt | apps/companion/src/preview-player.ts:257-269 | stopping moves the generation on, keeps or drops the running position, and clears timer, nodes and context |
| PreviewPlayer.PlayerObject.StartNodes | apps/companion/src/preview-player.ts:312-353 | the loop over prepared items starts exactly the sources the machine places |
| PreviewPlayer.PlayerObject.BeginWindow | apps/companion/src/preview-player.ts:276-291 | a window begins to load, is finished at once when it is empty, or is refused by its guards |
| PreviewPlayer.PlayerObject.ReadItem | apps/companion/src/preview-player.ts:293-361 | what follows an item read: stale, failed, the next item, or the window finished |
| PreviewPlayer.PlayerObject.Resume | apps/companion/src/preview-player.ts:390-406 | playing starts only for the current generation and context, from the position kept |
| PreviewPlayer.PlayerObject.OnTick | apps/companion/src/preview-player.ts:363-375 | a tick moves the position, ends at the end, or asks for the next window |
| PreviewPlayer.PlayerObject.OnSeek | apps/companion/src/preview-player.ts:416-425 | seeking stops, clamps the position, and plays on if it was playing and not at the end |
| CanonicalJson.PrintIsInjective | scripts/plugin-preview-deployment/worker.ts:47-56 | two values have one text only if they are the same value, member order included |
| CanonicalJson.SortedIffSame | scripts/plugin-preview-deployment/worker.ts:49-53 | sorting at every depth makes two values equal exactly when they are equal up to the order of keys |
| CanonicalJson.CanonicalIffSame | scripts/plugin-preview-deployment/worker.ts:47-56 | two values have one canonical text if and only if they are equal up to the order of keys at every depth |
| CanonicalJson.AgreeButForVersion | scripts/plugin-preview-deployment/worker.ts:58-63 | two manifests compare equal without their version if and only if they agree on every other key |
| Rollout.UpdateMeans | scripts/plugin-preview-deployment/worker.ts:180-232 | a target marked for update is enabled at the expected version, and the plan records what is installed and its artifact |
| Rollout.ExaminedIff | scripts/plugin-preview-deployment/worker.ts:160-232 | exactly what preflight says of a tenant, told by the values: nothing to do, an update only from the expected version with manifests that differ in nothing but the version and the same store, or the first thing that is amiss |
| Rollout.PlannedPublishes | scripts/plugin-preview-deployment/worker.ts:268-374 | after any publishing of other targets, one marked skip is skipped without change, and one marked update is published if and only if at the preflight its version was newer than all the tenant had or this very archive was stored |
| Rollout.PlannedYetRefused | scripts/plugin-preview-deployment/worker.ts:290-298 | a plan that preflight accepts for update and publishing refuses |
| Rollout.AnswerIsTrue | scripts/plugin-preview-deployment/worker.ts:268-374 | what a publishing call has done when it answers: updated means the plugin's version and manifest are installed from this archive, skipped that they were, and a refusal leaves the installation alone |
| Rollout.RunKeeps | scripts/plugin-preview-deployment/worker.ts:268-374 | after any publishing calls, failing or not, every place is as it was or moved by the plan from its recorded version |
| Rollout.PlanIsIndependent | scripts/plugin-preview-deployment/worker.ts:386-495 | every target ends, and is reported, as if it had been the only one, each once |
| Rollout.RollbackRestores | scripts/plugin-preview-deployment/worker.ts:376-496 | after any part of a plan was published in any order, rollback brings every place back to its installation, or to that version installed again from its artifact, unless the installer refuses there, and each update target is in exactly one list |
| Rollout.RollbackRestoresIff | scripts/plugin-preview-deployment/worker.ts:376-496 | any publishing of the plan can be undone if and only if no tenant had a twin of a version it was to be updated to |
| Rollout.TwinStrands | scripts/plugin-preview-deployment/worker.ts:441-448 | publishing over a twin installs it and fails, and rollback leaves it, in the skipped list |
| Rollout.TwinIsStranded | scripts/plugin-preview-deployment/worker.ts:441-448 | a database with an accepted plan and a twin, left at the new version after publishing and rollback |
| Rollout.RollbackTwiceIsOnce | scripts/plugin-preview-deployment/worker.ts:376-496 | whatever the installer refuses, rolling back again changes nothing and reports every target as before, but for restored ones: untouched if their artifact has the manifest recorded as installed, skipped if not |
| Rollout.VerdictIff | scripts/plugin-preview-deployment/worker.ts:386-486 | exactly which targets rollback leaves alone, fails on and restores, told by what is installed and stored |
| Rollout.Database.PreflightPlan | scripts/plugin-preview-deployment/worker.ts:151-246 | the nested loops give the plan or the first refusal |
| Rollout.Database.PublishOne | scripts/plugin-preview-deployment/worker.ts:268-374 | the sequence of checks, upload, installation and verification, with what it leaves in the tables when it throws |
| Rollout.Database.Rollback | scripts/plugin-preview-deployment/worker.ts:376-496 | the nested loops give the final tables and the four lists |
| Smtp.MessageRoundTripIff | apps/auth/src/smtp.ts:57-74 | a receiver reads exactly to the end of the data and gets the headers and the CRLF-normalised lines back, if and only if no line has a dot right after a Unicode separator |
| Smtp.LineRoundTripIff | apps/auth/src/smtp.ts:61 | undoing the stuffing of a line gives the line back exactly then |
| Smtp.NormalisedIsLines | apps/auth/src/smtp.ts:61 | the replacement of line ends is the text's lines, whatever ended them, joined with CRLF |
| Smtp.SocketConnection.ReadLine | apps/auth/src/smtp.ts:195-206 | the loop over chunks returns the first line of all the text to come and keeps the rest |
| Smtp.SocketConnection.Read | apps/auth/src/smtp.ts:166-176 | the reply read depends only on the text to come, not on how it is cut into chunks, and the rest is kept for the next |
| Smtp.RepliesAreRead | apps/auth/src/smtp.ts:166-206 | replies written one after the other, with any continuation lines, are read back one after the other |
| Smtp.ServerReplyIsRead | apps/auth/src/smtp.ts:166-176 | the lines a server writes for a code, hyphens on all but the last, are read as one reply, whatever follows |
| Smtp.MarkedIff | apps/auth/src/smtp.ts:172-174 | a line is taken as marked exactly when it is a three-digit code, a space or a hyphen, and a text |
| TenantSlugs.SlugsAreKept | apps/api/src/tenant-slug-assignment.ts:13-44 | over any interleaving no slug belongs to two tenants, and a slug a tenant ever had resolves to it alone while it is active and commercial |
| TenantSlugs.CommitKeepsInv | apps/api/src/tenant-slug-assignment.ts:29-43 | a batch that keeps the unique keys keeps the namespace, even after its reads have gone stale |
| TenantSlugs.RenamePlannedIff | apps/api/src/tenant-slug-assignment.ts:13-28 | a rename is planned exactly when no other tenant has the name, and reserves it unless the tenant has it |
| TenantSlugs.RenameCommittedIff | apps/api/src/tenant-slug-assignment.ts:29-43 | exactly when a batch goes through, and that the tenant then has the new name beside the old |
| TenantSlugs.CreatedIff | apps/api/src/routes/tenants.ts:321-352 | a tenant is made exactly when nobody has the name; then it has it, and the name is reserved for it |
| TenantSlugs.CandidatesDiffer | apps/api/src/tenant-slug-assignment.ts:6-10 | candidates of one name for distinct indexes from 1 are distinct and at most 63 characters |
| TenantSlugs.CandidateIsSlug | apps/api/src/tenant-slug-assignment.ts:6-10 | every candidate is a slug, namely as much of the name as fits without a dash at its end and, but for the first, a dash and the number |
| TenantSlugs.FirstCandidateDiffersIff | apps/api/src/tenant-slug-assignment.ts:6-10 | the name itself is no later candidate, unless it has at least 62 characters and ends like that one already |
| TenantSlugs.LongNameRepeats | apps/api/src/tenant-slug-assignment.ts:6-10 | a name whose second candidate is its first again |

## Assumptions

- Tables change by single statements and by batches, each atomic. Identifiers, tokens and revisions drawn at random
  are fresh, and hashes are injective, so they are modelled as names.
- `SessionPolicy` and `EmailRegistration` are about one tenant; requests of other tenants touch other rows.
- `FederatedSaga.UnfinishedUsersAreRefused` needs a user to be made within twenty minutes of its recovery row.
  `EmailRegistration.RegistrationIsGuarded` needs an owner to act before its row expires, a row not to be inserted while
  a cleanup that read an earlier row of the attempt is not done, and a user not to be made while a sign-in of an
  earlier user of the attempt has passed the hook. The lemmas named above say exactly what happens otherwise.
- A statement that fails changes nothing.
- A mail is charged in the hour its request read (`MailBudget`), and clocks of requests are not ahead of the table's.
- The installer of plugins keeps the contract written in `Rollout.Uploaded` and `Rollout.Installed`, or refuses and
  changes nothing; the identity service, the policy and mail delivery answer anything.
- Keys of JSON objects are compared by some total order (`CanonicalJson`); the host's `localeCompare` is one only for
  keys it tells apart.

## Left out

- Protocols as imperative code: `SessionPolicy`, `FederatedSaga`, `EmailProof`, `EmailRegistration` and `TenantSlugs`
  are steps on values, because many handlers interleave over shared tables; the order of statements inside one
  handler is kept, updating objects in place is not.
- SessionPolicy.NoStaleSession: only for runs in which nothing switches on what a DELETE has switched off;
  `SessionPolicy.StaleIff` is about all of them.
- SessionPolicy.RemovalStrandsIff: while the other requests stand still, as `SessionPolicy.SocialRemovalStrandsIff`;
  `SessionPolicy.StaleIff` is without that.
- FederatedSaga.UnfinishedUsersAreRefused: the attempt id and display name sent to the identity service are not
  modelled, so whether a recovered attempt reuses its first id is not stated.
- EmailRegistration.RegistrationIsGuarded: says nothing of a pending user whom someone else edits so that it no longer
  matches its row.
- MailBudget.BudgetsHold: a charge made after the hour it read has ended is not covered.
- PreviewPlayer.PlayerRunsAreSafe: copying samples, rounding seconds to frames and listeners are not modelled; samples
  that do not fit their window are an outcome of the last read.
- PreviewSchedule.ValidateChunks: seconds are reals, so the tests for finite numbers are not modelled.
- CanonicalJson.CanonicalIffSame: numbers are the texts JavaScript prints, and lone surrogates do not occur.
- Rollout.RollbackRestores: manifests and store files are taken as already parsed; regular expressions on plan fields,
  the archive's bytes and HTTP are not modelled.
- Rollout.Database.PublishOne: nothing else changes the tenant during the call, so the second look at the installation
  between upload and install, and the fields of the installer's replies, are not modelled.
- Smtp.MessageRoundTripIff: header lines are any single lines that do not begin with a dot; base64 of the subject, the
  sequence of SMTP commands, timeouts and TLS are not modelled.
- TenantSlugs.CandidatesDiffer: how a name becomes a slug is not part of this model.
- ConnectionPools: `leasePool`, the type of resources and awaiting the closing promises; `close` is the step that
  retires everything, and it does not wait for leases.
- PreviewAudio: chunk numbers are integers, and the reads of chunks are a function of the sequence number with a
  rejected, absent or present reply.
- Cryptography, tokens, XML, HTTP routing, pages and configuration.
