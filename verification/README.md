# Protocols of the event platform, verified

This project models the transactional core of the NestJS/Prisma backend and proves what its services
promise. Tables are maps or sequences of rows; one `$transaction`, or one Prisma statement outside a
transaction, is one atomic step. Each service appears twice: as step functions on a value that holds its
tables, over which the theorems quantify (`Run` applies any sequence of steps), and as a class whose
methods update the tables in place. Each method takes the step of the model, keeps the class's `Valid()`,
which is the invariant the theorems rest on, and says what its caller gets.

| files | subject | split into steps |
|---|---|---|
| `TokenProtocol`, `TokenProofs`, `SessionServices`, `SessionLaws` | refresh-token rotation, reuse detection, logout, invitations, account requests | a rotation is read, claim, and revocation; every other request is one step |
| `AccessTokens`, `TokenLifetimes` | access tokens, how their lifetime is configured, and the blacklist | requests atomic, clock never goes back |
| `CsvExport` | the CSV printer, and a reader written from section 2 of RFC 4180 | pure |
| `ReplyForest` | reply table, two-pass forest builder on mutable objects | requests atomic |
| `Agenda`, `AgendaAnswers`, `AgendaServices` | event windows, venues, sessions, reordering | requests atomic |
| `Registrations` | registration and cancellation under an event's capacity | the locked section of `register` and each half of `cancel` |
| `Rfq`, `RfqServices`, `Pricing` | RFQs, quotations, expiry sweep, totals | requests atomic |
| `Communities`, `CommunityProofs`, `SponsorshipProofs`, `CommunityServices` | membership count, bans, sponsorship limits and their sweep | requests atomic |
| `Coupons` | coupon redemption with idempotency keys | reads and transaction of a redemption apart |
| `Bookings` | service bookings and the clamped counter | requests atomic |
| `Common` | options, failures, row counts and queries | |

Random ids, tokens and hashes are fresh values chosen by the step's arguments; a step whose id is taken
does not occur. Money is in hundredths and time is an integer. A query without an order may return its
rows in any order: `FindMany` promises none, and the sweeps are proved for all of them.

## Where a promise fails, and exactly when it holds

- The CSV printer loses a table without columns and a one-column table whose last cell is empty; it is
  reversible on all others (`CsvExport.RoundTrip`).
- An access lifetime not written as digits and one of s, m, h, d gets a fifteen-minute blacklist entry, so
  a longer token outlives its revocation (`TokenLifetimes.TtlExactly`,
  `AccessTokens.UncoveredRun`, `AccessTokens.WeekIsNotCovered`).
- `join` is documented to enforce `memberCapacity`; it compares with the live sponsorship's capacity, or
  20, and never reads the column (`CommunityProofs.ColumnHoldsExactly`, `CommunityProofs.ColumnIsNotEnforced`).
- `updateCoupon` may set a limit below the number already redeemed (`Coupons.LimitHoldsExactly`,
  `Coupons.LimitCanBeUndercut`).
- `booking_count` drifts when a provider revives a rejected booking or an attendee cancels a rejected one
  (`Bookings.ExactlyWhenNeverSkewed`). A service is overbooked by such a revival, by a booking accepted on a
  counter that lags, or by lowering its limit (`Bookings.LimitHoldsExactly`, `Bookings.RevivalOverbooks`,
  `Bookings.LoweredLimitOverbooks`).
- The RFQ sweep is documented to take all past-due non-terminal RFQs; it takes at most a hundred at a time,
  and QUOTED ones never (`Rfq.SweepClearsExactly`, `Rfq.QuotedIsNeverSwept`, `Rfq.QuotedOutlivesSweep`).
- The forest builder would lose replies on a cycle of parents; the check in `create` rules cycles out
  (`ReplyForest.MetExactly`, `ReplyForest.ReachableForestConserves`).

## Model

| member | source | states |
|---|---|---|
| `TokenProofs.FamilyIsOneChain` | src/modules/auth/services/token.service.ts:309-354 | under every interleaving of rotations, logouts and account requests a token family is one simple chain of replacements, at most one of its tokens is live, and a live one is the last |
| `TokenProofs.ReplacementsAreInjective` | src/modules/auth/services/token.service.ts:343-351 | no token replaces two others, and a replacement stays in its family |
| `TokenProofs.RevocationIsForGoodStep` | src/modules/auth/services/token.service.ts:309-373 | a step never brings a revoked token back nor rewrites a replacement link |
| `TokenProofs.StepMovesTokens` | src/modules/auth/services/token.service.ts:191-391 | a step moves the token table in one of three ways: rows are revoked, one row opens a new family, or one live row is rotated into a new row of its family |
| `TokenProofs.ClaimExtendsChain` | src/modules/auth/services/token.service.ts:309-354 | a winning claim appends its new token to the chain of the family |
| `TokenProofs.DeadStaysDead` | src/modules/auth/services/token.service.ts:191-221 | once all tokens of a family are revoked no later step of any new or suspended request makes a live one in it |
| `TokenProofs.ReuseRejectionIsFinal` | src/modules/auth/services/token.service.ts:360-391 | a rotation that ended in a reuse rejection has killed its family for ever |
| `TokenProofs.RevocationIsFinal` | src/modules/auth/services/token.service.ts:415-479 | logout, password reset, suspension and deactivation kill every token they cover, for ever |
| `TokenProofs.AtMostOneWinner` | src/modules/auth/services/token.service.ts:313-330 | of any number of interleaved rotations of one token at most one returns a new pair |
| `TokenProofs.BarredUserHasNoSession` | src/modules/auth/services/token.service.ts:237-256 | in every reachable state of rotation, the three token issuers and the account steps a suspended or deactivated user has no live refresh token |
| `TokenProofs.StepKeepsInv` | src/modules/auth/services/token.service.ts:153-479 | every step of the protocol and of the account services keeps the chain, owner and in-flight invariants |
| `TokenProofs.AccountStepRevokesOnly` | src/modules/admin/services/admin-users.service.ts:141-318 | account requests change the token table by revocation only and leave no barred user with a live token |
| `SessionServices.SessionStore.GenerateTokens` | src/modules/auth/services/token.service.ts:96-145 | adds exactly one live row of the user with the given family and jti, seven days (7*24*60*60 s) from now, alone in its family; for a user who is not barred the protocol invariant is kept |
| `SessionServices.SessionStore.BeginRotate` | src/modules/auth/services/token.service.ts:158-279 | writes no table, and what is remembered is fixed for each state of the row: missing, revoked, expired, barred owner, and otherwise a claim for the same owner and family whose replacement runs until seven days from now |
| `SessionServices.SessionStore.ClaimRotate` | src/modules/auth/services/token.service.ts:309-354 | the claim wins exactly while the row is live and unexpired; it then writes the revoked, linked row and the recorded replacement, and otherwise nothing, leaving the family revocation owed |
| `SessionServices.SessionStore.FinishRotate` | src/modules/auth/services/token.service.ts:191-256 | carries out what the refusal owes and nothing else: every row of the family, that row, or every live row of the user is stamped with the instant |
| `SessionServices.SessionStore.RotateRefreshToken` | src/modules/auth/services/token.service.ts:153-409 | uninterrupted, it succeeds exactly for a live, unexpired token of an undeleted ACTIVE or PENDING user; then the replacement has that owner and family, the given jti and an expiry seven days from now, and the old row differs by its stamp and its link only; each refusal writes exactly its revocation |
| `SessionServices.RotationAnswers` | src/modules/auth/services/token.service.ts:153-409 | the three steps of an uninterrupted rotation taken together: the table afterwards, for each state of the presented row, the instant of expiry included |
| `SessionLaws.ReturnedTokenRotates` | src/modules/auth/services/token.service.ts:153-409 | the token a rotation returned can be rotated, after any run, exactly while it is live, its owner may go on and less than seven days have passed since |
| `SessionLaws.ReturnedTokenRotatesNext` | src/modules/auth/services/token.service.ts:267-354 | with nothing in between it can be rotated at every later instant of those seven days, for the same owner and family |
| `SessionLaws.SignedInTokenRotates` | src/modules/auth/services/token.service.ts:96-145 | the token of a sign-in can be rotated, after any run, exactly while it is live, its owner may go on and less than seven days have passed |
| `SessionLaws.ReuseKillsFamily` | src/modules/auth/services/token.service.ts:191-221 | presenting a token that was rotated, at any later time and after any run, is rejected as reuse and leaves the family dead, the replacement included |
| `SessionServices.SessionStore.RevokeRefreshToken` | src/modules/auth/services/token.service.ts:444-479 | stamps every row of the family and touches no other, and blacklists the access token of every row the family ever had |
| `SessionServices.SessionStore.RevokeAllUserSessions` | src/modules/auth/services/token.service.ts:415-439 | stamps every live row of the user and touches no other, and blacklists the access tokens of all the user's rows |
| `SessionServices.SessionStore.BlacklistAccessTokenJtis` | src/modules/auth/services/token.service.ts:80-86 | after the loop each listed jti is refused for exactly the configured lifetime from now, and every other jti as before |
| `SessionServices.SessionStore.SignInWithPassword` | src/modules/auth/services/auth.service.ts:526-601 | succeeds exactly for a right password and an undeleted, verified user who is ACTIVE, or PENDING as attendee or admin; FORBIDDEN exactly for a barred user and a verified PENDING business; a success adds one seven-day row alone in a new family |
| `SessionServices.SessionStore.RegisterAccount` | src/modules/auth/services/auth.service.ts:42-120 | a new account is PENDING and unverified; a known one is a conflict and nothing changes |
| `SessionLaws.AttendeeOnboards` | src/modules/auth/services/auth.service.ts:407-456 | a registered attendee is refused before the address is verified and let in right after |
| `SessionLaws.BusinessOnboards` | src/modules/auth/services/auth.service.ts:526-601 | a registered business is refused before verification, refused as pending after it, let in after an approval, and refused after a rejection; approval before verification is refused |
| `SessionServices.SessionStore.ConfirmOtp` | src/modules/auth/services/auth.service.ts:407-456 | afterwards the address of an undeleted user is verified and no verified attendee is pending; nothing else of that user, no other user and no deleted one moves, so nobody barred is let back in |
| `SessionServices.SessionStore.ConfirmPasswordReset` | src/modules/auth/services/auth.service.ts:722-781 | an accepted reset leaves the user without a live token, others' rows as they were, and blacklists the access tokens of all the user's rows; a refused one changes nothing |
| `SessionServices.SessionStore.HandleGoogleCallback` | src/modules/auth/services/oauth.service.ts:237-587 | for the user found by linked account, else by address, else created: succeeds exactly for an ACTIVE or PENDING attendee, the user row written in each case, and one seven-day row alone in a new family; a failure issues nothing |
| `SessionServices.SessionStore.AcceptOrganizerInvitation` | src/modules/organizer-invitations/services/organizer-invitations.service.ts:233-459 | for an accepted invitation it succeeds exactly for a known user who is neither suspended nor deactivated, or a new one with a password; the row written in each case, and one seven-day row alone in a new family; a failure changes nothing |
| `SessionServices.SessionStore.Approve` | src/modules/admin-approvals/services/admin-approvals.service.ts:244-375 | succeeds exactly for an undeleted, verified business that is PENDING or ACTIVE and leaves it ACTIVE; only its status may move, and a failure changes nothing |
| `SessionServices.SessionStore.Reject` | src/modules/admin-approvals/services/admin-approvals.service.ts:376-514 | succeeds exactly for an undeleted business that is PENDING or REJECTED, with a reason, and leaves it REJECTED; only its status may move, and a failure changes nothing |
| `SessionServices.SessionStore.Suspend` | src/modules/admin-approvals/services/admin-approvals.service.ts:515-656 | succeeds exactly for an undeleted business that is ACTIVE or SUSPENDED, leaves it SUSPENDED and stamps exactly its live tokens, so that it has none also when it was suspended before |
| `SessionServices.SessionStore.Reactivate` | src/modules/admin-approvals/services/admin-approvals.service.ts:657-815 | succeeds exactly for an undeleted business that is SUSPENDED, which becomes ACTIVE, or REJECTED, which becomes PENDING; an account made ACTIVE has no live token, so no session comes back |
| `SessionServices.SessionStore.AdminActivate` | src/modules/admin/services/admin-users.service.ts:95-140 | succeeds exactly for a known user, moves only the status, and gives a suspended or deactivated user no session back |
| `SessionServices.SessionStore.AdminSuspend` | src/modules/admin/services/admin-users.service.ts:141-204 | succeeds exactly for a known user other than oneself, who ends SUSPENDED with exactly the live tokens stamped; other users and their tokens are as they were, and a failure changes nothing |
| `SessionServices.SessionStore.AdminReactivate` | src/modules/admin/services/admin-users.service.ts:205-257 | succeeds exactly for a SUSPENDED or REJECTED user, who becomes ACTIVE; only the status moves, and a suspended user gets no session back |
| `SessionServices.SessionStore.AdminDeactivate` | src/modules/admin/services/admin-users.service.ts:258-318 | succeeds exactly for a known user other than oneself, who ends DEACTIVATED and deleted with exactly the live tokens stamped; other users and their tokens are as they were |
| `AccessTokens.RevocationCoversForEver` | src/modules/auth/services/token.service.ts:415-479 | when the lifetime is configured as a number of s, m, h or d and is that many seconds, then after a logout or session-wide revocation every access token issued so far in the sessions it covers is refused at each instant until its own expiry, whatever follows |
| `AccessTokens.LogoutCoversFamily` | src/modules/auth/services/token.service.ts:444-479 | for such configurations, after logout that holds for every access token the family was ever given, before or after |
| `AccessTokens.OutlivingEntryCoversForEver` | src/modules/auth/services/token.service.ts:415-479 | the same for any spelling of the lifetime under which the blacklist entry outlives the tokens |
| `AccessTokens.OutlivingEntryCoversFamily` | src/modules/auth/services/token.service.ts:444-479 | and for the whole family after a logout |
| `AccessTokens.RevocationSparesOthers` | src/modules/auth/services/token.service.ts:415-479 | in every reachable state, a request that does not revoke a session leaves its access token refused or accepted exactly as it was |
| `AccessTokens.ServeMovesGrants` | src/modules/auth/services/token.service.ts:96-145 | an access token is handed out exactly with each new live row: new jti, same owner and family, and it runs for the lifetime from now |
| `AccessTokens.DeadFamilyGrantsNothingEver` | src/modules/auth/services/token.service.ts:191-221 | a family without live refresh tokens is given no further access token |
| `AccessTokens.CoveredStays` | src/modules/auth/services/token.service.ts:80-90 | later requests never shorten a blacklist entry below the token it covers |
| `TokenLifetimes.TtlExactly` | src/modules/auth/services/token.service.ts:49-78 | for every text: a number and a unit, with any leading zeros and white space around, stands for that number times 1, 60, 3600 or 86400 seconds, and every other text for 900 |
| `TokenLifetimes.PlainTtl` | src/modules/auth/services/token.service.ts:49-78 | in particular every number as it is written, followed by its unit |
| `AccessTokens.PlainDurationIsCovered` | src/modules/auth/services/token.service.ts:49-86 | for a lifetime so written the blacklist entry lasts exactly as long as the token |
| `AccessTokens.WeekIsNotCovered` | src/modules/auth/services/token.service.ts:50-57 | another spelling of a lifetime falls back to fifteen minutes and does not cover the token |
| `AccessTokens.UncoveredRun` | src/modules/auth/services/token.service.ts:80-90 | without the covering condition the promise fails: a run whose logged-out access token is accepted before its expiry |
| `CsvExport.RoundTrip` | src/modules/admin/utils/csv-export.util.ts:30-48 | the RFC 4180 section 2 reader gives back exactly the header and rows of carried values if and only if the table has a column and is not a one-column table whose last cell carries nothing |
| `CsvExport.RoundTripOfWideTables` | src/modules/admin/utils/csv-export.util.ts:30-48 | every table of at least two columns is read back exactly |
| `CsvExport.NoFormulaCell` | src/modules/admin/utils/csv-export.util.ts:14-47 | every printed file is well-formed, and no cell a reader decodes from it starts with a formula character |
| `CsvExport.Neutralise` | src/modules/admin/utils/csv-export.util.ts:14-17 | the result never starts a formula; the text is unchanged exactly when it did not, and is otherwise the old text behind one single quote |
| `CsvExport.CarriedMeans` | src/modules/admin/utils/csv-export.util.ts:10-17 | what a cell is meant to carry: nothing for null and undefined, a timestamp what its text would, and a single quote in front of a formula only |
| `CsvExport.EscapedExactly` | src/modules/admin/utils/csv-export.util.ts:19-22 | a text is printed as it is exactly when it holds no quote, comma or line end |
| `CsvExport.CellIsReadBack` | src/modules/admin/utils/csv-export.util.ts:19-22 | a printed cell is read back as it was, whatever quotes, commas and line ends it holds |
| `CsvExport.LineIsReadBack` | src/modules/admin/utils/csv-export.util.ts:36-44 | a printed line is read back cell by cell |
| `CsvExport.FileIsReadBack` | src/modules/admin/utils/csv-export.util.ts:47 | a printed file is read back record by record, except that a last record of one empty cell vanishes |
| `ReplyForest.ReachableForestConserves` | src/modules/communities/services/community-replies.service.ts:45-52 | for every reply table reachable through create and delete, walking the forest meets each published undeleted reply once and nothing else |
| `ReplyForest.ForestConserves` | src/modules/communities/services/community-replies.service.ts:197-225 | for every list whose replies are younger than their parents, each listed reply is met once |
| `ReplyForest.ChildOccurrences` | src/modules/communities/services/community-replies.service.ts:216-223 | a listed reply stands once under its parent and nowhere else |
| `ReplyForest.RootOccurrences` | src/modules/communities/services/community-replies.service.ts:216-223 | a listed reply is a root exactly when it has no listed parent |
| `ReplyForest.SiblingsInListOrder` | src/modules/communities/services/community-replies.service.ts:216-223 | siblings keep the order of the list |
| `ReplyForest.RootsInListOrder` | src/modules/communities/services/community-replies.service.ts:216-223 | roots keep the order of the list |
| `ReplyForest.CycleIsLost` | src/modules/communities/services/community-replies.service.ts:45-52 | two replies that were each other's parent would be in no tree |
| `ReplyForest.MetExactly` | src/modules/communities/services/community-replies.service.ts:216-223 | for any list at all, a reply is reached from a root exactly when it is listed and its chain of listed parents comes to an end |
| `ReplyForest.MakeNodes` | src/modules/communities/services/community-replies.service.ts:197-214 | first pass: one fresh object without children for each reply |
| `ReplyForest.Place` | src/modules/communities/services/community-replies.service.ts:216-223 | one turn of the second pass pushes the object into its parent, or onto the roots |
| `ReplyForest.BuildForest` | src/modules/communities/services/community-replies.service.ts:197-225 | the linked objects are the forest of the list: children in order, roots in order |
| `ReplyForest.LinkedForestConserves` | src/modules/communities/services/community-replies.service.ts:197-225 | following the object references from the roots meets each listed reply once |
| `ReplyForest.RunKeepsBoard` | src/modules/communities/services/community-replies.service.ts:54-71 | parents are older replies of the same post, and a post's counter is its number of undeleted replies |
| `ReplyForest.ReplyService.CreateReply` | src/modules/communities/services/community-replies.service.ts:22-71 | succeeds exactly for a member, a published post of the community and a live parent of that post if one is given; a success appends exactly the reply under that parent and counts it, so it is live, visible and younger than its parent; nothing else changes |
| `ReplyForest.ReplyService.DeleteReply` | src/modules/communities/services/community-replies.service.ts:232-270 | succeeds exactly for a live reply of the post and a permitted caller; a success stamps exactly that row, takes it out of the live, counted and visible replies of the post, and leaves its children and all else |
| `ReplyForest.ReplyService.FindAll` | src/modules/communities/services/community-replies.service.ts:150-226 | refuses without access or for a post not in the community; otherwise returns linked objects whose walk meets each visible reply of the post once |
| `Agenda.VenueBound` | src/modules/events/services/sessions.service.ts:88-113 | in every reachable state the sessions held in a venue together last no longer than its event |
| `Agenda.DisjointFit` | src/modules/events/services/sessions.service.ts:98-106 | pairwise disjoint non-empty intervals inside a window last no longer than the window, in any number |
| `Agenda.RunKeepsAgenda` | src/modules/events/services/sessions.service.ts:252-363 | every run keeps live sessions non-empty, inside their event, in a venue of that event, and venues free of overlaps |
| `Agenda.StepKeepsAgenda` | src/modules/events/services/sessions.service.ts:271-326 | each single request keeps that, also when a cancelled session is revived |
| `Agenda.DatesKeepAgenda` | src/modules/events/services/events.service.ts:240-263 | changed event dates still hold every live session |
| `Agenda.DeleteVenueKeepsAgenda` | src/modules/events/services/venues.service.ts:174-187 | a venue is removed only when no live session points to it |
| `Agenda.CountTestIsExact` | src/modules/events/services/sessions.service.ts:404-418 | the row count equals the list length exactly for duplicate-free lists of live sessions of the event |
| `Agenda.ReorderMeetsItsPromise` | src/modules/events/services/sessions.service.ts:404-426 | a reorder succeeds exactly for such a list; session i gets position i, others are unchanged, and the agenda query then lists the given sessions in the given order |
| `AgendaServices.AgendaStore.FindOverlapping` | src/modules/events/services/sessions.service.ts:98-106 | finds a clash exactly when one exists |
| `AgendaAnswers.OccupiedMeans` | src/modules/events/services/sessions.service.ts:98-106 | the endpoint test of the query finds a clash exactly when another booked session holds the venue at some moment of the window |
| `AgendaAnswers.UpdateAnswers` | src/modules/events/services/sessions.service.ts:252-363 | an update takes over the given fields and keeps the absent ones, or refuses the row they would make as improper or as a clash |
| `AgendaAnswers.DatesAnswer` | src/modules/events/services/events.service.ts:238-263 | new dates are stored exactly when they leave a non-empty window that still holds every live session |
| `AgendaAnswers.SlotIsGivenOnce` | src/modules/events/services/sessions.service.ts:88-113 | once a session has been placed in a venue, every request for another one there at a window sharing a moment with it is a conflict |
| `AgendaServices.AgendaStore.Create` | src/modules/events/services/sessions.service.ts:39-140 | stores the session exactly as requested, or refuses it: improper exactly when the window is empty or leaves the event's or the venue is not the event's, a conflict exactly when some moment of the window is taken in the venue |
| `AgendaServices.AgendaStore.Update` | src/modules/events/services/sessions.service.ts:252-363 | each given field is taken over and each absent one kept, event and deletion mark included, or the row they would make is refused: improper, or a conflict exactly when another booked session of the venue shares a moment with the new window; venues stay free of overlaps, also after a revival |
| `AgendaServices.AgendaStore.Delete` | src/modules/events/services/sessions.service.ts:453-478 | succeeds exactly for a live session of a managed event, marks that row deleted and cancelled, and takes it, and only it, out of every venue's bookings |
| `AgendaServices.AgendaStore.ReorderSessions` | src/modules/events/services/sessions.service.ts:394-426 | succeeds exactly for a duplicate-free list of live sessions of a managed event; the loop gives the i-th position i, moves positions of listed sessions only, and keeps the agenda invariant |
| `AgendaServices.AgendaStore.CreateNewEvent` | src/modules/events/services/events.service.ts:44-74 | succeeds exactly for a non-empty window and an active owner, and adds that event as requested |
| `AgendaServices.AgendaStore.UpdateDates` | src/modules/events/services/events.service.ts:238-263 | stores the given dates and keeps the absent ones exactly when they leave a non-empty window that holds every live session of the managed event; other events are as they were |
| `AgendaServices.AgendaStore.SoftDeleteEvent` | src/modules/events/services/events.service.ts:457-480 | succeeds exactly for a managed event, which is marked deleted and unchanged otherwise, and every managing request on it answers not found from then on |
| `AgendaServices.AgendaStore.RemoveVenue` | src/modules/events/services/venues.service.ts:156-187 | succeeds exactly for a venue of a managed event that no live session holds; then no row points to it and live sessions are as they were |
| `AgendaServices.AgendaStore.CreateNewVenue` | src/modules/events/services/venues.service.ts:25-50 | succeeds exactly for a managed event and a capacity of at least one or none, and adds one venue of the event, with nothing booked in it |
| `Registrations.NeverOverbooked` | src/modules/events/services/event-registration.service.ts:46-162 | with the locked section and both halves of cancellations interleaved freely, registered rows never outnumber the capacity and each event and user share at most one row |
| `Registrations.RowIsForGood` | src/modules/events/services/event-registration.service.ts:143-162 | a pair keeps its one row through any cancelling and registering again |
| `Registrations.AcceptedExactly` | src/modules/events/services/event-registration.service.ts:95-162 | a registration is accepted exactly when the event is open, there is room and the user is not in; it then adds one |
| `Registrations.RegistrationStore.RegisterAttendee` | src/modules/events/services/event-registration.service.ts:46-181 | succeeds exactly for an active user, an event that is PUBLISHED or ONGOING, not deleted and not over, fewer registered rows than its capacity, and a user whose rows are all cancelled; a success leaves the pair's one row registered, takes one place and changes no other row |
| `Registrations.RegistrationStore.ReadForCancel` | src/modules/events/services/event-registration.service.ts:213-224 | the read succeeds exactly when the user is registered, and then the request remembers that registered row of the pair; other requests are as they were |
| `Registrations.RegistrationStore.WriteCancel` | src/modules/events/services/event-registration.service.ts:226-233 | the row read is withdrawn whatever happened since, and frees a place exactly if it held one; no other row changes |
| `Registrations.RegistrationStore.CancelRegistration` | src/modules/events/services/event-registration.service.ts:198-240 | uninterrupted, it succeeds exactly for a registered user, whose one row is withdrawn and gives back its place; nothing else changes |
| `Registrations.FreedPlaceIsTaken` | src/modules/events/services/event-registration.service.ts:95-233 | on a full open event another user is refused, and accepted after a cancellation |
| `Registrations.RegisteringAgainUndoes` | src/modules/events/services/event-registration.service.ts:143-162 | registering again after a cancellation gives back the same row and the tables as they were |
| `Registrations.RegistrationStore.ChangeCapacity` | src/modules/events/services/events.service.ts:238-280 | succeeds exactly for a managed, undeleted event and a capacity of at least one and at least the registered count, and stores that capacity; all else is as it was |
| `Rfq.StatusesAgree` | src/modules/b2b-marketplace/services/quotation.service.ts:261-326 | in every reachable state only the newest quotation of an RFQ can be PENDING or ACCEPTED, PENDING only while the RFQ is QUOTED or REJECTED, and the RFQ is ACCEPTED exactly when a quotation is |
| `Rfq.VersionsAndTotals` | src/modules/b2b-marketplace/services/quotation.service.ts:157-196 | versions run 1, 2, 3 in creation order per RFQ; every stored total is subtotal plus tax less discount and not negative |
| `Rfq.TerminalStep` | src/modules/b2b-marketplace/services/rfq.service.ts:623-720 | ACCEPTED, CANCELLED and EXPIRED are kept by every step, and REJECTED is left only by accepting its pending quotation |
| `Rfq.TerminalIsAbsorbing` | src/modules/b2b-marketplace/services/rfq.service.ts:601-720 | over any run ACCEPTED, CANCELLED and EXPIRED are absorbing |
| `Rfq.StepKeepsMarket` | src/modules/b2b-marketplace/services/quotation.service.ts:93-326 | every request keeps versions, totals and the coupling of the two status machines |
| `Rfq.QuoteKeepsMarket` | src/modules/b2b-marketplace/services/quotation.service.ts:157-202 | a new quotation takes the next version and becomes the only pending one |
| `Rfq.AcceptKeepsMarket` | src/modules/b2b-marketplace/services/quotation.service.ts:288-326 | the accepted quotation becomes the only accepted one of its RFQ and nothing of it stays pending |
| `Rfq.MaxVersionIsCount` | src/modules/b2b-marketplace/services/quotation.service.ts:159-163 | the highest version of an RFQ is the number of its quotations |
| `Pricing.OneLinePrice` | src/modules/b2b-marketplace/services/quotation.service.ts:113-154 | a single line is priced at its unit price times its quantity, exactly when the quantity is positive and the price not negative |
| `Pricing.SubtotalOfBoth` | src/modules/b2b-marketplace/services/quotation.service.ts:118-129 | two lists of items together are worth what they are worth apart |
| `Pricing.SubtotalIgnoresOrder` | src/modules/b2b-marketplace/services/quotation.service.ts:118-129 | the order of the items does not matter |
| `Pricing.SubtotalScales` | src/modules/b2b-marketplace/services/quotation.service.ts:118-129 | k times every quantity costs k times as much |
| `Pricing.MergedLines` | src/modules/b2b-marketplace/services/quotation.service.ts:118-129 | two lines of one price are one line of that price with the quantities added, wherever they stand |
| `Pricing.PriceExactly` | src/modules/b2b-marketplace/services/quotation.service.ts:113-154 | a price is given exactly for a non-empty list of acceptable items, no negative tax or discount, and a discount that is covered; it is subtotal plus tax less discount |
| `Pricing.SubtotalIsNonNegative` | src/modules/b2b-marketplace/services/quotation.service.ts:118-129 | acceptable items never add up to a negative subtotal |
| `Rfq.QuoteMeans` | src/modules/b2b-marketplace/services/quotation.service.ts:72-202 | the stored quotation: next version, PENDING, given deadline, tax and discount, the subtotal of the items and the total; the earlier pending ones superseded; and exactly when there is one |
| `Rfq.AcceptMeans` | src/modules/b2b-marketplace/services/quotation.service.ts:261-326 | an accepted quotation was the newest and the only pending one, so it is the only row that changes |
| `Rfq.SweepMeans` | src/modules/b2b-marketplace/services/rfq-expiration.service.ts:81-97 | a sweep takes only open RFQs past their deadline, expires exactly them with their pending quotations, and leaves no such RFQ if it took fewer than a hundred |
| `Rfq.SweepEmptiesBatch` | src/modules/b2b-marketplace/services/rfq-expiration.service.ts:81-97 | one sweep takes exactly min(100, n) of the n due RFQs out of the due set and leaves every other RFQ and its quotations alone |
| `Rfq.SweepsTerminate` | src/modules/b2b-marketplace/services/rfq-expiration.service.ts:81-114 | after k sweeps at one instant n - 100k due RFQs are left, none from the ceil(n/100)-th on |
| `Rfq.SweepClearsExactly` | src/modules/b2b-marketplace/services/rfq-expiration.service.ts:78-97 | one sweep leaves no past-due RFQ that is not closed if and only if at most a hundred are due and no QUOTED RFQ is past its deadline |
| `Rfq.QuotedIsNeverSwept` | src/modules/b2b-marketplace/services/rfq-expiration.service.ts:84-97 | however often the sweep runs, a QUOTED RFQ and its quotations stay as they are |
| `Rfq.QuotedOutlivesSweep` | src/modules/b2b-marketplace/services/rfq-expiration.service.ts:78-97 | a run after which the sweep finds nothing although a QUOTED RFQ is past its deadline |
| `Rfq.ExpireOneMore` | src/modules/b2b-marketplace/services/rfq-expiration.service.ts:100-102 | expiring RFQs one by one, in any order, is expiring the set |
| `RfqServices.RfqStore.Create` | src/modules/b2b-marketplace/services/rfq.service.ts:74-170 | succeeds exactly for an admitted sponsor, another vendor, a deadline ahead and some item, and adds exactly that RFQ, DRAFT or SENT as asked, without a quotation |
| `RfqServices.RfqStore.Send` | src/modules/b2b-marketplace/services/rfq.service.ts:233-270 | succeeds exactly for the sponsor's DRAFT with its deadline ahead, and moves that RFQ, and only it, to SENT |
| `RfqServices.RfqStore.GetRfqById` | src/modules/b2b-marketplace/services/rfq.service.ts:420-478 | returns the stored status, which past the deadline is EXPIRED for an open RFQ, before it VIEWED for a SENT one seen by its vendor, and otherwise what it was; only that status moves |
| `RfqServices.RfqStore.Clarify` | src/modules/b2b-marketplace/services/rfq.service.ts:507-560 | succeeds exactly for a party of an RFQ that is not closed and not past its deadline; moves it to CLARIFICATION_REQUESTED exactly when its vendor asks about a SENT or VIEWED one |
| `RfqServices.RfqStore.Cancel` | src/modules/b2b-marketplace/services/rfq.service.ts:601-655 | succeeds exactly for the sponsor of an RFQ that is not closed; it is CANCELLED and exactly its pending quotations are rejected |
| `RfqServices.RfqStore.Reject` | src/modules/b2b-marketplace/services/rfq.service.ts:685-720 | succeeds exactly for the vendor of an RFQ that is not closed, moves it to REJECTED, and touches no quotation |
| `RfqServices.RfqStore.CalculateTotals` | src/modules/b2b-marketplace/services/quotation.service.ts:113-154 | the accumulating loop and its early exits give the subtotal and the total exactly for acceptable input, and p*q for a single line of q at p |
| `RfqServices.RfqStore.Quote` | src/modules/b2b-marketplace/services/quotation.service.ts:72-202 | succeeds exactly for the vendor of an RFQ that still takes quotations, both deadlines ahead and a priced request; the last row is then that quotation with its next version, subtotal, given tax, discount and deadline, and total, earlier pending ones are superseded and the RFQ is QUOTED; nothing else changes |
| `RfqServices.RfqStore.Accept` | src/modules/b2b-marketplace/services/quotation.service.ts:261-326 | succeeds exactly for the sponsor and a pending quotation with its deadline ahead, which was the newest; that row becomes ACCEPTED, its RFQ ACCEPTED, nothing stays pending and nothing else changes |
| `RfqServices.RfqStore.Decline` | src/modules/b2b-marketplace/services/quotation.service.ts:384-412 | succeeds exactly for the sponsor and a pending quotation, which was the newest and becomes REJECTED; nothing of the RFQ is pending then and nothing else changes |
| `RfqServices.RfqStore.Expire` | src/modules/b2b-marketplace/services/rfq-expiration.service.ts:18-76 | reports true exactly for an RFQ that is DRAFT, SENT, VIEWED or in clarification, which is then EXPIRED with exactly its pending quotations lapsed; otherwise nothing changes |
| `RfqServices.RfqStore.SweepExpiredRfqs` | src/modules/b2b-marketplace/services/rfq-expiration.service.ts:81-114 | for every order of the rows found, the loop expires exactly its batch of at most a hundred open RFQs past their deadline, with their pending quotations, returns its size, and leaves none if that is below a hundred |
| `CommunityProofs.CountsAgree` | src/modules/communities/services/community-members.service.ts:126-156 | in every reachable state memberCount is the number of ACTIVE members |
| `CommunityProofs.PeakWasAdmitted` | src/modules/communities/services/community-members.service.ts:108-124 | in every reachable state memberCount is within 20 or within the capacity of a sponsorship that was live at some point of the run |
| `CommunityProofs.GrowthHasRoom` | src/modules/communities/services/community-members.service.ts:108-124 | a count grows by one at most, by a join, within the limit in force at that moment |
| `CommunityProofs.LapsedOnlyShrinks` | src/modules/communities/services/community-members.service.ts:111-124 | without a live or new sponsorship a community over 20 members only shrinks until it is within 20 |
| `CommunityProofs.BannedStaysBanned` | src/modules/communities/services/community-members.service.ts:99-106 | no run without an unban of the member ends a ban |
| `CommunityProofs.OwnerStays` | src/modules/communities/services/community-members.service.ts:216-220 | unless someone changes the owner's role the owner stays an ACTIVE member, so the count stays positive |
| `CommunityProofs.ColumnHoldsExactly` | src/modules/communities/services/community-members.service.ts:39-42 | all through a run the members stay within memberCapacity, as the doc comment of join promises, if and only if nobody joins at the column's limit and no step writes a column below the members there are |
| `CommunityProofs.ColumnIsNotEnforced` | src/modules/communities/services/community-members.service.ts:120-124 | a run in which a community made with room for two takes a third member |
| `CommunityProofs.MemberStepKeepsCounts` | src/modules/communities/services/community-members.service.ts:197-553 | join, leave, role change, ban and unban keep the cached count exact |
| `CommunityProofs.ModerationRanks` | src/modules/communities/services/community-authorization.service.ts:75-137 | whoever may manage a community moderates it as owner, and conversely; a moderator is a joined member with that role; a banned member moderates nothing |
| `CommunityServices.CommunityStore.CreateCommunity` | src/modules/communities/services/communities.service.ts:46-112 | its answer to each refusal, and on success exactly the community asked for, at capacity 20 if free, else the one given or 500, with its owner as the one joined and counted member; other rows are as they were |
| `CommunityServices.CommunityStore.UpdateCommunity` | src/modules/communities/services/communities.service.ts:332-371 | succeeds exactly for a manager who asks no more than 20 of a free community; stores the given capacity and visibility, 20 for a free one, and keeps all else, count and flags included |
| `CommunityServices.CommunityStore.ArchiveCommunity` | src/modules/communities/services/communities.service.ts:413-433 | succeeds exactly for a manager; afterwards nobody, administrators included, can join, manage or moderate the community; other communities are as they were |
| `CommunityServices.CommunityStore.JoinCommunity` | src/modules/communities/services/community-members.service.ts:43-156 | lets in exactly an active user, into an ACTIVE community that is public or whom an administrator enters, who is neither in nor banned, below the capacity of whichever sponsorship that is live was found, or 20; the user is then joined, in the former role if there was one, and counted; nothing else changes |
| `CommunityServices.CommunityStore.LeaveCommunity` | src/modules/communities/services/community-members.service.ts:197-236 | succeeds exactly for a joined member who is not the owner, who becomes one who left, one member less; nothing else changes |
| `CommunityServices.CommunityStore.ChangeRole` | src/modules/communities/services/community-members.service.ts:320-355 | succeeds exactly for a manager and another active member, whose role is set; no count and nothing else changes |
| `CommunityServices.CommunityStore.BanMember` | src/modules/communities/services/community-members.service.ts:393-456 | succeeds exactly for a moderator and another member who is not the owner, and a moderator is banned by managers only; counts one less exactly if the member was joined, and the member cannot join any more; nothing else changes |
| `CommunityServices.CommunityStore.UnbanMember` | src/modules/communities/services/community-members.service.ts:491-524 | succeeds exactly for a moderator and a banned member, who becomes one who left; no count changes |
| `CommunityServices.CommunityStore.SweepExpiredSponsorships` | src/modules/communities/services/community-sponsorship-expiration.service.ts:17-93 | whatever the order of the rows found, the loop is the set-level sweep, and its count the size of that set |
| `CommunityServices.CommunityStore.End` | src/modules/communities/services/community-sponsorship-expiration.service.ts:32-56 | one sponsorship ends and its community is put back to a plain one of 20 exactly when no other one runs; counts and flags stay right |
| `CommunityProofs.SponsoredTerm` | src/modules/communities/services/community-sponsorship-expiration.service.ts:17-56 | a paid sponsorship raises the limit to its capacity exactly until its end date; the first sweep from then on, and none before, puts the community back to a plain one of 20 |
| `CommunityProofs.BanAnswers` | src/modules/communities/services/community-members.service.ts:393-456 | who may ban whom, and what every other request is told |
| `SponsorshipProofs.SweepExactly` | src/modules/communities/services/community-sponsorship-expiration.service.ts:20-56 | the sponsorships changed are exactly the ACTIVE ones past their end, a community is reset exactly when it lost one and has none left, the rest is untouched, and a second sweep does nothing |
| `SponsorshipProofs.ExpireOneMore` | src/modules/communities/services/community-sponsorship-expiration.service.ts:31-56 | one more turn of the loop after a set of them is the sweep of the larger set |
| `SponsorshipProofs.SweepEachIsSweep` | src/modules/communities/services/community-sponsorship-expiration.service.ts:31-86 | the loop over the rows found, in any order, ends in the set-level sweep |
| `SponsorshipProofs.LiveAfterSweep` | src/modules/communities/services/community-sponsorship-expiration.service.ts:38-45 | a sweep ends no live sponsorship and leaves no other one active |
| `SponsorshipProofs.FlagsAfterSweep` | src/modules/communities/services/community-sponsorship-expiration.service.ts:47-56 | right after a sweep of any reachable state a free community is marked sponsored exactly when it has a live sponsorship |
| `Coupons.CounterAgrees` | src/modules/c2b-marketplace/services/coupons.service.ts:312-349 | under every interleaving of validations, transactions and updates a coupon's counter is its number of redemptions |
| `Coupons.RedeemedOnce` | src/modules/c2b-marketplace/services/coupons.service.ts:314-320 | no attendee redeems a coupon twice and no idempotency key is recorded twice |
| `Coupons.LimitHoldsExactly` | src/modules/c2b-marketplace/services/coupons.service.ts:158-171 | all counts stay within their limits all through a run if and only if no update sets a limit below the count it finds |
| `Coupons.LimitCanBeUndercut` | src/modules/c2b-marketplace/services/coupons.service.ts:158-171 | for any limit below any number of redemptions, a run in which updateCoupon puts that limit onto a coupon redeemed that often |
| `Coupons.GrowthWithinLimit` | src/modules/c2b-marketplace/services/coupons.service.ts:322-336 | a count grows by one, only in the transaction, and only to within its limit |
| `Coupons.RedemptionSucceeds` | src/modules/c2b-marketplace/services/coupons.service.ts:280-368 | uninterrupted, an attendee who has not redeemed a redeemable coupon gets it, with one row and one count |
| `Coupons.RecordedKeyReplays` | src/modules/c2b-marketplace/services/coupons.service.ts:288-303 | once a key is recorded, every later call with it returns that redemption and changes nothing |
| `Coupons.LateDuplicateRollsBack` | src/modules/c2b-marketplace/services/coupons.service.ts:338-349 | a call that was validated before its key was recorded fails and leaves no trace |
| `Coupons.CouponStore.Create` | src/modules/c2b-marketplace/services/coupons.service.ts:62-112 | its answer to each refusal, and on success exactly the coupon drafted, with a code of its own, the earlier of the two ends and nothing redeemed |
| `Coupons.CouponStore.Update` | src/modules/c2b-marketplace/services/coupons.service.ts:130-171 | succeeds exactly for the provider of an undeleted coupon; given fields are taken over, an end only up to that of the event, all else is kept, code and count included; the count is then within the limit exactly if the limit in force admits what has been redeemed |
| `Coupons.CouponStore.ValidateCoupon` | src/modules/c2b-marketplace/services/coupons.service.ts:203-275 | answers a coupon exactly when it is good for the attendee: right code, event and service, active, not deleted, running, event and provider too, below its limit and not yet redeemed by the attendee |
| `Coupons.ValidationMeans` | src/modules/c2b-marketplace/services/coupons.service.ts:203-275 | the chain of checks with its lookups finds exactly the coupon that is good for the attendee |
| `Coupons.CouponStore.RedeemReads` | src/modules/c2b-marketplace/services/coupons.service.ts:288-310 | a recorded key is answered with its redemption; otherwise a call starts exactly when some coupon is good, and remembers that coupon, the attendee, the key and the coupon's discount; no table changes |
| `Coupons.CouponStore.RedeemWrites` | src/modules/c2b-marketplace/services/coupons.service.ts:312-368 | succeeds exactly while the coupon is redeemable, the attendee has not redeemed it and the key is unrecorded; a success adds one row, as the call remembers it, and one count within the limit; a failure leaves coupons and redemptions as they were |
| `Bookings.NeverNegativeNeverAbove` | src/modules/c2b-marketplace/services/c2b-bookings.service.ts:182-194 | in every reachable state booking_count is not negative and not above the live bookings |
| `Bookings.StepExactly` | src/modules/c2b-marketplace/services/c2b-bookings.service.ts:182-194 | from exact counters a step leaves all of them exact if and only if it neither revives a booking nor counts one down twice |
| `Bookings.ExactlyWhenNeverSkewed` | src/modules/c2b-marketplace/services/c2b-bookings.service.ts:271-298 | all through a run the counters are exact if and only if no step skews one |
| `Bookings.PoliteRunsAreExact` | src/modules/c2b-marketplace/services/c2b-bookings.service.ts:279-285 | when providers leave dead bookings alone and attendees cancel no rejected one, the counters are exact and the clamp at zero never takes effect |
| `Bookings.LimitHoldsExactly` | src/modules/c2b-marketplace/services/c2b-bookings.service.ts:72-94 | all through a run live bookings stay within the limit if and only if no step accepts or revives a booking of a full service, nor sets a limit below the live bookings it finds |
| `Bookings.LimitStepExactly` | src/modules/c2b-marketplace/services/c2b-bookings.service.ts:72-94 | the same for one step |
| `Bookings.ExactCountersGuard` | src/modules/c2b-marketplace/services/c2b-bookings.service.ts:72-94 | on a run that skews no counter only a limit set too low can break the limit |
| `Bookings.RevivalOverbooks` | src/modules/c2b-marketplace/services/c2b-bookings.service.ts:182-205 | a run with two live bookings of a service that allows one, its counter showing one |
| `Bookings.LoweredLimitOverbooks` | src/modules/c2b-marketplace/services/c2b-services.service.ts:169-189 | a run in which the provider lowers the limit to one over two live bookings, the counter exact |
| `Bookings.BookingStore.Create` | src/modules/c2b-marketplace/services/c2b-bookings.service.ts:39-113 | succeeds exactly for an available, running service of an active provider before its event ends whose counter is below the limit; a success adds that PENDING booking and one count; other rows are as they were |
| `Bookings.BookingStore.Respond` | src/modules/c2b-marketplace/services/c2b-bookings.service.ts:173-205 | succeeds exactly for the booking's provider, sets its status, and counts one down, not below zero, exactly when it stops being live; so the counter follows the live bookings, except that a revival leaves it one behind |
| `Bookings.BookingStore.Cancel` | src/modules/c2b-marketplace/services/c2b-bookings.service.ts:263-298 | succeeds exactly for the booking's attendee unless it is COMPLETED, cancels it, and counts one down, not below zero, unless it was cancelled already; so the counter follows the live bookings, except that cancelling a rejected one leaves it one behind |

## Left out

- SessionServices.SessionStore.GenerateTokens: the `existingFamilyId` parameter is not modelled, since no caller passes it; e-mail, roles and permissions in the payload are not modelled.
- SessionServices.SessionStore.RegisterAccount: phone numbers, roles of the catalogue, profiles and the mailed code are not modelled; registering the address of a deleted account makes another user.
- SessionServices.SessionStore.ConfirmPasswordReset: the challenge, the password rules and the hash come before it and are not modelled.
- SessionServices.SessionStore.HandleGoogleCallback: the exchange with Google is given by its outcome, the linked user and the user with the profile's address.
- Registrations.RegistrationStore.RegisterAttendee: the fallback for databases without row locks is not modelled; registering over an ATTENDED or NO_SHOW row is a conflict, as the insert breaks the unique key.
- CsvExport.RoundTrip: the reader takes as TEXTDATA every character but quote, comma, CR and LF, which is wider than the RFC's ASCII range; `String(value)` and `toISOString()` are applied before the model starts.
- AccessTokens.RevocationCoversForEver: the lifetime the JWT library gives a token is a parameter, and Redis keeps every entry for its time to live.
- CommunityServices.CommunityStore.End: also stands for the reset after a full refund; activation by the payment webhook and refunds are free steps of the runs.
- A login or Google sign-in suspended between its status check and its token issue; leave, ban, session update and capacity reduction cut at their reads; a rotation that falls between the reads and the writes of a logout: these requests are atomic where the table above says so.
- Users are found by id where the services look them up by e-mail address; trimming and case folding of codes and addresses are not modelled, and the normalised coupon code is a given string.
- Decimal digit strings too long for exact JavaScript numbers, UTF-16 code units outside the basic plane, and daylight-saving shifts in the seven-day expiry.
- Account, role, event and service lookups of other modules come in as arguments: the outcome of the check, or the value found.
- Audit log, outbox, e-mail, queue jobs, timestamps that no guard reads, free text, session speakers, likes, meetups, one-time codes, search and pagination: they do not feed back into the tables modelled here.
- The clamping of coupon and service expiry to the end of the event is not an invariant: event dates can be shortened afterwards.
- PostgreSQL isolation below the granularity of one transaction.
