# A verified model of the OLCRTC panel

This Dafny 4.11 project models the logic of a Go panel that runs OLCRTC instances under
systemd and publishes subscriptions to them, and proves properties of that model.  SQLite
rows, files, service states and the browser worker's state file are abstract maps and values;
every place where a step can fail is an explicit choice that the properties range over.

| file | what it models |
|---|---|
| `Text.dfy`, `Percent.dfy`, `GoUrl.dfy`, `Sorting.dfy` | the parts of Go's `strings`, `strconv`, `net/url` and `sort` the panel relies on; a string is a sequence of bytes |
| `ClientUri.dfy`, `StandardUri.dfy`, `StandardAccepts.dfy`, `StripToken.dfy` | the two instance URI formats, printed and cut apart, and the token stripper |
| `InstanceConfig.dfy`, `InstanceManager.dfy` | defaults, validation and rendering of an instance, and the manager as a transaction over row, file and unit |
| `Traffic.dfy`, `Calendar.dfy`, `CivilDays.dfy` | the traffic ledger with its resuming collector, and scheduled resets |
| `Socks.dfy`, `SocksProgress.dfy`, `SocksRefusal.dfy` | the SOCKS5 bridge between a browser and an authenticating upstream |
| `Handoff.dfy`, `HandoffOrder.dfy`, `HandoffStates.dfy`, `Monitor.dfy`, `Operations.dfy` | the concurrent parts: token hand-off, monitor generations, background operations |
| `Capture.dfy`, `Completion.dfy`, `Wizard.dfy`, `WizardOutcomes.dfy`, `WizardHandlers.dfy`, `WizardRaces.dfy` | the first-run wizard |
| `FeedText.dfy`, `Feed.dfy`, `FeedCarries.dfy`, `Entries.dfy` | subscription feeds, the order of their entries and their revision |
| `Limiter.dfy`, `ClientAddress.dfy`, `FixedPoint.dfy`, `Mount.dfy` | rate limits, client addresses, fixed-point times, mount paths |

Where the program changes things step by step the model has a class or a loop, proved against
a function of the inputs or of the old state; the lemmas are about those functions.  The
concurrent parts are state machines whose steps are the program's atomic sections.  Lemmas whose
statement would invite automatic induction switch it off: no proof relies on it.

## What the proofs found

Each of these is a lemma of the model, not a conjecture.

- `StripAuthToken` is not idempotent on URIs whose first `#` precedes the first `?`: the guard
  for that case repeats the tail, so each further call makes the text longer
  (`StripToken.StripIdempotentIff`, `StripToken.EarlyFragmentGrows`).  Its only caller passes
  printed URIs, which never have such an early fragment (`Feed.NotEarly`).
- `Validate` never looks at the QR-recovery text, so the OLCBOX URI of a validated instance
  need not be accepted or cut back into its fields.  It is cut back exactly for a default or
  clean text (`StandardUri.StandardRoundTrip`); it is accepted exactly when the text reads as a
  value with further options behind it (`StandardAccepts.AcceptsExactly`), so a text can add
  an option no instance prints (`StandardAccepts.BitrateInjected`).
- `Validate` allows FPS up to 240 and batch up to 4096, while the client URI's validator stops
  at 120 and 64 (`ClientUri.ClientRoundTrip`).
- An update or a creation whose closing read of the unit's state fails is reported as an error
  although it was committed.  `UpdateWBToken` then counts the instance as failed while its
  token is new (`InstanceManager.Manager.UpdateWBToken`), and `syncWBTokenSubscriptions`, which
  looks at the updated ones only, does not touch its feeds; a completion of the wizard reports
  a name as not created although it is there (`Completion.ReportedFailures`).
- One linked instance can make a whole feed fail (`Feed.BrokenExactly`).  The feed's guard for WB
  instances without a token also looks at the subscription's flag, the printer only at the
  instance's (`Feed.TokenUnchecked`); and the printer refuses a blank `client_id` or one with
  a line break, which creation accepts and stores (`Feed.CreatedIdentity`).
- A feed cannot be read back exactly when an enabled entry is an accepted client URI entered with
  a line break, or links an OLCBOX URI to a video-channel instance whose QR-recovery text has
  one, or the last included entry is a manual one without traffic whose last text is nothing
  but blanks, which the final trimming cuts (`Feed.FeedRecovers`); all three exist
  (`Feed.ManualBreaks`, `Feed.RecoveryUnchecked`, `Feed.BlankComment`).
- `LastTrafficCursor` orders by formatted time.  That order is wrong exactly where the later
  of two fractions of one second continues the digits of the earlier, as 0.15 s does those of
  0.1 s (`Traffic.TextOrderExact`), so the named row is the newest exactly when no other row
  continues its fraction (`Traffic.NamedIsNewest`); resuming still leaves no gap (`Traffic.NoGaps`).
- Deleting an instance takes its ledger rows with it.  When these are the last ones, and only then,
  the collector can start behind lines that no session has reached (`Traffic.DeletionOpensGap`).
- A line whose transaction failed is counted after all exactly when a later session is handed
  it and its transaction works (`Traffic.RecordedExactly`); a session that resumes behind the
  cursor of a later line is not handed it (`Traffic.HandedAgain`, `Traffic.FailedEventIsSkipped`).
- A token published while a consumer is between looking at the state file and writing it is
  overwritten and lost: before the erase of a stored token, before the erase of one that could
  not be stored, and before the final rewrite (`Handoff.WriteOverwritesUnsaved`,
  `Handoff.OverwrittenIsLost`, `Handoff.RewriteLosesToken`).
- Tokens are applied outside the mutex, so a later one can overtake an earlier one, which then
  stays (`HandoffOrder.StaleTokenStays`); the exact condition is `HandoffOrder.AppliedInOrder`.
- The window limiter lets through at most 2 * maximum - 1 calls in one window's time, one less
  than twice the maximum, and this is reached (`Limiter.WindowLimit`).
- `parseUnixSecondsMicros` accepts more than decimal numbers: a plus before the seconds, a sign
  in the fraction, also alone, and any text behind six characters of it
  (`FixedPoint.UnixExactly`, `FixedPoint.StraySigns`).
- A dismissal can leave a forced wizard showing, because the failure of its third write is
  ignored (`Wizard.DismissHides`).
- Refreshes and drafts of the wizard read and save in two locked sections, so a save drops the rooms
  that others stored since its read (`WizardRaces.LostExactly`, `WizardRaces.RaceLosesRoom`).
- Once Telemost is skipped, a completion request that names a Telemost room creates no instance
  for it (`WizardOutcomes.SkipLasts`).

## Model

| member | source | states |
|---|---|---|
| `Percent.ClientEscapeRoundTrip` | internal/instance/uri.go:406-408 | the two passes of `clientEscape` equal one-pass percent-encoding (sections 2.1 and 2.3 of RFC 3986), are undone by decoding in a path and in a query, and leave no delimiter |
| `Percent.ClientEscapeInjective` | internal/instance/uri.go:406-408 | different byte strings never print alike |
| `GoUrl.ParseQueryRoundTrip` | internal/instance/uri.go:172-176 | reading a printed query gives back its names and values in order |
| `ClientUri.AssembleCuts` | internal/instance/uri.go:134-176 | cutting a printed client URI with the URL and query parser returns provider, room, parameters and name |
| `ClientUri.ClientRoundTrip` | internal/instance/uri.go:117-256 | every field of a printed client URI comes back exactly; read under the names of the validator the parameters are key, transport, identity, FPS and batch (given for vp8 alone) and DNS of the instance, and a token is given if and only if it is a WB one whose flag does not omit it, and is then its token; the validator accepts the URI if and only if it fits 16 KiB and FPS, batch and DNS are within the limits of the client, which are narrower than those of `Validate` |
| `ClientUri.PrintInjective` | internal/instance/uri.go:117-150 | two instances that print alike agree on provider, room, name and every parameter |
| `StripToken.StripAuthToken` | internal/instance/uri.go:377-404 | the loop that filters query parts computes `Strip` |
| `StripToken.StripRemovesToken` | internal/instance/uri.go:377-404 | after stripping no query part carries the token, all other parts stay in order, and prefix and fragment are untouched |
| `StripToken.StripIdempotentIff` | internal/instance/uri.go:377-404 | stripping twice is stripping once if and only if the first `#` is not before the first `?`, or the text has no `@` and is left alone |
| `StripToken.EarlyFragmentGrows` | internal/instance/uri.go:377-404 | on a URI whose first `#` is before its first `?` every further stripping makes the text longer |
| `StripToken.StrippingEqualsOmitting` | internal/instance/uri.go:134-149 | for every WB instance with a token, stripping its URI gives the URI of the same instance with the omit flag |
| `StandardUri.BuildComment` | internal/instance/uri.go:27-40 | the loop over the comment and the joining of its words compute `StandardComment` |
| `StandardUri.CommentIsClean` | internal/instance/uri.go:27-40 | any display text becomes a comment without delimiter, line break or outer white space |
| `StandardUri.CommentWords` | internal/instance/uri.go:27-40 | the words of a display text come back as its comment, each of the six delimiters turned into a dash and nothing else changed |
| `StandardUri.RenderValues` | internal/instance/uri.go:94-106 | whatever order the option map is walked in, the printed text is the one of the options sorted by name |
| `StandardUri.ValidateOptions` | internal/instance/uri.go:357-372 | the loop over the options of a payload accepts and returns what `CutOptions` defines |
| `StandardUri.CutOptionsRoundTrip` | internal/instance/uri.go:357-372 | cutting printed options gives back exactly the map they were printed from |
| `StandardUri.CutTransportRoundTrip` | internal/instance/uri.go:330-372 | cutting a printed transport with its bracketed payload gives back transport and options |
| `StandardUri.CutUriClean` | internal/instance/uri.go:279-372 | an accepted OLCBOX URI carries only trimmed, non-empty option values without delimiters |
| `StandardUri.StandardRoundTrip` | internal/instance/uri.go:16-106 | the cuts of a printed OLCBOX URI return provider, transport, non-default options, room, key and cleaned comment if and only if the QR-recovery text is the default or clean; then, for every transport, reading each option by its name gives the value of the instance, an option is absent exactly when its value is the default (the tile options also when the codec is not tile), and the validator accepts the URI up to its size limit |
| `StandardAccepts.AcceptsExactly` | internal/instance/uri.go:16-106 | for every QR-recovery text but the default: the URI is accepted, up to its size limit, if and only if the text holds no delimiter and no line break and, read where it stands, is a value with possibly further acceptable options behind it that the instance does not print itself |
| `StandardAccepts.BitrateInjected` | internal/instance/uri.go:357-372 | any clean value with a bit rate behind it is such an unclean text, so the accepted URI can carry an option no instance prints |
| `InstanceConfig.NormalizeIdempotent` | internal/instance/config.go:21-53 | a normalised room is normalised again to itself, link or not |
| `InstanceConfig.DefaultsIdempotent` | internal/instance/config.go:56-118 | a defaulted record is a fixed point of the defaults, whatever its secrets hold |
| `InstanceConfig.RoomForms` | internal/instance/config.go:21-45 | a Telemost room given as digits, as digits with blanks between them, or as the link to it is normalised to the digits; rooms of other providers stay |
| `InstanceConfig.RoomOther` | internal/instance/config.go:21-45 | everything else stays as it is, but for blanks around it |
| `InstanceConfig.DefaultsGrant` | internal/instance/config.go:56-118 | a defaulted record holds every public field that was given and the documented default of every one that was not |
| `InstanceConfig.DefaultsValid` | internal/instance/config.go:56-245 | a request that leaves options and optional texts to the defaults is valid for every provider and transport |
| `InstanceConfig.RenderedSays` | internal/instance/config.go:366-408 | what is read at each path of the rendered document is the setting of the record: identity, proxy, liveness, lifecycle, shaping and, for each transport, every option, and the blocks of the other transports are absent |
| `InstanceManager.PreparedRow` | internal/instance/manager.go:87-120 | a row prepared for an update is defaulted, valid once decrypted, and follows the request: every public field as given or its default, the identity kept, and each secret cleared, replaced by the one given, or kept as stored |
| `InstanceManager.PreparedExactly` | internal/instance/manager.go:87-120 | a row is prepared exactly when the instance is known, the secrets kept can be read, those given can be sealed, and the record that holds what the request asks for is valid |
| `InstanceManager.FilesSay` | internal/instance/manager.go:48-240 | in every state the manager keeps consistent, what a runtime reads out of an instance's file are the settings of its decrypted row, setting by setting |
| `InstanceManager.KeyReadBack` | internal/instance/manager.go:569-582 | the key that is read is the one written, and whatever is read has 64 characters and stands in the file as it is |
| `InstanceManager.Manager.StoreBoth` | internal/instance/manager.go:126-133 | file and row are written in this order, and a failed row write puts the old file back |
| `InstanceManager.Manager.PutBack` | internal/instance/manager.go:140-145 | the rollback of a failed restart restores the old row and the old file |
| `InstanceManager.Manager.UpdateSteps` | internal/instance/manager.go:87-148 | with rollback writes working, the update commits row and rendering exactly when the forward path reaches its end, otherwise both are the old ones; a unit whose state could be read runs with the file on disk |
| `InstanceManager.Manager.Update` | internal/instance/manager.go:87-148 | row and file are both new or both old and all agree afterwards; a committed row holds every public field of the request or its default, the identity and the secrets as asked, and its file says so; it succeeds exactly when it committed and the closing read of the unit's state works, so an error may also follow a committed change |
| `InstanceManager.Manager.ChangeRoom` | internal/instance/manager.go:324-333 | only the room changes, to its normalised form, exactly when the update commits, and both stored secrets stay; an error may follow a committed change |
| `InstanceManager.Manager.RotateClientID` | internal/instance/manager.go:212-240 | the identity alone changes, exactly when every step succeeds; otherwise the row is the old one |
| `InstanceManager.Manager.RotateKey` | internal/instance/manager.go:181-209 | the key file holds the new key exactly when every step succeeds, otherwise the old key again |
| `InstanceManager.Manager.UpdateWBToken` | internal/instance/manager.go:336-365 | every WB instance is reported once; the token of an instance changes, and nothing else of any instance, exactly when its update commits; it is reported as updated exactly when the closing read of its state works too, so a reported failure changed nothing or the token alone |
| `InstanceManager.Manager.UpdateToken` | internal/instance/manager.go:349-360 | one instance gets the token and nothing else changes exactly when the update commits; an error follows otherwise, and also when only the closing read fails |
| `InstanceManager.Manager.Create` | internal/instance/manager.go:48-84 | an instance is there afterwards exactly when the request is valid, there is room, the secrets can be sealed, name and identity are free and every write works; its row holds what was asked for and its file says so; otherwise row, file and key are as before; an error may also be returned for an instance that is there, when only the closing read of its unit failed |
| `InstanceManager.Manager.Insert` | internal/instance/manager.go:69-82 | the writing half of a creation: row, key and file, or none of them |
| `InstanceManager.Manager.Reconcile` | internal/instance/manager.go:460-500 | whatever the files were: if every row renders and every write works each file carries the current data path; otherwise exactly the stated files are left, and every readable non-empty old file whose restoration works is back |
| `InstanceManager.Manager.RenderAll` | internal/instance/manager.go:468-489 | before the first write every row is rendered, and exactly the readable, non-empty old files are backed up |
| `InstanceManager.Manager.WriteAll` | internal/instance/manager.go:490-499 | files are written in map order until one fails; then the backups are written back, except those whose restoration fails |
| `InstanceManager.ReconcileRepairs` | internal/instance/manager.go:460-500 | a finished reconciliation makes every stored row agree with its file, which says the row's settings and names the current data path, whatever the files were; and stored rows always render |
| `InstanceManager.ReconcileConsistent` | internal/instance/manager.go:460-500 | afterwards the whole state is consistent again, so missing, empty and stale files are repaired |
| `InstanceManager.CommitKeeps` | internal/instance/manager.go:87-148 | committing a prepared row with its rendering keeps every row renderable and every file the rendering of its row |
| `InstanceManager.RewriteKeeps` | internal/instance/manager.go:460-500 | rewriting any of the files for a new data path keeps rows and files in agreement |
| `InstanceManager.RunKeeps` | internal/instance/manager.go:48-240 | over any run of creations, updates, identity and key changes, removals and (partial) rewrites, every row stays renderable and every file agrees with its row |
| `InstanceManager.StepsKeep` | internal/instance/manager.go:48-240 | what the methods of the manager do, one after another, keeps rows and files in agreement: each of them ensures that its outcome comes from the old state by such changes |
| `InstanceManager.DraftRenderable` | internal/instance/manager.go:48-68 | the row of a creation passes validation once decrypted and holds every field of the request or its default, the proxy, and the token given or else, for WB, the stored one that can be read |
| `InstanceManager.SealedStores` | internal/store/instances.go:20-24 | a creation stores the identity of the request as it is, and draws one only when it is empty; the stored row is renderable |
| `InstanceManager.PreparedToken` | internal/instance/manager.go:349-360 | an update that only carries a token changes the token and nothing else |
| `InstanceManager.RoomOnly` | internal/instance/manager.go:324-333 | an update with emptied secrets and a new room changes the room alone |
| `Traffic.Store.ApplyTrafficEvent` | internal/store/traffic.go:15-43 | one transaction adds the ledger row and the counter change together, or changes nothing; a known cursor is ignored |
| `Traffic.Store.ResetTraffic` | internal/store/traffic.go:45-55 | the counter is cleared with a new period start, and the ledger stays |
| `Traffic.Store.LastTrafficCursor` | internal/store/traffic.go:80-92 | the row named is the last inserted one among those with the greatest time text |
| `Traffic.Store.RunJournal` | internal/traffic/traffic.go:101-137 | the loop over journal lines applies the parsed ones in order and ignores errors |
| `Traffic.LedgerCorrect` | internal/store/traffic.go:15-43 | over any history the ledger holds each delivered, acceptable cursor exactly once, with the event of its first working delivery |
| `Traffic.ExactlyOnce` | internal/store/traffic.go:15-55 | over any history of deliveries, repetitions and resets, each counter is the sum over first deliveries of distinct cursors since its last reset, and total is upload plus download |
| `Traffic.Stamped` | internal/store/traffic.go:15-55 | over any such history the counter names the time of the last event that is part of it, if there is one, and its period began at the last clearing or with the instance |
| `Traffic.ResumesInTime` | internal/traffic/traffic.go:82-99 | wherever the saved row is, both ways of resuming start at or before the first line no session has reached |
| `Traffic.SinceExactly` | internal/traffic/traffic.go:95-99 | resuming by time asks for a whole second that lies at least one second before the saved row and less than two |
| `Traffic.HandedAgain` | internal/traffic/traffic.go:82-137 | when a resuming session is handed a line again: behind a saved cursor exactly when the saved row lies before the line, by time exactly when the second of overlap reaches back to it |
| `Traffic.RecordedExactly` | internal/traffic/traffic.go:82-137 | over any run of sessions with any transactions failing and any instances deleted, a line has its row in the end exactly when it had one before and its instance was not deleted, or its instance is there, it is countable, and some session that was handed it had a working transaction for it |
| `Traffic.NoGaps` | internal/traffic/traffic.go:82-137 | as long as every session finds a row, however often the collector crashes, by whichever path and saved row it resumes, whatever transactions fail and instances are deleted, every line up to the furthest one reached was handed to some session |
| `Traffic.DeletionOpensGap` | internal/store/migrations/001_init.sql:58-66 | a deletion, which takes the ledger rows of its instances with it, lets a next session start behind lines nobody reached if and only if it takes the last rows |
| `Traffic.NothingLost` | internal/traffic/traffic.go:82-137 | then a countable line the sessions went past, of an instance still there, has its row if no session that was handed it had its transaction fail |
| `Traffic.FirstSession` | internal/traffic/traffic.go:82-137 | the rows left by the first session of an empty ledger are lines it was handed |
| `Traffic.FailedEventIsSkipped` | internal/traffic/traffic.go:126-132 | a run in which a failed transaction is dropped and resuming behind the saved cursor does not bring its line back |
| `Traffic.Accounted` | internal/traffic/traffic.go:82-137 | over sessions with resets and deletions at any point: the counter of an instance still there is the sum over first working deliveries since its last reset, and a line has its row exactly when it is countable, its instance there, and some session had a working transaction for it |
| `Traffic.TextOrderExact` | internal/store/traffic.go:80-92 | the text order gets two times wrong exactly when they share a second and the kept digits of the later fraction continue those of the earlier one, which has none on a whole second |
| `Traffic.NamedIsNewest` | internal/store/traffic.go:80-92 | the row the query names has the greatest time if and only if no other row continues the digits of its fraction in the same second |
| `Traffic.TextOrderDiffers` | internal/store/traffic.go:80-92 | two families of times in the wrong order: a whole second and its fractions, and 0.1 s and 0.15 s of any second |
| `Calendar.CivilRoundTrip` | internal/traffic/traffic.go:49-66 | every day number is the number of its civil date, and month and day are in range |
| `CivilDays.NextDay` | internal/traffic/traffic.go:49-66 | day 0 is Thursday, 1 January 1970, and each day is followed by the next one of the Gregorian calendar, with its month lengths and leap years, and of the week |
| `CivilDays.CivilOfNumber` | internal/traffic/traffic.go:49-66 | a date that exists is the date of its day number |
| `Calendar.BoundaryStartsPeriod` | internal/traffic/traffic.go:49-66 | the boundary is midnight of the same day, of the Monday of the same week, or of day 1 of the same year and month, also when the week starts in another month |
| `Calendar.BoundaryIsFirst` | internal/traffic/traffic.go:49-66 | the boundary lies in the same period, and no moment of the period lies before it |
| `Calendar.SamePeriodSameBoundary` | internal/traffic/traffic.go:49-66 | moments of one period have one boundary |
| `Calendar.TickCatchesUp` | cmd/olcrtc-panel/main.go:423-446 | after a tick that works the period start is never before the boundary of that period, whatever failed before |
| `Calendar.DueExactly` | cmd/olcrtc-panel/main.go:423-446 | a tick resets exactly when it works, the account began before the current period, and no reset, scheduled or by hand, has happened in the period yet; so a failed reset is made up for by the next tick that works |
| `Calendar.OneResetPerPeriod` | cmd/olcrtc-panel/main.go:423-446 | for nondecreasing ticks each day, week or month sees at most one scheduled reset, whatever is reset by hand in between |
| `Calendar.ResetTick` | cmd/olcrtc-panel/main.go:423-446 | one turn of the scheduler resets exactly the due counters whose reading and resetting work, and leaves the ledger |
| `Socks.SocketReader.OnData` | internal/assets/files/wb/worker.mjs:28-80 | arriving bytes complete a waiting read with exactly its length or wait; nothing is lost |
| `Socks.SocketReader.OnFail` | internal/assets/files/wb/worker.mjs:28-80 | an end or an error rejects a waiting read and loses no byte |
| `Socks.SocketReader.Read` | internal/assets/files/wb/worker.mjs:28-80 | a read returns the next bytes of the stream, waits, or is rejected when the socket failed or another read waits |
| `Socks.SocketReader.Release` | internal/assets/files/wb/worker.mjs:28-80 | the bytes taken and the released remainder are the whole stream |
| `Socks.MessagePrefix` | internal/assets/files/wb/worker.mjs:82-90 | no greeting, request or reply is a proper prefix of another, so a stream cuts in one way (sections 3 to 6 of RFC 1928) |
| `Socks.ClientReadKeepsInv` | internal/assets/files/wb/worker.mjs:150-175 | every read of the handshake with the client keeps the account of both streams |
| `Socks.UpstreamReadKeepsInv` | internal/assets/files/wb/worker.mjs:105-198 | every read of the handshake with the upstream keeps the account of both streams |
| `Socks.StepKeepsInv` | internal/assets/files/wb/worker.mjs:105-198 | chunks, connections, reads and failures in any order keep the account of both streams |
| `Socks.Transparent` | internal/assets/files/wb/worker.mjs:105-198 | for any chunking and interleaving, once relaying the upstream was sent the login, the request verbatim and every later client byte, and the client the acceptance, the successful reply verbatim and every later upstream byte |
| `Socks.ChunkingIrrelevant` | internal/assets/files/wb/worker.mjs:28-198 | what is written to both sides depends on the two byte streams alone |
| `SocksRefusal.Refusals` | internal/assets/files/wb/worker.mjs:92-198 | a bridge closes for one of three reasons that fix what the client gets: a stream at fault, by the refusal of section 3 or 6 of RFC 1928 that fits it, with nothing sent to the upstream if it is the client's, and a failed reply verbatim; a client gone or an end while relaying, nothing more; any other end of the handshake, a general failure |
| `SocksRefusal.ClosedStays` | internal/assets/files/wb/worker.mjs:92-198 | a closed bridge writes no more |
| `SocksProgress.Reaches` | internal/assets/files/wb/worker.mjs:105-198 | the bridge never gets stuck: at any point of any run without a failure, however chunks, reads and the connection were interleaved, if what arrived begins two well-formed streams, the rest of them, the connection and twelve reads lead to relaying, with both sides sent exactly what transparency says |
| `SocksProgress.StaysOpen` | internal/assets/files/wb/worker.mjs:105-198 | no run without a failure whose streams are the beginning of well-formed ones is ever closed |
| `Handoff.NextKeepsInv` | internal/server/settings.go:1091-1168 | each atomic step of publishing, reading, saving, erasing, applying and answering keeps the hand-off invariant |
| `Handoff.AppliedAtMostOnce` | internal/server/settings.go:1091-1147 | in every interleaving each published token reaches `UpdateWBToken` at most once, and verbatim |
| `Handoff.StoredThenErasedThenApplied` | internal/server/settings.go:1104-1133 | a token is in the settings store before the success path erases it, and erased before it is applied |
| `Handoff.AnswersCarryNoToken` | internal/server/settings.go:1091-1168 | no state returned by a consumer or a reader carries a token |
| `HandoffStates.StatesAreTrue` | internal/server/settings.go:1091-1168 | in every interleaving the state file is a publication of the worker, or one without its token in a phase that is true of it: applying only once stored, success only once applied; every other field is kept; and every answer repeats a publication without a token or reports one truthfully |
| `Handoff.WriteOverwritesUnsaved` | internal/server/settings.go:1091-1147 | at each of the three writes of a consumer (erasing a stored token, erasing one that could not be stored, the final rewrite) the file holds a token nobody stored exactly when the last outside write since the consumer looked was a publication with a token, or there was none and the token it looked at is unsaved |
| `Handoff.OverwrittenIsLost` | internal/server/settings.go:1091-1147 | a token that one of the three writes overwrites before it was stored is never stored or applied afterwards, in any continuation |
| `Handoff.RewriteLosesToken` | internal/server/settings.go:1134-1146 | such a run: a token published between the recheck and the final rewrite of another is lost |
| `HandoffOrder.AppliedInOrder` | internal/server/settings.go:1091-1147 | once no token is pending, the applied tokens are in the order of their publication if and only if no consumer applied one while another still held an earlier one it had erased |
| `HandoffOrder.StaleTokenStays` | internal/server/settings.go:1091-1147 | whenever a consumer is about to apply a token, a newer one can be published and applied first, and the older one is applied last |
| `Monitor.SessionMonitor.Start` | internal/server/settings.go:1019-1029 | the locked section of a start takes the next generation and hands out the previous cancel function |
| `Monitor.SessionMonitor.Stop` | internal/server/settings.go:1033-1038 | the locked section of a stop takes the next generation and clears the cancel function |
| `Monitor.SessionMonitor.Leave` | internal/server/settings.go:1053-1059 | an exiting monitor clears the cancel function only if its generation is the current one |
| `Monitor.NextKeepsInv` | internal/server/settings.go:1019-1063 | each step of starts, stops, cancellations, launches and exits keeps the generation invariant |
| `Monitor.CancelBelongsToCurrent` | internal/server/settings.go:1019-1063 | a cancel function is set exactly while the monitor of the current generation has not exited, and nobody has cancelled that monitor or is about to |
| `Monitor.OneUncancelledMonitor` | internal/server/settings.go:1019-1063 | the only running monitor that is neither cancelled nor about to be is the current one |
| `Monitor.QuietMeansCancelled` | internal/server/settings.go:1019-1063 | once every caller is through, every running monitor but the current one is cancelled |
| `Monitor.NewestKeepsItsCancel` | internal/server/settings.go:1019-1063 | exits of older monitors never clear the cancel function of the newest; only a later call or its own exit does |
| `Operations.OneWorkerPerKind` | internal/server/settings.go:681-720 | each kind has at most one live worker, has one exactly while it shows as running, and every recorded result carries the start time of its own operation |
| `Operations.StartRefused` | internal/server/settings.go:698-704 | a start is refused exactly when a worker of that kind is alive |
| `Operations.RecordedAsCollected` | internal/server/settings.go:681-720 | what a worker collects is recorded for its kind with the start time of its own operation, whatever happens between |
| `Capture.CleanRooms` | internal/server/auto_setup.go:175-193 | the loop with its seen set and early end computes the collection of the trimmed acceptable rooms |
| `Capture.CleanIds` | internal/server/auto_setup.go:739-756 | the loop computes the collection of the positive IDs |
| `Capture.CollectKeeps` | internal/server/auto_setup.go:175-193 | a collection is short, distinct and acceptable, and misses an acceptable value only when it is full |
| `Capture.RoomsKept` | internal/server/auto_setup.go:175-193 | cleaning a stored list changes nothing, and cleaning it with more rooms keeps it as a prefix |
| `Capture.RoomsFit` | internal/server/auto_setup.go:175-193 | the rooms the wizard takes are those an instance can have, up to 512 runes |
| `Capture.ThreeRooms` | internal/server/auto_setup.go:175-193 | three different rooms fill the list, whatever follows |
| `Capture.CleanTextIsClean` | internal/server/auto_setup.go:195-211 | a cleaned text holds at most the given number of runes and no line break |
| `Capture.CleanTextKept` | internal/server/auto_setup.go:195-211 | a text that is clean and short enough stays as it is |
| `Completion.MarkStep` | internal/server/auto_setup.go:157-164 | a mark is appended only if it is not there |
| `Completion.OnlyMissingCreated` | internal/server/auto_setup.go:643-737 | completing keeps every instance and stores, in order, exactly the wanted names that are missing and for which `Create` stores one |
| `Completion.CompletionAdds` | internal/server/auto_setup.go:643-737 | every instance a completion adds is where it belongs: under the i-th WB name a WB instance with the i-th captured room and the frame rate of that index, and a Telemost instance with the Telemost room; no two added ones share a name or a WB room |
| `Completion.RepeatedCompletion` | internal/server/auto_setup.go:643-737 | however often completing is repeated and whatever creations return, no instance is lost, no name is created twice, and a missing name is there in the end exactly when some attempt that wanted it stored one |
| `Completion.ReportedFailures` | internal/server/auto_setup.go:643-737 | a missing wanted name is reported as not created exactly when `Create` returned an error, and its instance is there all the same exactly when only the closing read had failed |
| `Completion.FoundListed` | internal/server/auto_setup.go:643-737 | an instance that is there under a wanted name and provider is listed as created, so a repetition picks up what an earlier attempt left |
| `Wizard.NextKeepsSound` | internal/server/auto_setup.go:260-496 | every handler stores only states with clean rooms, distinct marks, a valid step and a progress of 0 to 100 |
| `Wizard.StoredStatesAreSound` | internal/server/auto_setup.go:108-119 | over every run of handlers, with any write to the store failing, the stored state stays sound |
| `Wizard.CapturedRoomsStay` | internal/server/auto_setup.go:559-624 | rooms already captured stay in their places through any number of refreshes, drafts, skips and dismissals that do not interleave |
| `WizardRaces.RoomsStay` | internal/server/auto_setup.go:260-306 | with reading and saving as two locked sections, captured rooms stay in every interleaving of refreshes, drafts, skips and dismissals as long as no handler stores over rooms that others stored since it read |
| `WizardRaces.LostExactly` | internal/server/auto_setup.go:559-624 | a save drops a captured room exactly when the handler had not read it and does not bring it itself; only a full list may also drop a room it brings |
| `WizardRaces.RaceLosesRoom` | internal/server/auto_setup.go:559-624 | such a run: a refresh captures a room, and a draft that had read before it saves another one |
| `WizardRaces.CurrentIsHandler` | internal/server/auto_setup.go:121-131 | a handler that still has the stored state before it does what the one-step handler does |
| `Wizard.NoInstanceTwice` | internal/server/auto_setup.go:643-737 | over every run of the wizard no instance is lost and no name is created twice |
| `Wizard.HiddenUntilTriggered` | internal/server/auto_setup.go:215-234 | once done, the wizard never shows again unless it is triggered |
| `Wizard.DismissHides` | internal/server/auto_setup.go:456-474 | exactly when a dismissal hides the wizard: all three writes if it was forced, otherwise the first two |
| `WizardHandlers.AutoSetup.FinishSetup` | internal/server/auto_setup.go:643-737 | the loops over rooms, Telemost and starts, and the three writes, have the outcome of `Finish`; the stored instances have grown by ones that are where they belong, each WB one with the room and frame rate of its name, no two with the same WB room; and a success means what `WizardOutcomes.FinishOutcome` says |
| `WizardOutcomes.FinishOutcome` | internal/server/auto_setup.go:643-737 | a completion succeeds exactly when the list and all writes work; whatever fails, every instance added has the provider, room and frame rate of its name; after a success the wizard is hidden, one instance for each room and one for a Telemost room that was not skipped is there unless `Create` failed for its name, and no trouble is shown if and only if no order met a foreign instance or an error and everything to be started did start |
| `WizardHandlers.AutoSetup.StartSetup` | internal/server/auto_setup.go:260-341 | a draft keeps captured rooms as a prefix and takes the acceptable new ones; a fresh start keeps the rooms of the request alone, and creates instances only if the request names three rooms and settles Telemost and the components; no instance is lost or doubled |
| `WizardHandlers.AutoSetup.RunSetup` | internal/server/auto_setup.go:498-557 | the automatic part completes exactly when three rooms are there and nothing is left to ask or install; then, if all works, the wizard is hidden and all three WB names are there; otherwise it changes the stored state alone and stays in progress |
| `WizardHandlers.AutoSetup.Refresh` | internal/server/auto_setup.go:559-624 | a refresh touches the stored state alone: a reported WB room is appended exactly when the wizard listens and the room is acceptable, new and one of the first three, a Telemost room replaces the last one, and every other room stays |
| `WizardHandlers.AutoSetup.CompleteSetup` | internal/server/auto_setup.go:382-454 | with all writes working a completion hides the wizard, has every wanted name there unless `Create` failed for it, and shows no trouble exactly when nothing went wrong; after a failure the stored state says so and keeps the rooms; no instance is lost or doubled |
| `WizardHandlers.AutoSetup.SkipTelemost` | internal/server/auto_setup.go:356-380 | skipping keeps rooms and instances, clears the Telemost room, leaves no Telemost step behind, or changes nothing if the write fails |
| `WizardOutcomes.SkipLasts` | internal/server/auto_setup.go:356-454 | after a skip no run of handlers creates a Telemost instance, not even a completion request that names a room, until the wizard is started anew or triggered |
| `WizardHandlers.AutoSetup.DismissSetup` | internal/server/auto_setup.go:456-474 | a dismissal keeps instances and rooms, and the wizard shows afterwards exactly when it was forced and one of three writes failed, or it showed before and one of the first two failed |
| `WizardOutcomes.LoadedResumes` | internal/server/auto_setup.go:72-106 | a reader gets what was stored; without a stored state the beginning; and in place of an interrupted creation the step before it, with everything captured so far |
| `WizardOutcomes.SavedAsGiven` | internal/server/auto_setup.go:108-119 | what is stored has its progress brought into 0 to 100 and is otherwise as given |
| `WizardOutcomes.TriggerOutcome` | internal/server/auto_setup.go:478-493 | a trigger shows the wizard anew whatever instances are there, exactly when its three writes succeed; a failed write stops it |
| `WizardOutcomes.StatusOutcome` | internal/server/auto_setup.go:215-234 | a status request changes at most the mark that an installation with instances is not new, and never whether the wizard shows |
| `WizardOutcomes.OverRestarts` | internal/server/auto_setup.go:260-341 | after a completion or a dismissal a start begins anew and takes no draft |
| `WizardOutcomes.WaitingGoesOn` | internal/server/auto_setup.go:498-557 | a run that waits for somebody leaves a wizard that takes drafts |
| `FeedText.RenderLines` | internal/subscription/service.go:118-169 | header, URI and metadata lines are appended, joined and trimmed as `Feed` defines |
| `FeedText.SafeLineSafe` | internal/subscription/service.go:447-449 | a safe line is trimmed and holds no line break |
| `FeedText.FeedParsesBack` | internal/subscription/service.go:118-169 | splitting the text at newlines and attaching each `##` line to the URI before it recovers the entries with their metadata if and only if every URI is one line and the feed does not end in a tag with nothing but blanks behind it |
| `FeedText.MetadataTold` | internal/subscription/service.go:411-445 | read by their tags, the metadata lines tell name, colour, icon, address, comment and traffic of an entry, and leave out what is not given |
| `FeedText.FeedTellsHeader` | internal/subscription/service.go:118-169 | a reader of the whole feed finds the values of the header behind its tags |
| `Feed.BrokenExactly` | internal/subscription/service.go:321-349 | resolving a linked entry fails, in the client format, on exactly the compatible instances that pass the guard and have an unusable key, a blank or broken identity, or are WB instances without a token that the subscription omits but they do not; in the OLCBOX format on exactly those with an unusable key |
| `Feed.CreatedIdentity` | internal/instance/manager.go:48-84 | a creation request with a blank or broken `client_id` is stored as it is, and the instance then makes every client feed that links to it fail |
| `Feed.ManagerStores` | internal/instance/manager.go:304-321 | the instances of a state the manager keeps consistent are what the feed expects of stored ones |
| `Feed.TokenUnchecked` | internal/subscription/service.go:337-349 | such instances are stored: any stored WB instance stays one when its token is emptied, and then makes a feed fail |
| `Feed.NotBoth` | internal/subscription/service.go:325-331 | no URI is accepted in both formats |
| `Feed.IncludedShape` | internal/subscription/service.go:321-349 | an included URI is trimmed and no comment line; it breaks over lines if and only if it is a manual client URI entered with a line break, which is then behind its `#`, or the OLCBOX URI of a video-channel instance whose QR-recovery text has one |
| `Feed.AnyFragmentAccepted` | internal/instance/uri.go:154-176 | the client validator accepts any decodable text with a solid end as a fragment, line breaks included |
| `Feed.LineBreakAccepted` | internal/instance/uri.go:154-176 | a line break behind the `#` leaves the URI of a small valid instance accepted, so such a URI exists |
| `Feed.ManualBreaks` | internal/subscription/service.go:325-331 | so there is an entry an administrator can add that breaks the client feed |
| `Feed.RecoveryUnchecked` | internal/instance/config.go:121-245 | any stored video-channel instance stays valid with any QR-recovery text, and breaks the OLCBOX feed when that has a line break |
| `StandardUri.PrintBreaks` | internal/instance/uri.go:16-106 | a printed OLCBOX URI breaks over lines if and only if it prints a QR-recovery text with a line break |
| `Feed.AggregateEntries` | internal/subscription/service.go:360-409 | used, upload, download and available bytes are the sums over the entries, the feed is limited exactly when every entry is, and the expiry is the earliest of all |
| `Feed.TotalsAgree` | internal/subscription/service.go:360-398 | when every counter keeps total = upload + download, so does the feed |
| `Feed.Render` | internal/subscription/service.go:114-169 | the feed is made of the enabled, resolved entries in order, or is an error as soon as one of them cannot be resolved |
| `FeedCarries.ItemsExactly` | internal/subscription/service.go:114-149 | a feed is made exactly when no enabled entry fails, and then holds, in order, exactly the enabled entries not left out: manual texts the validator of the format accepts, and links to instances that can be loaded and, in the client format, that the client supports and that have their token unless a flag omits it |
| `FeedCarries.FeedCarries` | internal/subscription/service.go:321-349 | cutting the URI of every linked entry returns provider, room, name, key, identity and options of its instance; a client URI holds a token if and only if the instance is a WB one and neither its own flag nor the one of the subscription omits it, and that is its token; an OLCBOX URI holds none |
| `FeedCarries.FeedTells` | internal/subscription/service.go:114-169 | the whole feed, read back: the header with its totals, and one block for each entry not left out, with the texts of the entry, the name of the instance for want of one, and its used and available traffic |
| `Feed.FeedRecovers` | internal/subscription/service.go:114-169 | a reader recovers exactly the included entries, in order and with their metadata, if and only if no enabled entry is an accepted client URI entered with a line break or an OLCBOX link to a video-channel instance whose QR-recovery text has one, and the last included entry is not a manual one without traffic whose last text is nothing but blanks |
| `Feed.BlankComment` | internal/server/subscriptions.go:543-547 | a comment of one blank is such a text and holds no line break, which is all that is asked of it |
| `Entries.AcceptsOrder` | internal/server/subscriptions.go:256-281 | the sort-and-compare accepts a list exactly when it is a permutation of the current entry IDs |
| `Entries.EntryStore.Reorder` | internal/store/subscriptions.go:243-260 | the transaction renumbers all listed entries, or changes nothing when the database fails or an ID is not an entry of the subscription |
| `Entries.ListingUnique` | internal/store/subscriptions.go:170-185 | ordering by sort order and ID leaves one listing |
| `Entries.OrderIsStored` | internal/store/subscriptions.go:243-260 | after an accepted reordering reading gives exactly the requested list, and no other row changes |
| `Entries.RevisionStore.Touch` | internal/store/subscriptions.go:294-321 | the revision of every touched subscription strictly increases even when the clock does not, all or none |
| `Entries.LaterIsLeast` | internal/store/subscriptions.go:294-321 | the new revision is the least one that is newer than the current one and not older than the clock |
| `Limiter.WindowLimiter.Allow` | internal/server/server.go:401-412 | one call counts for its key in its window and is allowed up to the maximum |
| `Limiter.WindowLimit` | internal/server/server.go:401-412 | with a clock that never goes back a key gets at most 2 * maximum - 1 calls through in any half-open interval as long as the window; at most `maximum` for a window of one tick, none for a maximum or window of zero |
| `Limiter.WindowLimitReached` | internal/server/server.go:401-412 | a run that reaches this number, for every maximum and window |
| `Limiter.LoginLimiter.Allow` | internal/server/server.go:350-363 | an address is let through unless it is blocked, and a record older than ten minutes is dropped |
| `Limiter.LoginLimiter.Fail` | internal/server/server.go:365-381 | a failure is counted and answered with its delay |
| `Limiter.LoginLimiter.Succeed` | internal/server/server.go:383-383 | a success forgets the failures of its address |
| `Limiter.FiveFailures` | internal/server/server.go:350-381 | in any run of sequential logins without a success, the ten minutes that begin with the first failure of any record hold at most five counted failures |
| `Limiter.BlockedExactly` | internal/server/server.go:350-381 | an address waits exactly while the current record has five failures and is not ten minutes old; a record begins with the first failure more than ten minutes after the beginning of the last one |
| `Limiter.DelaySteps` | internal/server/server.go:373-378 | delays double from 100 ms and stay at 1.6 s from the fifth failure on |
| `ClientAddress.Resolve` | internal/server/server.go:278-303 | the address charged is the last untrusted hop of the chain that ends with the peer, or the first hop when all are trusted |
| `ClientAddress.LeftIsIgnored` | internal/server/server.go:289-298 | what stands to the left of an untrusted hop never changes the result |
| `FixedPoint.PadFraction` | internal/systemd/monotonic_linux.go:29-34 | the loop leaves exactly the first six digits, padded with zeros |
| `FixedPoint.ParseProcUptimeMicros` | internal/systemd/monotonic_linux.go:23-46 | the parser computes `UptimeMicros` |
| `FixedPoint.UptimeIsFloor` | internal/systemd/monotonic_linux.go:23-46 | every decimal number gives the floor of its microseconds and is rejected exactly when that exceeds 2^64 - 1 |
| `FixedPoint.ParseUnixSecondsMicros` | internal/systemd/systemd.go:172-195 | the parser computes `UnixMicros` |
| `FixedPoint.UnixIsFloor` | internal/systemd/systemd.go:172-195 | the same for a positive number of whole seconds and 2^63 - 1 |
| `FixedPoint.UnixExactly` | internal/systemd/systemd.go:172-195 | for every string: accepted are positive seconds, possibly behind a plus, with a fraction whose first six characters are digits or a sign and digits or nothing, only zeros behind a minus, within 2^63 - 1; each digit counts at its place, which a sign shifts by one |
| `FixedPoint.StraySigns` | internal/systemd/systemd.go:172-195 | a fraction that is a sign alone, and a plus before the seconds, are accepted |
| `FixedPoint.UptimeExactly` | internal/systemd/monotonic_linux.go:23-46 | for every string: accepted are digits with a fraction whose first six characters are digits, within 2^64 - 1; what follows the six does not matter |
| `Mount.OverlapIsPrefix` | internal/config/config.go:175-177 | two mounts overlap exactly when the segments of one begin the segments of the other |
| `Mount.SeparateMounts` | internal/config/config.go:200-208 | two mounts have a URL in common, for some routes below them, if and only if they overlap |
| `Mount.RootOverlapsNothing` | internal/config/config.go:175-177 | the root begins every mount, but `pathsOverlap` does not see it |
| `Mount.RootCollides` | internal/config/config.go:102-104 | a panel at the root shares URLs with every mount although no overlap is reported |

## Left out

- GoUrl.ParseAuthorityAt: hosts with IP-literal brackets are rejected by the modelled URL parser, although `net/url` accepts them; no printed URI has one.
- ClientUri.ClientRoundTrip: the verdict of `net.ParseIP` is a parameter.
- InstanceConfig.DefaultsIdempotent: the defaults are a function of the record; filling the caller's record in place is not captured.
- InstanceManager.Manager.Update: what is promised of a failed update assumes that the old file was readable and that the two rollback writes succeed; `updated_at` is not modelled.
- StandardUri.StandardRoundTrip: bit rate and hardware encoder of a video channel are not in the option list the program prints, so no URI carries them.
- FeedCarries.FeedTells: it assumes a feed that can be read back, in the exact sense of `Feed.FeedRecovers`; an OLCBOX URI with an unclean QR-recovery text is left to `StandardAccepts.AcceptsExactly`.
- InstanceManager.Manager.UpdateWBToken: a failure to list the instances, which ends the call before any change, is not modelled.
- Traffic.NothingLost: journal timestamps are nondecreasing and the journal delivers everything after a cursor or a time; counters do not overflow.
- Calendar.OneResetPerPeriod: the zone has a fixed offset.
- Handoff.AppliedAtMostOnce: of the fields a consumer writes only the token and the phase are modelled, not message, percentage and result, nor JSON values other than strings, nor a token saved by hand in between; the answer to a finished create session adds the stored token on purpose, after the modelled part.
- Wizard.StoredStatesAreSound: each handler is one step here; `WizardRaces` splits refreshes and drafts, but interleavings with completions and fresh starts are not captured.  Display texts and the time of the last update are left out of the state.
- Feed.BrokenExactly: rows whose secrets cannot be decrypted are left out; a row the manager keeps consistent always can.
- Traffic.RecordedExactly: an instance deleted while a session runs is out of the account from the next session on; instances added during a run are not modelled.
- Limiter.FiveFailures: logins of one address are sequential and none of them succeeds; parallel attempts can pass the check before the first failure is counted.
- Feed.FeedRecovers: `humanBytes` is a parameter that writes digits, letters, dots and minus signs; a disabled subscription and database errors are left out.
- Delete, Duplicate, Start, Stop, Restart and Logs of the manager: thin calls into the store and systemd.
- Checks of Jitsi rooms, proxies, durations and host:port pairs: parameters of `InstanceConfig.Validate`.
- YAML and JSON text: a configuration file is a map from document paths to scalars, a persisted wizard state is its value.
- Encryption, key generation and random sources: abstract, with decryption undoing encryption.
- Invalid UTF-8 in display texts: a byte that belongs to no rune is kept as it is.
- Concurrent calls of the manager: each call runs alone.
- Removal of job files after a monitor exits: it happens outside the lock.
- The commands of background operations, the browser automation of the worker, mirrors, releases, certificates and the HTTP layer: input and output around the modelled logic.
- Speed sampling and waiting for an active unit: they depend on real time only.
