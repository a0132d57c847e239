# Smart Shield: a verified model of its stateful core

Smart Shield is a firewall appliance with a Flask front end over SQLite. This project models the parts
of it that keep state over time or transform data, and proves what they promise. Each Dafny module
follows one source file or one mechanism:

| module | mechanism |
|---|---|
| `Statements`, `Migrations` | guarded statements on tables, indexes and rows; the migration runner and the bootstrap of the version table |
| `Catalogue`, `Migrated`, `MigratedSchema` | all 49 shipped migrations, what they make of events and analyst actions, and which tables and columns they leave |
| `EventFields`, `Backfill` | the columns lifted from event details, by migration 34 and by the logger; its batched backfills, the keying of analyst actions by migration 35, and the route that resolves legacy keys |
| `Throttle`, `SignIn`, `AdminSignIn` | the failure ledger with its sliding-window gates, both sign-in pages, reauthentication, the second-factor step, and who ends up signed in |
| `Tickets` | single-use console tickets shared by all worker processes |
| `Keystrokes` | the automaton that rebuilds typed shell lines from raw bytes |
| `Ports` | the port-list canonicaliser and the two validators that accept its output |
| `Interfaces` | subnet overlap, and the WAN/LAN assignments, saves and wizard steps that should keep the two interfaces apart |
| `LogStream` | the polling log stream behind an id cursor |
| `Timeseries` | the pivot of grouped event counts |
| `Masking` | masking and restoring template regions |
| `Totp` | one-time codes (RFC 4226 section 5.3, RFC 6238 section 5.2) |
| `Permissions` | the API, page and token-scope matching rules |
| `Wizard` | access to the first-boot wizard and its completion gate |
| `PyText`, `Common` | Python string operations and types the others use |

Browser sessions are signed cookies that the client keeps; `SignIn` and `Wizard` let a client present any session
it was ever given, and no other.

Code that updates state in place is a class whose methods are proved against a pure step function
(`Next`, `After`, `Attempt`, `Replay`, ...); the whole-run theorems are then about that function. Clocks are parameters:
each request carries the readings its handler takes, and a run is legal when they never go back. Hashes,
HMACs, password checks and the parsers of Python's standard library are function parameters; injectivity
or unforgeability is a stated hypothesis where a theorem needs it.

Where the code and its documentation disagree, the model follows the code:

- A failed migration is reported as rolled back (app/migrations.py:2161-2166), but DDL run through
  `executescript` (app/migrations.py:1440, 1536) stays. An attempt may therefore leave any prefix of
  its statements, and convergence is proved for that.
- `_extract_normalized_fields` is documented never to raise (app/audit_log.py:189); an infinite port does
  raise, and nothing else does (`EventFields.ExtractorRaisesIff`). `log_event`, documented likewise
  (app/audit_log.py:230), calls it outside any `try` and inherits the exception.
- `validate_no_overlap` is documented never to flag an interface against itself (app/validators.py:69-71);
  it does exactly when the interface has no port (`Interfaces.ResaveRefusedIff`).
- `/logout` of the admin interface clears the whole session, so it also ends a SOC sign-in
  (`SignIn.AdminLogoutEndsSocSession`).
- A reauthentication mark survives signing in as someone else (routes/auth.py:126-128). What holds, and is
  proved, is that the present user's own password was checked within the window
  (`Wizard.ReauthWasOwn`).

Properties that fail of the code are stated with their exact condition, each beside an input that fails:

- `Masking.RoundTrip`, `Masking.RoundTripFails`: a text between two regions spells an earlier sentinel.
- `Keystrokes.SplitsSafelyIff`, `Keystrokes.OpenPrefixBreaks`: input cut inside an escape sequence.
- `Timeseries.ChartConserves`, `Timeseries.NullSeverityHidesEvents`: two rows of a bucket under one label.
- `LogStream.WantedDeliveredIff`, `LogStream.UnreadableEventIsLost`: details that are no object.
- `LogStream.CaughtUpIff`, `LogStream.FaultDelays`: such a row before the last of a backlog.
- `Tickets.ReplayIff`, `Tickets.LateClaimReplays`: a claim 61 seconds or more after issue.
- `SignIn.GuessBound`, `SignIn.GuessBoundIsTight`: a client presents an earlier session during the second factor.
- `EventFields.ExtractorRaisesIff`, `EventFields.InfinitePortRaises`: an infinite port.
- `Backfill.FillableIff`, `Backfill.ListStopsMigration`: an old event that cannot be stored.
- `Backfill.KeyedAsResolved`, `Backfill.PaddedKeyMissed`, `Backfill.BlankKeyKeyed`: a padded or blank key.
- `Interfaces.AfterKeepsDisjointIff`, `Interfaces.UncheckedSaveCollides`: an address saved unchecked.
- `Interfaces.SetupKeepsInvIff`, `Interfaces.RecalledPortDoubles`: a port recalled by the wizard's session.
- `Permissions.ApiEqualsPageIff`, `Permissions.HigherWildcardMissesApi`: a permission with two dots.

## Model

| member | source | states |
|---|---|---|
| `Migrations.Runner.Apply` | app/migrations.py:2154-2156 | A migration function runs its statements until one raises or the process stops, leaving exactly that prefix in the schema. |
| `Migrations.Runner.ApplyAndRecord` | app/migrations.py:2154-2159 | The version is recorded only if every statement ran. |
| `Migrations.Runner.ApplyAll` | app/migrations.py:2153-2168 | Pending versions are applied in order up to the first failure, and exactly those completed are returned. |
| `Migrations.Runner.RunMigrations` | app/migrations.py:2116-2168 | The whole attempt, including refusal of a newer database. |
| `Statements.SettledByExec` | app/migrations.py:1212-1319 | Every guarded statement that succeeded does nothing when repeated: tables, columns, indexes, imported, stamped, filled and keyed rows. |
| `Statements.StaysSettled` | app/migrations.py:1212-1405 | It still does nothing after a later compatible statement. |
| `Statements.HarmoniousRestarts` | app/migrations.py:1212-1405 | A list of pairwise compatible statements can be cut short anywhere and started over. |
| `Migrations.Resume` | app/migrations.py:1419-1505 | Rerunning a migration over any prefix of itself continues where the prefix ended. |
| `Migrations.BootstrapContiguous` | app/database.py:1991-2011 | Bootstrap never collides and leaves an initial segment of the versions, even if cut short. |
| `Migrations.VersionsContiguous` | app/migrations.py:2094-2168 | In every history of bootstraps and attempts, failed ones included, the recorded versions are 2..k, so the maximum is a faithful summary. |
| `Migrations.SuccessfulRunReturnsPending` | app/migrations.py:2140-2168 | A successful run returns exactly the missing versions in order. |
| `Migrations.UpToDateIsNoOp` | app/migrations.py:2140-2142 | The next run returns nothing and changes nothing. |
| `Migrations.NewerDatabaseRefused` | app/migrations.py:2131-2138 | A database holding a later version is refused unchanged. |
| `Migrations.CrashAndRerunConverges` | app/migrations.py:2116-2168 | For migrations that can be started over, any failed attempts followed by a success end in the same versions and store as one undisturbed run. |
| `Migrations.UndisturbedRunExists` | app/migrations.py:2116-2168 | If a run after failures succeeds, an undisturbed run of the original database would have succeeded. |
| `Migrations.Converges` | app/migrations.py:2116-2168 | Both halves together. |
| `Migrations.BootSkipsStatements` | app/database.py:2008-2011 | Bootstrap records versions up to 16 without running their statements, on an old database too. |
| `Migrations.StartUpsConverge` | app/database.py:2190-2195 | Any start-ups, each cut short in the bootstrap or the migrations, followed by one that succeeds, end in the database of a single undisturbed start-up. |
| `Catalogue.StagedIsHarmonious` | app/migrations.py:2037-2087 | A migration of the shipped shape never gives an earlier statement work again. |
| `Catalogue.ShippedIsSound` | app/migrations.py:2037-2087 | Every shipped migration can be cut short anywhere and started over. |
| `Catalogue.ShippedConverges` | app/migrations.py:2037-2168 | The 49 shipped migrations converge, rows of events and analyst actions included, from any database and any interruptions. |
| `Catalogue.ShippedStartUpsConverge` | app/database.py:2008-2195 | The shipped migrations converge over start-ups. |
| `Migrated.RowsConverge` | app/migrations.py:1157-1405 | Whatever failed before it, a successful run leaves the rows of one import, one backfill and one keying, and had no event it could not store. |
| `Migrated.StartUpsMigrate` | app/database.py:2008-2195 | What holds of attempts holds of start-ups, which migrate the bootstrapped database. |
| `Migrated.LoopsAgree` | app/migrations.py:1228-1321 | The rows the two batch loops leave are those of the row-by-row statements, drawing the uuids the loop gave. |
| `Migrated.EveryEventStamped` | app/migrations.py:1228-1319 | After any interruptions and a success, every event has a uuid, old ones stand, new ones repeat nothing, and the columns are those of one backfill. |
| `Migrated.EveryActionKeyed` | app/migrations.py:1390-1405 | After any interruptions and a success, in both action tables a row with a uuid or without a key stands, and any other holds the uuid of the last final event with its timestamp, or none where there is no such event; other rows stay. |
| `Migrated.UnstorableEventBlocks` | app/migrations.py:1276-1319 | While an old event cannot be stored, no run of the migrations, however often repeated, succeeds. |
| `Migrated.DrawsDoNotMatter` | app/migrations.py:1228-1238 | Two histories of one database, interrupted differently and drawing different uuids, end in the same tables, indexes and rows but for the uuids. |
| `MigratedSchema.TablesAfter` | app/migrations.py:2037-2168 | Whatever failed before it, a successful run leaves exactly the tables there were and those its statements create, the same for default rows, and at least the indexes its statements demand. |
| `MigratedSchema.ColumnsAfter` | app/migrations.py:905-908 | A column no migration renames is in a table afterwards exactly if the table had it, was created with it, or a pending statement added it while the table was there. |
| `MigratedSchema.AddedColumnStays` | app/migrations.py:1216-1222 | In particular, every column a pending migration adds to a table there from the start is there afterwards. |
| `MigratedSchema.RenamedAfter` | app/migrations.py:264-282 | Each rename of v11 leaves the new name where either was, and the old one only where both were. |
| `MigratedSchema.DemandsMet` | app/migrations.py:1212-1222 | After a successful run every table an unguarded statement alters was there when it ran. |
| `MigratedSchema.NewNeedsColumns` | app/migrations.py:1322-1345 | A new index, or default row, needs its table and every column it names; without them an unguarded one raises and a guarded one is skipped. |
| `MigratedSchema.UniqueIndexIff` | app/migrations.py:1323-1329 | The unique index of v34 raises exactly if it is not there yet and two events share a uuid, or the column is missing. |
| `EventFields.PicksFirstPresent` | app/migrations.py:1241-1246 | A picked value belongs to the first key that holds one. |
| `EventFields.PicksNothing` | app/migrations.py:1241-1246 | It is NULL exactly when no key holds one. |
| `EventFields.PicksAgree` | app/audit_log.py:194-199 | The logger's own lookup picks the same value. |
| `EventFields.BackfilledEqualsLogged` | app/migrations.py:1241-1303 | The migration's columns equal those of the logger's separately written copy, exceptions included; `raw` differs exactly when it is not text of at most 4096 characters. |
| `EventFields.ExtractorRaisesIff` | app/audit_log.py:175-224 | The function documented never to raise raises exactly when a picked port is infinite. |
| `EventFields.InfinitePortRaises` | app/audit_log.py:175-182 | Details with an infinite port raise. |
| `EventFields.BackfillableIff` | app/migrations.py:1278-1319 | Columns can be built and stored exactly when ports coerce to nothing or 64 bits and no other picked value is a list, an object or a wider integer. |
| `EventFields.LoggableIff` | app/audit_log.py:273-335 | A fresh event can be stored under the same condition, whatever its `raw`. |
| `EventFields.CopiesFillColumns` | app/migrations.py:1278-1303 | Both copies fill each column from the named keys in order of preference; the SOC mark is 1 exactly when `soc_origin` is there with a value that is none of null, false, zero, blank or empty, and 0 otherwise. |
| `Backfill.FillableIff` | app/migrations.py:1254-1321 | The field backfill gets through exactly when the details of every row it selects can be stored. |
| `Backfill.ListStopsMigration` | app/migrations.py:1284-1319 | An old event whose source address is a list stops it. |
| `Backfill.WrittenAsLogged` | app/audit_log.py:240-275 | A row the backfill writes, whose details are those once logged after enrichment, holds what logging stores for them, `raw` aside, and keeps every other column. |
| `Backfill.InterruptedBackfillConverges` | app/migrations.py:1254-1321 | Cut short anywhere and rerun, the backfill ends where an undisturbed one does; rerunning it changes nothing. |
| `Backfill.InterruptedStampingConverges` | app/migrations.py:1228-1238 | Stamping cut short anywhere and rerun with other uuids ends with every row stamped, old uuids standing, and all distinct if the old ones were. |
| `Backfill.Events.Select` | app/migrations.py:1265-1273 | A batch holds the first matching rows beyond the cursor; a short one holds all of them. |
| `Backfill.Events.Update` | app/migrations.py:1276-1319 | A batch is built before anything is written, so a failure to build changes nothing; a failure to store leaves a prefix of the batch written. |
| `Backfill.Events.BackfillFields` | app/migrations.py:1254-1321 | For every batch size the loop ends, writes each selected row once in id order, leaves all others alone (ids up to 0 are never selected), fails exactly when some selected row cannot be written, and then leaves every row as it was or as it should be. |
| `Backfill.MatchesAre` | app/migrations.py:1265-1273 | The rows a cursor query returns, ascending, none missing. |
| `Backfill.MatchesSplit` | app/migrations.py:1262-1306 | Moving the cursor past a batch loses no row and repeats none. |
| `Backfill.Events.SelectBlank` | app/migrations.py:1230-1232 | Rows without a uuid, none only when none is left. |
| `Backfill.Events.StampUuids` | app/migrations.py:1228-1238 | The uuid loop ends with every row stamped, old uuids standing, each new one used once. |
| `Backfill.LatestIsHighest` | routes/soc_portal.py:131-138 | A timestamp resolves to the uuid of the matching event with the highest id, and to nothing when none matches. |
| `Backfill.KeyedAsResolved` | app/migrations.py:1390-1405 | After unique stamping, an action row is keyed exactly when an event has its timestamp, rerunning changes nothing, and the key is the one the route resolves for every key neither blank nor padded; for another, only when no event has that timestamp, padded or not. |
| `Backfill.PaddedKeyMissed` | routes/soc_portal.py:126-138 | A padded key of an existing timestamp stays unkeyed and is resolved by the route. |
| `Backfill.BlankKeyKeyed` | app/migrations.py:592-600 | An event imported without a timestamp keys a blank key that the route never resolves. |
| `Backfill.DetailsAre` | app/migrations.py:1278-1283 | Details that decode to an object are used as they are; blank, undecodable or other details count as an object without keys. |
| `Backfill.WrittenColumns` | app/migrations.py:1284-1303 | A written row holds, column by column, the entries of its details under the names of the column, and nothing else of the row changes. |
| `Backfill.SelectedAgainIff` | app/migrations.py:1254-1273 | A written row is selected again exactly if its details name no source type, source or destination address, domain or rule. |
| `Backfill.KeyedElsewhere` | routes/soc_portal.py:120-138 | A row with a uuid, or without a key, stays; a uuid the client sends is taken stripped. |
| `Throttle.LatestIsMax` | routes/auth.py:77-81 | The latest failure is one of the recorded ones, and none is later. |
| `Throttle.ObservedBound` | routes/auth.py:69-86 | Any attempts one gate lets through within its window obey the arithmetic bound, whatever other rows appear. |
| `Throttle.BarredIff` | routes/auth.py:69-107 | A gate refuses exactly while at least the threshold of failures are younger than its window and, if it blocks for a time, some failure is younger than that. |
| `Throttle.RowIsSeenBy` | routes/auth.py:69-107 | A recorded failure counts for its address and for its account name, and for no other; one without a name only for its address. |
| `SignIn.Service.Login` | routes/auth.py:69-169 | The admin sign-in: address gate, account gate, clear on success, record on failure. |
| `SignIn.Service.Reauthenticate` | routes/auth.py:194-268 | Reauthentication with its own gate; a lockout drops the mark. |
| `SignIn.Service.PortalLogin` | routes/soc_portal.py:287-382 | The SOC password step: gates, tier check, second factor deferred. |
| `SignIn.Service.PortalMfa` | routes/soc_portal.py:387-451 | The second-factor step, with expiry and account lockout. |
| `SignIn.LockoutBound` | routes/auth.py:69-107 | n failures beyond a gate's threshold T within its window W of blocking time B satisfy (n - T) * B < W, in every run that deletes none of the key's rows. |
| `SignIn.FixedGateBounds` | routes/auth.py:188-265 | At most 5 failed sign-ins per account in 900 s and 6 failed reauthentications in 600 s. |
| `SignIn.FailureIsCounted` | routes/auth.py:143-148 | Each failure a gate lets through is exactly one more row for that gate, stamped with its time. |
| `SignIn.SignInClears` | routes/soc_portal.py:232-237 | A SOC sign-in, with or without a code, forgets exactly the rows of its address and account. |
| `SignIn.AdminSignInClears` | routes/auth.py:121-125 | So does an admin sign-in. |
| `SignIn.SocTierIsHighest` | app/soc_portal_auth.py:77-116 | A session's tier is the highest the user holds, directly or by group. |
| `SignIn.StepKeepsInv` | routes/soc_portal.py:287-451 | Every request, and every earlier session presented, keeps each session's SOC identity and pending factor tied to one password step. |
| `SignIn.SocSessionsAccountable` | app/soc_portal_auth.py:30-60 | In every reachable state, with earlier sessions presented again or not, a signed-in analyst goes back to a password in that session that was right for the account, with that name and tier, and to a right code at most 300 s later if a second factor was enabled; pending fields belong to one user. |
| `SignIn.GuessBound` | routes/soc_portal.py:402-436 | One password step allows 5 wrong codes, and one more each time the client presents an earlier session, as long as the account's failures are not cleared and no check takes 600 s. |
| `SignIn.GuessBoundIsTight` | routes/soc_portal.py:413-436 | For every number of such presentations some run of genuine sessions reaches that bound, since no lockout is checked before a code and the lockout after it ends only the session. |
| `SignIn.TiersRank` | app/soc_portal_auth.py:19-95 | L1 is below L2 and L2 below L3, nothing else is a tier, and superusers hold L3. |
| `AdminSignIn.AdminChanges` | routes/auth.py:116-129 | A session gets an administrator only by an admin login in it, past both gates, for an active account whose hash accepts the password, with that account's id and name, or by presenting an earlier session. |
| `AdminSignIn.LoginSignsIn` | routes/auth.py:116-129 | Such a login does sign in, and changes nothing else of the session. |
| `AdminSignIn.ReauthChanges` | routes/auth.py:194-268 | The reauthentication mark is set only by the right password of the account signed in, past its gate, and dropped only by a lockout or a logout. |
| `AdminSignIn.ReauthMarks` | routes/auth.py:252-266 | Such a request does set it, to its time, and records nothing. |
| `AdminSignIn.PortalSignsIn` | routes/soc_portal.py:338-382 | The right password of an analyst's account past the gates signs in with the account's tier, or awaits the second factor where one is enabled. |
| `AdminSignIn.CodeSignsIn` | routes/soc_portal.py:387-451 | The right code within 300 seconds signs in as the pending account. |
| `AdminSignIn.RefusedIsRecorded` | routes/auth.py:131-165 | A refused sign-in leaves sessions alone and records exactly one failure, of its address, name and time, unless the address is whitelisted; an attempt a gate stops changes nothing. |
| `AdminSignIn.AdminSessionsAccountable` | routes/auth.py:69-268 | In every run, with earlier sessions presented again or not, an administrator session goes back to a login in it with the right password of that active account, and its mark to a right password of the account then signed in. |
| `Tickets.PayloadInjective` | routes/terminal.py:101-104 | The signed text determines user, time and address, because the first two hold no dots. |
| `Tickets.IssuedTicketValid` | routes/terminal.py:97-129 | A ticket validates exactly for its user and address until it is 60 s old. |
| `Tickets.ValidMeansGranted` | routes/terminal.py:107-129 | Whatever validates is, text for text, a ticket issued to that user and address within 60 s. |
| `Tickets.NonceTable.Claim` | routes/terminal.py:150-191 | Purge and insert in one transaction; a collision changes nothing. |
| `Tickets.StepKeepsInv` | routes/terminal.py:318-338 | Every interleaved step of every worker keeps accepted tickets on record for 61 seconds after they were issued. |
| `Tickets.EarlyClaimIff` | routes/terminal.py:150-191 | A claim committing less than 61 s after the ticket was issued goes through exactly when the ticket was never accepted before. |
| `Tickets.SingleUse` | routes/terminal.py:150-191 | Each accepted ticket was issued, and none is accepted twice in any run whose claims commit less than 61 s after their tickets were issued. |
| `Tickets.PromptClaimIsTimely` | routes/terminal.py:318-338 | A claim within a second of its validation is in time. |
| `Tickets.ReplayIff` | routes/terminal.py:163-179 | For every ticket and moment, some run accepts the ticket again at that moment exactly if it is 61 s or more after issue. |
| `Keystrokes.Recorder.Emit` | routes/terminal.py:367-379 | A non-blank line is logged stripped and cut at 1000 characters; the buffer empties. |
| `Keystrokes.Recorder.SkipEscape` | routes/terminal.py:387-397 | The inner loop ends just after the control sequence, or at the end of the data. |
| `Keystrokes.Recorder.Press` | routes/terminal.py:398-424 | One byte outside escapes acts as its editor token. |
| `Keystrokes.Recorder.Feed` | routes/terminal.py:381-424 | The byte loops agree with the line editor on the token sequence. |
| `Keystrokes.Recorder.Close` | routes/terminal.py:500-510 | A half-typed line is logged as aborted at disconnect. |
| `Keystrokes.ChunksDoNotMatter` | routes/terminal.py:381-424 | However input is cut outside escape sequences, buffer and log are those of the whole. |
| `Keystrokes.SplitsSafelyIff` | routes/terminal.py:387-397 | A cut is harmless for every session and continuation exactly when it is not inside an escape sequence. |
| `Keystrokes.BufferPrintable` | routes/terminal.py:418-424 | The buffer never holds a control byte other than TAB. |
| `Keystrokes.RecordedIsStripped` | routes/terminal.py:368-377 | A recorded command is the stripped buffer, cut at 1000 characters. |
| `Keystrokes.BufferIsSurvivors` | routes/terminal.py:381-424 | The buffer holds what a backward reading with pending erasures leaves. |
| `Keystrokes.LogIsDue` | routes/terminal.py:381-424 | The log holds exactly the lines due under that reading. |
| `Keystrokes.TextIsTyped` | routes/terminal.py:418-424 | Bytes 0x20-0x7e, TAB, and those past 0x7f collect on the line as they are. |
| `Keystrokes.LineIsRecorded` | routes/terminal.py:398-406 | A line typed at an empty recorder and ended by 0x0d or 0x0a adds exactly one run command, by 0x03 exactly one aborted one, stripped and cut at 1000 characters, or nothing if it is blank; the line is empty again. |
| `Keystrokes.KillForgets` | routes/terminal.py:407-424 | 0x15 empties the line and records nothing. |
| `Keystrokes.EraseTakesBack` | routes/terminal.py:407-424 | 0x08 and 0x7f take back the last character, if any. |
| `Keystrokes.ControlIsIgnored` | routes/terminal.py:398-424 | Every other control byte does nothing. |
| `Keystrokes.SequenceIsSkipped` | routes/terminal.py:387-397 | A whole control sequence does nothing. |
| `Keystrokes.LoneEscape` | routes/terminal.py:387-397 | A byte after ESC that opens no sequence counts as if it came alone. |
| `Ports.NormalizePorts` | app/validators.py:193-236 | The token loop computes the canonical form or rejects. |
| `Ports.ReadTokenIsNames` | app/validators.py:221-235 | A token is read as an entry exactly when it denotes it and the entry is in bounds. |
| `Ports.AcceptedIffWellFormed` | app/validators.py:206-235 | Accepted exactly when every piece between commas is blank or, without the white space around it, names ports in 1..65535 with lo <= hi; nothing but blanks passes only when allowed. |
| `Ports.AcceptedIsCanonical` | app/validators.py:227-236 | The output is comma-joined numerals and `lo:hi` pairs without leading zeros, the entries held by the input's pieces in order. |
| `Ports.SamePorts` | app/validators.py:193-236 | Output and input denote exactly the same ports, whatever white space surrounds the entries between the commas. |
| `Ports.PaddingIgnored` | app/validators.py:196-212 | White space around the entries, and blank pieces between them, make no difference: the canonical form is that of the plainly joined entries. |
| `Ports.Idempotent` | app/validators.py:193-236 | Normalising again returns the same text. |
| `Ports.PortListAcceptsCanonical` | app/validators.py:160-190 | The list validator returns every normalised text unchanged. |
| `Ports.PortListTakesBlanks` | app/validators.py:186-190 | The list validator also takes blank-separated ports. |
| `Ports.CanonicaliserRefusesBlanks` | app/validators.py:221-224 | The canonicaliser refuses them. |
| `Ports.PortRangeIff` | app/validators.py:157-177 | The range validator takes exactly one port or an ascending range within 1..65535, in numerals of at most five digits, and returns it stripped. |
| `Ports.PortListIff` | app/validators.py:180-190 | The list validator takes exactly the texts whose words, separated by commas or white space, are such ports or ranges. |
| `Interfaces.OverlapIffShared` | app/validators.py:109-114 | The endpoint test on two aligned blocks holds exactly when they share an address. |
| `Interfaces.OverlapIsNested` | app/validators.py:109-114 | Blocks that meet are nested. |
| `Interfaces.ValidateNoOverlap` | app/validators.py:62-115 | Accepts exactly the blank, and the parsable addresses no other row's network meets. |
| `Interfaces.AcceptedMissesOther` | app/validators.py:84-114 | With ports kept apart, an address is accepted exactly if it is blank, or parses and misses the other side's network and, without a port, one's own. |
| `Interfaces.ResaveRefusedIff` | app/validators.py:69-71 | An interface's own address is refused exactly when it has no port. |
| `Interfaces.Router.SaveInterfaceAssignment` | routes/interfaces.py:224-275 | Assigns a valid port unless the other side holds it, in both tables. |
| `Interfaces.Router.DeleteInterfaceAssignment` | routes/interfaces.py:281-300 | Removes the assignment from both tables. |
| `Interfaces.Router.SaveWanConfig` | routes/interfaces.py:1101-1180 | Checks static addresses, stores others, and restores the row after a failed PPPoE bring-up. |
| `Interfaces.Router.SaveLanConfig` | routes/interfaces.py:1255-1292 | Checks static addresses, stores others. |
| `Interfaces.Router.SetupPorts` | routes/setup.py:372-442 | Step 1 of the wizard sets two different valid detected ports in both tables. |
| `Interfaces.Router.SetupAddresses` | routes/setup.py:475-569 | Step 2 stores parsed addresses, with the saved port of each side or the one the session recalls. |
| `Interfaces.AfterKeepsPorts` | routes/interfaces.py:224-300 | Every request but step 2 of the wizard keeps the two non-empty ports different and both tables in agreement. |
| `Interfaces.SetupKeepsInvIff` | routes/setup.py:475-569 | Step 2 keeps ports different and networks disjoint exactly when its two networks do not meet and it does not recall, for an unassigned side, the port now serving the other. |
| `Interfaces.RecalledPortDoubles` | routes/setup.py:513-516 | From blank configurations: ports chosen in step 1, one side unassigned, its port given to the other; step 2 from that session then puts the port on both sides. |
| `Interfaces.AfterKeepsDisjointIff` | routes/interfaces.py:1101-1292 | Any other request keeps the networks disjoint exactly when it leaves no unchecked address that meets the other network. |
| `Interfaces.RunKeepsInv` | routes/interfaces.py:224-1292 | Every run of assignments, deletions, checked saves and wizard port choices keeps ports different and networks disjoint. |
| `Interfaces.UncheckedSaveCollides` | routes/interfaces.py:1107-1115 | A save in another mode can give the WAN the LAN's network. |
| `Interfaces.SaveStores` | routes/interfaces.py:1101-1292 | A save that is not refused stores mode and address as sent; ports and the other interface stay; a refused one, or a PPPoE interface that does not come up, changes nothing. |
| `Interfaces.AssignStores` | routes/interfaces.py:224-300 | An assignment takes effect in both tables exactly when its port is a possible name and not the other side's, a deletion always; nothing else changes. |
| `Interfaces.SetupPortsStores` | routes/setup.py:372-442 | Step 1 gives two different possible names, detected ones where any were, to the two sides, and otherwise changes nothing. |
| `Interfaces.SetupAddressesStores` | routes/setup.py:475-569 | A complete form of step 2 sets both interfaces on the ports saved or, for a side without one, recalled; any other sets nothing. |
| `LogStream.Stream.constructor` | routes/status.py:442-450 | The cursor starts at `since_id`, or at the newest event. |
| `LogStream.Stream.Select` | routes/status.py:458-463 | The first 200 rows past the cursor. |
| `LogStream.Stream.Poll` | routes/status.py:455-503 | A poll sends exactly the visible events it moves its cursor over, up to a fault. |
| `LogStream.VisibleIsExact` | routes/status.py:464-503 | The visible events of a window, each once, in id order. |
| `LogStream.ExactlyOnce` | routes/status.py:440-509 | Under any interleaving of appends and polls, what the code lets through with start < id <= cursor is sent exactly once, in id order. |
| `LogStream.WantedDeliveredIff` | routes/status.py:464-509 | The events sent are exactly those the viewer asked for, unless the cursor passed one whose details are no object while SOC events were hidden; only such events are lost. |
| `LogStream.UnreadableEventIsLost` | routes/status.py:481-485 | One poll passes such an event and never sends it. |
| `LogStream.SocEventsStayHidden` | routes/status.py:431-438 | No SOC-origin event is sent unless a superuser asked for them by `0`, `no` or `false`. |
| `LogStream.CaughtUpIff` | routes/status.py:458-465 | A poll catches up exactly when the backlog fits one batch and no fault comes before its last row. |
| `LogStream.FaultDelays` | routes/status.py:481-485 | A faulty row before another keeps the poll from reading both. |
| `LogStream.PollsDrain` | routes/status.py:453-512 | k polls drain any backlog of 200 rows each, less one poll per faulty row. |
| `LogStream.PollsDrainIff` | routes/status.py:453-512 | Without faulty rows exactly ceil(n / 200) polls are needed. |
| `LogStream.ShowSocIff` | routes/status.py:431-438 | SOC events are shown exactly to a superuser whose `hide_soc` is there and reads `0`, `no` or `false` in any letter case, white space aside. |
| `LogStream.NewestIsMax` | routes/status.py:443-448 | The starting cursor is the highest id, or 0 when there is no event. |
| `Timeseries.Pivot` | app/audit_log.py:654-672 | Every series has one cell per kept bucket, holding the last count put there or zero. |
| `Timeseries.BucketsAscend` | app/audit_log.py:660-670 | Buckets are strictly ascending, trimmed or not. |
| `Timeseries.CellsPlusOverwritten` | app/audit_log.py:664-672 | Shown and overwritten counts add up to the counts of the kept buckets. |
| `Timeseries.ChartConserves` | app/audit_log.py:654-672 | The chart conserves counts exactly when no kept bucket has two rows under one label; otherwise it shows fewer. |
| `Timeseries.NullSeverityHidesEvents` | app/audit_log.py:664-666 | A NULL severity beside `info` loses the first count. |
| `Timeseries.RecentIsLatest` | app/audit_log.py:667-668 | Trimming keeps as many buckets as allowed, each later than every one left out. |
| `Timeseries.BeforeIff` | app/audit_log.py:647 | The order of buckets is that of the first differing character. |
| `Masking.Mask` | scripts/migrate_inline.py:33-41 | Regions become numbered sentinels, in order. |
| `Masking.Unmask` | scripts/migrate_inline.py:44-47 | One replace-all pass per region. |
| `Masking.ReplaceInChain` | scripts/migrate_inline.py:44-47 | A pass on an unbroken chain replaces its own sentinel only, unless a literal spells it. |
| `Masking.StaysBroken` | scripts/migrate_inline.py:44-47 | Once a pass has eaten into a neighbour, no later pass repairs the text. |
| `Masking.RoundTrip` | scripts/migrate_inline.py:33-47 | Restoring gives the original exactly when no text between regions spells an earlier region's sentinel. |
| `Masking.RoundTripFails` | scripts/migrate_inline.py:33-47 | The smallest text that is not restored. |
| `Totp.CodeIsSixDigits` | app/totp.py:61-64 | Truncation reads within the 20-byte digest and yields exactly six decimal digits. |
| `Totp.Verify` | app/totp.py:67-82 | Accepts exactly well-formed codes of some counter in the window, and raises exactly in the two stated cases. |
| `Totp.AcceptedWithinDrift` | app/totp.py:76-82 | A code generated at t is accepted at every t' at most `window` periods away. |
| `Totp.AcceptedWasCurrent` | app/totp.py:76-82 | An accepted code was current less than `window + 1` periods away. |
| `Totp.TruncateIsBigEndian` | app/totp.py:62-63 | In base 256 the truncated number reads as the four bytes from the offset, the first the heaviest and without its top bit. |
| `Totp.TruncateExample` | app/totp.py:61-64 | The example of RFC 4226 section 5.4 gives 872921. |
| `Totp.AcceptedIff` | app/totp.py:67-82 | A code is accepted exactly when the seed decodes, no counter of the window is negative, and the code is that of one of them. |
| `Totp.CounterIs` | app/totp.py:77 | The counter numbers the 30-second periods since the epoch. |
| `Totp.BlanksGo` | app/totp.py:74 | Blanks inside a submitted code go, everything else stays in place. |
| `Permissions.ApiIff` | app/api_auth.py:62-72 | The API rule accepts the permission or the wildcard at its last dot. |
| `Permissions.PageIff` | app/auth_utils.py:61-78 | The page rule accepts the wildcard at any dot. |
| `Permissions.ScopesOfJoin` | app/api_tokens.py:96-97 | A token of joined clean grants carries exactly those grants. |
| `Permissions.TokenIff` | app/api_tokens.py:96-107 | Beyond the page rule a token honours `*` and the wildcard on the permission itself. |
| `Permissions.RulesFormChain` | app/api_tokens.py:96-107 | API acceptance implies page acceptance implies token acceptance. |
| `Permissions.RulesMonotone` | app/auth_utils.py:61-78 | All three are monotone in the grants. |
| `Permissions.ApiEqualsPageIff` | app/api_auth.py:62-72 | API and page rules agree on all grants exactly for permissions with at most one dot. |
| `Permissions.ScopesIff` | app/api_tokens.py:96-97 | A token's scopes are its comma-separated pieces without the white space around them; blank pieces give none. |
| `Permissions.OpenToAll` | app/auth_utils.py:61-68 | Superusers pass both rules, and the page rule lets through requests without an endpoint and the endpoints open to everyone. |
| `Wizard.CompletesIff` | routes/setup.py:708-779 | Completion needs the three required steps, live mode and, where probed, routing, filtering, translation and DNS. |
| `Wizard.LeasePendingIff` | routes/setup.py:731-747 | A lease counts as on its way exactly if flagged, or if the message mentions both words, in any letter case. |
| `Wizard.Appliance.EnforceSetupAccess` | routes/setup.py:251-289 | Who passes the gate, and which session it marks. |
| `Wizard.Appliance.Guard` | routes/setup.py:146-176 | After completion only a freshly reauthenticated superuser passes. |
| `Wizard.Appliance.ClaimSubmit` | routes/setup.py:301-319 | A claim is accepted on a local, unfinished install without superuser, with the token if the token file holds one. |
| `Wizard.Appliance.Check` | routes/setup.py:377-643 | The form checks of steps 1 to 3, and what each step stores. |
| `Wizard.Appliance.SaveStep` | routes/setup.py:370-643 | A step stores its change exactly when permitted and valid: step 1 its ports, in the session too, step 2 its addresses, step 3 a password, which makes a new account a superuser and leaves an existing one its rank. |
| `Wizard.Appliance.ApplyStep` | routes/setup.py:658-779 | Completion is recorded, and the token spent, exactly when permitted and every check held. |
| `Wizard.WritesAreGuarded` | routes/setup.py:146-319 | In every history a write after completion is by a superuser whose password was checked in that session within 300 s; one before it is by a superuser or an authorised session. |
| `Wizard.AuthorizedWasEarned` | routes/setup.py:251-319 | An authorised session became so from a local address, without any superuser, with the token if there was one. |
| `Wizard.ReauthWasOwn` | app/auth_utils.py:132-144 | A reauthentication mark of a session means its present user's password was checked since. |
| `Wizard.CompletionWasEarned` | routes/setup.py:749-783 | Completion stems from a permitted apply and is never taken back. |
| `Wizard.CompletionWasChecked` | routes/setup.py:708-779 | In the shipped wizard that apply passed every check. |
| `Wizard.HistoryKeepsIff` | routes/setup.py:475-569 | Wizard and interface routes together keep ports different and networks disjoint up to a moment exactly if no permitted step 2 collides and no save leaves a colliding address unchecked. |
| `Wizard.RecallWasOwn` | routes/setup.py:440-441 | Ports a session recalls are those it stored itself in a permitted form. |
| `Wizard.ChoiceIsStepOne` | routes/setup.py:377-441 | That form is step 1's, with the recalled ports. |
| `Wizard.FirstAdminClosesTheDoor` | routes/setup.py:264-289 | From the moment a superuser exists until the account list is edited, no session gets authorised that was not before, and no superuser is lost. |
| `Wizard.PermittedIff` | routes/setup.py:146-289 | Who gets through: before completion superusers, authorised sessions, and anyone local while there is neither a superuser nor a token; after it superusers whose password was checked within 300 seconds. |
| `Wizard.ClaimStores` | routes/setup.py:301-319 | A claim authorises its session exactly on a local, unfinished install without superuser, with the token if there is one, and changes nothing else. |
| `Wizard.AdminStores` | routes/setup.py:597-643 | Step 3 stores the hash of the stripped password under the stripped name, `admin` where none was given; a new account is a superuser, an existing one keeps its rank; a refused form stores nothing. |
| `Wizard.PortsStore` | routes/setup.py:377-442 | Step 1 changes the interfaces as it would on its own, and the session recalls its ports. |
| `Wizard.AddressesStore` | routes/setup.py:475-569 | Step 2 changes the interfaces with the ports the session recalls, and nothing else. |
| `Wizard.ApplyStores` | routes/setup.py:749-779 | A permitted apply whose checks hold finishes the wizard and spends the token; any other stores nothing. |
| `Wizard.ChecksMark` | app/auth_utils.py:132-144 | A checked password marks the session of whoever is signed in with the time. |
| `PyText.SplitJoin` | app/validators.py:212-236 | Splitting joined separator-free pieces gives them back. |
| `PyText.StripTrimmed` | app/validators.py:206-212 | `strip` returns trimmed text and leaves trimmed text alone. |
| `PyText.ValueDec` | app/validators.py:228-235 | Printing a number and reading it back is the identity. |
| `PyText.StripPads` | app/validators.py:206-212 | Text is its stripped form with only white space before and after. |
| `PyText.StripUnpads` | app/validators.py:212 | White space around trimmed text is what `strip` removes. |
| `PyText.ValueConcat` | app/validators.py:228-233 | Each digit of a numeral weighs ten times the one after it. |
| `PyText.LowerIs` | routes/status.py:436 | Only capitals change, each to its small letter. |

## Left out

- Migration bodies are sequences of guarded statements. Rows are modelled for events and analyst actions; default rows and flags of configuration tables are `Seed`s, present or not. The FTS5 tables and triggers of v27, unique indexes other than that on event uuids, and the text of `CREATE TABLE` are left out; column sets of new tables are a parameter.
- In `Statements` the two backfills of v34 go row by row, as `Backfill.Events` proves the batches do; a failing batch leaves no more than some such prefix. The audit log that v22 reads is a parameter, and its import is one transaction.
- The snapshot guards of v11, v34 and v42 (column list read once, before the loop) equal guards on the current state because the names added are distinct; they are modelled as the latter.
- `init_db`'s own table creation, the database backup file and the migration log.
- SQLite column affinity (a number stored in a TEXT column reads back as text) and text that cannot be encoded as UTF-8.
- `Backfill.Events.StampUuids` takes fresh uuids from a supply; that `uuid4` never repeats is its hypothesis.
- Parallel sign-in attempts that check before either records, and clocks that run backwards: attempts are serialised, readings never decrease.
- Parsing of the whitelist, and of IP text in general: whether an address is whitelisted or parses is a parameter.
- TOTP secrets are taken decrypted and stripped; base32 decoding, SHA-1 and HMAC are parameters.
- Unicode digits are those of category Nd in Unicode 14.
- `redact_secrets` on recorded commands: a regular-expression rewrite after the recorded text is fixed.
- The region scanner of `_mask`: the segmentation into text and regions is given.
- Retention deleting log rows between polls, and database errors inside the stream: rows are only appended.
- DHCP pools and the fields of a save other than port, mode and address are left out.
- VLAN and bridge tables in the overlap walk: they have no address column, so their queries fail and are skipped.
- The query that groups events into buckets: its ordered rows are the input of `Timeseries.Pivot`.
- Letter case is folded for ASCII only; no other letter folds to one of the fixed words compared.
- Creating, revoking and looking up API tokens, the permission decorators' session refresh, and superuser bypass beyond the flag.
- Routes that only create, read, update or delete rows, service wrappers, templates and scripts.
