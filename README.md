# Smurf Account Manager — a verified model of its account core

Smurf Account Manager is a Windows desktop tool that keeps a list of League of Legends
accounts, logs into them through the Riot Client and keeps track of each account's queue
penalties. This project is a Dafny model of the parts of the program that decide what
happens to the accounts:

- **Account rules** (`accounts.dfy`, module `Accounts`): the `Account` record with its
  defaults, the Riot ID shown for it (`gameName#tagLine`), and the remaining-time texts
  for a queue lockout and for low priority queue.
- **Identity detection** (`identity.dfy`, `IdentityDetection`): after a login, the account
  id, game name and tag line are read from the `LeagueClient-tracing.json` files written
  since the login began; a stored account id must match the one found.
- **Penalty reconciliation** (`penalties.dfy`, `PenaltyDetection`): the newest
  `*Riot Client.log` files are searched for mentions of each account. Each mention gives a
  context window of up to 1000 characters starting 500 before it. `LEAVER_BUSTED` markers
  in those windows set the low priority minutes. `LEAVER_BUSTER_QUEUE_LOCKOUT` markers push
  the lockout end later.
- **Legacy log reader** (`log_reader.dfy`, `LogReader`): the older heuristic search of
  recent log lines for a summoner name and for queue penalties, with lists of regular
  expressions tried in order.
- **Export and import** (`export_import.dfy`, `ExportImport`):
  - generating the 16-character export password;
  - writing the `[Account]` blocks of `Key=Value` lines;
  - reading them back. The password is re-encrypted under the export password on export
    and protected again for the current user on import.
- **Main window** (`main_window.dfy`, `MainWindows`):
  - start-up reconciliation and clearing of expired lockouts;
  - detection after a successful login, with up to five attempts, followed by penalty
    reconciliation.
- **Edit accounts window** (`edit_accounts.dfy`, `EditAccounts`) and **account dialog**
  (`account_dialog.dfy`, `AccountDialogs`):
  - adding, editing and deleting accounts;
  - renumbering the display order after a delete;
  - showing the list ordered by display order;
  - the dialog's validation and the record it builds.

Supporting modules are `Wrappers` (`Option`, `Result`), `Text` (the .NET string primitives
used: `Trim`, `IsNullOrWhiteSpace`, `Contains`, `int.TryParse`, integer formatting, line
splitting), `LogFiles` (directory listings, newest-first ordering, `FindFilesAfter`) and
`LogPatterns` (regular expressions as functions returning their matches).

Objects that the program changes in place are Dafny classes. `Account`, the edit window's
`AppConfig` and `AccountDialog` are classes with `modifies` clauses. Each method that
changes them is proved equal to a specification function on `AccountData` values, and the
program's promises are proved about those functions as lemmas.

Where the program's comments or its design notes say one thing and the code does another,
the model follows the code:

- Identity detection takes the first account-id, game-name and tag-line fields in a file,
  in file order. It never falls back to tracing files older than the login, even when none
  of the newer files holds an identity.
- Penalty files are visited newest first, and a later `LEAVER_BUSTED` marker overwrites an
  earlier one. The low priority minutes therefore come from the OLDEST checked file that
  has a marker, not from the newest (`OldestFileDecidesLpq`).
- The account dialog rejects a username or password that is empty OR made only of white
  space (`string.IsNullOrWhiteSpace`).
- Editing an account through the dialog builds a fresh `Account`. Its `Tag`,
  `LowPrioMinutes` and `LowPriorityMinutes` go back to their defaults, because the
  initializer does not copy them (`EditKeepsIdentity`).
- At start-up only accounts with an account id are visited. An account without one keeps
  an expired lockout (`StartupSyncVisitsOnlyKnownAccounts`).
- The per-account mention pattern is not anchored at the end of the id. Which positions
  count as mentions is an input of the model, so any pattern is covered.
- The `Account` record holds every field the services read or write:
  - `LowPrioUntil`, `LowPrioMinutes` and `LowPriorityMinutes` (used in different places);
  - `LockoutUntil`, `Tag` and `DisplayOrder`.

Times are integer milliseconds on one clock. "Now" is the parameter `now`, and the moment a
login began is the parameter `loginStart`.

## Model

| member | source | states |
|---|---|---|
| Accounts.DefaultAccount | SmurfAccountManager/Models/Account.cs:7-19 | A new account has the given id, empty username, password, account id, game name and tag line, no penalties, display order 0 and tag None |
| Accounts.Account.constructor | SmurfAccountManager/Models/Account.cs:7-19 | A newly created Account holds exactly the default record for the drawn id |
| Accounts.Account.FullRiotId | SmurfAccountManager/Models/Account.cs:51-61 | Empty exactly when there is no game name; the game name alone when there is no tag line; otherwise game name, '#', tag line |
| Accounts.Account.QueueLockoutRemaining | SmurfAccountManager/Models/Account.cs:34-49 | The text is empty exactly when the account has no lockout ending after now (HasQueueLockout, lines 63-69), and it is "< 1M" exactly when a lockout has less than a minute left |
| Accounts.RemainingText | SmurfAccountManager/Models/Account.cs:39-49 | A positive remaining time gives a non-empty text, which is "< 1M" exactly when under a minute is left |
| Accounts.RemainingTextHoursAndMinutes | SmurfAccountManager/Models/Account.cs:41-43 | From one hour up, the text is "<h>H <m>M" with h at least 1, m below 60 and h*60+m the whole minutes left |
| Accounts.RemainingTextMinutes | SmurfAccountManager/Models/Account.cs:44-47 | Below one hour, the text is "<m>M" with m between 1 and 59 |
| Accounts.Account.LowPriorityQueueRemaining | SmurfAccountManager/Models/Account.cs:22-32 | Non-empty exactly when the minutes are positive and the end lies after now, and then it reads "<minutes> minutes" |
| Accounts.ParseTagName | SmurfAccountManager/Services/ExportImportService.cs:141-143 | Parsing the name of any tag gives that tag back, so a tag survives export and import |
| Accounts.ParseTag | SmurfAccountManager/Services/ExportImportService.cs:141-143 | A text that parses as a tag is that tag's name |
| Text.Trim | SmurfAccountManager/Services/ExportImportService.cs:89 | The result is no longer than the input, neither starts nor ends with white space, and is empty exactly when the input is blank |
| Text.TrimOfTrimmed | SmurfAccountManager/Services/ExportImportService.cs:107-108 | Trimming text that neither starts nor ends with white space leaves it unchanged |
| Text.ContainsChar | SmurfAccountManager/Services/ExportImportService.cs:104-106 | A line contains "=" exactly when the search for the first '=' finds one |
| Text.IndexOfChar | SmurfAccountManager/Services/ExportImportService.cs:106 | The position found holds the character and no earlier position does; the length means none |
| Text.IntToStringIsClean | SmurfAccountManager/Services/ExportImportService.cs:61 | The decimal text of a number is one line with no surrounding white space |
| Text.ParseIntegerOfIntToString | SmurfAccountManager/Services/ExportImportService.cs:137-140 | Parsing the decimal text of any number in range gives that number back |
| Text.ParseInt32 | SmurfAccountManager/Services/ExportImportService.cs:138 | A parsed int lies within the 32-bit range |
| Text.AllDigitsAreDecimalDigits | SmurfAccountManager/Services/RiotLogDetectionService.cs:466 | Every ASCII digit string is also made of decimal digits in the sense of `char.IsDigit` |
| Text.ParseInt64 | SmurfAccountManager/Services/RiotLogDetectionService.cs:359 | A parsed long lies within the 64-bit range |
| Text.LinesOfJoinLines | SmurfAccountManager/Services/ExportImportService.cs:73-83 | Splitting into lines a text written line by line with CRLF gives back exactly the lines written |
| Text.Lines | SmurfAccountManager/Services/ExportImportService.cs:83 | No line read from a text contains a line break |
| LogPatterns.FirstMatch | SmurfAccountManager/Services/RiotLogDetectionService.cs:278 | A single match exists exactly when some match does, and it is the first one |
| LogPatterns.Captures | SmurfAccountManager/Services/RiotLogDetectionService.cs:419-429 | The set of captured ids holds every match's capture and nothing else |
| LogFiles.Take | SmurfAccountManager/Services/RiotLogDetectionService.cs:96 | Taking n items gives the first min(n, length) items |
| LogFiles.InsertByRecencyPermutes | SmurfAccountManager/Services/RiotLogDetectionService.cs:261 | Inserting a file into the ordered list adds exactly that file |
| LogFiles.InsertByRecencySorted | SmurfAccountManager/Services/RiotLogDetectionService.cs:261 | Inserting a file keeps the list ordered newest first |
| LogFiles.NewestFirst | SmurfAccountManager/Services/RiotLogDetectionService.cs:261 | The ordered list is a permutation of the files, newest first |
| LogFiles.NewestFirstIsStable | SmurfAccountManager/Services/RiotLogDetectionService.cs:261 | The ordering is stable, as `OrderByDescending` is: files written at the same time keep the order of the listing |
| LogFiles.SelectFiles | SmurfAccountManager/Services/RiotLogDetectionService.cs:257-260 | The `Where` filter: every file written at or after the cut-off whose name contains the filter, with all its copies, no other file, in listing order (a subsequence of the listing) |
| LogFiles.FindFilesAfter | SmurfAccountManager/Services/RiotLogDetectionService.cs:250-268 | A listed directory yields exactly its selected files, newest first; a missing or unlistable one yields nothing |
| LogFiles.FindFilesAfterKeepsTies | SmurfAccountManager/Services/RiotLogDetectionService.cs:257-261 | Files written at the same moment come out in listing order |
| LogFiles.NewestTakeKeepsListing | SmurfAccountManager/Services/RiotLogDetectionService.cs:172-175 | The newest n files repeat no file beyond its copies in the list, and those written at one moment are the first of them in listing order |
| LogFiles.NewestTake | SmurfAccountManager/Services/RiotLogDetectionService.cs:172-175 | The files taken come from the list; a file left out means the cap was reached by files no older than it |
| IdentityDetection.ParseIdentity | SmurfAccountManager/Services/RiotLogDetectionService.cs:273-319 | Accepted exactly when the first account id is 5-20 decimal digits of any script, the first game name has 3-16 characters and a stored id equals the id found; otherwise the first failing check is reported |
| IdentityDetection.WithIdentity | SmurfAccountManager/Services/RiotLogDetectionService.cs:321-325 | Sets account id and game name, sets the tag line only when one was found, and changes nothing else |
| IdentityDetection.ParseAccountFromJson | SmurfAccountManager/Services/RiotLogDetectionService.cs:273-333 | Succeeds exactly when the content is accepted, and then writes that identity into the account; otherwise the account is unchanged |
| IdentityDetection.FirstAccepted | SmurfAccountManager/Services/RiotLogDetectionService.cs:96-126 | Points at the first file whose content yields an accepted identity, or past the end when none does |
| IdentityDetection.DetectIdentity | SmurfAccountManager/Services/RiotLogDetectionService.cs:62-138 | A missing directory and no new tracing file are the two early failures; otherwise an identity is detected exactly when one of the three newest tracing files written since the login is accepted, and then it comes from the first such file, is valid and keeps a stored id |
| IdentityDetection.DetectAccountInfo | SmurfAccountManager/Services/RiotLogDetectionService.cs:62-138 | Returns true exactly when the directory exists and one of the three newest tracing files written since the login is accepted for the stored id; then the account carries the identity detected, otherwise it is unchanged |
| IdentityDetection.ArabicIndicAccountIdIsValid | SmurfAccountManager/Services/RiotLogDetectionService.cs:459-467 | An id of five digits of another script is valid, because `char.IsDigit` takes any decimal digit; an id with a letter is not |
| IdentityDetection.StoredAccountIdIsKept | SmurfAccountManager/Services/RiotLogDetectionService.cs:311-322 | Detection never replaces an account id the account already has |
| IdentityDetection.NoFallbackToOlderFiles | SmurfAccountManager/Services/RiotLogDetectionService.cs:79-90 | When every tracing file predates the login, detection reports that no new files exist |
| IdentityDetection.NewerEmptyFileMeansFailure | SmurfAccountManager/Services/RiotLogDetectionService.cs:79-130 | A newer tracing file with no acceptable identity, beside an older one written before the login, means failure: the older file is never tried, whatever it holds |
| PenaltyDetection.ContextWindow | SmurfAccountManager/Services/RiotLogDetectionService.cs:353-355 | The window is the slice starting 500 before the mention (or at 0), at most 1000 long and cut at the end; it exists exactly when that start lies within the text, and then it covers the mention |
| PenaltyDetection.MentionContexts | SmurfAccountManager/Services/RiotLogDetectionService.cs:350-355 | The windows of the mentions in order, stopping at the first mention whose window cannot be cut |
| PenaltyDetection.MentionContextsComplete | SmurfAccountManager/Services/RiotLogDetectionService.cs:350-355 | When every mention lies within the text, every mention yields a window |
| PenaltyDetection.CeilDiv | SmurfAccountManager/Services/RiotLogDetectionService.cs:361 | The rounded-up count of minutes: the least q with the milliseconds at most q minutes |
| PenaltyDetection.CeilMinutes | SmurfAccountManager/Services/RiotLogDetectionService.cs:361 | The rounded-up minutes, saturated to the 32-bit range; not positive exactly when the milliseconds are not |
| PenaltyDetection.LpqFromMillis | SmurfAccountManager/Services/RiotLogDetectionService.cs:359-387 | A marker with no time left clears the minutes; otherwise they are the rounded-up positive minutes |
| PenaltyDetection.LaterOf | SmurfAccountManager/Services/RiotLogDetectionService.cs:394-400 | The lockout end is the later of the current end and the new one, and is one of them |
| PenaltyDetection.ApplyContext | SmurfAccountManager/Services/RiotLogDetectionService.cs:357-401 | A window with an LPQ marker sets the minutes from it, otherwise they stay; the lockout end never moves earlier and is either kept or the new marker's end |
| PenaltyDetection.LastLpqIndexIsLast | SmurfAccountManager/Services/RiotLogDetectionService.cs:358-388 | No window after the last one with an LPQ marker holds one |
| PenaltyDetection.MaxLockoutMillisIsMax | SmurfAccountManager/Services/RiotLogDetectionService.cs:391-400 | The largest lockout duration is at least every window's duration and is one of them |
| PenaltyDetection.FoldContextsOutcome | SmurfAccountManager/Services/RiotLogDetectionService.cs:350-402 | After a scan, the minutes come from the last LPQ marker (or stay) and the lockout end is the later of the old end and now plus the longest lockout |
| PenaltyDetection.FoldContextsLpq | SmurfAccountManager/Services/RiotLogDetectionService.cs:358-388 | The last window with an LPQ marker decides the minutes; without one they stay |
| PenaltyDetection.FoldContextsLockout | SmurfAccountManager/Services/RiotLogDetectionService.cs:391-401 | The lockout end becomes the later of the old end and now plus the longest lockout seen |
| PenaltyDetection.FoldContextsLockoutBounds | SmurfAccountManager/Services/RiotLogDetectionService.cs:396-400 | The lockout end is no earlier than before and no earlier than any marker's end |
| PenaltyDetection.FoldContextsIdempotent | SmurfAccountManager/Services/RiotLogDetectionService.cs:350-402 | Scanning the same windows twice gives the same penalties as scanning them once |
| PenaltyDetection.FoldContextsConcat | SmurfAccountManager/Services/RiotLogDetectionService.cs:350-402 | Scanning two runs of windows one after the other is scanning them joined |
| PenaltyDetection.PerFileContexts | SmurfAccountManager/Services/RiotLogDetectionService.cs:178-186 | One list of windows per file, in file order |
| PenaltyDetection.ReconcileFilesAsOneScan | SmurfAccountManager/Services/RiotLogDetectionService.cs:178-186 | Reconciling file after file equals one scan over all their windows in that order |
| PenaltyDetection.OldestFileDecidesLpq | SmurfAccountManager/Services/RiotLogDetectionService.cs:172-186 | With files visited newest first, the last visited (oldest) file with an LPQ marker decides the minutes |
| PenaltyDetection.ReconcileFilesIdempotent | SmurfAccountManager/Services/RiotLogDetectionService.cs:172-186 | Reconciling the same log files twice changes nothing the second time |
| PenaltyDetection.ReconcileFilesLockoutBounds | SmurfAccountManager/Services/RiotLogDetectionService.cs:178-192 | After reconciling, the lockout end is no earlier than before and no earlier than any marker's end in any checked file |
| PenaltyDetection.RiotClientLogs | SmurfAccountManager/Services/RiotLogDetectionService.cs:172 | The filter of the `*Riot Client.log` pattern: every file whose name ends in "Riot Client.log", letters compared without regard to case, with all its copies, no other file, in listing order |
| PenaltyDetection.RiotClientLogMatchIgnoresCase | SmurfAccountManager/Services/RiotLogDetectionService.cs:172 | A name ending exactly in "Riot Client.log" matches, one in another case matches too, and one with another extension does not |
| PenaltyDetection.PunishmentLogFiles | SmurfAccountManager/Services/RiotLogDetectionService.cs:172-175 | At most five Riot Client logs, newest first; a log left out means five no older than it were taken |
| PenaltyDetection.PunishmentLogFilesFromListing | SmurfAccountManager/Services/RiotLogDetectionService.cs:172-175 | The five logs repeat no file beyond its copies in the listing, and logs written at one moment are the first of them in listing order |
| PenaltyDetection.WithPenalties | SmurfAccountManager/Services/RiotLogDetectionService.cs:365-400 | Only the two penalty fields change |
| PenaltyDetection.ApplyMarkers | SmurfAccountManager/Services/RiotLogDetectionService.cs:357-401 | The account's penalties become those of applying one window to them; nothing else changes |
| PenaltyDetection.VisitMention | SmurfAccountManager/Services/RiotLogDetectionService.cs:353-401 | The scan goes on exactly when the window can be cut, and then the window is applied; otherwise the account is unchanged |
| PenaltyDetection.ParsePunishmentEvents | SmurfAccountManager/Services/RiotLogDetectionService.cs:338-408 | The account's penalties become the scan of all its mention windows in the content; nothing else changes |
| PenaltyDetection.ParsePunishmentEventsForAllAccounts | SmurfAccountManager/Services/RiotLogDetectionService.cs:414-454 | Every account whose id the content mentions is scanned once; the others are unchanged |
| PenaltyDetection.ProcessMatch | SmurfAccountManager/Services/RiotLogDetectionService.cs:429-442 | A captured id is scanned only when it belongs to a known account, and the accounts scanned so far are exactly those processed |
| PenaltyDetection.ScanAccount | SmurfAccountManager/Services/RiotLogDetectionService.cs:432-441 | Only the account stored under the id changes, and it gets the scan of its windows |
| PenaltyDetection.ScannedUpTo | SmurfAccountManager/Services/RiotLogDetectionService.cs:425-443 | The processed accounts carry their scanned penalties, the rest their old data |
| PenaltyDetection.ScannedOneMore | SmurfAccountManager/Services/RiotLogDetectionService.cs:435-440 | Processing one more id changes only that account's entry |
| PenaltyDetection.ScannedMentioned | SmurfAccountManager/Services/RiotLogDetectionService.cs:419-443 | Processing every captured id that is known scans exactly the mentioned accounts |
| PenaltyDetection.AccountTable | SmurfAccountManager/Services/RiotLogDetectionService.cs:159-161 | Building the id table fails exactly when two accounts share a non-empty id; otherwise every account with an id is found under it |
| PenaltyDetection.DetectPunishments | SmurfAccountManager/Services/RiotLogDetectionService.cs:151-198 | With a listed directory and distinct ids, every account with an id is reconciled against the newest five Riot Client logs; every other case leaves all accounts unchanged |
| PenaltyDetection.ReconcileLogFiles | SmurfAccountManager/Services/RiotLogDetectionService.cs:178-192 | Every account in the table is reconciled against the files in order |
| PenaltyDetection.DetectPunishmentsFor | SmurfAccountManager/Services/RiotLogDetectionService.cs:203-206 | A single account with an id is reconciled against the newest five logs; one without is unchanged |
| LogReader.TextLogs | SmurfAccountManager/Services/LogReaderService.cs:28-29 | The `Where` filter: every file ending in ".log" or ".txt", with all its copies, no other file, in listing order |
| LogReader.RecentLogFiles | SmurfAccountManager/Services/LogReaderService.cs:28-31 | At most ten text logs, newest first; a log left out means ten no older than it were taken |
| LogReader.RecentLogFilesFromListing | SmurfAccountManager/Services/LogReaderService.cs:106-110 | The ten logs repeat no file beyond its copies in the listing, and logs written at one moment are the first of them in listing order |
| LogReader.RecentLines | SmurfAccountManager/Services/LogReaderService.cs:38 | The last n lines of the file, last line first |
| LogReader.CandidateNameAccepts | SmurfAccountManager/Services/LogReaderService.cs:56-62 | A capture is accepted exactly when its trimmed text passes the length and word filter, and the name is that trimmed text |
| LogReader.FirstNamePattern | SmurfAccountManager/Services/LogReaderService.cs:53-67 | Points at the first pattern giving an acceptable name on the line, or past the end |
| LogReader.FirstNameLine | SmurfAccountManager/Services/LogReaderService.cs:40-68 | Points at the first line holding an acceptable name, or past the end |
| LogReader.FirstNameFile | SmurfAccountManager/Services/LogReaderService.cs:33-74 | Points at the first readable file holding an acceptable name, or past the end |
| LogReader.SummonerNameIsAcceptable | SmurfAccountManager/Services/LogReaderService.cs:56-82 | The name returned is empty or 3-16 characters with none of the excluded words and no surrounding white space |
| LogReader.ReadSummonerName | SmurfAccountManager/Services/LogReaderService.cs:10-83 | Returns the first acceptable name over directories, files, lines and patterns in order, or "" |
| LogReader.ScanFilesForName | SmurfAccountManager/Services/LogReaderService.cs:33-74 | Returns the name of the first file that holds one |
| LogReader.ScanFileForName | SmurfAccountManager/Services/LogReaderService.cs:35-73 | Returns the first name among the last 5000 lines of a readable file, or none |
| LogReader.ScanLinesForName | SmurfAccountManager/Services/LogReaderService.cs:40-68 | Returns the name of the first line that holds one |
| LogReader.MatchName | SmurfAccountManager/Services/LogReaderService.cs:53-67 | Returns the name of the first pattern that yields one |
| LogReader.InRangeValue | SmurfAccountManager/Services/LogReaderService.cs:135-137 | A capture counts exactly when it parses as an int between 1 and the maximum |
| LogReader.FirstInRange | SmurfAccountManager/Services/LogReaderService.cs:132-143 | Points at the first pattern giving an in-range value, or past the end |
| LogReader.ValueInLine | SmurfAccountManager/Services/LogReaderService.cs:132-143 | A value is found exactly when some pattern gives an in-range value, and it lies between 1 and the maximum |
| LogReader.FirstValueInLine | SmurfAccountManager/Services/LogReaderService.cs:156-167 | Trying the patterns in order returns the first in-range value |
| LogReader.ScanLine | SmurfAccountManager/Services/LogReaderService.cs:121-167 | A line without an in-range lockout leaves the lockout, and one without in-range minutes leaves the minutes |
| LogReader.QueuePenaltiesInRange | SmurfAccountManager/Services/LogReaderService.cs:98-181 | The lockout found is absent or now plus 1 to 719 hours, and the minutes are 0 or 1 to 999 |
| LogReader.ScanLineInRange | SmurfAccountManager/Services/LogReaderService.cs:132-167 | Scanning a line keeps the penalties within those ranges |
| LogReader.ScanLinesInRange | SmurfAccountManager/Services/LogReaderService.cs:119-167 | Scanning lines keeps the penalties within those ranges |
| LogReader.ScanFilesInRange | SmurfAccountManager/Services/LogReaderService.cs:112-174 | Scanning files keeps the penalties within those ranges |
| LogReader.ScanDirectoriesInRange | SmurfAccountManager/Services/LogReaderService.cs:101-179 | Scanning directories keeps the penalties within those ranges |
| LogReader.ScanLinesConcat | SmurfAccountManager/Services/LogReaderService.cs:119-168 | Scanning two runs of lines one after the other is scanning them joined |
| LogReader.ScanLinesKeeps | SmurfAccountManager/Services/LogReaderService.cs:119-168 | Lines without an in-range lockout (or minutes) leave that value as it was |
| LogReader.LastLockoutLineDecides | SmurfAccountManager/Services/LogReaderService.cs:132-143 | The last line with an in-range lockout decides it: now plus that many hours |
| LogReader.LastLpqLineDecides | SmurfAccountManager/Services/LogReaderService.cs:156-167 | The last line with in-range minutes decides them |
| LogReader.EarlyExitAcrossDirectories | SmurfAccountManager/Services/LogReaderService.cs:176-178 | Once a directory yields a penalty, the later directories are never consulted |
| LogReader.ThrowingListingAfterNothingFound | SmurfAccountManager/Services/LogReaderService.cs:183-186 | The result is either nothing at all or a found penalty; a failure never leaves half a result |
| LogReader.ReadQueuePenalties | SmurfAccountManager/Services/LogReaderService.cs:85-187 | Returns the scan of the directories in order, and the values lie within the accepted ranges |
| LogReader.ScanFilesInPlace | SmurfAccountManager/Services/LogReaderService.cs:112-174 | The loop over one directory's files, each through its last lines, equals the scan of those files |
| LogReader.ScanLineInPlace | SmurfAccountManager/Services/LogReaderService.cs:121-167 | Updating the two variables for one line equals the line's scan |
| ExportImport.PasswordChar | SmurfAccountManager/Services/ExportImportService.cs:29 | Every byte maps to a character of the alphabet, an ASCII letter or digit |
| ExportImport.AlphabetIsAlphanumeric | SmurfAccountManager/Services/ExportImportService.cs:18 | Every character of the 62-character alphabet is an ASCII letter or digit |
| ExportImport.GenerateExportPassword | SmurfAccountManager/Services/ExportImportService.cs:16-34 | The password has 16 characters, the i-th chosen by the i-th random byte modulo 62, all letters or digits |
| ExportImport.PasswordRoundTrip | SmurfAccountManager/Services/ExportImportService.cs:168-223 | Decrypting under the same password what was encrypted gives the plain text back, the empty text included |
| ExportImport.FieldLines | SmurfAccountManager/Services/ExportImportService.cs:50-68 | One "Key=Value" line per field, in order |
| ExportImport.ExportBlocksAppend | SmurfAccountManager/Services/ExportImportService.cs:47-71 | Exporting one more account appends exactly its block |
| ExportImport.NameFieldLines | SmurfAccountManager/Services/ExportImportService.cs:50-53 | The first four lines are Username, AccountId, GameName and TagLine with their values |
| ExportImport.SettingFieldLines | SmurfAccountManager/Services/ExportImportService.cs:55-62 | Then the re-encrypted password, the display order and the tag name |
| ExportImport.PenaltyFieldLines | SmurfAccountManager/Services/ExportImportService.cs:64-68 | The minutes and the lockout end appear only when they are set |
| ExportImport.AppendExportBlock | SmurfAccountManager/Services/ExportImportService.cs:49-70 | A block is the header, the name, setting and penalty lines, then an empty line |
| ExportImport.AppendAccountBlock | SmurfAccountManager/Services/ExportImportService.cs:49-70 | Appending an account's lines adds exactly its export block |
| ExportImport.ExportAccounts | SmurfAccountManager/Services/ExportImportService.cs:39-75 | The text written is the header followed by one block per account, in list order |
| ExportImport.Finish | SmurfAccountManager/Services/ExportImportService.cs:157-159 | The account being read is added at the end, when there is one |
| ExportImport.ApplyField | SmurfAccountManager/Services/ExportImportService.cs:110-153 | The only failure is a password field that does not decrypt, with the message "Invalid password or corrupted file"; an unknown key, and a number, tag or date that does not parse, leave the account as it was |
| ExportImport.ClassifyLine | SmurfAccountManager/Services/ExportImportService.cs:89-104 | A line is the account header exactly when it trims to "[Account]", skipped exactly when it trims to empty or starts with '#', and neither an assignment nor either of those exactly when it holds no '=' |
| ExportImport.LineWithoutAssignmentIsIgnored | SmurfAccountManager/Services/ExportImportService.cs:104 | A line that is not the header and holds no '=' leaves the import state unchanged |
| ExportImport.ImportKeysAreGood | SmurfAccountManager/Services/ExportImportService.cs:112-148 | Every key the import switch knows is written so that it is read back as that key: not blank, no white space at its ends, no '#', '[', '=' or line break |
| ExportImport.UnknownKeyIsIgnored | SmurfAccountManager/Services/ExportImportService.cs:110-153 | An assignment to a key the switch does not list leaves the import state unchanged |
| ExportImport.ClassifyTrimmed | SmurfAccountManager/Services/ExportImportService.cs:91-104 | The same classification of an already trimmed line |
| ExportImport.ImportFromConcat | SmurfAccountManager/Services/ExportImportService.cs:87-155 | Reading two runs of lines one after the other is reading them joined, stopping at the first failure |
| ExportImport.ImportCountsAccountHeaders | SmurfAccountManager/Services/ExportImportService.cs:95-102 | A successful import adds one account per "[Account]" line |
| ExportImport.ImportFailsOnlyOnPassword | SmurfAccountManager/Services/ExportImportService.cs:124-135 | An import that fails does so with the password message |
| ExportImport.ImportIgnoresLinesBeforeFirstAccount | SmurfAccountManager/Services/ExportImportService.cs:104 | Lines before the first header are ignored, whatever they hold |
| ExportImport.ClassifyFieldLine | SmurfAccountManager/Services/ExportImportService.cs:104-108 | A written field line is read back as its key and value |
| ExportImport.ClassifyAssignmentLine | SmurfAccountManager/Services/ExportImportService.cs:104-108 | A line with '=' splits at the first '=' into a trimmed key and a trimmed value |
| ExportImport.ImportFieldLine | SmurfAccountManager/Services/ExportImportService.cs:104-153 | Reading a field line applies the field to the current account |
| ExportImport.ImportFieldLines | SmurfAccountManager/Services/ExportImportService.cs:104-153 | Reading field lines applies the fields in order, stopping at the first failure |
| ExportImport.ApplyFieldsConcat | SmurfAccountManager/Services/ExportImportService.cs:110-153 | Applying two runs of fields one after the other is applying them joined |
| ExportImport.ApplyNameFields | SmurfAccountManager/Services/ExportImportService.cs:112-123 | The name fields set username, account id, game name and tag line |
| ExportImport.ApplySettingFields | SmurfAccountManager/Services/ExportImportService.cs:124-144 | The setting fields protect the decrypted password again and restore display order and tag |
| ExportImport.ApplyPenaltyFields | SmurfAccountManager/Services/ExportImportService.cs:145-152 | The penalty fields restore the minutes and the lockout end that were set |
| ExportImport.ApplyExportFields | SmurfAccountManager/Services/ExportImportService.cs:110-153 | Applying an account's exported fields to a fresh account gives the reimported account |
| ExportImport.ImportHeaderLine | SmurfAccountManager/Services/ExportImportService.cs:95-102 | A header line closes the current account and starts a fresh one with a new id |
| ExportImport.ImportBlankLine | SmurfAccountManager/Services/ExportImportService.cs:91-93 | An empty line changes nothing |
| ExportImport.ImportFieldBlock | SmurfAccountManager/Services/ExportImportService.cs:95-153 | A header, good field lines and an empty line give one new account with the fields applied |
| ExportImport.ImportBlock | SmurfAccountManager/Services/ExportImportService.cs:95-153 | Reading an exported block gives the reimported account |
| ExportImport.ImportBlocks | SmurfAccountManager/Services/ExportImportService.cs:87-159 | Reading exported blocks succeeds and adds the reimported accounts in order |
| ExportImport.CommentLineSkipped | SmurfAccountManager/Services/ExportImportService.cs:92-93 | A line starting with '#' is skipped |
| ExportImport.ImportSkipped | SmurfAccountManager/Services/ExportImportService.cs:91-93 | Skipped lines change nothing |
| ExportImport.ImportSkipsHeader | SmurfAccountManager/Services/ExportImportService.cs:42-45 | The export's comment header is skipped on import |
| ExportImport.ExportImportRoundTrip | SmurfAccountManager/Services/ExportImportService.cs:39-163 | Importing an export with the same password gives back every account, in order, with new ids and the password protected again |
| ExportImport.ReimportedPasswordUnprotects | SmurfAccountManager/Services/ExportImportService.cs:128-130 | The reimported password unprotects to the same plain password |
| ExportImport.SetField | SmurfAccountManager/Services/ExportImportService.cs:110-153 | Succeeds exactly when the field applies, and then the account holds the updated record |
| ExportImport.StartAccount | SmurfAccountManager/Services/ExportImportService.cs:95-102 | The current account is added and a fresh one becomes current |
| ExportImport.AssignField | SmurfAccountManager/Services/ExportImportService.cs:104-153 | Assigning a field to the current account follows the field rules |
| ExportImport.ImportLineStep | SmurfAccountManager/Services/ExportImportService.cs:87-155 | One line read in place follows the line rules |
| ExportImport.ImportAccounts | SmurfAccountManager/Services/ExportImportService.cs:80-163 | Fails exactly when the line rules fail, with the password message; otherwise returns distinct new accounts holding the records the rules give |
| ExportImport.FinishAccounts | SmurfAccountManager/Services/ExportImportService.cs:157-159 | The list returned holds the finished records, each a distinct object |
| MainWindows.WithoutExpiredLockout | SmurfAccountManager/MainWindow.xaml.cs:51-54 | The lockout is cleared exactly when it ended at or before now; nothing else changes |
| MainWindows.ClearingIsIdempotent | SmurfAccountManager/MainWindow.xaml.cs:51-54 | Clearing twice is clearing once |
| MainWindows.ClearingKeepsActiveLockout | SmurfAccountManager/MainWindow.xaml.cs:51-54 | Whether a lockout lasts past any later time is not changed by clearing |
| MainWindows.ClearExpiredPenalties | SmurfAccountManager/MainWindow.xaml.cs:43-55 | The account is left with its expired lockout cleared and nothing else changed |
| MainWindows.StartupSync | SmurfAccountManager/MainWindow.xaml.cs:28-34 | An account without an id is untouched; otherwise only the penalty fields change |
| MainWindows.StartupSyncLeavesNoExpiredLockout | SmurfAccountManager/MainWindow.xaml.cs:28-34 | After start-up an account with an id has no lockout that has already ended |
| MainWindows.StartupSyncVisitsOnlyKnownAccounts | SmurfAccountManager/MainWindow.xaml.cs:28-34 | Accounts without an id are left as they are; no account's id, account id or order changes |
| MainWindows.LoadAccounts | SmurfAccountManager/MainWindow.xaml.cs:23-41 | Every account is synced at start-up, and the list shown is the synced accounts ordered by display order |
| MainWindows.SyncAtStartup | SmurfAccountManager/MainWindow.xaml.cs:30-33 | One account is reconciled and its expired lockout cleared |
| MainWindows.FirstDetection | SmurfAccountManager/MainWindow.xaml.cs:124-133 | Points at the first attempt that detects, or past the last |
| MainWindows.AttemptsMade | SmurfAccountManager/MainWindow.xaml.cs:121-140 | No attempt when the account already has both an id and a game name; otherwise between one and five |
| MainWindows.RetriesStopAtFirstSuccess | SmurfAccountManager/MainWindow.xaml.cs:124-140 | Every attempt before the last made failed, and stopping early means the last one succeeded |
| MainWindows.DetectionSettlesIdentity | SmurfAccountManager/MainWindow.xaml.cs:121-148 | A stored id is kept, and a changed account has a valid id and game name |
| MainWindows.SettledAccountIsSkipped | SmurfAccountManager/MainWindow.xaml.cs:121 | An account with an id and a game name is not detected again |
| MainWindows.DetectWithRetries | SmurfAccountManager/MainWindow.xaml.cs:118-148 | Makes exactly the attempts the retry rule allows, reports success exactly when one detected, and leaves the account as that detection left it |
| MainWindows.Attempt | SmurfAccountManager/MainWindow.xaml.cs:126 | Attempt i+1 runs detection against the directory as it then stands, with the outcome of that attempt |
| MainWindows.PenaltiesFollowDetectedId | SmurfAccountManager/MainWindow.xaml.cs:118-151 | Penalties are reconciled for the id detection left, and an account still without an id keeps its penalties |
| MainWindows.AfterSuccessfulLogin | SmurfAccountManager/MainWindow.xaml.cs:117-151 | Detection with retries followed by penalty reconciliation |
| EditAccounts.InsertByDisplayOrder | SmurfAccountManager/Views/EditAccountsWindow.xaml.cs:22 | Inserting an account adds exactly that account |
| EditAccounts.InsertKeepsSorted | SmurfAccountManager/Views/EditAccountsWindow.xaml.cs:22 | Inserting keeps the list ordered by display order |
| EditAccounts.ByDisplayOrder | SmurfAccountManager/Views/EditAccountsWindow.xaml.cs:22 | The ordered list is a permutation of the accounts |
| EditAccounts.ByDisplayOrderIsSorted | SmurfAccountManager/Views/EditAccountsWindow.xaml.cs:22 | The ordered list is sorted by display order |
| EditAccounts.InsertKeepsTies | SmurfAccountManager/Views/EditAccountsWindow.xaml.cs:22 | Inserting keeps accounts of equal order in their relative order |
| EditAccounts.ByDisplayOrderIsStable | SmurfAccountManager/Views/EditAccountsWindow.xaml.cs:22 | Accounts with the same order keep their list order, as OrderBy is stable |
| EditAccounts.IncreasingOrderIsShownAsIs | SmurfAccountManager/Views/EditAccountsWindow.xaml.cs:112-118 | A list already numbered in increasing order is shown as it stands |
| EditAccounts.IndexOf | SmurfAccountManager/Views/EditAccountsWindow.xaml.cs:86 | The first position holding the account, or -1 exactly when it is absent |
| EditAccounts.RemoveFirst | SmurfAccountManager/Views/EditAccountsWindow.xaml.cs:109 | Removes the first occurrence, or nothing when the account is absent |
| EditAccounts.RemoveFirstRemovesOne | SmurfAccountManager/Views/EditAccountsWindow.xaml.cs:109 | Removing a present account removes exactly one copy of it |
| EditAccounts.RemoveFirstIsSublist | SmurfAccountManager/Views/EditAccountsWindow.xaml.cs:109 | Removing adds no account |
| EditAccounts.RemoveFirstKeepsDistinct | SmurfAccountManager/Views/EditAccountsWindow.xaml.cs:109 | In a list without duplicates the removed account is gone entirely |
| EditAccounts.ShowDialog | SmurfAccountManager/Views/EditAccountsWindow.xaml.cs:66-69 | The dialog yields a new account exactly when its input is valid, holding the record the dialog builds |
| EditAccounts.AppConfig.DisplayedAccounts | SmurfAccountManager/Views/EditAccountsWindow.xaml.cs:20-24 | The accounts shown are the configured accounts, reordered |
| EditAccounts.AppConfig.NewAccountButtonClick | SmurfAccountManager/Views/EditAccountsWindow.xaml.cs:64-75 | A valid dialog appends one new account numbered by the list length; otherwise nothing changes |
| EditAccounts.AppConfig.EditAccountButtonClick | SmurfAccountManager/Views/EditAccountsWindow.xaml.cs:77-95 | A valid dialog replaces the account where it stands with the new one; otherwise nothing changes |
| EditAccounts.AppConfig.ReplaceAt | SmurfAccountManager/Views/EditAccountsWindow.xaml.cs:86-89 | Only the given position changes and the list stays free of duplicates |
| EditAccounts.AppConfig.OptionsButtonClick | SmurfAccountManager/Views/EditAccountsWindow.xaml.cs:97-121 | A confirmed delete removes the account and renumbers the rest by position; a refusal changes nothing |
| EditAccounts.Renumber | SmurfAccountManager/Views/EditAccountsWindow.xaml.cs:112-115 | Every account gets its position as its display order |
| EditAccounts.Renumbered | SmurfAccountManager/Views/EditAccountsWindow.xaml.cs:112-115 | Renumbering keeps the number of accounts |
| EditAccounts.RenumberedNumbersByPosition | SmurfAccountManager/Views/EditAccountsWindow.xaml.cs:112-115 | Each account's order becomes its position and nothing else about it changes |
| EditAccounts.ShownInListOrderAfterDelete | SmurfAccountManager/Views/EditAccountsWindow.xaml.cs:112-118 | After a delete the window shows the accounts in list order |
| AccountDialogs.DialogValidation | SmurfAccountManager/Views/AccountDialog.xaml.cs:37-54 | A record is built exactly when neither username nor password is blank, and its username is trimmed and not empty |
| AccountDialogs.EditKeepsIdentity | SmurfAccountManager/Views/AccountDialog.xaml.cs:51-62 | Editing keeps id, Riot identity and penalty ends, takes the given order, and resets tag and the minutes fields |
| AccountDialogs.NewAccountIsBlank | SmurfAccountManager/Views/AccountDialog.xaml.cs:51-62 | A new account is the default record with the trimmed username, the protected password and the given order |
| AccountDialogs.SavedPasswordDecrypts | SmurfAccountManager/Views/AccountDialog.xaml.cs:55 | The stored password unprotects to the password typed |
| AccountDialogs.SavingAgainChangesNothing | SmurfAccountManager/Views/AccountDialog.xaml.cs:51-62 | Saving the same input again over the saved account gives the same record |
| AccountDialogs.AccountDialog.constructor | SmurfAccountManager/Views/AccountDialog.xaml.cs:15-27 | An edit dialog starts with the username and the unprotected password; a new one starts empty |
| AccountDialogs.AccountDialog.BuildAccount | SmurfAccountManager/Views/AccountDialog.xaml.cs:51-62 | Builds a new Account holding the dialog's record |
| AccountDialogs.AccountDialog.SaveButtonClick | SmurfAccountManager/Views/AccountDialog.xaml.cs:35-66 | Invalid input leaves the dialog open with no result; valid input sets the result account and closes with true |

## Left out

- File and directory I/O is not modelled. This covers `Directory.GetFiles`, `FileInfo`,
  `ReadFileWithRetry`, `File.ReadLines`, `File.ReadAllLines` and `File.WriteAllText`.
  Directory listings and file contents are inputs. A file that cannot be read is a missing
  content. A directory is missing, unlistable or listed.
- Saving and loading the configuration (`StorageService`) is not part of this model. It is
  file I/O outside the account logic.
- The regular-expression engine is not modelled. Each pattern is a function from text to
  its matches, so the results hold for any pattern. This covers the per-account mention
  pattern, the marker patterns and the legacy reader's six-pattern lists.
- The cryptography is left opaque: DPAPI (`EncryptionService`), PBKDF2 key derivation,
  AES and Base64. These are functions given as the `Crypto` parameter. The round trips are
  proved under the assumption that they invert each other (`AesRoundTrip`,
  `DpapiRoundTrip`).
- The random number generator is an input: the 16 random bytes.
- `DateTime.Now` is the parameter `now`, and the time a login began is the parameter
  `loginStart`. The round-trip date format ("O") and `DateTime.TryParse` are the opaque
  `DateCodec`. The export's "Generated" time is a given text.
- Dates are integer milliseconds. Overflow of `DateTime.AddMilliseconds` and `AddHours`
  is not modelled.
- `Math.Ceiling` on a double is replaced by an exact integer ceiling with a saturating
  cast to `int`. Floating-point rounding of very large millisecond counts is not modelled.
  In C# the unchecked conversion of an out-of-range double to `int` is left to the
  runtime; saturation is this model's choice for that case.
- `TimeSpan.TotalHours` and `Minutes` in the remaining-time texts are computed on integer
  milliseconds. The rounding of the double is not modelled.
- Accounts.ParseTag: does not model the numeric forms ("2") and the comma-separated
  lists of names that `Enum.TryParse` also accepts. Only the four tag names parse,
  compared with case, as `Enum.TryParse` without `ignoreCase` does.
- IdentityDetection.IsValidGameName: counts characters, where .NET's `string.Length`
  counts UTF-16 code units. A character outside the Basic Multilingual Plane counts once
  here and twice in .NET. The same holds for the 500 and 1000 offsets of
  `PenaltyDetection.ContextWindow` and every other length or index of the model.
- IdentityDetection.IsValidAccountId: `char.IsDigit` looks at UTF-16 code units, so only
  the decimal digits of the Basic Multilingual Plane are listed (`Text.DecimalDigitZeros`).
- LogReader.IsTextLog: .NET's one-argument `string.EndsWith` compares with the current
  culture, which ignores characters such as the soft hyphen; the model compares the
  characters exactly, so a name like "x.lo\u00ADg" is a text log there and not here. The
  import's `StartsWith("#")` on a trimmed line is modelled the same way; only a line
  starting with an ignorable character before its '#' could differ.
- PenaltyDetection.RiotClientLogs: letters are compared case-insensitively for ASCII
  only. Other case mappings of the file system are not modelled, nor are 8.3 short names.
- `RiotLogDetectionService.GlobalSyncPunishments` is not part of this model. The start-up
  call in `MainWindow.LoadAccounts` is modelled as the single-account `DetectPunishments`
  (`PenaltyDetection.DetectPunishmentsFor`).
- The rest of the main window's login flow is UI plumbing and outside process control,
  and is not modelled: starting the client (`LoginService`, `ProcessService`), the waits
  between attempts, message boxes, diagnostics, logging and the `debugInfo` texts.
- Each detection attempt sees the log directory as it stands at that attempt; the snapshot
  is a parameter.
- The account lists are assumed to hold no object twice (`Distinct`). `List.Remove` and
  `IndexOf` act on the first occurrence, and the model states that too. The frame proofs
  need distinct objects.
- The WPF list binding is modelled as the value of the list shown (`ItemsSource`).
- The converters, the export, import, path and tooltip dialogs, and the window chrome are
  not part of this model.
