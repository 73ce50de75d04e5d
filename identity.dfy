/**
  Identity detection of RiotLogDetectionService: finding the account id, game name and
  tag line of the account that just logged in, in the League Client's tracing files
  written since the login began.
*/
module IdentityDetection {
  import opened Wrappers
  import opened Text
  import opened Accounts
  import opened LogFiles
  import opened LogPatterns

  const MaxJsonFilesToCheck: nat := 3
  const TracingFileName: string := "LeagueClient-tracing.json"

  /** `IsValidAccountId`: 5 to 20 characters, all decimal digits of any script. */
  predicate IsValidAccountId(s: string) {
    s != "" && 5 <= |s| <= 20 && AllDecimalDigits(s)
  }

  /** Digits outside ASCII pass the check too: five Arabic-Indic digits make a valid id,
      and a letter anywhere does not. */
  lemma {:induction false} ArabicIndicAccountIdIsValid()
    ensures IsValidAccountId("\U{0661}\U{0662}\U{0663}\U{0664}\U{0665}")
    ensures !IsValidAccountId("1234a")
  {
    var s := "\U{0661}\U{0662}\U{0663}\U{0664}\U{0665}";
    forall i | 0 <= i < |s| ensures IsDecimalDigit(s[i]) {
      assert DecimalDigitZeros[1] <= s[i] as int < DecimalDigitZeros[1] + 10;
    }
    var t := "1234a";
    assert !IsDecimalDigit(t[4]);
  }

  /** `IsValidGameName`: 3 to 16 characters. */
  predicate IsValidGameName(s: string) {
    s != "" && 3 <= |s| <= 16
  }

  datatype Identity = Identity(accountId: string, gameName: string, tagLine: string)

  /** Why a tracing file was rejected (the `details` text of the source, as a value). */
  datatype Rejection =
    | AccountIdNotFound
    | GameNameNotFound
    | InvalidAccountId(found: string)
    | InvalidGameName(found: string)
    | AccountIdMismatch(expected: string, found: string)

  datatype ParseOutcome = Accepted(identity: Identity) | Rejected(reason: Rejection)

  /** The decision of `ParseAccountFromJson` for an account whose stored id is `storedId`:
      the first account-id field and the first game-name field must both exist and be
      valid, a stored id must equal the one found, and the tag line is the first tag-line
      field or "" when there is none. */
  function ParseIdentity(content: string, storedId: string, p: Patterns): (r: ParseOutcome)
    ensures r.Accepted? <==>
      && p.accountIds(content) != [] && p.gameName(content).Some?
      && IsValidAccountId(p.accountIds(content)[0].capture)
      && IsValidGameName(p.gameName(content).value.capture)
      && (storedId == "" || storedId == p.accountIds(content)[0].capture)
    ensures r.Accepted? ==>
      && r.identity.accountId == p.accountIds(content)[0].capture
      && r.identity.gameName == p.gameName(content).value.capture
      && r.identity.tagLine == (if p.tagLine(content).Some? then p.tagLine(content).value.capture else "")
    ensures r.Accepted? ==> IsValidAccountId(r.identity.accountId) && IsValidGameName(r.identity.gameName)
    ensures r.Accepted? && storedId != "" ==> r.identity.accountId == storedId
    ensures r.Rejected? && r.reason.AccountIdMismatch? ==>
      r.reason.expected == storedId != "" && r.reason.found != storedId
    // the checks run in order and the first that fails is reported
    ensures p.accountIds(content) == [] ==> r == Rejected(AccountIdNotFound)
    ensures p.accountIds(content) != [] && p.gameName(content).None? ==> r == Rejected(GameNameNotFound)
    ensures r.Rejected? && r.reason.InvalidAccountId? ==>
      && p.accountIds(content) != [] && p.gameName(content).Some?
      && r.reason.found == p.accountIds(content)[0].capture && !IsValidAccountId(r.reason.found)
    ensures r.Rejected? && r.reason.InvalidGameName? ==>
      && p.accountIds(content) != [] && p.gameName(content).Some?
      && IsValidAccountId(p.accountIds(content)[0].capture)
      && r.reason.found == p.gameName(content).value.capture && !IsValidGameName(r.reason.found)
    ensures r.Rejected? && r.reason.AccountIdMismatch? ==>
      && p.accountIds(content) != [] && p.gameName(content).Some?
      && IsValidAccountId(p.accountIds(content)[0].capture)
      && IsValidGameName(p.gameName(content).value.capture)
      && r.reason.found == p.accountIds(content)[0].capture
  {
    var idMatch := FirstMatch(p.accountIds(content));
    var nameMatch := p.gameName(content);
    var tagMatch := p.tagLine(content);
    if idMatch.None? then Rejected(AccountIdNotFound)
    else if nameMatch.None? then Rejected(GameNameNotFound)
    else
      var accountId := idMatch.value.capture;
      var gameName := nameMatch.value.capture;
      var tagLine := if tagMatch.Some? then tagMatch.value.capture else "";
      if !IsValidAccountId(accountId) then Rejected(InvalidAccountId(accountId))
      else if !IsValidGameName(gameName) then Rejected(InvalidGameName(gameName))
      else if storedId != "" && storedId != accountId then Rejected(AccountIdMismatch(storedId, accountId))
      else Accepted(Identity(accountId, gameName, tagLine))
  }

  /** The account after an accepted identity is written into it: id and game name are set,
      the tag line only when a non-empty one was found, and nothing else changes. */
  function WithIdentity(d: AccountData, identity: Identity): (r: AccountData)
    ensures r.accountId == identity.accountId && r.gameName == identity.gameName
    ensures r.tagLine == (if identity.tagLine != "" then identity.tagLine else d.tagLine)
    ensures r.(accountId := d.accountId, gameName := d.gameName, tagLine := d.tagLine) == d
  {
    d.(accountId := identity.accountId, gameName := identity.gameName,
       tagLine := if identity.tagLine != "" then identity.tagLine else d.tagLine)
  }

  /** `ParseAccountFromJson`: parses one tracing file and, when it is accepted, writes the
      identity into the account in place; on rejection the account is left untouched. */
  method ParseAccountFromJson(content: string, account: Account, p: Patterns) returns (ok: bool, outcome: ParseOutcome)
    modifies account
    ensures outcome == ParseIdentity(content, old(account.accountId), p)
    ensures ok == outcome.Accepted?
    ensures account.Data() == if ok then WithIdentity(old(account.Data()), outcome.identity) else old(account.Data())
  {
    outcome := ParseIdentity(content, account.accountId, p);
    if outcome.Rejected? {
      return false, outcome;
    }
    account.accountId := outcome.identity.accountId;
    account.gameName := outcome.identity.gameName;
    if outcome.identity.tagLine != "" {
      account.tagLine := outcome.identity.tagLine;
    }
    ok := true;
  }

  /** A tracing file whose content was read and is accepted for the stored id. */
  predicate Accepts(f: LogFile, storedId: string, p: Patterns) {
    f.content.Some? && ParseIdentity(f.content.value, storedId, p).Accepted?
  }

  /** The index of the first accepted file, or `|files|` when none is. */
  function FirstAccepted(files: seq<LogFile>, storedId: string, p: Patterns): (k: nat)
    ensures k <= |files|
    ensures k < |files| ==> Accepts(files[k], storedId, p)
    ensures forall j | 0 <= j < k :: !Accepts(files[j], storedId, p)
  {
    if files == [] then 0
    else if Accepts(files[0], storedId, p) then 0
    else 1 + FirstAccepted(files[1..], storedId, p)
  }

  /** The tracing files written at or after the login start, newest first. */
  function TracingFiles(dir: Directory, loginStart: int): seq<LogFile> {
    FindFilesAfter(dir, loginStart, Some(TracingFileName))
  }

  datatype Detection = DirectoryNotFound | NoNewFiles | NotDetected | Detected(identity: Identity, file: LogFile)

  /** What `DetectAccountInfo` decides: nothing when the directory is missing or no tracing
      file was written since the login began (older files are never consulted); otherwise
      the identity in the first accepted file among the three newest. */
  function DetectIdentity(dir: Directory, loginStart: int, storedId: string, p: Patterns): (r: Detection)
    ensures r.Detected? ==>
      && dir.Listed? && r.file in dir.files
      && r.file.lastWrite >= loginStart && Contains(r.file.name, TracingFileName)
      && r.file in Take(TracingFiles(dir, loginStart), MaxJsonFilesToCheck)
      && Accepts(r.file, storedId, p)
      && ParseIdentity(r.file.content.value, storedId, p) == Accepted(r.identity)
    ensures r.Detected? ==> IsValidAccountId(r.identity.accountId) && IsValidGameName(r.identity.gameName)
    ensures r.Detected? && storedId != "" ==> r.identity.accountId == storedId
    ensures r == DirectoryNotFound <==> dir.Missing?
    ensures r == NoNewFiles <==> !dir.Missing? && TracingFiles(dir, loginStart) == []
    ensures !dir.Missing? ==>
      var c := Take(TracingFiles(dir, loginStart), MaxJsonFilesToCheck);
      && (r.Detected? <==> exists i | 0 <= i < |c| :: Accepts(c[i], storedId, p))
      && (r.Detected? ==> r.file == c[FirstAccepted(c, storedId, p)])
  {
    if dir.Missing? then DirectoryNotFound
    else
      var files := TracingFiles(dir, loginStart);
      if files == [] then NoNewFiles
      else
        var candidates := Take(files, MaxJsonFilesToCheck);
        var k := FirstAccepted(candidates, storedId, p);
        if k == |candidates| then NotDetected
        else
          var f := candidates[k];
          assert f in files;
          Detected(ParseIdentity(f.content.value, storedId, p).identity, f)
  }

  /** `DetectAccountInfo`: tries at most three tracing files written since the login
      began, newest first, and stops at the first one that parses; the account is written
      only by that successful parse. */
  method DetectAccountInfo(account: Account, dir: Directory, loginStart: int, p: Patterns) returns (ok: bool)
    modifies account
    ensures ok <==> DetectIdentity(dir, loginStart, old(account.accountId), p).Detected?
    ensures ok <==> (!dir.Missing? &&
      var c := Take(TracingFiles(dir, loginStart), MaxJsonFilesToCheck);
      exists i | 0 <= i < |c| :: Accepts(c[i], old(account.accountId), p))
    ensures account.Data() ==
      if ok then WithIdentity(old(account.Data()), DetectIdentity(dir, loginStart, old(account.accountId), p).identity)
      else old(account.Data())
  {
    if dir.Missing? {
      return false;
    }
    var files := TracingFiles(dir, loginStart);
    if |files| == 0 {
      return false;
    }
    var candidates := Take(files, MaxJsonFilesToCheck);
    ghost var storedId := account.accountId;
    ghost var k := FirstAccepted(candidates, storedId, p);
    ghost var spec := DetectIdentity(dir, loginStart, storedId, p);
    assert spec.Detected? <==> k < |candidates|;
    for i := 0 to |candidates|
      invariant i <= k
      invariant account.Data() == old(account.Data())
    {
      var file := candidates[i];
      if file.content.None? {
        continue;
      }
      var parsed, outcome := ParseAccountFromJson(file.content.value, account, p);
      if parsed {
        assert Accepts(candidates[i], storedId, p);
        assert i == k;
        assert spec.identity == outcome.identity;
        return true;
      }
    }
    return false;
  }

  /** Once an account has an id, detection never replaces it with another one: whatever
      the logs hold, the id after `DetectAccountInfo` equals the stored one. */
  lemma {:induction false} StoredAccountIdIsKept(d: AccountData, dir: Directory, loginStart: int, p: Patterns)
    requires d.accountId != ""
    ensures var r := DetectIdentity(dir, loginStart, d.accountId, p);
      r.Detected? ==> WithIdentity(d, r.identity).accountId == d.accountId
  {
  }

  /** No fallback to older files: when every tracing file predates the login start,
      detection fails however valid the old files are. */
  lemma {:induction false} NoFallbackToOlderFiles(dir: Directory, loginStart: int, storedId: string, p: Patterns)
    requires dir.Listed?
    requires forall f | f in dir.files :: f.lastWrite < loginStart
    ensures DetectIdentity(dir, loginStart, storedId, p) == NoNewFiles
  {
  }

  /** A newer tracing file that holds no acceptable identity is not skipped in favour of an
      older one written before the login: with only these two files, detection fails. */
  lemma {:induction false} NewerEmptyFileMeansFailure(older: LogFile, newer: LogFile, loginStart: int, storedId: string, p: Patterns)
    requires older.lastWrite < loginStart <= newer.lastWrite
    requires !Accepts(newer, storedId, p)
    ensures !DetectIdentity(Listed([older, newer]), loginStart, storedId, p).Detected?
  {
  }
}
