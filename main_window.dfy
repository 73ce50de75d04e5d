/**
  MainWindow: what the main window does to the accounts. At start-up (`LoadAccounts`) every
  account that has an account id is reconciled against the Riot Client logs and its
  expired queue lockout is cleared; after a successful login (`AccountButton_Click`) the
  account's identity is detected from the League Client logs, with up to five attempts,
  and its penalties are reconciled. Starting the client, the waits between attempts, the
  message boxes and saving the configuration are not part of this model; the clock is the
  parameter `now` and each detection attempt sees the log directory as it then stands.
*/
module MainWindows {
  import opened Wrappers
  import opened Accounts
  import opened LogFiles
  import opened LogPatterns
  import opened PenaltyDetection
  import opened IdentityDetection
  import opened EditAccounts

  // ---------------------------------------------------------------------------
  // Clearing an expired lockout

  /** `ClearExpiredPenalties` on values: a lockout whose end is not after `now` is dropped.
      The low priority queue is never cleared by time. */
  function WithoutExpiredLockout(d: AccountData, now: int): (r: AccountData)
    ensures r.lockoutUntil.None? <==> d.lockoutUntil.None? || d.lockoutUntil.value <= now
    ensures r.lockoutUntil.Some? ==> r.lockoutUntil == d.lockoutUntil && r.lockoutUntil.value > now
    ensures r.(lockoutUntil := d.lockoutUntil) == d
  {
    if d.lockoutUntil.Some? && d.lockoutUntil.value <= now then d.(lockoutUntil := None) else d
  }

  /** Clearing twice at the same time clears nothing more. */
  lemma {:induction false} ClearingIsIdempotent(d: AccountData, now: int)
    ensures WithoutExpiredLockout(WithoutExpiredLockout(d, now), now) == WithoutExpiredLockout(d, now)
  {
  }

  /** Clearing never changes whether the account shows a queue lockout, nor the text shown
      for it: only a lockout that has already ended is dropped. */
  lemma {:induction false} ClearingKeepsActiveLockout(d: AccountData, now: int, later: int)
    requires later >= now
    ensures var r := WithoutExpiredLockout(d, now);
      (r.lockoutUntil.Some? && r.lockoutUntil.value > later) <==>
      (d.lockoutUntil.Some? && d.lockoutUntil.value > later)
  {
  }

  /** `ClearExpiredPenalties`, in place. */
  method ClearExpiredPenalties(account: Account, now: int)
    modifies account
    ensures account.Data() == WithoutExpiredLockout(old(account.Data()), now)
  {
    if account.lockoutUntil.Some? && account.lockoutUntil.value <= now {
      account.lockoutUntil := None;
    }
  }

  // ---------------------------------------------------------------------------
  // The start-up sync

  /** What `LoadAccounts` does to one account: one with an account id is reconciled with
      the Riot Client logs and then cleared of an expired lockout; one without is left
      alone, expired lockout included. */
  function StartupSync(d: AccountData, riotLogs: Directory, now: int, p: Patterns): (r: AccountData)
    ensures d.accountId == "" ==> r == d
    ensures r.(lowPriorityMinutes := d.lowPriorityMinutes, lockoutUntil := d.lockoutUntil) == d
  {
    if d.accountId == "" then d
    else
      var reconciled :=
        if riotLogs.Listed? then
          WithPenalties(d, ReconcileFiles(Penalties(d.lowPriorityMinutes, d.lockoutUntil),
                                          PunishmentLogFiles(riotLogs), d.accountId, now, p))
        else d;
      WithoutExpiredLockout(reconciled, now)
  }

  /** After the start-up sync an account with an id has no lockout that has already ended. */
  lemma {:induction false} StartupSyncLeavesNoExpiredLockout(d: AccountData, riotLogs: Directory, now: int, p: Patterns)
    requires d.accountId != ""
    ensures var r := StartupSync(d, riotLogs, now, p);
      r.lockoutUntil.None? || r.lockoutUntil.value > now
  {
  }

  /** The start-up sync over the whole list, account by account. */
  function StartupSynced(ds: seq<AccountData>, riotLogs: Directory, now: int, p: Patterns): (r: seq<AccountData>)
    ensures |r| == |ds|
  {
    seq(|ds|, i requires 0 <= i < |ds| => StartupSync(ds[i], riotLogs, now, p))
  }

  /** The start-up sync visits only the accounts with an account id, keeps the list's order,
      and changes nothing but the two penalty fields. */
  lemma {:induction false} StartupSyncVisitsOnlyKnownAccounts(ds: seq<AccountData>, riotLogs: Directory, now: int, p: Patterns)
    ensures var r := StartupSynced(ds, riotLogs, now, p);
      && (forall i | 0 <= i < |ds| && ds[i].accountId == "" :: r[i] == ds[i])
      && (forall i | 0 <= i < |ds| :: r[i].id == ds[i].id && r[i].accountId == ds[i].accountId
                                      && r[i].displayOrder == ds[i].displayOrder)
  {
    var r := StartupSynced(ds, riotLogs, now, p);
    forall i | 0 <= i < |ds|
      ensures r[i].id == ds[i].id && r[i].accountId == ds[i].accountId && r[i].displayOrder == ds[i].displayOrder
    {
      assert r[i] == StartupSync(ds[i], riotLogs, now, p);
    }
  }

  /** `LoadAccounts`: syncs every account with an account id, in list order, and returns
      the list as the window shows it, ordered by display order. */
  method LoadAccounts(accounts: seq<Account>, riotLogs: Directory, now: int, p: Patterns)
    returns (shown: seq<AccountData>)
    requires Distinct(accounts)
    modifies set a | a in accounts
    ensures DataOf(accounts) == StartupSynced(old(DataOf(accounts)), riotLogs, now, p)
    ensures shown == ByDisplayOrder(DataOf(accounts))
  {
    ghost var before := DataOf(accounts);
    for i := 0 to |accounts|
      invariant forall j | 0 <= j < i :: accounts[j].Data() == StartupSync(before[j], riotLogs, now, p)
      invariant forall j | i <= j < |accounts| :: accounts[j].Data() == before[j]
    {
      SyncAtStartup(accounts[i], riotLogs, now, p);
    }
    assert DataOf(accounts) == StartupSynced(before, riotLogs, now, p);
    shown := ByDisplayOrder(DataOf(accounts));
  }

  /** The body of the start-up loop, for one account. */
  method SyncAtStartup(account: Account, riotLogs: Directory, now: int, p: Patterns)
    modifies account
    ensures account.Data() == StartupSync(old(account.Data()), riotLogs, now, p)
  {
    if account.accountId != "" {
      DetectPunishmentsFor(account, riotLogs, now, p);
      ClearExpiredPenalties(account, now);
    }
  }

  // ---------------------------------------------------------------------------
  // Detection after a login

  const MaxDetectionAttempts: nat := 5

  /** Detection runs only while the game name or the account id is missing. */
  predicate NeedsDetection(d: AccountData) {
    d.gameName == "" || d.accountId == ""
  }

  /** What each attempt decides, one per directory state the attempts see. */
  function Outcomes(snapshots: seq<Directory>, loginStart: int, storedId: string, p: Patterns): (r: seq<Detection>)
    ensures |r| == |snapshots|
  {
    seq(|snapshots|, i requires 0 <= i < |snapshots| => DetectIdentity(snapshots[i], loginStart, storedId, p))
  }

  /** The first successful attempt; `|outcomes|` when none succeeds. */
  function FirstDetection(outcomes: seq<Detection>): (k: nat)
    ensures k <= |outcomes|
    ensures k < |outcomes| ==> outcomes[k].Detected?
    ensures forall j | 0 <= j < k :: !outcomes[j].Detected?
  {
    if outcomes == [] then 0
    else if outcomes[0].Detected? then 0
    else 1 + FirstDetection(outcomes[1..])
  }

  /** The number of `DetectAccountInfo` calls the retry loop makes: none when detection is
      not needed, otherwise up to and including the first success, at most five. */
  function AttemptsMade(d: AccountData, outcomes: seq<Detection>): (n: nat)
    requires |outcomes| == MaxDetectionAttempts
    ensures !NeedsDetection(d) ==> n == 0
    ensures NeedsDetection(d) ==> 1 <= n <= MaxDetectionAttempts
  {
    if !NeedsDetection(d) then 0
    else
      var k := FirstDetection(outcomes);
      if k < |outcomes| then k + 1 else |outcomes|
  }

  /** The account after the retry loop: the identity of the first successful attempt, or
      the account as it was. */
  function AfterDetection(d: AccountData, outcomes: seq<Detection>): AccountData
    requires |outcomes| == MaxDetectionAttempts
  {
    if !NeedsDetection(d) then d
    else
      var k := FirstDetection(outcomes);
      if k < |outcomes| then WithIdentity(d, outcomes[k].identity) else d
  }

  /** Every attempt before the last one made failed, and the last one made succeeded
      unless all five were used. */
  lemma {:induction false} RetriesStopAtFirstSuccess(d: AccountData, outcomes: seq<Detection>)
    requires |outcomes| == MaxDetectionAttempts
    requires NeedsDetection(d)
    ensures var n := AttemptsMade(d, outcomes);
      && (forall j | 0 <= j < n - 1 :: !outcomes[j].Detected?)
      && (n < MaxDetectionAttempts ==> outcomes[n - 1].Detected?)
  {
  }

  /** A successful detection leaves an account that needs no further detection, with a
      valid account id and game name; a stored account id is never replaced. */
  lemma {:induction false} DetectionSettlesIdentity(d: AccountData, snapshots: seq<Directory>, loginStart: int, p: Patterns)
    requires |snapshots| == MaxDetectionAttempts
    ensures var r := AfterDetection(d, Outcomes(snapshots, loginStart, d.accountId, p));
      && (d.accountId != "" ==> r.accountId == d.accountId)
      && (r != d ==> !NeedsDetection(r) && IsValidAccountId(r.accountId) && IsValidGameName(r.gameName))
  {
    var outcomes := Outcomes(snapshots, loginStart, d.accountId, p);
    var r := AfterDetection(d, outcomes);
    if NeedsDetection(d) {
      var k := FirstDetection(outcomes);
      if k < |outcomes| {
        var identity := outcomes[k].identity;
        assert outcomes[k] == DetectIdentity(snapshots[k], loginStart, d.accountId, p);
        assert IsValidAccountId(identity.accountId) && IsValidGameName(identity.gameName);
        assert r.accountId == identity.accountId && r.gameName == identity.gameName;
      }
    }
  }

  /** Once detection has nothing left to do, running it again changes nothing. */
  lemma {:induction false} SettledAccountIsSkipped(d: AccountData, outcomes: seq<Detection>)
    requires |outcomes| == MaxDetectionAttempts
    requires !NeedsDetection(d)
    ensures AfterDetection(d, outcomes) == d && AttemptsMade(d, outcomes) == 0
  {
  }

  /** The detection loop of `AccountButton_Click`: skipped when game name and account id
      are both known; otherwise `DetectAccountInfo` is called once per attempt until it
      succeeds or five attempts are spent. `snapshots[i]` is the League Client log
      directory as attempt `i + 1` finds it. */
  method DetectWithRetries(account: Account, snapshots: seq<Directory>, loginStart: int, p: Patterns)
    returns (detected: bool, attempts: nat)
    requires |snapshots| == MaxDetectionAttempts
    modifies account
    ensures var outcomes := Outcomes(snapshots, loginStart, old(account.accountId), p);
      && attempts == AttemptsMade(old(account.Data()), outcomes)
      && (detected <==> NeedsDetection(old(account.Data())) && FirstDetection(outcomes) < MaxDetectionAttempts)
      && account.Data() == AfterDetection(old(account.Data()), outcomes)
  {
    detected, attempts := false, 0;
    if account.gameName == "" || account.accountId == "" {
      ghost var outcomes := Outcomes(snapshots, loginStart, account.accountId, p);
      ghost var k := FirstDetection(outcomes);
      for attempt := 1 to MaxDetectionAttempts + 1
        invariant attempt - 1 <= k
        invariant attempts == attempt - 1
        invariant account.Data() == old(account.Data())
      {
        attempts := attempts + 1;
        detected := Attempt(account, snapshots, attempt - 1, loginStart, p);
        if detected {
          return;
        }
        assert attempt - 1 != k;
      }
    }
  }

  /** Attempt `i + 1` of the loop: `DetectAccountInfo` on the directory as it then stands. */
  method Attempt(account: Account, snapshots: seq<Directory>, i: nat, loginStart: int, p: Patterns)
    returns (detected: bool)
    requires i < |snapshots|
    modifies account
    ensures var outcome := Outcomes(snapshots, loginStart, old(account.accountId), p)[i];
      && detected == outcome.Detected?
      && account.Data() == if detected then WithIdentity(old(account.Data()), outcome.identity) else old(account.Data())
  {
    detected := DetectAccountInfo(account, snapshots[i], loginStart, p);
  }

  /** The account after the detection loop and the penalty reconciliation that follows it
      (the single-account `DetectPunishments`, which needs an account id). */
  function AfterLogin(d: AccountData, snapshots: seq<Directory>, loginStart: int, riotLogs: Directory,
                      now: int, p: Patterns): AccountData
    requires |snapshots| == MaxDetectionAttempts
  {
    var detected := AfterDetection(d, Outcomes(snapshots, loginStart, d.accountId, p));
    if riotLogs.Listed? && detected.accountId != "" then
      WithPenalties(detected, ReconcileFiles(Penalties(detected.lowPriorityMinutes, detected.lockoutUntil),
                                             PunishmentLogFiles(riotLogs), detected.accountId, now, p))
    else detected
  }

  /** An account detected in this login gets its penalties reconciled under the id just
      detected; an account still without an id keeps its penalties. */
  lemma {:induction false} PenaltiesFollowDetectedId(d: AccountData, snapshots: seq<Directory>, loginStart: int, riotLogs: Directory,
                                  now: int, p: Patterns)
    requires |snapshots| == MaxDetectionAttempts
    ensures var detected := AfterDetection(d, Outcomes(snapshots, loginStart, d.accountId, p));
      var r := AfterLogin(d, snapshots, loginStart, riotLogs, now, p);
      && r.accountId == detected.accountId && r.gameName == detected.gameName
      && (detected.accountId == "" ==> r.lockoutUntil == d.lockoutUntil && r.lowPriorityMinutes == d.lowPriorityMinutes)
  {
    var outcomes := Outcomes(snapshots, loginStart, d.accountId, p);
    var detected := AfterDetection(d, outcomes);
    if NeedsDetection(d) {
      var k := FirstDetection(outcomes);
      if k < |outcomes| {
        assert detected.lockoutUntil == d.lockoutUntil;
      }
    }
  }

  /** `AccountButton_Click` after the client started and its window appeared: the
      detection loop, then the penalty reconciliation of the Riot Client logs. */
  method AfterSuccessfulLogin(account: Account, snapshots: seq<Directory>, loginStart: int, riotLogs: Directory,
                              now: int, p: Patterns)
    requires |snapshots| == MaxDetectionAttempts
    modifies account
    ensures account.Data() == AfterLogin(old(account.Data()), snapshots, loginStart, riotLogs, now, p)
  {
    var detected, attempts := DetectWithRetries(account, snapshots, loginStart, p);
    DetectPunishmentsFor(account, riotLogs, now, p);
  }
}
