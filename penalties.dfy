/**
  Penalty reconciliation of RiotLogDetectionService: reading the Riot Client logs for
  LEAVER_BUSTED (low priority queue) and LEAVER_BUSTER_QUEUE_LOCKOUT markers near each
  mention of an account, and folding them into the account's penalty fields.

  The specification functions work on `Penalties` values and on the list of context
  windows a scan visits; the methods update `Account` objects in place and are proved
  equal to those functions.
*/
module PenaltyDetection {
  import opened Wrappers
  import opened Text
  import opened Accounts
  import opened LogFiles
  import opened LogPatterns

  const MaxLogFilesToCheck: nat := 5
  /** `Directory.GetFiles(path, "*Riot Client.log")`: names ending in this text. */
  const RiotClientLogSuffix: string := "Riot Client.log"
  /** A context window reaches this far back from a mention ... */
  const ContextRadius: int := 500
  /** ... and is at most this long. */
  const ContextLength: int := 1000

  // ---------------------------------------------------------------------------
  // One context window

  /** `Math.Max(0, index - 500)`. */
  function WindowStart(index: int): int {
    if index - ContextRadius > 0 then index - ContextRadius else 0
  }

  /** `logContent.Substring(start, Math.Min(logContent.Length - start, 1000))` around a
      mention at `index`; `None` when `Substring` throws, which is when the start lies
      beyond the end of the content. */
  function ContextWindow(content: string, index: nat): (r: Option<string>)
    ensures r.None? <==> WindowStart(index) > |content|
    ensures r.Some? ==> |r.value| <= ContextLength
    ensures r.Some? ==>
      var s := WindowStart(index);
      && s + |r.value| <= |content|
      && r.value == content[s..s + |r.value|]
      && (s == 0 || s == index - ContextRadius)
      && (s + |r.value| == |content| || |r.value| == ContextLength)
    ensures index < |content| ==>
      r.Some? && WindowStart(index) <= index < WindowStart(index) + |r.value|
  {
    var start := WindowStart(index);
    if start > |content| then None
    else
      var length := Min(|content| - start, ContextLength);
      Some(content[start..start + length])
  }

  /** The windows `ParsePunishmentEvents` visits for a list of mentions, in order. A window
      that cannot be cut makes the method's `catch` end the scan, so the list stops there. */
  function MentionContexts(content: string, mentions: seq<nat>): (r: seq<string>)
    ensures |r| <= |mentions|
    ensures forall i | 0 <= i < |r| :: ContextWindow(content, mentions[i]) == Some(r[i])
    ensures |r| < |mentions| ==> ContextWindow(content, mentions[|r|]).None?
  {
    if mentions == [] then []
    else match ContextWindow(content, mentions[0])
      case None => []
      case Some(w) => [w] + MentionContexts(content, mentions[1..])
  }

  /** Mentions found in the content itself start inside it, so every one of them gets its
      window and none ends the scan early. */
  lemma {:induction false} MentionContextsComplete(content: string, mentions: seq<nat>)
    requires forall i | 0 <= i < |mentions| :: mentions[i] <= |content|
    ensures |MentionContexts(content, mentions)| == |mentions|
  {
    if mentions != [] {
      assert WindowStart(mentions[0]) <= |content|;
      MentionContextsComplete(content, mentions[1..]);
    }
  }

  // ---------------------------------------------------------------------------
  // The markers of one window and their effect

  /** `ceil(x / 60000.0)` for an integer `x`. */
  function CeilDiv(millis: int): (q: int)
    ensures (q - 1) * MinuteMs < millis <= q * MinuteMs
  {
    var f := millis / MinuteMs;
    assert millis == f * MinuteMs + millis % MinuteMs;
    if millis % MinuteMs == 0 then f else f + 1
  }

  /** `(int)Math.Ceiling(millis / 60000.0)`: whole minutes, rounded up. Out of the Int32
      range the C# conversion is left to the runtime; this model chooses to saturate at the
      Int32 bounds. */
  function CeilMinutes(millis: int): (r: int)
    ensures Int32Min <= r <= Int32Max
    ensures Int32Min < r < Int32Max ==> (r - 1) * MinuteMs < millis <= r * MinuteMs
    ensures r == Int32Max ==> millis > (Int32Max - 1) * MinuteMs
    ensures r == Int32Min ==> millis <= Int32Min * MinuteMs
    ensures r <= 0 <==> millis <= 0
  {
    var q := CeilDiv(millis);
    if q > Int32Max then Int32Max else if q < Int32Min then Int32Min else q
  }

  /** A marker's `remainingMillis`, when the pattern matched and `long.TryParse` accepts
      its capture. */
  function MarkerMillis(m: Option<RegexMatch>): Option<int> {
    if m.Some? then ParseInt64(m.value.capture) else None
  }

  function LpqMillis(ctx: string, p: Patterns): Option<int> {
    MarkerMillis(p.leaverBusted(ctx))
  }

  function LockoutMillis(ctx: string, p: Patterns): Option<int> {
    MarkerMillis(p.queueLockout(ctx))
  }

  /** The low priority minutes a LEAVER_BUSTED marker leaves behind, whatever was stored
      before: cleared when the remaining time rounds to no minutes, the rounded-up minutes
      otherwise. */
  function LpqFromMillis(millis: int): (r: Option<int>)
    ensures r.None? <==> millis <= 0
    ensures r.Some? ==> r.value > 0 && r.value == CeilMinutes(millis)
  {
    var minutes := CeilMinutes(millis);
    if minutes <= 0 then None else Some(minutes)
  }

  /** `b` is absent, or `a` is present and not earlier than `b`. */
  predicate NotEarlier(a: Option<int>, b: Option<int>) {
    b.None? || (a.Some? && a.value >= b.value)
  }

  /** The lockout after a marker ending at `t`: replaced only when none is stored or the
      new end is strictly later. */
  function LaterOf(current: Option<int>, t: int): (r: Option<int>)
    ensures NotEarlier(r, current) && NotEarlier(r, Some(t))
    ensures r == current || r == Some(t)
  {
    if current.None? || t > current.value then Some(t) else current
  }

  /** One iteration of the loop of `ParsePunishmentEvents`: a LEAVER_BUSTED marker in the
      window overwrites the low priority minutes (higher or lower, or clears them), a
      queue-lockout marker pushes the lockout end to `now + remainingMillis` if that is
      later. */
  function ApplyContext(pen: Penalties, ctx: string, now: int, p: Patterns): (r: Penalties)
    ensures LpqMillis(ctx, p).None? ==> r.lowPriorityMinutes == pen.lowPriorityMinutes
    ensures LpqMillis(ctx, p).Some? ==> r.lowPriorityMinutes == LpqFromMillis(LpqMillis(ctx, p).value)
    ensures NotEarlier(r.lockoutUntil, pen.lockoutUntil)
    ensures LockoutMillis(ctx, p).Some? ==> NotEarlier(r.lockoutUntil, Some(now + LockoutMillis(ctx, p).value))
    ensures r.lockoutUntil == pen.lockoutUntil
         || (LockoutMillis(ctx, p).Some? && r.lockoutUntil == Some(now + LockoutMillis(ctx, p).value))
  {
    var lpq := LpqMillis(ctx, p);
    var lockout := LockoutMillis(ctx, p);
    Penalties(
      if lpq.Some? then LpqFromMillis(lpq.value) else pen.lowPriorityMinutes,
      if lockout.Some? then LaterOf(pen.lockoutUntil, now + lockout.value) else pen.lockoutUntil)
  }

  // ---------------------------------------------------------------------------
  // Folding a scan

  /** The penalties after visiting the windows `ctxs` in order. */
  function FoldContexts(pen: Penalties, ctxs: seq<string>, now: int, p: Patterns): Penalties {
    if ctxs == [] then pen
    else ApplyContext(FoldContexts(pen, ctxs[..|ctxs| - 1], now, p), ctxs[|ctxs| - 1], now, p)
  }

  /** The position of the last window holding a readable LEAVER_BUSTED marker, or -1. */
  function LastLpqIndex(ctxs: seq<string>, p: Patterns): (k: int)
    ensures -1 <= k < |ctxs|
    ensures k >= 0 ==> LpqMillis(ctxs[k], p).Some?
  {
    if ctxs == [] then -1
    else if LpqMillis(ctxs[|ctxs| - 1], p).Some? then |ctxs| - 1
    else LastLpqIndex(ctxs[..|ctxs| - 1], p)
  }

  /** No window after the last marker holds one. */
  lemma {:induction false} LastLpqIndexIsLast(ctxs: seq<string>, p: Patterns)
    ensures forall j | LastLpqIndex(ctxs, p) < j < |ctxs| :: LpqMillis(ctxs[j], p).None?
  {
    if ctxs != [] && LpqMillis(ctxs[|ctxs| - 1], p).None? {
      var init := ctxs[..|ctxs| - 1];
      LastLpqIndexIsLast(init, p);
      assert forall j | 0 <= j < |init| :: init[j] == ctxs[j];
    }
  }

  /** The remainingMillis of the last window holding a readable LEAVER_BUSTED marker. */
  function LastLpqMillis(ctxs: seq<string>, p: Patterns): Option<int> {
    var k := LastLpqIndex(ctxs, p);
    if k < 0 then None else LpqMillis(ctxs[k], p)
  }

  /** The largest remainingMillis of the readable queue-lockout markers. */
  function MaxLockoutMillis(ctxs: seq<string>, p: Patterns): Option<int> {
    if ctxs == [] then None
    else
      var rest := MaxLockoutMillis(ctxs[..|ctxs| - 1], p);
      var last := LockoutMillis(ctxs[|ctxs| - 1], p);
      if last.None? then rest
      else if rest.None? || last.value > rest.value then last
      else rest
  }

  /** `MaxLockoutMillis` is the maximum: no marker exceeds it, and some marker attains it. */
  lemma {:induction false} MaxLockoutMillisIsMax(ctxs: seq<string>, p: Patterns)
    ensures forall i | 0 <= i < |ctxs| && LockoutMillis(ctxs[i], p).Some? ::
      MaxLockoutMillis(ctxs, p).Some? && LockoutMillis(ctxs[i], p).value <= MaxLockoutMillis(ctxs, p).value
    ensures MaxLockoutMillis(ctxs, p).Some? ==> exists i | 0 <= i < |ctxs| :: LockoutMillis(ctxs[i], p) == MaxLockoutMillis(ctxs, p)
  {
    if ctxs != [] {
      var init := ctxs[..|ctxs| - 1];
      MaxLockoutMillisIsMax(init, p);
      assert forall i | 0 <= i < |init| :: init[i] == ctxs[i];
    }
  }

  /** What a scan does, as a whole: the low priority minutes are decided by the LAST window
      with a LEAVER_BUSTED marker (earlier ones are overwritten, higher or lower) and are
      left alone when there is none; the lockout end becomes the later of the stored one and
      `now` plus the longest queue-lockout marker. */
  lemma {:induction false} FoldContextsOutcome(pen: Penalties, ctxs: seq<string>, now: int, p: Patterns)
    ensures FoldContexts(pen, ctxs, now, p).lowPriorityMinutes ==
      (if LastLpqMillis(ctxs, p).Some? then LpqFromMillis(LastLpqMillis(ctxs, p).value) else pen.lowPriorityMinutes)
    ensures FoldContexts(pen, ctxs, now, p).lockoutUntil ==
      (if MaxLockoutMillis(ctxs, p).Some? then LaterOf(pen.lockoutUntil, now + MaxLockoutMillis(ctxs, p).value)
       else pen.lockoutUntil)
  {
    FoldContextsLpq(pen, ctxs, now, p);
    FoldContextsLockout(pen, ctxs, now, p);
  }

  lemma {:induction false} FoldContextsLpq(pen: Penalties, ctxs: seq<string>, now: int, p: Patterns)
    ensures FoldContexts(pen, ctxs, now, p).lowPriorityMinutes ==
      (if LastLpqMillis(ctxs, p).Some? then LpqFromMillis(LastLpqMillis(ctxs, p).value) else pen.lowPriorityMinutes)
  {
    if ctxs != [] {
      var init := ctxs[..|ctxs| - 1];
      var last := ctxs[|ctxs| - 1];
      FoldContextsLpq(pen, init, now, p);
      assert FoldContexts(pen, ctxs, now, p) == ApplyContext(FoldContexts(pen, init, now, p), last, now, p);
      assert LastLpqMillis(ctxs, p) == if LpqMillis(last, p).Some? then LpqMillis(last, p) else LastLpqMillis(init, p);
    }
  }

  lemma {:induction false} FoldContextsLockout(pen: Penalties, ctxs: seq<string>, now: int, p: Patterns)
    ensures FoldContexts(pen, ctxs, now, p).lockoutUntil ==
      (if MaxLockoutMillis(ctxs, p).Some? then LaterOf(pen.lockoutUntil, now + MaxLockoutMillis(ctxs, p).value)
       else pen.lockoutUntil)
  {
    if ctxs != [] {
      var init := ctxs[..|ctxs| - 1];
      var last := ctxs[|ctxs| - 1];
      FoldContextsLockout(pen, init, now, p);
      assert FoldContexts(pen, ctxs, now, p) == ApplyContext(FoldContexts(pen, init, now, p), last, now, p);
    }
  }

  /** A scan never brings the lockout end forward, and leaves it no earlier than the end
      announced by any queue-lockout marker it visited. */
  lemma {:induction false} FoldContextsLockoutBounds(pen: Penalties, ctxs: seq<string>, now: int, p: Patterns)
    ensures NotEarlier(FoldContexts(pen, ctxs, now, p).lockoutUntil, pen.lockoutUntil)
    ensures forall i | 0 <= i < |ctxs| && LockoutMillis(ctxs[i], p).Some? ::
      NotEarlier(FoldContexts(pen, ctxs, now, p).lockoutUntil, Some(now + LockoutMillis(ctxs[i], p).value))
  {
    var r := FoldContexts(pen, ctxs, now, p);
    FoldContextsOutcome(pen, ctxs, now, p);
    var max := MaxLockoutMillis(ctxs, p);
    if max.Some? {
      MaxLockoutMillisIsMax(ctxs, p);
      assert r.lockoutUntil == LaterOf(pen.lockoutUntil, now + max.value);
      forall i | 0 <= i < |ctxs| && LockoutMillis(ctxs[i], p).Some?
        ensures NotEarlier(r.lockoutUntil, Some(now + LockoutMillis(ctxs[i], p).value))
      {
        assert LockoutMillis(ctxs[i], p).value <= max.value;
      }
    } else {
      MaxLockoutMillisIsMax(ctxs, p);
      assert r.lockoutUntil == pen.lockoutUntil;
    }
  }

  /** Visiting the same windows a second time changes nothing. */
  lemma {:induction false} FoldContextsIdempotent(pen: Penalties, ctxs: seq<string>, now: int, p: Patterns)
    ensures FoldContexts(FoldContexts(pen, ctxs, now, p), ctxs, now, p) == FoldContexts(pen, ctxs, now, p)
  {
    FoldContextsOutcome(pen, ctxs, now, p);
    FoldContextsOutcome(FoldContexts(pen, ctxs, now, p), ctxs, now, p);
  }

  /** Visiting `a` and then `b` is visiting `a + b`. */
  lemma {:induction false} FoldContextsConcat(pen: Penalties, a: seq<string>, b: seq<string>, now: int, p: Patterns)
    ensures FoldContexts(pen, a + b, now, p) == FoldContexts(FoldContexts(pen, a, now, p), b, now, p)
  {
    if b == [] {
      assert a + b == a;
    } else {
      var b' := b[..|b| - 1];
      assert (a + b)[..|a + b| - 1] == a + b';
      assert (a + b)[|a + b| - 1] == b[|b| - 1];
      FoldContextsConcat(pen, a, b', now, p);
    }
  }

  // ---------------------------------------------------------------------------
  // One log file, and the checked files in turn

  /** The penalties after `ParsePunishmentEvents` scans the content for the account `id`. */
  function PenaltiesAfterContent(pen: Penalties, content: string, id: string, now: int, p: Patterns): Penalties {
    FoldContexts(pen, MentionContexts(content, p.accountMentions(id, content)), now, p)
  }

  /** `ParsePunishmentEventsForAllAccounts` scans for an account exactly when its id is the
      value of some `"accountId": <digits>` field of the log. */
  predicate Mentioned(content: string, id: string, p: Patterns) {
    id in Captures(p.accountIds(content))
  }

  /** The windows visited for account `id` in one log file: none when the file could not be
      read or never names the account. */
  function FileContexts(f: LogFile, id: string, p: Patterns): seq<string> {
    if f.content.Some? && Mentioned(f.content.value, id, p) then
      MentionContexts(f.content.value, p.accountMentions(id, f.content.value))
    else []
  }

  /** The penalties of account `id` after the files are processed in list order. */
  function ReconcileFiles(pen: Penalties, files: seq<LogFile>, id: string, now: int, p: Patterns): Penalties {
    if files == [] then pen
    else
      var before := ReconcileFiles(pen, files[..|files| - 1], id, now, p);
      var f := files[|files| - 1];
      if f.content.Some? && Mentioned(f.content.value, id, p) then
        PenaltiesAfterContent(before, f.content.value, id, now, p)
      else before
  }

  /** The windows of each file, file by file. */
  function PerFileContexts(files: seq<LogFile>, id: string, p: Patterns): (r: seq<seq<string>>)
    ensures |r| == |files|
    ensures forall k | 0 <= k < |files| :: r[k] == FileContexts(files[k], id, p)
  {
    seq(|files|, k requires 0 <= k < |files| => FileContexts(files[k], id, p))
  }

  function Flatten(xss: seq<seq<string>>): seq<string> {
    if xss == [] then [] else Flatten(xss[..|xss| - 1]) + xss[|xss| - 1]
  }

  lemma {:induction false} FlattenConcat(a: seq<seq<string>>, b: seq<seq<string>>)
    ensures Flatten(a + b) == Flatten(a) + Flatten(b)
  {
    if b == [] {
      assert a + b == a;
    } else {
      var b' := b[..|b| - 1];
      assert (a + b)[..|a + b| - 1] == a + b';
      assert (a + b)[|a + b| - 1] == b[|b| - 1];
      FlattenConcat(a, b');
    }
  }

  /** The windows of all the files, in the order they are visited. */
  function AllContexts(files: seq<LogFile>, id: string, p: Patterns): seq<string> {
    Flatten(PerFileContexts(files, id, p))
  }

  /** The per-file windows of a slice of the files are the slice of the per-file windows. */
  lemma {:induction false} PerFileContextsSlice(files: seq<LogFile>, i: nat, j: nat, id: string, p: Patterns)
    requires i <= j <= |files|
    ensures PerFileContexts(files[i..j], id, p) == PerFileContexts(files, id, p)[i..j]
  {
  }

  /** Processing the files one by one is a single scan over all their windows. */
  lemma {:induction false} ReconcileFilesAsOneScan(pen: Penalties, files: seq<LogFile>, id: string, now: int, p: Patterns)
    ensures ReconcileFiles(pen, files, id, now, p) == FoldContexts(pen, AllContexts(files, id, p), now, p)
  {
    if files != [] {
      var n := |files|;
      var init := files[..n - 1];
      var last := FileContexts(files[n - 1], id, p);
      ReconcileFilesAsOneScan(pen, init, id, now, p);
      PerFileContextsSlice(files, 0, n - 1, id, p);
      assert files[0..n - 1] == init;
      var per := PerFileContexts(files, id, p);
      assert per[..n - 1] == PerFileContexts(init, id, p);
      assert AllContexts(files, id, p) == AllContexts(init, id, p) + last;
      FoldContextsConcat(pen, AllContexts(init, id, p), last, now, p);
    }
  }

  /** The windows of the files before `k`, of file `k`, and of the files after it. */
  lemma {:induction false} AllContextsAround(files: seq<LogFile>, k: nat, id: string, p: Patterns)
    requires k < |files|
    ensures AllContexts(files, id, p) ==
      AllContexts(files[..k], id, p) + FileContexts(files[k], id, p) + AllContexts(files[k + 1..], id, p)
  {
    var per := PerFileContexts(files, id, p);
    PerFileContextsSlice(files, 0, k, id, p);
    assert files[0..k] == files[..k];
    PerFileContextsSlice(files, k + 1, |files|, id, p);
    assert files[k + 1..|files|] == files[k + 1..];
    calc {
      AllContexts(files, id, p);
      Flatten(per);
      { FlattenAround(per, k); }
      Flatten(per[..k]) + per[k] + Flatten(per[k + 1..]);
      { assert per[..k] == PerFileContexts(files[..k], id, p);
        assert per[k + 1..] == PerFileContexts(files[k + 1..], id, p); }
      AllContexts(files[..k], id, p) + FileContexts(files[k], id, p) + AllContexts(files[k + 1..], id, p);
    }
  }

  lemma {:induction false} FlattenAround(xss: seq<seq<string>>, k: nat)
    requires k < |xss|
    ensures Flatten(xss) == Flatten(xss[..k]) + xss[k] + Flatten(xss[k + 1..])
  {
    var front, back := xss[..k], xss[k + 1..];
    assert xss == (front + [xss[k]]) + back;
    FlattenConcat(front + [xss[k]], back);
    FlattenConcat(front, [xss[k]]);
    FlattenSingle(xss[k]);
  }

  lemma {:induction false} FlattenSingle(xs: seq<string>)
    ensures Flatten([xs]) == xs
  {
    assert [xs][..0] == [];
  }

  lemma {:induction false} LastLpqMillisConcat(a: seq<string>, b: seq<string>, p: Patterns)
    ensures LastLpqMillis(a + b, p) == if LastLpqMillis(b, p).Some? then LastLpqMillis(b, p) else LastLpqMillis(a, p)
  {
    if b == [] {
      assert a + b == a;
    } else {
      var b' := b[..|b| - 1];
      assert (a + b)[..|a + b| - 1] == a + b';
      assert (a + b)[|a + b| - 1] == b[|b| - 1];
      LastLpqMillisConcat(a, b', p);
    }
  }

  lemma {:induction false} NoLpqInFlatten(xss: seq<seq<string>>, p: Patterns)
    requires forall k | 0 <= k < |xss| :: LastLpqMillis(xss[k], p).None?
    ensures LastLpqMillis(Flatten(xss), p).None?
  {
    if xss != [] {
      var init := xss[..|xss| - 1];
      NoLpqInFlatten(init, p);
      LastLpqMillisConcat(Flatten(init), xss[|xss| - 1], p);
    }
  }

  /** Files are processed newest first and each marker overwrites the stored minutes, so the
      low priority minutes end up decided by the OLDEST checked file that holds a
      LEAVER_BUSTED marker for the account: newer files' values are overwritten. */
  lemma {:induction false} OldestFileDecidesLpq(pen: Penalties, files: seq<LogFile>, j: nat, id: string, now: int, p: Patterns)
    requires j < |files|
    requires LastLpqMillis(FileContexts(files[j], id, p), p).Some?
    requires forall k | j < k < |files| :: LastLpqMillis(FileContexts(files[k], id, p), p).None?
    ensures ReconcileFiles(pen, files, id, now, p).lowPriorityMinutes ==
      LpqFromMillis(LastLpqMillis(FileContexts(files[j], id, p), p).value)
  {
    var before := AllContexts(files[..j], id, p);
    var here := FileContexts(files[j], id, p);
    var after := AllContexts(files[j + 1..], id, p);
    AllContextsAround(files, j, id, p);
    NoLpqInFlatten(PerFileContexts(files[j + 1..], id, p), p);
    LastLpqMillisConcat(before + here, after, p);
    LastLpqMillisConcat(before, here, p);
    ReconcileFilesAsOneScan(pen, files, id, now, p);
    FoldContextsOutcome(pen, AllContexts(files, id, p), now, p);
  }

  /** Reconciling the same log files twice leaves what the first pass left. */
  lemma {:induction false} ReconcileFilesIdempotent(pen: Penalties, files: seq<LogFile>, id: string, now: int, p: Patterns)
    ensures ReconcileFiles(ReconcileFiles(pen, files, id, now, p), files, id, now, p) == ReconcileFiles(pen, files, id, now, p)
  {
    var once := ReconcileFiles(pen, files, id, now, p);
    ReconcileFilesAsOneScan(pen, files, id, now, p);
    ReconcileFilesAsOneScan(once, files, id, now, p);
    FoldContextsIdempotent(pen, AllContexts(files, id, p), now, p);
  }

  /** The checked files never bring the lockout end forward, and it ends no earlier than
      any queue-lockout marker seen in them. */
  lemma {:induction false} ReconcileFilesLockoutBounds(pen: Penalties, files: seq<LogFile>, id: string, now: int, p: Patterns)
    ensures NotEarlier(ReconcileFiles(pen, files, id, now, p).lockoutUntil, pen.lockoutUntil)
    ensures forall k, i | 0 <= k < |files| && 0 <= i < |FileContexts(files[k], id, p)| &&
        LockoutMillis(FileContexts(files[k], id, p)[i], p).Some? ::
      NotEarlier(ReconcileFiles(pen, files, id, now, p).lockoutUntil,
                 Some(now + LockoutMillis(FileContexts(files[k], id, p)[i], p).value))
  {
    var all := AllContexts(files, id, p);
    var r := ReconcileFiles(pen, files, id, now, p);
    ReconcileFilesAsOneScan(pen, files, id, now, p);
    FoldContextsLockoutBounds(pen, all, now, p);
    forall k, i | 0 <= k < |files| && 0 <= i < |FileContexts(files[k], id, p)| &&
        LockoutMillis(FileContexts(files[k], id, p)[i], p).Some?
      ensures NotEarlier(r.lockoutUntil, Some(now + LockoutMillis(FileContexts(files[k], id, p)[i], p).value))
    {
      var offset := ContextPosition(files, k, i, id, p);
      assert LockoutMillis(all[offset], p).Some?;
    }
  }

  /** Where the `i`-th window of the `k`-th file stands among the windows of all the files. */
  lemma {:induction false} ContextPosition(files: seq<LogFile>, k: nat, i: nat, id: string, p: Patterns) returns (offset: nat)
    requires k < |files| && i < |FileContexts(files[k], id, p)|
    ensures offset < |AllContexts(files, id, p)|
    ensures AllContexts(files, id, p)[offset] == FileContexts(files[k], id, p)[i]
  {
    AllContextsAround(files, k, id, p);
    offset := |AllContexts(files[..k], id, p)| + i;
  }

  // ---------------------------------------------------------------------------
  // Choosing the log files

  /** The `*Riot Client.log` search pattern, matched without regard to case. */
  predicate IsRiotClientLog(f: LogFile) {
    EndsWithIgnoreCase(f.name, RiotClientLogSuffix)
  }

  /** The match ignores case but nothing else: a name spelled in lower case is a Riot
      Client log, any name ending exactly in the pattern's suffix is one, and a name with
      another extension is not. */
  lemma {:induction false} RiotClientLogMatchIgnoresCase(f: LogFile, t: int, c: Option<string>)
    ensures EndsWith(f.name, RiotClientLogSuffix) ==> IsRiotClientLog(f)
    ensures IsRiotClientLog(LogFile("x_riot client.LOG", t, c))
    ensures !IsRiotClientLog(LogFile("Riot Client.txt", t, c))
  {
    var lower := "x_riot client.LOG";
    assert lower[|lower| - |RiotClientLogSuffix|..] == "riot client.LOG";
    assert LowerAsciiText("riot client.LOG") == LowerAsciiText(RiotClientLogSuffix) by {
      forall i | 0 <= i < |RiotClientLogSuffix|
        ensures LowerAsciiText("riot client.LOG")[i] == LowerAsciiText(RiotClientLogSuffix)[i]
      {
      }
    }
    var other := "Riot Client.txt";
    assert LowerAsciiText(other)[|other| - 1] != LowerAsciiText(RiotClientLogSuffix)[|other| - 1];
  }

  function RiotClientLogs(fs: seq<LogFile>): (r: seq<LogFile>)
    ensures forall g | g in r :: g in fs && IsRiotClientLog(g)
    ensures forall g | g in fs && IsRiotClientLog(g) :: g in r
    ensures forall g :: multiset(r)[g] == if IsRiotClientLog(g) then multiset(fs)[g] else 0
    ensures multiset(r) <= multiset(fs)
    ensures Subsequence(r, fs)
  {
    if fs == [] then []
    else
      var rest := RiotClientLogs(fs[1..]);
      assert fs == [fs[0]] + fs[1..];
      SubsequenceCons(fs[0], rest, fs[1..], IsRiotClientLog(fs[0]));
      if IsRiotClientLog(fs[0]) then [fs[0]] + rest else rest
  }

  /** The files `DetectPunishments` reads: the five most recently written files whose name
      ends in "Riot Client.log", newest first, whatever their age. */
  function PunishmentLogFiles(dir: Directory): (r: seq<LogFile>)
    ensures |r| <= MaxLogFilesToCheck
    ensures SortedNewestFirst(r)
    ensures forall g | g in r :: dir.Listed? && g in dir.files && IsRiotClientLog(g)
    ensures dir.Listed? ==> forall g | g in dir.files && IsRiotClientLog(g) && g !in r ::
      |r| == MaxLogFilesToCheck && forall i | 0 <= i < |r| :: r[i].lastWrite >= g.lastWrite
  {
    if !dir.Listed? then []
    else
      var logs := RiotClientLogs(dir.files);
      NewestTake(logs, MaxLogFilesToCheck);
      Take(NewestFirst(logs), MaxLogFilesToCheck)
  }

  /** The files kept come from the listing with no file repeated beyond its copies there,
      and files written at the same moment are the first of them in listing order. */
  lemma {:induction false} PunishmentLogFilesFromListing(fs: seq<LogFile>)
    ensures var r := PunishmentLogFiles(Listed(fs));
      && multiset(r) <= multiset(RiotClientLogs(fs)) && multiset(r) <= multiset(fs)
      && forall t :: WithLastWrite(r, t) <= WithLastWrite(RiotClientLogs(fs), t)
  {
    NewestTakeKeepsListing(RiotClientLogs(fs), MaxLogFilesToCheck);
  }

  // ---------------------------------------------------------------------------
  // The methods, on accounts in place

  /** The account data with its two penalty fields replaced. */
  function WithPenalties(d: AccountData, pen: Penalties): (r: AccountData)
    ensures r.lowPriorityMinutes == pen.lowPriorityMinutes && r.lockoutUntil == pen.lockoutUntil
    ensures r.(lowPriorityMinutes := d.lowPriorityMinutes, lockoutUntil := d.lockoutUntil) == d
  {
    d.(lowPriorityMinutes := pen.lowPriorityMinutes, lockoutUntil := pen.lockoutUntil)
  }

  /** The body of the loop of `ParsePunishmentEvents`, for one window. */
  method ApplyMarkers(account: Account, context: string, now: int, p: Patterns)
    modifies account
    ensures account.Data() == WithPenalties(old(account.Data()), ApplyContext(old(account.PenaltyState()), context, now, p))
  {
    var lpqMatch := p.leaverBusted(context);
    if lpqMatch.Some? {
      var lpqMillis := ParseInt64(lpqMatch.value.capture);
      if lpqMillis.Some? {
        var minutes := CeilMinutes(lpqMillis.value);
        if minutes <= 0 {
          if account.lowPriorityMinutes.Some? {
            account.lowPriorityMinutes := None;
          }
        } else {
          account.lowPriorityMinutes := Some(minutes);
        }
      }
    }
    var lockoutMatch := p.queueLockout(context);
    if lockoutMatch.Some? {
      var lockoutMillis := ParseInt64(lockoutMatch.value.capture);
      if lockoutMillis.Some? {
        var newLockoutUntil := now + lockoutMillis.value;
        if account.lockoutUntil.None? || newLockoutUntil > account.lockoutUntil.value {
          account.lockoutUntil := Some(newLockoutUntil);
        }
      }
    }
  }

  /** `ParsePunishmentEvents`: visits the window around each mention of the account in the
      log and applies its markers; only the two penalty fields change. */
  method ParsePunishmentEvents(account: Account, content: string, now: int, p: Patterns)
    modifies account
    ensures account.Data() == WithPenalties(old(account.Data()),
      PenaltiesAfterContent(old(account.PenaltyState()), content, old(account.accountId), now, p))
  {
    var mentions := p.accountMentions(account.accountId, content);
    if |mentions| == 0 {
      return;
    }
    ghost var ctxs := MentionContexts(content, mentions);
    ghost var pen0 := account.PenaltyState();
    ghost var d0 := account.Data();
    var i := 0;
    while i < |mentions|
      invariant i <= |ctxs|
      invariant account.Data() == WithPenalties(d0, FoldContexts(pen0, ctxs[..i], now, p))
    {
      var cut := VisitMention(account, content, mentions[i], now, p);
      if !cut {
        // Substring threw; the catch ends the scan, after every window there is.
        WholePrefix(ctxs, i);
        return;
      }
      FoldContextsStep(pen0, ctxs, i, now, p);
      i := i + 1;
    }
    WholePrefix(ctxs, i);
  }

  /** One turn of the loop of `ParsePunishmentEvents`: cuts the window around the mention
      at `index` and applies its markers; `false` when `Substring` throws. */
  method VisitMention(account: Account, content: string, index: nat, now: int, p: Patterns) returns (cut: bool)
    modifies account
    ensures cut <==> ContextWindow(content, index).Some?
    ensures cut ==> account.Data() == WithPenalties(old(account.Data()),
      ApplyContext(old(account.PenaltyState()), ContextWindow(content, index).value, now, p))
    ensures !cut ==> account.Data() == old(account.Data())
  {
    var start := if index - 500 > 0 then index - 500 else 0;
    var length := Min(|content| - start, 1000);
    if length < 0 {
      return false;
    }
    ApplyMarkers(account, content[start..start + length], now, p);
    return true;
  }

  /** Folding one more window is applying it to the fold so far. */
  lemma {:induction false} FoldContextsStep(pen: Penalties, ctxs: seq<string>, i: nat, now: int, p: Patterns)
    requires i < |ctxs|
    ensures FoldContexts(pen, ctxs[..i + 1], now, p) == ApplyContext(FoldContexts(pen, ctxs[..i], now, p), ctxs[i], now, p)
  {
    assert ctxs[..i + 1][..i] == ctxs[..i];
  }

  /** The prefix as long as the list is the list itself. */
  lemma {:induction false} WholePrefix<T>(s: seq<T>, i: nat)
    requires i == |s|
    ensures s[..i] == s
  {
  }

  /** The penalties after `ParsePunishmentEventsForAllAccounts` reads one log content. */
  function AfterContent(pen: Penalties, content: string, id: string, now: int, p: Patterns): Penalties {
    if Mentioned(content, id, p) then PenaltiesAfterContent(pen, content, id, now, p) else pen
  }

  /** The lookup table of `DetectPunishments`: each account stored under its own id. */
  ghost predicate KeyedByAccountId(dict: map<string, Account>)
    reads dict.Values
  {
    forall k | k in dict :: dict[k].accountId == k
  }

  /** `ParsePunishmentEventsForAllAccounts`: every account of the table whose id appears
      as an `"accountId"` value in the log is scanned once; the others are untouched. */
  method ParsePunishmentEventsForAllAccounts(dict: map<string, Account>, content: string, now: int, p: Patterns)
    requires KeyedByAccountId(dict)
    modifies dict.Values
    ensures KeyedByAccountId(dict)
    ensures forall k | k in dict ::
      (dict[k].Data() == WithPenalties(old(dict[k].Data()), AfterContent(old(dict[k].PenaltyState()), content, k, now, p)))
  {
    ghost var before := DataMap(dict);
    var matches := p.accountIds(content);
    if |matches| == 0 {
      ScannedNone(before, content, now, p);
      ScannedMentioned(before, content, now, p);
      return;
    }
    var processed: set<string> := {};
    for i := 0 to |matches|
      invariant KeyedByAccountId(dict)
      invariant processed == Captures(matches[..i]) * dict.Keys
      invariant DataMap(dict) == ScannedUpTo(before, processed, content, now, p)
    {
      CapturesStep(matches, i);
      KeepKnown(Captures(matches[..i]), matches[i].capture, dict.Keys);
      processed := ProcessMatch(dict, processed, matches[i].capture, before, content, now, p);
    }
    WholePrefix(matches, |matches|);
    ScannedMentioned(before, content, now, p);
  }

  /** The body of the loop of `ParsePunishmentEventsForAllAccounts` for one captured id: an
      account of the table not scanned yet is scanned and remembered. */
  method ProcessMatch(dict: map<string, Account>, processed: set<string>, id: string,
                      ghost before: map<string, AccountData>, content: string, now: int, p: Patterns)
    returns (processed': set<string>)
    requires KeyedByAccountId(dict) && processed <= dict.Keys
    requires DataMap(dict) == ScannedUpTo(before, processed, content, now, p)
    modifies dict.Values
    ensures KeyedByAccountId(dict)
    ensures processed' == processed + ({id} * dict.Keys)
    ensures DataMap(dict) == ScannedUpTo(before, processed', content, now, p)
  {
    processed' := processed;
    if id in dict && id !in processed {
      ScannedOneMore(before, processed, id, content, now, p);
      processed' := processed + {id};
      ScanAccount(dict, id, content, now, p);
    }
  }

  /** Intersecting with the keys distributes over adding one id. */
  lemma {:induction false} KeepKnown(ids: set<string>, id: string, keys: set<string>)
    ensures (ids + {id}) * keys == ids * keys + ({id} * keys)
  {
  }

  /** Once every captured id has been scanned, each account holds what `AfterContent` gives. */
  lemma {:induction false} ScannedMentioned(before: map<string, AccountData>, content: string, now: int, p: Patterns)
    requires forall k | k in before :: before[k].accountId == k
    ensures forall k | k in before ::
      ScannedUpTo(before, Captures(p.accountIds(content)) * before.Keys, content, now, p)[k] ==
      WithPenalties(before[k], AfterContent(PenaltiesOf(before[k]), content, k, now, p))
  {
  }

  /** The data of the accounts of a table, under the same keys. */
  ghost function DataMap(dict: map<string, Account>): (r: map<string, AccountData>)
    reads dict.Values
    ensures r.Keys == dict.Keys
    ensures forall k | k in dict :: r[k] == dict[k].Data()
  {
    map k | k in dict :: dict[k].Data()
  }

  /** The account data of a table once the accounts under `processed` have been scanned. */
  function ScannedUpTo(before: map<string, AccountData>, processed: set<string>, content: string, now: int, p: Patterns)
    : (r: map<string, AccountData>)
    ensures r.Keys == before.Keys
    ensures forall k | k in before ::
      r[k] == if k in processed then WithPenalties(before[k], AfterScan(before[k], content, now, p)) else before[k]
  {
    map k | k in before :: if k in processed then WithPenalties(before[k], AfterScan(before[k], content, now, p)) else before[k]
  }

  /** With nothing scanned the table is as it was. */
  lemma {:induction false} ScannedNone(before: map<string, AccountData>, content: string, now: int, p: Patterns)
    ensures ScannedUpTo(before, {}, content, now, p) == before
  {
  }

  /** Scanning one more account changes that account's entry and no other. */
  lemma {:induction false} ScannedOneMore(before: map<string, AccountData>, processed: set<string>, id: string,
                       content: string, now: int, p: Patterns)
    requires id in before
    ensures ScannedUpTo(before, processed + {id}, content, now, p) ==
      ScannedUpTo(before, processed, content, now, p)[id := WithPenalties(before[id], AfterScan(before[id], content, now, p))]
  {
  }

  /** The penalties of an account after `ParsePunishmentEvents` scanned the content for it. */
  function AfterScan(d: AccountData, content: string, now: int, p: Patterns): Penalties {
    PenaltiesAfterContent(PenaltiesOf(d), content, d.accountId, now, p)
  }

  /** The two penalty fields of an account's data. */
  function PenaltiesOf(d: AccountData): Penalties {
    Penalties(d.lowPriorityMinutes, d.lockoutUntil)
  }

  /** One `ParsePunishmentEvents` call of `ParsePunishmentEventsForAllAccounts`: only the
      account stored under `id` changes. */
  method ScanAccount(dict: map<string, Account>, id: string, content: string, now: int, p: Patterns)
    requires KeyedByAccountId(dict) && id in dict
    modifies dict[id]
    ensures KeyedByAccountId(dict)
    ensures DataMap(dict) == old(DataMap(dict))[id := WithPenalties(old(dict[id].Data()), AfterScan(old(dict[id].Data()), content, now, p))]
  {
    ParsePunishmentEvents(dict[id], content, now, p);
  }

  /** The ids captured by one more match are those so far and the match's own. */
  lemma {:induction false} CapturesStep(ms: seq<RegexMatch>, i: nat)
    requires i < |ms|
    ensures Captures(ms[..i + 1]) == Captures(ms[..i]) + {ms[i].capture}
  {
    assert ms[..i + 1][..i] == ms[..i];
    assert ms[..i + 1][i] == ms[i];
  }

  /** The ids of the accounts with an id are pairwise different (`ToDictionary` would throw
      otherwise; the same object listed twice counts as a duplicate). */
  predicate DistinctAccountIds(accounts: seq<Account>)
    reads set a | a in accounts
  {
    forall i, j | 0 <= i < j < |accounts| :: accounts[i].accountId != "" ==> accounts[i].accountId != accounts[j].accountId
  }

  /** `accounts.Where(a => !string.IsNullOrEmpty(a.AccountId)).ToDictionary(a => a.AccountId)`:
      the accounts with an id, each under its id, or nothing when `ToDictionary` throws
      because two of them share an id. */
  method AccountTable(accounts: seq<Account>) returns (table: Option<map<string, Account>>)
    ensures table.None? <==> !DistinctAccountIds(accounts)
    ensures table.Some? ==>
      && KeyedByAccountId(table.value)
      && "" !in table.value
      && (forall k | k in table.value :: table.value[k] in accounts)
      && (forall a | a in accounts && a.accountId != "" :: a.accountId in table.value && table.value[a.accountId] == a)
  {
    var dict: map<string, Account> := map[];
    for i := 0 to |accounts|
      invariant KeyedByAccountId(dict)
      invariant "" !in dict
      invariant forall k | k in dict :: dict[k] in accounts[..i]
      invariant forall j | 0 <= j < i && accounts[j].accountId != "" ::
        accounts[j].accountId in dict && dict[accounts[j].accountId] == accounts[j]
      invariant DistinctAccountIds(accounts[..i])
    {
      var a := accounts[i];
      if a.accountId != "" {
        if a.accountId in dict {
          var j :| 0 <= j < i && accounts[j] == dict[a.accountId];
          assert !DistinctAccountIds(accounts);
          return None;
        }
        dict := dict[a.accountId := a];
      }
      assert accounts[..i + 1] == accounts[..i] + [a];
    }
    assert accounts[..|accounts|] == accounts;
    return Some(dict);
  }

  /** `DetectPunishments`: when the log directory exists, the non-empty account ids are
      distinct and the directory can be listed, each account with an id gets the
      penalties of reconciling the five newest Riot Client logs in turn, newest first;
      unread files are skipped. In every other case nothing changes. */
  method DetectPunishments(accounts: seq<Account>, dir: Directory, now: int, p: Patterns)
    modifies set a | a in accounts
    ensures forall a | a in accounts ::
      (a.Data() ==
        if dir.Listed? && old(DistinctAccountIds(accounts)) && old(a.accountId) != "" then
          WithPenalties(old(a.Data()), ReconcileFiles(old(a.PenaltyState()), PunishmentLogFiles(dir), old(a.accountId), now, p))
        else old(a.Data()))
  {
    if dir.Missing? {
      return;
    }
    var table := AccountTable(accounts);
    if table.None? {
      // ToDictionary throws on a duplicate key; the catch leaves every account as it was.
      return;
    }
    var dict := table.value;
    if |dict| == 0 {
      return;
    }
    if dir.Unlistable? {
      return;
    }
    ReconcileLogFiles(dict, PunishmentLogFiles(dir), now, p);
  }

  /** The loop of `DetectPunishments` over the chosen log files: each readable file is
      handed to `ParsePunishmentEventsForAllAccounts`, an unreadable one is skipped. */
  method ReconcileLogFiles(dict: map<string, Account>, files: seq<LogFile>, now: int, p: Patterns)
    requires KeyedByAccountId(dict)
    modifies dict.Values
    ensures forall k | k in dict ::
      (dict[k].Data() == WithPenalties(old(dict[k].Data()), ReconcileFiles(old(dict[k].PenaltyState()), files, k, now, p)))
  {
    for i := 0 to |files|
      invariant KeyedByAccountId(dict)
      invariant forall k | k in dict ::
        (dict[k].Data() == WithPenalties(old(dict[k].Data()), ReconcileFiles(old(dict[k].PenaltyState()), files[..i], k, now, p)))
    {
      assert files[..i + 1][..i] == files[..i];
      var logFile := files[i];
      if logFile.content.Some? {
        ParsePunishmentEventsForAllAccounts(dict, logFile.content.value, now, p);
      }
    }
    assert files[..|files|] == files;
  }

  /** The single-account `DetectPunishments` overload: the list holding just that account. */
  method DetectPunishmentsFor(account: Account, dir: Directory, now: int, p: Patterns)
    modifies account
    ensures account.Data() ==
      if dir.Listed? && old(account.accountId) != "" then
        WithPenalties(old(account.Data()), ReconcileFiles(old(account.PenaltyState()), PunishmentLogFiles(dir), old(account.accountId), now, p))
      else old(account.Data())
  {
    DetectPunishments([account], dir, now, p);
  }
}
