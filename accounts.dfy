/**
  The account record (Models/Account.cs) and the tag enumeration it carries.

  The shown sources disagree on the record's shape: the penalty detector, the
  export/import service and the tooltip use `LowPriorityMinutes` (int?) and `Tag`,
  which Account.cs does not declare, while Account.cs declares `LowPrioUntil` and
  `LowPrioMinutes`. The model carries the union of the fields as they are used.
  Timestamps (`DateTime`) are integers counting milliseconds.
*/
module Accounts {
  import opened Wrappers
  import opened Text

  const MinuteMs: int := 60_000
  const HourMs: int := 3_600_000

  /** The `AccountTag` enumeration; `NoTag` is the member the source calls `None`. */
  datatype AccountTag = NoTag | YellowStar | RedCircle | GreenCircle

  /** `AccountTag.ToString()`: the member's name. */
  function TagName(t: AccountTag): string {
    match t
    case NoTag => "None"
    case YellowStar => "YellowStar"
    case RedCircle => "RedCircle"
    case GreenCircle => "GreenCircle"
  }

  /** `Enum.TryParse<AccountTag>` on a member name (case-sensitive); it is the inverse of
      `TagName`. */
  function ParseTag(s: string): (r: Option<AccountTag>)
    ensures r.Some? ==> TagName(r.value) == s
  {
    if s == "None" then Some(NoTag)
    else if s == "YellowStar" then Some(YellowStar)
    else if s == "RedCircle" then Some(RedCircle)
    else if s == "GreenCircle" then Some(GreenCircle)
    else None
  }

  /** Every tag name parses back to its tag. */
  lemma {:induction false} ParseTagName(t: AccountTag)
    ensures ParseTag(TagName(t)) == Some(t)
  {
  }

  /** Every field of an account, as a value. */
  datatype AccountData = AccountData(
    id: string,
    username: string,
    encryptedPassword: string,
    accountId: string,
    gameName: string,
    tagLine: string,
    lowPrioUntil: Option<int>,
    lowPrioMinutes: int,
    lockoutUntil: Option<int>,
    displayOrder: int,
    lowPriorityMinutes: Option<int>,
    tag: AccountTag)

  /** The two penalty fields the log reconciliation writes. */
  datatype Penalties = Penalties(lowPriorityMinutes: Option<int>, lockoutUntil: Option<int>)

  /** The field initialisers of `new Account()`; `id` is the text of the Guid it draws. */
  function DefaultAccount(id: string): (d: AccountData)
    ensures d.id == id && d.username == "" && d.encryptedPassword == ""
    ensures d.accountId == "" && d.gameName == "" && d.tagLine == ""
    ensures d.lowPrioUntil.None? && d.lowPrioMinutes == 0 && d.lockoutUntil.None?
    ensures d.displayOrder == 0 && d.lowPriorityMinutes.None? && d.tag == NoTag
  {
    AccountData(id, "", "", "", "", "", None, 0, None, 0, None, NoTag)
  }

  class Account {
    var id: string
    var username: string
    var encryptedPassword: string
    var accountId: string
    var gameName: string
    var tagLine: string
    var lowPrioUntil: Option<int>
    var lowPrioMinutes: int
    var lockoutUntil: Option<int>
    var displayOrder: int
    var lowPriorityMinutes: Option<int>
    var tag: AccountTag

    /** `new Account()`, with the Guid text it draws passed in. */
    constructor (guid: string)
      ensures Data() == DefaultAccount(guid)
    {
      id, username, encryptedPassword := guid, "", "";
      accountId, gameName, tagLine := "", "", "";
      lowPrioUntil, lowPrioMinutes, lockoutUntil := None, 0, None;
      displayOrder, lowPriorityMinutes, tag := 0, None, NoTag;
    }

    /** An object initializer that names every field. */
    constructor Initialized(d: AccountData)
      ensures Data() == d
    {
      id, username, encryptedPassword := d.id, d.username, d.encryptedPassword;
      accountId, gameName, tagLine := d.accountId, d.gameName, d.tagLine;
      lowPrioUntil, lowPrioMinutes, lockoutUntil := d.lowPrioUntil, d.lowPrioMinutes, d.lockoutUntil;
      displayOrder, lowPriorityMinutes, tag := d.displayOrder, d.lowPriorityMinutes, d.tag;
    }

    /** The account's fields as a value. */
    function Data(): AccountData
      reads this
    {
      AccountData(id, username, encryptedPassword, accountId, gameName, tagLine,
                  lowPrioUntil, lowPrioMinutes, lockoutUntil, displayOrder, lowPriorityMinutes, tag)
    }

    function PenaltyState(): Penalties
      reads this
    {
      Penalties(lowPriorityMinutes, lockoutUntil)
    }

    /** `FullRiotId`: the Riot ID "gameName#tagLine", or the bare game name when there is
        no tag line, or "" when there is no game name. */
    function FullRiotId(): (r: string)
      reads this
      ensures r == "" <==> gameName == ""
      ensures gameName != "" ==> StartsWith(r, gameName)
      ensures gameName != "" && tagLine == "" ==> r == gameName
      ensures gameName != "" && tagLine != "" ==> r == gameName + "#" + tagLine
    {
      if gameName == "" then ""
      else if tagLine == "" then gameName
      else gameName + "#" + tagLine
    }

    /** `HasQueueLockout`: a lockout expiry is stored and still in the future. */
    predicate HasQueueLockout(now: int)
      reads this
    {
      lockoutUntil.Some? && lockoutUntil.value > now
    }

    /** `QueueLockoutRemaining`: the time left on the lockout, as "{h}H {m}M" from one hour
        up, "{m}M" from one minute up, "< 1M" below that, and "" without an active lockout. */
    function QueueLockoutRemaining(now: int): (r: string)
      reads this
      ensures r == "" <==> !HasQueueLockout(now)
      ensures r == "< 1M" <==> HasQueueLockout(now) && lockoutUntil.value - now < MinuteMs
    {
      if lockoutUntil.None? || lockoutUntil.value <= now then ""
      else RemainingText(lockoutUntil.value - now)
    }

    /** `LowPriorityQueueRemaining`: "{LowPrioMinutes} minutes" while the fixed-minutes
        penalty is positive and its expiry is in the future, "" otherwise. */
    function LowPriorityQueueRemaining(now: int): (r: string)
      reads this
      ensures r != "" <==> lowPrioMinutes > 0 && lowPrioUntil.Some? && lowPrioUntil.value > now
      ensures r != "" ==> r == IntToString(lowPrioMinutes) + " minutes"
    {
      if lowPrioMinutes > 0 && lowPrioUntil.Some? && lowPrioUntil.value > now then
        IntToString(lowPrioMinutes) + " minutes"
      else ""
    }
  }

  /** The text shown for a positive remaining lockout of `ms` milliseconds: whole hours and
      the minutes past them, whole minutes, or "< 1M" exactly when under a minute is left.
      It is never empty. */
  function RemainingText(ms: int): (r: string)
    requires ms > 0
    ensures r != []
    ensures r == "< 1M" <==> ms < MinuteMs
  {
    if ms >= HourMs then
      var hours := IntToString(ms / HourMs);
      assert IsDigit(hours[0]);
      hours + "H " + IntToString(ms / MinuteMs % 60) + "M"
    else if ms >= MinuteMs then
      var minutes := IntToString(ms / MinuteMs);
      assert IsDigit(minutes[0]) && (minutes + "M")[0] == minutes[0];
      minutes + "M"
    else "< 1M"
  }

  /** The hours and minutes shown for a lockout of at least one hour together make up the
      whole minutes remaining, and the minutes part is below 60. */
  lemma {:induction false} RemainingTextHoursAndMinutes(ms: int)
    requires ms >= HourMs
    ensures RemainingText(ms) == IntToString(ms / HourMs) + "H " + IntToString(ms / MinuteMs % 60) + "M"
    ensures ms / HourMs >= 1 && 0 <= ms / MinuteMs % 60 < 60
    ensures (ms / HourMs) * 60 + ms / MinuteMs % 60 == ms / MinuteMs
  {
    var m := ms / MinuteMs;
    assert ms / HourMs == m / 60 by {
      assert ms == m * MinuteMs + ms % MinuteMs;
    }
  }

  /** A lockout below one hour but of at least one minute shows its whole minutes, 1..59. */
  lemma {:induction false} RemainingTextMinutes(ms: int)
    requires MinuteMs <= ms < HourMs
    ensures RemainingText(ms) == IntToString(ms / MinuteMs) + "M"
    ensures 1 <= ms / MinuteMs < 60
  {
  }

  /** No account object appears twice in the list. */
  predicate Distinct<T(==)>(s: seq<T>) {
    forall i, j | 0 <= i < j < |s| :: s[i] != s[j]
  }

  /** The values of the accounts of a list, in list order. */
  function DataOf(accounts: seq<Account>): (r: seq<AccountData>)
    reads set a | a in accounts
    ensures |r| == |accounts|
    ensures forall i | 0 <= i < |accounts| :: r[i] == accounts[i].Data()
  {
    seq(|accounts|, i reads set a | a in accounts requires 0 <= i < |accounts| => accounts[i].Data())
  }
}
