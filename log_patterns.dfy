/**
  The regular expressions of the log reconciliation, as abstract extractors. The regex
  engine (case folding, optional escaped quotes, white space classes) is not modelled;
  each pattern is a total function from text to its matches, and only the facts the
  services use are taken from it: where a match starts and what its first group captured.
*/
module LogPatterns {
  import opened Wrappers

  datatype RegexMatch = RegexMatch(index: nat, capture: string)

  datatype Patterns = Patterns(
    /** `AccountIdPattern.Matches`: every `"accountId": <digits>` field, in text order. */
    accountIds: string -> seq<RegexMatch>,
    /** `GameNamePattern.Match`: the first `"gameName": "<text>"` field. */
    gameName: string -> Option<RegexMatch>,
    /** `TagLinePattern.Match`: the first `"tagLine": "<text>"` field. */
    tagLine: string -> Option<RegexMatch>,
    /** The per-account pattern `"accountId"[:\s]*<id>` of `ParsePunishmentEvents`: the
        start index of each mention of the id, in text order. The pattern is not anchored
        after the id, so the mentions of an id may include longer ids that start with it. */
    accountMentions: (string, string) -> seq<nat>,
    /** `LeaverBustedPattern.Match`: the first LEAVER_BUSTED marker and its remainingMillis. */
    leaverBusted: string -> Option<RegexMatch>,
    /** `LeaverBusterLockoutPattern.Match`: the first LEAVER_BUSTER_QUEUE_LOCKOUT marker and
        its remainingMillis. */
    queueLockout: string -> Option<RegexMatch>)

  /** `Regex.Match`: the first of the matches `Regex.Matches` finds. */
  function FirstMatch(ms: seq<RegexMatch>): (r: Option<RegexMatch>)
    ensures r.Some? <==> ms != []
    ensures r.Some? ==> r.value == ms[0]
  {
    if ms == [] then None else Some(ms[0])
  }

  /** The texts captured by a list of matches. */
  function Captures(ms: seq<RegexMatch>): (r: set<string>)
    ensures forall i | 0 <= i < |ms| :: ms[i].capture in r
    ensures forall c | c in r :: exists i | 0 <= i < |ms| :: ms[i].capture == c
  {
    set i | 0 <= i < |ms| :: ms[i].capture
  }
}
