/**
  LogReaderService: the older heuristic reader that looks through recent League and Riot
  Client logs for a summoner name and for queue penalties, line by line, with lists of
  regular expressions tried in a fixed order.

  The directories a search visits are given in the order the service lists their paths
  (three under the Riot Games folder for the name; two under the local application data
  folder and two under the Riot Games folder for the penalties), each as its recursive
  listing. A regular expression is a function from a line to the text its first group
  captured, or `None` when the line does not match; the source has six expressions in each
  list, and the model holds for lists of any length.
*/
module LogReader {
  import opened Wrappers
  import opened Text
  import opened Accounts
  import opened LogFiles

  const MaxRecentLogFiles: nat := 10
  const NameLinesToScan: nat := 5000
  const PenaltyLinesToScan: nat := 2000
  const MinNameLength: nat := 3
  const MaxNameLength: nat := 16
  /** Lockout hours are accepted from 1 up to 719 (below 720, thirty days). */
  const MaxLockoutHours: int := 719
  /** Low-priority minutes are accepted from 1 up to 999. */
  const MaxLpqMinutes: int := 999

  /** A regular expression applied with `Regex.Match`: group 1 of the first match. */
  type Matcher = string -> Option<string>

  datatype ReaderPatterns = ReaderPatterns(
    /** The summoner-name expressions: `"displayName"`, `"summonerName"`, `"gameName"`
        fields, then the looser `summoner…name`, `display…name` and `"name"…summoner`. */
    names: seq<Matcher>,
    /** The queue-lockout expressions, each capturing a number of hours. */
    lockouts: seq<Matcher>,
    /** The low-priority-queue expressions, each capturing a number of minutes. */
    lpqs: seq<Matcher>)

  // ---------------------------------------------------------------------------
  // Files and lines

  predicate IsTextLog(f: LogFile) {
    EndsWith(f.name, ".log") || EndsWith(f.name, ".txt")
  }

  function TextLogs(fs: seq<LogFile>): (r: seq<LogFile>)
    ensures forall g | g in r :: g in fs && IsTextLog(g)
    ensures forall g | g in fs && IsTextLog(g) :: g in r
    ensures forall g :: multiset(r)[g] == if IsTextLog(g) then multiset(fs)[g] else 0
    ensures multiset(r) <= multiset(fs)
    ensures Subsequence(r, fs)
  {
    if fs == [] then []
    else
      var rest := TextLogs(fs[1..]);
      assert fs == [fs[0]] + fs[1..];
      SubsequenceCons(fs[0], rest, fs[1..], IsTextLog(fs[0]));
      if IsTextLog(fs[0]) then [fs[0]] + rest else rest
  }

  /** The files a search reads in one directory: the ten most recently written files
      whose name ends in ".log" or ".txt", newest first. Only a listed directory has any. */
  function RecentLogFiles(dir: Directory): (r: seq<LogFile>)
    ensures |r| <= MaxRecentLogFiles
    ensures SortedNewestFirst(r)
    ensures forall g | g in r :: dir.Listed? && g in dir.files && IsTextLog(g)
    ensures dir.Listed? ==> forall g | g in dir.files && IsTextLog(g) && g !in r ::
      |r| == MaxRecentLogFiles && forall i | 0 <= i < |r| :: r[i].lastWrite >= g.lastWrite
  {
    if !dir.Listed? then []
    else
      var logs := TextLogs(dir.files);
      NewestTake(logs, MaxRecentLogFiles);
      Take(NewestFirst(logs), MaxRecentLogFiles)
  }

  /** The files kept come from the listing with no file repeated beyond its copies there,
      and files written at the same moment are the first of them in listing order. */
  lemma {:induction false} RecentLogFilesFromListing(fs: seq<LogFile>)
    ensures var r := RecentLogFiles(Listed(fs));
      && multiset(r) <= multiset(TextLogs(fs)) && multiset(r) <= multiset(fs)
      && forall t :: WithLastWrite(r, t) <= WithLastWrite(TextLogs(fs), t)
  {
    NewestTakeKeepsListing(TextLogs(fs), MaxRecentLogFiles);
  }

  /** `File.ReadLines(file).Reverse().Take(n)`: the last `n` lines of the text, the last
      line first. */
  function RecentLines(content: string, n: nat): (r: seq<string>)
    ensures |r| == Min(n, |Lines(content)|)
    ensures forall i | 0 <= i < |r| :: r[i] == Lines(content)[|Lines(content)| - 1 - i]
  {
    var ls := Lines(content);
    var reversed := seq(|ls|, i requires 0 <= i < |ls| => ls[|ls| - 1 - i]);
    Take(reversed, n)
  }

  // ---------------------------------------------------------------------------
  // The summoner name

  /** The filter a candidate name has to pass: 3 to 16 characters, and none of "http",
      "riot", "league" or "client" in it (case-sensitive). */
  predicate PlausibleName(name: string) {
    MinNameLength <= |name| <= MaxNameLength
    && !Contains(name, "http") && !Contains(name, "riot")
    && !Contains(name, "league") && !Contains(name, "client")
  }

  /** What one expression contributes on one line: its capture, trimmed, when the capture
      is not blank and the trimmed text passes the filter. */
  function CandidateName(capture: Option<string>): Option<string> {
    if capture.None? || IsNullOrWhiteSpace(capture.value) then None
    else
      var name := Trim(capture.value);
      if PlausibleName(name) then Some(name) else None
  }

  /** A name is accepted exactly when there is a capture whose trimmed text passes the
      filter (a blank capture trims to "", which is too short); the name is that trimmed
      text, and trimming it again changes nothing. */
  lemma {:induction false} CandidateNameAccepts(capture: Option<string>)
    ensures CandidateName(capture).Some? <==> capture.Some? && PlausibleName(Trim(capture.value))
    ensures CandidateName(capture).Some? ==>
      CandidateName(capture).value == Trim(capture.value) && Trim(CandidateName(capture).value) == CandidateName(capture).value
  {
    if capture.Some? && PlausibleName(Trim(capture.value)) {
      TrimOfTrimmed(Trim(capture.value));
    }
  }

  /** The index of the first expression that yields a name on the line, or `|ms|`. */
  function FirstNamePattern(line: string, ms: seq<Matcher>): (k: nat)
    ensures k <= |ms|
    ensures k < |ms| ==> CandidateName(ms[k](line)).Some?
    ensures forall j | 0 <= j < k :: CandidateName(ms[j](line)).None?
  {
    if ms == [] then 0
    else if CandidateName(ms[0](line)).Some? then 0
    else 1 + FirstNamePattern(line, ms[1..])
  }

  /** The name a line yields: that of the first expression, in list order, that yields one. */
  function NameInLine(line: string, ms: seq<Matcher>): Option<string> {
    var k := FirstNamePattern(line, ms);
    if k < |ms| then CandidateName(ms[k](line)) else None
  }

  /** The index of the first line that yields a name, or `|lines|`. */
  function FirstNameLine(lines: seq<string>, ms: seq<Matcher>): (i: nat)
    ensures i <= |lines|
    ensures i < |lines| ==> NameInLine(lines[i], ms).Some?
    ensures forall j | 0 <= j < i :: NameInLine(lines[j], ms).None?
  {
    if lines == [] then 0
    else if NameInLine(lines[0], ms).Some? then 0
    else 1 + FirstNameLine(lines[1..], ms)
  }

  function NameInLines(lines: seq<string>, ms: seq<Matcher>): Option<string> {
    var i := FirstNameLine(lines, ms);
    if i < |lines| then NameInLine(lines[i], ms) else None
  }

  /** The name a file yields from its last 5000 lines, newest first; none when reading
      the file failed (the `catch` moves on to the next file). */
  function NameInFile(f: LogFile, ms: seq<Matcher>): Option<string> {
    if f.content.None? then None else NameInLines(RecentLines(f.content.value, NameLinesToScan), ms)
  }

  function FirstNameFile(files: seq<LogFile>, ms: seq<Matcher>): (i: nat)
    ensures i <= |files|
    ensures i < |files| ==> NameInFile(files[i], ms).Some?
    ensures forall j | 0 <= j < i :: NameInFile(files[j], ms).None?
  {
    if files == [] then 0
    else if NameInFile(files[0], ms).Some? then 0
    else 1 + FirstNameFile(files[1..], ms)
  }

  function NameInFiles(files: seq<LogFile>, ms: seq<Matcher>): Option<string> {
    var i := FirstNameFile(files, ms);
    if i < |files| then NameInFile(files[i], ms) else None
  }

  /** `ReadSummonerName` over the listed directories: a missing directory is skipped, the
      first name found is the answer, and a directory whose listing throws ends the search
      with "" (the outer `catch`). Nothing found gives "". */
  function SummonerNameIn(dirs: seq<Directory>, ms: seq<Matcher>): string
  {
    if dirs == [] then ""
    else match dirs[0]
      case Missing => SummonerNameIn(dirs[1..], ms)
      case Unlistable => ""
      case Listed(_) =>
        var found := NameInFiles(RecentLogFiles(dirs[0]), ms);
        if found.Some? then found.value else SummonerNameIn(dirs[1..], ms)
  }

  /** Whatever the logs hold, the name read is "" or a name with no white space around it
      that passes the filter. */
  lemma {:induction false} SummonerNameIsAcceptable(dirs: seq<Directory>, ms: seq<Matcher>)
    ensures var r := SummonerNameIn(dirs, ms); r == "" || (PlausibleName(r) && Trim(r) == r)
    decreases dirs
  {
    if dirs != [] && dirs[0].Listed? {
      var files := RecentLogFiles(dirs[0]);
      var f := FirstNameFile(files, ms);
      if f < |files| {
        var lines := RecentLines(files[f].content.value, NameLinesToScan);
        var i := FirstNameLine(lines, ms);
        var k := FirstNamePattern(lines[i], ms);
        CandidateNameAccepts(ms[k](lines[i]));
      } else {
        SummonerNameIsAcceptable(dirs[1..], ms);
      }
    } else if dirs != [] && dirs[0].Missing? {
      SummonerNameIsAcceptable(dirs[1..], ms);
    }
  }

  /** `ReadSummonerName`: directories in order, their ten newest text logs newest first,
      the last 5000 lines of each newest first, and on each line the expressions in list
      order; the first acceptable name is returned at once. */
  method ReadSummonerName(dirs: seq<Directory>, ps: ReaderPatterns) returns (name: string)
    ensures name == SummonerNameIn(dirs, ps.names)
    ensures name == "" || (PlausibleName(name) && Trim(name) == name)
  {
    var ms := ps.names;
    SummonerNameIsAcceptable(dirs, ms);
    for d := 0 to |dirs|
      invariant SummonerNameIn(dirs, ms) == SummonerNameIn(dirs[d..], ms)
    {
      assert dirs[d..][1..] == dirs[d + 1..];
      var dir := dirs[d];
      if dir.Missing? {
        continue;
      }
      if dir.Unlistable? {
        // Directory.GetFiles throws; the outer catch returns the empty name.
        return "";
      }
      var found := ScanFilesForName(RecentLogFiles(dir), ms);
      if found.Some? {
        return found.value;
      }
    }
    return "";
  }

  /** The loop over a directory's newest files: a file that cannot be read is passed
      over, and the first name found in a file ends the search. */
  method ScanFilesForName(files: seq<LogFile>, ms: seq<Matcher>) returns (found: Option<string>)
    ensures found == NameInFiles(files, ms)
  {
    for f := 0 to |files|
      invariant forall j | 0 <= j < f :: NameInFile(files[j], ms).None?
    {
      found := ScanFileForName(files[f], ms);
      if found.Some? {
        assert FirstNameFile(files, ms) == f;
        return;
      }
    }
    return None;
  }

  /** One file of that loop. */
  method ScanFileForName(file: LogFile, ms: seq<Matcher>) returns (found: Option<string>)
    ensures found == NameInFile(file, ms)
  {
    if file.content.None? {
      return None;
    }
    found := ScanLinesForName(RecentLines(file.content.value, NameLinesToScan), ms);
  }

  /** The loop over a file's last lines, newest first, stopping at the first name. */
  method ScanLinesForName(lines: seq<string>, ms: seq<Matcher>) returns (found: Option<string>)
    ensures found == NameInLines(lines, ms)
  {
    for i := 0 to |lines|
      invariant forall j | 0 <= j < i :: NameInLine(lines[j], ms).None?
    {
      found := MatchName(lines[i], ms);
      if found.Some? {
        assert FirstNameLine(lines, ms) == i;
        return;
      }
    }
    return None;
  }

  /** The pattern loop of one line, returning the first acceptable name. */
  method MatchName(line: string, ms: seq<Matcher>) returns (found: Option<string>)
    ensures found == NameInLine(line, ms)
  {
    for k := 0 to |ms|
      invariant forall j | 0 <= j < k :: CandidateName(ms[j](line)).None?
    {
      var m := ms[k](line);
      if m.Some? && !IsNullOrWhiteSpace(m.value) {
        var candidate := Trim(m.value);
        if PlausibleName(candidate) {
          assert CandidateName(m) == Some(candidate);
          assert FirstNamePattern(line, ms) == k;
          return Some(candidate);
        }
      }
      assert CandidateName(m).None?;
    }
    return None;
  }

  // ---------------------------------------------------------------------------
  // Queue penalties

  /** What one expression contributes on one line: the number it captured, when
      `int.TryParse` accepts it and it lies in `1..max`. */
  function InRangeValue(capture: Option<string>, max: int): (r: Option<int>)
    ensures r.Some? <==> capture.Some? && ParseInt32(capture.value).Some?
                         && 0 < ParseInt32(capture.value).value <= max
    ensures r.Some? ==> r.value == ParseInt32(capture.value).value
  {
    if capture.Some? then
      match ParseInt32(capture.value)
      case Some(v) => if 0 < v <= max then Some(v) else None
      case None => None
    else None
  }

  /** The index of the first expression whose capture is a number in `1..max`, or `|ms|`. */
  function FirstInRange(line: string, ms: seq<Matcher>, max: int): (k: nat)
    ensures k <= |ms|
    ensures k < |ms| ==> InRangeValue(ms[k](line), max).Some?
    ensures forall j | 0 <= j < k :: InRangeValue(ms[j](line), max).None?
  {
    if ms == [] then 0
    else if InRangeValue(ms[0](line), max).Some? then 0
    else 1 + FirstInRange(line, ms[1..], max)
  }

  /** The number a line yields for one category: that of the first expression, in list
      order, whose capture is in range (the loop's `break`). */
  function ValueInLine(line: string, ms: seq<Matcher>, max: int): (r: Option<int>)
    ensures r.Some? ==> 0 < r.value <= max
    ensures r.None? <==> forall j | 0 <= j < |ms| :: InRangeValue(ms[j](line), max).None?
  {
    var k := FirstInRange(line, ms, max);
    if k < |ms| then InRangeValue(ms[k](line), max) else None
  }

  /** The two locals of `ReadQueuePenalties`: the lockout expiry and the low-priority
      minutes (0 for none). */
  datatype ScanState = ScanState(queueLockout: Option<int>, lowPriorityMinutes: int)

  const NothingFound: ScanState := ScanState(None, 0)

  /** `queueLockout.HasValue || lowPriorityMinutes > 0`. */
  predicate Found(st: ScanState) {
    st.queueLockout.Some? || st.lowPriorityMinutes > 0
  }

  /** The values the scan can hold at `now`: no lockout or one 1..719 whole hours after
      `now`, and 0 or 1..999 minutes. */
  predicate InRange(st: ScanState, now: int) {
    (st.queueLockout.None?
     || exists hours | 0 < hours <= MaxLockoutHours :: st.queueLockout.value == HoursAfter(now, hours))
    && (st.lowPriorityMinutes == 0 || 0 < st.lowPriorityMinutes <= MaxLpqMinutes)
  }

  /** `DateTime.Now.AddHours(hours)`. */
  function HoursAfter(now: int, hours: int): int {
    now + hours * HourMs
  }

  /** One line of the scan: an in-range hours value sets the lockout to `now` plus that
      many hours, an in-range minutes value replaces the minutes; otherwise each keeps its
      value. */
  function ScanLine(st: ScanState, line: string, now: int, ps: ReaderPatterns): (r: ScanState)
    ensures ValueInLine(line, ps.lockouts, MaxLockoutHours).None? ==> r.queueLockout == st.queueLockout
    ensures ValueInLine(line, ps.lpqs, MaxLpqMinutes).None? ==> r.lowPriorityMinutes == st.lowPriorityMinutes
  {
    var hours := ValueInLine(line, ps.lockouts, MaxLockoutHours);
    var minutes := ValueInLine(line, ps.lpqs, MaxLpqMinutes);
    ScanState(
      if hours.Some? then Some(HoursAfter(now, hours.value)) else st.queueLockout,
      if minutes.Some? then minutes.value else st.lowPriorityMinutes)
  }

  function ScanLines(st: ScanState, lines: seq<string>, now: int, ps: ReaderPatterns): ScanState
    decreases lines
  {
    if lines == [] then st else ScanLines(ScanLine(st, lines[0], now, ps), lines[1..], now, ps)
  }

  /** A file contributes its last 2000 lines, newest first; an unreadable file nothing. */
  function ScanFile(st: ScanState, f: LogFile, now: int, ps: ReaderPatterns): ScanState
  {
    if f.content.None? then st else ScanLines(st, RecentLines(f.content.value, PenaltyLinesToScan), now, ps)
  }

  function ScanFiles(st: ScanState, files: seq<LogFile>, now: int, ps: ReaderPatterns): ScanState
    decreases files
  {
    if files == [] then st else ScanFiles(ScanFile(st, files[0], now, ps), files[1..], now, ps)
  }

  /** The directories in turn: a missing one is skipped; after a listed one, the search
      stops when something was found; a listing that throws makes the outer `catch` answer
      with nothing found. */
  function ScanDirectories(st: ScanState, dirs: seq<Directory>, now: int, ps: ReaderPatterns): ScanState
    decreases dirs
  {
    if dirs == [] then st
    else match dirs[0]
      case Missing => ScanDirectories(st, dirs[1..], now, ps)
      case Unlistable => NothingFound
      case Listed(_) =>
        var next := ScanFiles(st, RecentLogFiles(dirs[0]), now, ps);
        if Found(next) then next else ScanDirectories(next, dirs[1..], now, ps)
  }

  /** `ReadQueuePenalties`, from nothing found. */
  function QueuePenalties(dirs: seq<Directory>, now: int, ps: ReaderPatterns): ScanState {
    ScanDirectories(NothingFound, dirs, now, ps)
  }

  /** A lockout read is 1..719 whole hours after `now`; low-priority minutes read are 0
      or 1..999. */
  lemma {:induction false} QueuePenaltiesInRange(dirs: seq<Directory>, now: int, ps: ReaderPatterns)
    ensures InRange(QueuePenalties(dirs, now, ps), now)
  {
    ScanDirectoriesInRange(NothingFound, dirs, now, ps);
  }

  lemma {:induction false} ScanLineInRange(st: ScanState, line: string, now: int, ps: ReaderPatterns)
    requires InRange(st, now)
    ensures InRange(ScanLine(st, line, now, ps), now)
  {
    var hours := ValueInLine(line, ps.lockouts, MaxLockoutHours);
    if hours.Some? {
      assert ScanLine(st, line, now, ps).queueLockout.value == HoursAfter(now, hours.value);
    }
  }

  lemma {:induction false} ScanLinesInRange(st: ScanState, lines: seq<string>, now: int, ps: ReaderPatterns)
    requires InRange(st, now)
    ensures InRange(ScanLines(st, lines, now, ps), now)
    decreases lines
  {
    if lines != [] {
      ScanLineInRange(st, lines[0], now, ps);
      ScanLinesInRange(ScanLine(st, lines[0], now, ps), lines[1..], now, ps);
    }
  }

  lemma {:induction false} ScanFilesInRange(st: ScanState, files: seq<LogFile>, now: int, ps: ReaderPatterns)
    requires InRange(st, now)
    ensures InRange(ScanFiles(st, files, now, ps), now)
    decreases files
  {
    if files != [] {
      var next := ScanFile(st, files[0], now, ps);
      if files[0].content.Some? {
        ScanLinesInRange(st, RecentLines(files[0].content.value, PenaltyLinesToScan), now, ps);
      }
      ScanFilesInRange(next, files[1..], now, ps);
    }
  }

  lemma {:induction false} ScanDirectoriesInRange(st: ScanState, dirs: seq<Directory>, now: int, ps: ReaderPatterns)
    requires InRange(st, now)
    ensures InRange(ScanDirectories(st, dirs, now, ps), now)
    decreases dirs
  {
    if dirs != [] {
      match dirs[0]
      case Missing => ScanDirectoriesInRange(st, dirs[1..], now, ps);
      case Unlistable =>
      case Listed(_) =>
        var next := ScanFiles(st, RecentLogFiles(dirs[0]), now, ps);
        ScanFilesInRange(st, RecentLogFiles(dirs[0]), now, ps);
        if !Found(next) {
          ScanDirectoriesInRange(next, dirs[1..], now, ps);
        }
    }
  }

  lemma {:induction false} ScanLinesConcat(st: ScanState, a: seq<string>, b: seq<string>, now: int, ps: ReaderPatterns)
    ensures ScanLines(st, a + b, now, ps) == ScanLines(ScanLines(st, a, now, ps), b, now, ps)
    decreases a
  {
    if a == [] {
      assert a + b == b;
    } else {
      assert (a + b)[1..] == a[1..] + b;
      ScanLinesConcat(ScanLine(st, a[0], now, ps), a[1..], b, now, ps);
    }
  }

  /** Lines that yield no hours leave the lockout as it was, and lines that yield no
      minutes leave the minutes. */
  lemma {:induction false} ScanLinesKeeps(st: ScanState, lines: seq<string>, now: int, ps: ReaderPatterns)
    ensures (forall j | 0 <= j < |lines| :: ValueInLine(lines[j], ps.lockouts, MaxLockoutHours).None?)
      ==> ScanLines(st, lines, now, ps).queueLockout == st.queueLockout
    ensures (forall j | 0 <= j < |lines| :: ValueInLine(lines[j], ps.lpqs, MaxLpqMinutes).None?)
      ==> ScanLines(st, lines, now, ps).lowPriorityMinutes == st.lowPriorityMinutes
    decreases lines
  {
    if lines != [] {
      ScanLinesKeeps(ScanLine(st, lines[0], now, ps), lines[1..], now, ps);
      assert forall j | 0 <= j < |lines[1..]| :: lines[1..][j] == lines[j + 1];
    }
  }

  /** Each line overwrites: the lockout after a scan is the one of the last processed line
      that yields hours, whatever came before it. */
  lemma {:induction false} LastLockoutLineDecides(st: ScanState, before: seq<string>, line: string, after: seq<string>,
                               now: int, ps: ReaderPatterns)
    requires ValueInLine(line, ps.lockouts, MaxLockoutHours).Some?
    requires forall j | 0 <= j < |after| :: ValueInLine(after[j], ps.lockouts, MaxLockoutHours).None?
    ensures ScanLines(st, before + [line] + after, now, ps).queueLockout
            == Some(HoursAfter(now, ValueInLine(line, ps.lockouts, MaxLockoutHours).value))
  {
    ScanLinesConcat(st, before + [line], after, now, ps);
    ScanLinesConcat(st, before, [line], now, ps);
    var mid := ScanLines(st, before + [line], now, ps);
    assert ScanLines(ScanLines(st, before, now, ps), [line], now, ps) == mid;
    ScanLinesKeeps(mid, after, now, ps);
  }

  /** Likewise the minutes after a scan are those of the last processed line that yields
      minutes. */
  lemma {:induction false} LastLpqLineDecides(st: ScanState, before: seq<string>, line: string, after: seq<string>,
                           now: int, ps: ReaderPatterns)
    requires ValueInLine(line, ps.lpqs, MaxLpqMinutes).Some?
    requires forall j | 0 <= j < |after| :: ValueInLine(after[j], ps.lpqs, MaxLpqMinutes).None?
    ensures ScanLines(st, before + [line] + after, now, ps).lowPriorityMinutes
            == ValueInLine(line, ps.lpqs, MaxLpqMinutes).value
  {
    ScanLinesConcat(st, before + [line], after, now, ps);
    ScanLinesConcat(st, before, [line], now, ps);
    var mid := ScanLines(st, before + [line], now, ps);
    assert ScanLines(ScanLines(st, before, now, ps), [line], now, ps) == mid;
    ScanLinesKeeps(mid, after, now, ps);
  }

  /** Once a listed directory yields something, the directories after it are not read:
      the answer is the same whatever they hold. */
  lemma {:induction false} EarlyExitAcrossDirectories(st: ScanState, dir: Directory, rest: seq<Directory>, other: seq<Directory>,
                                   now: int, ps: ReaderPatterns)
    requires dir.Listed? && Found(ScanFiles(st, RecentLogFiles(dir), now, ps))
    ensures ScanDirectories(st, [dir] + rest, now, ps) == ScanFiles(st, RecentLogFiles(dir), now, ps)
    ensures ScanDirectories(st, [dir] + rest, now, ps) == ScanDirectories(st, [dir] + other, now, ps)
  {
    assert ([dir] + rest)[0] == dir && ([dir] + other)[0] == dir;
  }

  /** Every directory after the first is entered with nothing found, so a listing that
      throws there gives the same answer as running out of directories would. */
  lemma {:induction false} ThrowingListingAfterNothingFound(st: ScanState, dirs: seq<Directory>, now: int, ps: ReaderPatterns)
    requires st == NothingFound
    ensures var r := ScanDirectories(st, dirs, now, ps);
      r == NothingFound || Found(r)
    decreases dirs
  {
    if dirs != [] && !dirs[0].Unlistable? {
      if dirs[0].Missing? {
        ThrowingListingAfterNothingFound(st, dirs[1..], now, ps);
      } else {
        var next := ScanFiles(st, RecentLogFiles(dirs[0]), now, ps);
        if !Found(next) {
          ScanFilesInRange(st, RecentLogFiles(dirs[0]), now, ps);
          assert next == NothingFound;
          ThrowingListingAfterNothingFound(next, dirs[1..], now, ps);
        }
      }
    }
  }

  /** `ReadQueuePenalties`: directories in order, their ten newest text logs newest first,
      the last 2000 lines of each newest first; on each line the first in-range hours
      value sets the lockout and the first in-range minutes value the minutes. */
  method ReadQueuePenalties(dirs: seq<Directory>, now: int, ps: ReaderPatterns)
    returns (queueLockout: Option<int>, lowPriorityMinutes: int)
    ensures ScanState(queueLockout, lowPriorityMinutes) == QueuePenalties(dirs, now, ps)
    ensures InRange(ScanState(queueLockout, lowPriorityMinutes), now)
  {
    queueLockout, lowPriorityMinutes := None, 0;
    for d := 0 to |dirs|
      invariant QueuePenalties(dirs, now, ps) == ScanDirectories(ScanState(queueLockout, lowPriorityMinutes), dirs[d..], now, ps)
      invariant InRange(ScanState(queueLockout, lowPriorityMinutes), now)
    {
      assert dirs[d..][1..] == dirs[d + 1..];
      var dir := dirs[d];
      if dir.Missing? {
        continue;
      }
      if dir.Unlistable? {
        // Directory.GetFiles throws; the outer catch answers with nothing found.
        return None, 0;
      }
      var files := RecentLogFiles(dir);
      ScanFilesInRange(ScanState(queueLockout, lowPriorityMinutes), files, now, ps);
      queueLockout, lowPriorityMinutes := ScanFilesInPlace(queueLockout, lowPriorityMinutes, files, now, ps);
      if queueLockout.Some? || lowPriorityMinutes > 0 {
        break;
      }
    }
  }

  /** The files of one directory, newest first, each through its last lines. */
  method ScanFilesInPlace(queueLockout: Option<int>, lowPriorityMinutes: int, files: seq<LogFile>, now: int, ps: ReaderPatterns)
    returns (queueLockout': Option<int>, lowPriorityMinutes': int)
    ensures ScanState(queueLockout', lowPriorityMinutes') == ScanFiles(ScanState(queueLockout, lowPriorityMinutes), files, now, ps)
  {
    queueLockout', lowPriorityMinutes' := queueLockout, lowPriorityMinutes;
    for f := 0 to |files|
      invariant ScanFiles(ScanState(queueLockout, lowPriorityMinutes), files, now, ps)
        == ScanFiles(ScanState(queueLockout', lowPriorityMinutes'), files[f..], now, ps)
    {
      assert files[f..][1..] == files[f + 1..];
      if files[f].content.None? {
        continue;
      }
      var lines := RecentLines(files[f].content.value, PenaltyLinesToScan);
      ghost var fileEntry := ScanState(queueLockout', lowPriorityMinutes');
      for i := 0 to |lines|
        invariant ScanLines(fileEntry, lines, now, ps) == ScanLines(ScanState(queueLockout', lowPriorityMinutes'), lines[i..], now, ps)
      {
        assert lines[i..][1..] == lines[i + 1..];
        queueLockout', lowPriorityMinutes' := ScanLineInPlace(queueLockout', lowPriorityMinutes', lines[i], now, ps);
      }
    }
  }

  /** The two pattern loops of one line, each ending at its first in-range value. */
  method ScanLineInPlace(queueLockout: Option<int>, lowPriorityMinutes: int, line: string, now: int, ps: ReaderPatterns)
    returns (queueLockout': Option<int>, lowPriorityMinutes': int)
    ensures ScanState(queueLockout', lowPriorityMinutes') == ScanLine(ScanState(queueLockout, lowPriorityMinutes), line, now, ps)
  {
    queueLockout', lowPriorityMinutes' := queueLockout, lowPriorityMinutes;
    var hours := FirstValueInLine(line, ps.lockouts, MaxLockoutHours);
    if hours.Some? {
      queueLockout' := Some(HoursAfter(now, hours.value));
    }
    var minutes := FirstValueInLine(line, ps.lpqs, MaxLpqMinutes);
    if minutes.Some? {
      lowPriorityMinutes' := minutes.value;
    }
  }

  /** One pattern loop: tries the expressions in order and stops at the first whose
      capture parses as a 32-bit number in `1..max`. */
  method FirstValueInLine(line: string, ms: seq<Matcher>, max: int) returns (r: Option<int>)
    ensures r == ValueInLine(line, ms, max)
  {
    for k := 0 to |ms|
      invariant forall j | 0 <= j < k :: InRangeValue(ms[j](line), max).None?
    {
      var m := ms[k](line);
      if m.Some? && ParseInt32(m.value).Some? {
        var v := ParseInt32(m.value).value;
        if v > 0 && v <= max {
          assert FirstInRange(line, ms, max) == k;
          return Some(v);
        }
      }
    }
    return None;
  }
}
