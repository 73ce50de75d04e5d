/**
  Log directories as the services see them: a listing of files with their names,
  last-write times and contents. Enumerating a directory and reading a file
  (`Directory.GetFiles`, `FileInfo`, `ReadFileWithRetry`, `File.ReadLines`) are I/O, so the
  listing and the contents are inputs: a directory is missing, fails to enumerate, or
  yields its files; a file's content is absent when reading it failed for good.
*/
module LogFiles {
  import opened Wrappers
  import opened Text

  datatype LogFile = LogFile(name: string, lastWrite: int, content: Option<string>)

  datatype Directory = Missing | Unlistable | Listed(files: seq<LogFile>)

  function Min(a: int, b: int): int {
    if a <= b then a else b
  }

  /** LINQ `Take(n)`: the first `n` elements, or all of them when there are fewer. */
  function Take<T>(s: seq<T>, n: nat): (r: seq<T>)
    ensures |r| == Min(n, |s|) && r == s[..|r|]
  {
    if |s| <= n then s else s[..n]
  }

  /** `r` is `s` with some elements left out, the rest kept in their order. */
  predicate Subsequence<T(==)>(r: seq<T>, s: seq<T>)
    decreases |s|
  {
    if r == [] then true
    else if s == [] then false
    else (r[0] == s[0] && Subsequence(r[1..], s[1..])) || Subsequence(r, s[1..])
  }

  /** Keeping the head of a list or dropping it keeps a subsequence one. */
  lemma {:induction false} SubsequenceCons<T>(x: T, r: seq<T>, s: seq<T>, keep: bool)
    requires Subsequence(r, s)
    ensures Subsequence(if keep then [x] + r else r, [x] + s)
  {
    var xs := [x] + s;
    assert xs[1..] == s;
    if keep {
      assert ([x] + r)[1..] == r;
    }
  }

  /** Non-increasing last-write times: the newest file first. */
  ghost predicate SortedNewestFirst(fs: seq<LogFile>) {
    forall i, j | 0 <= i < j < |fs| :: fs[i].lastWrite >= fs[j].lastWrite
  }

  /** Inserts `f` into a newest-first list in front of the first file that is not newer,
      so that among equal times the earlier-listed file stays first. */
  function InsertByRecency(f: LogFile, sorted: seq<LogFile>): seq<LogFile> {
    if sorted == [] || sorted[0].lastWrite <= f.lastWrite then [f] + sorted
    else [sorted[0]] + InsertByRecency(f, sorted[1..])
  }

  lemma {:induction false} InsertByRecencyPermutes(f: LogFile, sorted: seq<LogFile>)
    ensures multiset(InsertByRecency(f, sorted)) == multiset(sorted) + multiset{f}
  {
    if !(sorted == [] || sorted[0].lastWrite <= f.lastWrite) {
      InsertByRecencyPermutes(f, sorted[1..]);
      assert sorted == [sorted[0]] + sorted[1..];
    }
  }

  lemma {:induction false} InsertByRecencySorted(f: LogFile, sorted: seq<LogFile>)
    requires SortedNewestFirst(sorted)
    ensures SortedNewestFirst(InsertByRecency(f, sorted))
  {
    if sorted == [] || sorted[0].lastWrite <= f.lastWrite {
      PrependNewest(f, sorted);
    } else {
      var rest := InsertByRecency(f, sorted[1..]);
      InsertByRecencySorted(f, sorted[1..]);
      InsertByRecencyPermutes(f, sorted[1..]);
      forall g | g in rest ensures g.lastWrite <= sorted[0].lastWrite {
        assert g in multiset(rest);
      }
      PrependNewest(sorted[0], rest);
    }
  }

  /** A file at least as new as every file of a newest-first list can go in front of it. */
  lemma {:induction false} PrependNewest(f: LogFile, fs: seq<LogFile>)
    requires SortedNewestFirst(fs)
    requires forall g | g in fs :: g.lastWrite <= f.lastWrite
    ensures SortedNewestFirst([f] + fs)
  {
    var r := [f] + fs;
    forall i, j | 0 <= i < j < |r| ensures r[i].lastWrite >= r[j].lastWrite {
      assert r[j] == fs[j - 1];
      if i > 0 {
        assert r[i] == fs[i - 1];
      }
    }
  }

  /** LINQ `OrderByDescending(f => f.LastWriteTime)`: a stable sort, newest first. */
  function NewestFirst(fs: seq<LogFile>): (r: seq<LogFile>)
    ensures multiset(r) == multiset(fs)
    ensures SortedNewestFirst(r)
  {
    if fs == [] then []
    else
      assert fs == [fs[0]] + fs[1..];
      InsertByRecencyPermutes(fs[0], NewestFirst(fs[1..]));
      InsertByRecencySorted(fs[0], NewestFirst(fs[1..]));
      InsertByRecency(fs[0], NewestFirst(fs[1..]))
  }

  /** The files written at time `t`, in list order. */
  function WithLastWrite(fs: seq<LogFile>, t: int): seq<LogFile> {
    if fs == [] then []
    else (if fs[0].lastWrite == t then [fs[0]] else []) + WithLastWrite(fs[1..], t)
  }

  lemma {:induction false} WithLastWriteCons(f: LogFile, fs: seq<LogFile>, t: int)
    ensures WithLastWrite([f] + fs, t) == (if f.lastWrite == t then [f] else []) + WithLastWrite(fs, t)
  {
    assert ([f] + fs)[1..] == fs;
  }

  lemma {:induction false} InsertByRecencyKeepsTies(f: LogFile, sorted: seq<LogFile>, t: int)
    ensures WithLastWrite(InsertByRecency(f, sorted), t)
            == (if f.lastWrite == t then [f] else []) + WithLastWrite(sorted, t)
  {
    if sorted == [] || sorted[0].lastWrite <= f.lastWrite {
      WithLastWriteCons(f, sorted, t);
    } else {
      var head, tail := sorted[0], sorted[1..];
      var rest := InsertByRecency(f, tail);
      assert sorted == [head] + tail;
      InsertByRecencyKeepsTies(f, tail, t);
      WithLastWriteCons(head, rest, t);
      WithLastWriteCons(head, tail, t);
      if f.lastWrite == t {
        assert head.lastWrite != t;
      }
    }
  }

  /** The sort is stable: files written at the same time keep their listing order, so
      which of them a later `Take` keeps is decided by the listing. */
  lemma {:induction false} NewestFirstIsStable(fs: seq<LogFile>, t: int)
    ensures WithLastWrite(NewestFirst(fs), t) == WithLastWrite(fs, t)
  {
    if fs != [] {
      NewestFirstIsStable(fs[1..], t);
      InsertByRecencyKeepsTies(fs[0], NewestFirst(fs[1..]), t);
    }
  }

  /** The `Where` clauses of `FindFilesAfter`: written at or after `after`, and, when a
      name filter is given, with a name containing it. */
  predicate Selected(f: LogFile, after: int, nameContains: Option<string>) {
    f.lastWrite >= after && (nameContains.None? || Contains(f.name, nameContains.value))
  }

  /** The `Where` itself: every selected file with all its copies, no other file, in
      listing order. */
  function SelectFiles(fs: seq<LogFile>, after: int, nameContains: Option<string>): (r: seq<LogFile>)
    ensures forall g | g in r :: g in fs && Selected(g, after, nameContains)
    ensures forall g | g in fs && Selected(g, after, nameContains) :: g in r
    ensures multiset(r) <= multiset(fs)
    ensures forall g :: multiset(r)[g] == if Selected(g, after, nameContains) then multiset(fs)[g] else 0
    ensures Subsequence(r, fs)
  {
    if fs == [] then []
    else
      var rest := SelectFiles(fs[1..], after, nameContains);
      assert fs == [fs[0]] + fs[1..];
      SubsequenceCons(fs[0], rest, fs[1..], Selected(fs[0], after, nameContains));
      if Selected(fs[0], after, nameContains) then [fs[0]] + rest else rest
  }

  /** `FindFilesAfter`: the files of the directory written at or after `after` whose name
      contains the filter (no filter: any name), newest first. A missing directory and a
      failed enumeration both give no files. */
  function FindFilesAfter(dir: Directory, after: int, nameContains: Option<string>): (r: seq<LogFile>)
    ensures SortedNewestFirst(r)
    ensures forall g | g in r :: dir.Listed? && g in dir.files && Selected(g, after, nameContains)
    ensures dir.Listed? ==> forall g | g in dir.files && Selected(g, after, nameContains) :: g in r
    ensures dir.Listed? ==> multiset(r) == multiset(SelectFiles(dir.files, after, nameContains))
    ensures !dir.Listed? ==> r == []
  {
    match dir
    case Missing => []
    case Unlistable => []
    case Listed(fs) =>
      var r := NewestFirst(SelectFiles(fs, after, nameContains));
      assert forall g | g in r :: g in SelectFiles(fs, after, nameContains) by {
        forall g | g in r ensures g in SelectFiles(fs, after, nameContains) {
          assert g in multiset(r);
        }
      }
      assert forall g | g in SelectFiles(fs, after, nameContains) :: g in r by {
        forall g | g in SelectFiles(fs, after, nameContains) ensures g in r {
          assert g in multiset(SelectFiles(fs, after, nameContains));
        }
      }
      r
  }

  /** Files of the directory written at the same moment come out of `FindFilesAfter` in
      listing order. */
  lemma {:induction false} FindFilesAfterKeepsTies(fs: seq<LogFile>, after: int, nameContains: Option<string>, t: int)
    ensures WithLastWrite(FindFilesAfter(Listed(fs), after, nameContains), t)
            == WithLastWrite(SelectFiles(fs, after, nameContains), t)
  {
    NewestFirstIsStable(SelectFiles(fs, after, nameContains), t);
  }

  /** The newest `n` of a list of files are files of the list, and a file left out is
      no newer than any taken, of which there are then `n`. */
  lemma {:induction false} NewestTake(logs: seq<LogFile>, n: nat)
    ensures var r := Take(NewestFirst(logs), n);
      (forall g | g in r :: g in logs)
      && forall g | g in logs && g !in r :: |r| == n && forall i | 0 <= i < |r| :: r[i].lastWrite >= g.lastWrite
  {
    var sorted := NewestFirst(logs);
    var r := Take(sorted, n);
    assert forall g | g in sorted :: g in logs by {
      forall g | g in sorted ensures g in logs {
        assert g in multiset(sorted);
      }
    }
    forall g | g in logs && g !in r
      ensures |r| == n && forall i | 0 <= i < |r| :: r[i].lastWrite >= g.lastWrite
    {
      assert g in multiset(logs);
      assert g in sorted;
      var k :| 0 <= k < |sorted| && sorted[k] == g;
      assert k >= |r|;
    }
  }

  /** The files written at one moment that a `Take` keeps are the first of them. */
  lemma {:induction false} WithLastWritePrefix(s: seq<LogFile>, k: nat, t: int)
    requires k <= |s|
    ensures WithLastWrite(s[..k], t) <= WithLastWrite(s, t)
  {
    if k > 0 {
      WithLastWritePrefix(s[1..], k - 1, t);
      assert s[..k] == [s[0]] + s[1..][..k - 1];
      assert s == [s[0]] + s[1..];
      WithLastWriteCons(s[0], s[1..][..k - 1], t);
      WithLastWriteCons(s[0], s[1..], t);
    }
  }

  /** The newest `n` files keep no more copies of a file than the list has, and the files
      written at one moment among them are the first of those in listing order. */
  lemma {:induction false} NewestTakeKeepsListing(logs: seq<LogFile>, n: nat)
    ensures var r := Take(NewestFirst(logs), n);
      multiset(r) <= multiset(logs) && forall t :: WithLastWrite(r, t) <= WithLastWrite(logs, t)
  {
    var sorted := NewestFirst(logs);
    var r := Take(sorted, n);
    assert sorted == r + sorted[|r|..];
    forall t ensures WithLastWrite(r, t) <= WithLastWrite(logs, t) {
      WithLastWritePrefix(sorted, |r|, t);
      NewestFirstIsStable(logs, t);
    }
  }
}
