/**
  EditAccountsWindow and the account list it edits (`AppConfig.Accounts`): adding an
  account at the end, replacing an edited account where it stands, deleting one and
  renumbering the display order of those left, and showing the list ordered by
  `DisplayOrder`. Saving the configuration (`StorageService.SaveConfig`) is file I/O and
  is not part of this model.
*/
module EditAccounts {
  import opened Wrappers
  import opened Accounts
  import opened ExportImport
  import opened AccountDialogs

  // ---------------------------------------------------------------------------
  // The displayed order

  predicate SortedByDisplayOrder(s: seq<AccountData>) {
    forall i, j | 0 <= i < j < |s| :: s[i].displayOrder <= s[j].displayOrder
  }

  /** Inserts `a` in front of the first account whose display order is not smaller, so that
      `a` stays ahead of the accounts with the same order. */
  function InsertByDisplayOrder(a: AccountData, sorted: seq<AccountData>): (r: seq<AccountData>)
    ensures multiset(r) == multiset(sorted) + multiset{a}
  {
    if sorted == [] || a.displayOrder <= sorted[0].displayOrder then [a] + sorted
    else
      assert sorted == [sorted[0]] + sorted[1..];
      [sorted[0]] + InsertByDisplayOrder(a, sorted[1..])
  }

  /** A lower bound of `a` and of every entry of `sorted` bounds the result too. */
  lemma {:induction false} InsertKeepsLowerBound(a: AccountData, sorted: seq<AccountData>, bound: int)
    requires bound <= a.displayOrder
    requires forall i | 0 <= i < |sorted| :: bound <= sorted[i].displayOrder
    ensures forall i | 0 <= i < |InsertByDisplayOrder(a, sorted)| ::
      bound <= InsertByDisplayOrder(a, sorted)[i].displayOrder
  {
    if sorted != [] && a.displayOrder > sorted[0].displayOrder {
      InsertKeepsLowerBound(a, sorted[1..], bound);
    }
  }

  /** Inserting into a sorted list keeps it sorted. */
  lemma {:induction false} InsertKeepsSorted(a: AccountData, sorted: seq<AccountData>)
    requires SortedByDisplayOrder(sorted)
    ensures SortedByDisplayOrder(InsertByDisplayOrder(a, sorted))
  {
    if sorted != [] && a.displayOrder > sorted[0].displayOrder {
      var rest := InsertByDisplayOrder(a, sorted[1..]);
      InsertKeepsSorted(a, sorted[1..]);
      InsertKeepsLowerBound(a, sorted[1..], sorted[0].displayOrder);
      PrependSmallest(sorted[0], rest);
    }
  }

  /** An account ordered no later than every entry of a sorted list can go in front of it. */
  lemma {:induction false} PrependSmallest(a: AccountData, s: seq<AccountData>)
    requires SortedByDisplayOrder(s)
    requires forall i | 0 <= i < |s| :: a.displayOrder <= s[i].displayOrder
    ensures SortedByDisplayOrder([a] + s)
  {
    var r := [a] + s;
    forall i, j | 0 <= i < j < |r| ensures r[i].displayOrder <= r[j].displayOrder {
      assert r[j] == s[j - 1];
      if i > 0 {
        assert r[i] == s[i - 1];
      }
    }
  }

  /** LINQ `OrderBy(a => a.DisplayOrder)`: a stable sort on the display order. */
  function ByDisplayOrder(accounts: seq<AccountData>): (r: seq<AccountData>)
    ensures multiset(r) == multiset(accounts)
  {
    if accounts == [] then []
    else
      assert accounts == [accounts[0]] + accounts[1..];
      InsertByDisplayOrder(accounts[0], ByDisplayOrder(accounts[1..]))
  }

  /** The list is shown sorted by display order. */
  lemma {:induction false} ByDisplayOrderIsSorted(accounts: seq<AccountData>)
    ensures SortedByDisplayOrder(ByDisplayOrder(accounts))
  {
    if accounts != [] {
      ByDisplayOrderIsSorted(accounts[1..]);
      InsertKeepsSorted(accounts[0], ByDisplayOrder(accounts[1..]));
    }
  }

  /** The accounts with display order `k`, in list order. */
  function WithDisplayOrder(s: seq<AccountData>, k: int): seq<AccountData> {
    if s == [] then []
    else (if s[0].displayOrder == k then [s[0]] else []) + WithDisplayOrder(s[1..], k)
  }

  lemma {:induction false} InsertKeepsTies(a: AccountData, sorted: seq<AccountData>, k: int)
    ensures WithDisplayOrder(InsertByDisplayOrder(a, sorted), k)
            == (if a.displayOrder == k then [a] else []) + WithDisplayOrder(sorted, k)
  {
    if sorted == [] || a.displayOrder <= sorted[0].displayOrder {
      assert ([a] + sorted)[1..] == sorted;
    } else {
      var rest := InsertByDisplayOrder(a, sorted[1..]);
      InsertKeepsTies(a, sorted[1..], k);
      assert ([sorted[0]] + rest)[1..] == rest;
    }
  }

  /** The sort is stable: the accounts sharing a display order are shown in list order. */
  lemma {:induction false} ByDisplayOrderIsStable(accounts: seq<AccountData>, k: int)
    ensures WithDisplayOrder(ByDisplayOrder(accounts), k) == WithDisplayOrder(accounts, k)
  {
    if accounts != [] {
      ByDisplayOrderIsStable(accounts[1..], k);
      InsertKeepsTies(accounts[0], ByDisplayOrder(accounts[1..]), k);
    }
  }

  predicate StrictlyIncreasingOrder(s: seq<AccountData>) {
    forall i, j | 0 <= i < j < |s| :: s[i].displayOrder < s[j].displayOrder
  }

  /** A list whose display orders increase is shown as it stands; in particular one
      numbered 0, 1, 2, … after a delete. */
  lemma {:induction false} IncreasingOrderIsShownAsIs(accounts: seq<AccountData>)
    requires StrictlyIncreasingOrder(accounts)
    ensures ByDisplayOrder(accounts) == accounts
  {
    if accounts != [] {
      IncreasingOrderIsShownAsIs(accounts[1..]);
      assert accounts == [accounts[0]] + accounts[1..];
    }
  }

  // ---------------------------------------------------------------------------
  // List operations

  /** `List.IndexOf`: the first position of the account (by reference), or -1. */
  function IndexOf(s: seq<Account>, a: Account): (i: int)
    ensures -1 <= i < |s|
    ensures i == -1 <==> a !in s
    ensures i >= 0 ==> s[i] == a && forall j | 0 <= j < i :: s[j] != a
  {
    if s == [] then -1
    else if s[0] == a then 0
    else
      var i := IndexOf(s[1..], a);
      if i == -1 then -1 else i + 1
  }

  /** `List.Remove`: the list without the first occurrence of the account; unchanged when
      the account is not in it. */
  function RemoveFirst(s: seq<Account>, a: Account): (r: seq<Account>)
    ensures a !in s ==> r == s
    ensures a in s ==> r == s[..IndexOf(s, a)] + s[IndexOf(s, a) + 1..]
  {
    if s == [] then []
    else if s[0] == a then s[1..]
    else
      assert s == [s[0]] + s[1..];
      [s[0]] + RemoveFirst(s[1..], a)
  }

  /** Removing a present account shortens the list by one and takes out exactly that
      account. */
  lemma {:induction false} RemoveFirstRemovesOne(s: seq<Account>, a: Account)
    requires a in s
    ensures |RemoveFirst(s, a)| == |s| - 1
    ensures multiset(RemoveFirst(s, a)) + multiset{a} == multiset(s)
  {
    DropAt(s, IndexOf(s, a));
  }

  /** Every account left after the removal was in the list. */
  lemma {:induction false} RemoveFirstIsSublist(s: seq<Account>, a: Account)
    ensures forall x | x in RemoveFirst(s, a) :: x in s
  {
    if a in s {
      RemoveFirstRemovesOne(s, a);
      forall x | x in RemoveFirst(s, a) ensures x in s {
        assert x in multiset(RemoveFirst(s, a));
      }
    }
  }

  /** From a list without repeats, the removal takes the account out altogether and
      leaves a list without repeats. */
  lemma {:induction false} RemoveFirstKeepsDistinct(s: seq<Account>, a: Account)
    requires Distinct(s)
    ensures Distinct(RemoveFirst(s, a)) && a !in RemoveFirst(s, a)
  {
    if a in s {
      var k := IndexOf(s, a);
      var r := RemoveFirst(s, a);
      assert r == s[..k] + s[k + 1..];
      DropAtKeepsDistinct(s, k);
    }
  }

  lemma {:induction false} DropAtKeepsDistinct<T>(s: seq<T>, k: nat)
    requires k < |s| && Distinct(s)
    ensures Distinct(s[..k] + s[k + 1..]) && s[k] !in s[..k] + s[k + 1..]
  {
    var r := s[..k] + s[k + 1..];
    DropAt(s, k);
    forall i, j | 0 <= i < j < |r| ensures r[i] != r[j] {
      var i' := if i < k then i else i + 1;
      var j' := if j < k then j else j + 1;
      assert r[i] == s[i'] && r[j] == s[j'];
    }
    forall i | 0 <= i < |r| ensures r[i] != s[k] {
      var i' := if i < k then i else i + 1;
      assert r[i] == s[i'];
    }
  }

  lemma {:induction false} AppendKeepsDistinct<T>(s: seq<T>, x: T)
    requires Distinct(s) && x !in s
    ensures Distinct(s + [x])
  {
  }

  lemma {:induction false} ReplaceKeepsDistinct<T>(s: seq<T>, k: nat, x: T)
    requires k < |s| && Distinct(s) && x !in s
    ensures Distinct(s[k := x])
  {
  }

  /** The list with position `k` dropped: one shorter, the same elements before `k`, the
      later ones shifted down by one, and `s[k]` the only element missing. */
  lemma {:induction false} DropAt<T>(s: seq<T>, k: nat)
    requires k < |s|
    ensures var r := s[..k] + s[k + 1..];
      && |r| == |s| - 1
      && (forall i | 0 <= i < k :: r[i] == s[i])
      && (forall i | k <= i < |r| :: r[i] == s[i + 1])
      && multiset(r) + multiset{s[k]} == multiset(s)
  {
    assert s == s[..k] + [s[k]] + s[k + 1..];
  }

  // ---------------------------------------------------------------------------
  // The window

  /** `ShowDialog()` on an `AccountDialog` the user fills in with `username` and
      `password` and then saves: the account it hands back when the result is true, or
      null when validation kept it from closing. */
  method ShowDialog(original: Account?, displayOrder: int, username: string, password: string,
                    guid: string, c: Crypto) returns (result: Account?)
    ensures var record := DialogRecord(if original != null then Some(original.Data()) else None,
                                       displayOrder, username, password, guid, c);
      && (result == null <==> record.None?)
      && (result != null ==> fresh(result) && result.Data() == record.value)
  {
    var dialog := new AccountDialog(original, displayOrder, c);
    dialog.usernameText, dialog.passwordText := username, password;
    dialog.SaveButtonClick(guid, c);
    if dialog.dialogResult == Some(true) && dialog.resultAccount != null {
      result := dialog.resultAccount;
    } else {
      result := null;
    }
  }

  class AppConfig {
    /** `Accounts`: the list the windows show and edit. */
    var accounts: seq<Account>

    /** Every entry is its own object: loading gives distinct objects, and an add or an
        edit puts in a freshly built one. */
    ghost predicate Valid()
      reads this
    {
      Distinct(accounts)
    }

    /** The configuration as `StorageService.LoadConfig` hands it over. */
    constructor (accounts: seq<Account>)
      requires Distinct(accounts)
      ensures Valid() && this.accounts == accounts
    {
      this.accounts := accounts;
    }

    /** `LoadAccounts`: the list the window shows, ordered by display order. */
    function DisplayedAccounts(): (r: seq<AccountData>)
      reads this, set a | a in accounts
      ensures multiset(r) == multiset(DataOf(accounts))
    {
      ByDisplayOrder(DataOf(accounts))
    }

    /** `NewAccountButton_Click`: the dialog is opened for a new account with the current
        count as display order; a saved result is appended. `username` and `password` are
        what the user typed, `guid` the Guid text drawn for the new account. */
    method NewAccountButtonClick(username: string, password: string, guid: string, c: Crypto)
      requires Valid()
      modifies this
      ensures Valid()
      ensures var record := DialogRecord(None, |old(accounts)|, username, password, guid, c);
        if record.None? then accounts == old(accounts)
        else
          && |accounts| == |old(accounts)| + 1 && accounts[..|old(accounts)|] == old(accounts)
          && fresh(accounts[|old(accounts)|])
          && accounts[|old(accounts)|].Data() == record.value
          && accounts[|old(accounts)|].displayOrder == |old(accounts)|
    {
      var added := ShowDialog(null, |accounts|, username, password, guid, c);
      if added != null {
        AppendKeepsDistinct(accounts, added);
        accounts := accounts + [added];
      }
    }

    /** `EditAccountButton_Click`: the dialog is opened on the account with its own display
        order; a saved result replaces the account where it stands. An account no longer
        in the list, or a dialog left without saving, changes nothing. */
    method EditAccountButtonClick(account: Account, username: string, password: string, guid: string, c: Crypto)
      requires Valid()
      modifies this
      ensures Valid()
      ensures var record := DialogRecord(Some(old(account.Data())), old(account.displayOrder), username, password, guid, c);
        if record.None? || account !in old(accounts) then accounts == old(accounts)
        else
          var i := IndexOf(old(accounts), account);
          && |accounts| == |old(accounts)|
          && (forall j | 0 <= j < |accounts| && j != i :: accounts[j] == old(accounts)[j])
          && fresh(accounts[i]) && accounts[i].Data() == record.value
    {
      var edited := ShowDialog(account, account.displayOrder, username, password, guid, c);
      if edited != null {
        var index := IndexOf(accounts, account);
        if index >= 0 {
          ReplaceAt(index, edited);
        }
      }
    }

    /** The edited account takes the place of the one it was made from. */
    method ReplaceAt(index: nat, edited: Account)
      requires Valid() && index < |accounts| && edited !in accounts
      modifies this
      ensures Valid() && accounts == old(accounts)[index := edited]
    {
      ReplaceKeepsDistinct(accounts, index, edited);
      accounts := accounts[index := edited];
    }

    /** `OptionsButton_Click`: after the user confirms, the account is removed and the
        accounts left are renumbered 0, 1, 2, … in list order; nothing else about them
        changes. Without confirmation nothing changes. */
    method OptionsButtonClick(account: Account, confirmed: bool)
      requires Valid()
      modifies this, set a | a in accounts
      ensures Valid()
      ensures !confirmed ==> accounts == old(accounts) && unchanged(set a | a in accounts)
      ensures confirmed ==> accounts == RemoveFirst(old(accounts), account)
      ensures confirmed ==> DataOf(accounts) == Renumbered(old(DataOf(RemoveFirst(accounts, account))))
      ensures forall a | a in old(accounts) && a !in accounts :: unchanged(a)
    {
      if !confirmed {
        return;
      }
      ghost var left := DataOf(RemoveFirst(accounts, account));
      RemoveFirstKeepsDistinct(accounts, account);
      RemoveFirstIsSublist(accounts, account);
      accounts := RemoveFirst(accounts, account);
      assert DataOf(accounts) == left;
      Renumber(accounts);
    }
  }

  /** The renumbering loop: each account of the list gets its position as display order. */
  method Renumber(accounts: seq<Account>)
    requires Distinct(accounts)
    modifies set a | a in accounts
    ensures DataOf(accounts) == Renumbered(old(DataOf(accounts)))
  {
    for i := 0 to |accounts|
      invariant forall j | 0 <= j < i :: accounts[j].Data() == old(accounts[j].Data()).(displayOrder := j)
      invariant forall j | i <= j < |accounts| :: accounts[j].Data() == old(accounts[j].Data())
    {
      accounts[i].displayOrder := i;
    }
  }

  /** The accounts numbered by their position, everything else as it was. */
  function Renumbered(ds: seq<AccountData>): (r: seq<AccountData>)
    ensures |r| == |ds|
  {
    seq(|ds|, i requires 0 <= i < |ds| => ds[i].(displayOrder := i))
  }

  /** After renumbering the display orders are 0, 1, 2, … and every other field of every
      account is as it was. */
  lemma {:induction false} RenumberedNumbersByPosition(ds: seq<AccountData>)
    ensures forall i | 0 <= i < |ds| :: Renumbered(ds)[i].displayOrder == i
    ensures forall i | 0 <= i < |ds| :: Renumbered(ds)[i].(displayOrder := 0) == ds[i].(displayOrder := 0)
  {
  }

  /** After a confirmed delete the window shows the list exactly in list order. */
  lemma {:induction false} ShownInListOrderAfterDelete(ds: seq<AccountData>)
    ensures ByDisplayOrder(Renumbered(ds)) == Renumbered(ds)
  {
    IncreasingOrderIsShownAsIs(Renumbered(ds));
  }
}
