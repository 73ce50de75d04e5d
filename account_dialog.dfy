/**
  AccountDialog: the window that creates a new account or edits an existing one. Saving
  validates the two text boxes and builds a fresh `Account` from them; on an edit the
  identity and lockout fields are carried over from the account being edited, and every
  field the initializer does not name keeps the default of `new Account()`.
*/
module AccountDialogs {
  import opened Wrappers
  import opened Text
  import opened Accounts
  import opened ExportImport

  /** The user name the dialog stores: the text box's content, trimmed. */
  function StoredUsername(text: string): string {
    Trim(text)
  }

  /** The record `SaveButton_Click` builds from the text boxes, or `None` when the user
      name or the password is empty or blank (the validation message, and no result). */
  function DialogRecord(original: Option<AccountData>, displayOrder: int, username: string, password: string,
                        guid: string, c: Crypto): Option<AccountData>
  {
    if IsNullOrWhiteSpace(username) || IsNullOrWhiteSpace(password) then None
    else
      Some(DefaultAccount(guid).(
        id := if original.Some? then original.value.id else guid,
        username := StoredUsername(username),
        encryptedPassword := ProtectText(password, c),
        accountId := if original.Some? then original.value.accountId else "",
        gameName := if original.Some? then original.value.gameName else "",
        tagLine := if original.Some? then original.value.tagLine else "",
        lowPrioUntil := if original.Some? then original.value.lowPrioUntil else None,
        lockoutUntil := if original.Some? then original.value.lockoutUntil else None,
        displayOrder := displayOrder))
  }

  /** Validation: a record is built exactly when both boxes hold a non-blank character;
      its user name is then non-empty and already trimmed. */
  lemma {:induction false} DialogValidation(original: Option<AccountData>, displayOrder: int, username: string, password: string,
                         guid: string, c: Crypto)
    ensures var r := DialogRecord(original, displayOrder, username, password, guid, c);
      (r.Some? <==> !IsNullOrWhiteSpace(username) && !IsNullOrWhiteSpace(password))
      && (r.Some? ==> r.value.username != "" && Trim(r.value.username) == r.value.username)
  {
    var r := DialogRecord(original, displayOrder, username, password, guid, c);
    if r.Some? {
      var t := Trim(username);
      assert r.value.username == t;
      assert t != [];
      TrimOfTrimmed(t);
    }
  }

  /** An edit keeps who the account is and its lockouts: Id, AccountId, GameName, TagLine,
      LowPrioUntil and LockoutUntil come from the edited account, and the display order
      from the dialog's constructor. The fixed-minutes penalty, the low-priority minutes and
      the tag are not carried over: they fall back to their defaults. */
  lemma {:induction false} EditKeepsIdentity(original: AccountData, displayOrder: int, username: string, password: string,
                          guid: string, c: Crypto)
    requires !IsNullOrWhiteSpace(username) && !IsNullOrWhiteSpace(password)
    ensures var r := DialogRecord(Some(original), displayOrder, username, password, guid, c).value;
      && r.id == original.id && r.accountId == original.accountId
      && r.gameName == original.gameName && r.tagLine == original.tagLine
      && r.lowPrioUntil == original.lowPrioUntil && r.lockoutUntil == original.lockoutUntil
      && r.displayOrder == displayOrder
      && r.lowPrioMinutes == 0 && r.lowPriorityMinutes.None? && r.tag == NoTag
  {
  }

  /** A new account gets the drawn Guid as its id, no identity and no penalties. */
  lemma {:induction false} NewAccountIsBlank(displayOrder: int, username: string, password: string, guid: string, c: Crypto)
    requires !IsNullOrWhiteSpace(username) && !IsNullOrWhiteSpace(password)
    ensures var r := DialogRecord(None, displayOrder, username, password, guid, c).value;
      && r == DefaultAccount(guid).(username := r.username, encryptedPassword := r.encryptedPassword,
                                    displayOrder := displayOrder)
      && r.username == Trim(username)
  {
  }

  /** `ProtectedData.Protect` followed by `Unprotect` gives the text back. */
  predicate DpapiRoundTrip(c: Crypto, plain: string) {
    plain == "" || (c.protect(plain).Some? && c.protect(plain).value != ""
                    && c.unprotect(c.protect(plain).value) == Some(plain))
  }

  /** When the protection round-trips, the stored password decrypts to what was typed. */
  lemma {:induction false} SavedPasswordDecrypts(original: Option<AccountData>, displayOrder: int, username: string, password: string,
                              guid: string, c: Crypto)
    requires DpapiRoundTrip(c, password)
    ensures var r := DialogRecord(original, displayOrder, username, password, guid, c);
      r.Some? ==> UnprotectText(r.value.encryptedPassword, c) == password
  {
  }

  /** Saving an edit twice with the same input gives the same record as saving it once. */
  lemma {:induction false} SavingAgainChangesNothing(original: AccountData, displayOrder: int, username: string, password: string,
                                  guid: string, c: Crypto)
    requires !IsNullOrWhiteSpace(username) && !IsNullOrWhiteSpace(password)
    ensures var once := DialogRecord(Some(original), displayOrder, username, password, guid, c).value;
      DialogRecord(Some(once), displayOrder, username, password, guid, c) == Some(once)
  {
  }

  class AccountDialog {
    /** The account being edited, or null for a new one. */
    const originalAccount: Account?
    const displayOrder: int
    /** The two text boxes, as the user left them. */
    var usernameText: string
    var passwordText: string
    var resultAccount: Account?
    var dialogResult: Option<bool>

    /** The dialog pre-fills the boxes from the edited account, its password unprotected. */
    constructor (account: Account?, displayOrder: int, c: Crypto)
      ensures originalAccount == account && this.displayOrder == displayOrder
      ensures usernameText == (if account != null then account.username else "")
      ensures passwordText == (if account != null then UnprotectText(account.encryptedPassword, c) else "")
      ensures resultAccount == null && dialogResult.None?
    {
      originalAccount := account;
      this.displayOrder := displayOrder;
      if account != null {
        usernameText := account.username;
        passwordText := UnprotectText(account.encryptedPassword, c);
      } else {
        usernameText, passwordText := "", "";
      }
      resultAccount, dialogResult := null, None;
    }

    /** The edited account's fields, when there is one. */
    function Original(): Option<AccountData>
      reads this, originalAccount
    {
      if originalAccount != null then Some(originalAccount.Data()) else None
    }

    /** The `new Account { … }` of `SaveButton_Click`, once both boxes passed validation. */
    method BuildAccount(guid: string, c: Crypto) returns (result: Account)
      requires !IsNullOrWhiteSpace(usernameText) && !IsNullOrWhiteSpace(passwordText)
      ensures fresh(result)
      ensures result.Data() == DialogRecord(Original(), displayOrder, usernameText, passwordText, guid, c).value
    {
      // The object initializer: the values are read before the new account is filled in.
      var id := if originalAccount != null then originalAccount.id else guid;
      var accountId := if originalAccount != null then originalAccount.accountId else "";
      var gameName := if originalAccount != null then originalAccount.gameName else "";
      var tagLine := if originalAccount != null then originalAccount.tagLine else "";
      var lowPrioUntil := if originalAccount != null then originalAccount.lowPrioUntil else None;
      var lockoutUntil := if originalAccount != null then originalAccount.lockoutUntil else None;
      var username := StoredUsername(usernameText);
      var encrypted := ProtectText(passwordText, c);
      // The fields the initializer leaves out keep the defaults of `new Account()`.
      result := new Account.Initialized(DefaultAccount(id).(
        username := username, encryptedPassword := encrypted,
        accountId := accountId, gameName := gameName, tagLine := tagLine,
        lowPrioUntil := lowPrioUntil, lockoutUntil := lockoutUntil, displayOrder := displayOrder));
    }

    /** `SaveButton_Click`: with a blank box nothing is set; otherwise the result is a new
        account holding the dialog's record and the dialog result is true. `guid` is the
        text of the Guid drawn for a new account. */
    method SaveButtonClick(guid: string, c: Crypto)
      modifies this
      ensures usernameText == old(usernameText) && passwordText == old(passwordText)
      ensures var record := DialogRecord(old(Original()), displayOrder, usernameText, passwordText, guid, c);
        if record.None? then resultAccount == old(resultAccount) && dialogResult == old(dialogResult)
        else resultAccount != null && fresh(resultAccount) && resultAccount.Data() == record.value
             && dialogResult == Some(true)
    {
      if IsNullOrWhiteSpace(usernameText) {
        return;
      }
      if IsNullOrWhiteSpace(passwordText) {
        return;
      }
      var result := BuildAccount(guid, c);
      resultAccount := result;
      dialogResult := Some(true);
    }
  }
}
