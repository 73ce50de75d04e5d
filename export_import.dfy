/**
  ExportImportService: the password-protected text export of the account list and its
  import. Each account becomes an `[Account]` block of `Key=Value` lines; the stored
  password (protected for the current Windows user) is unprotected and re-encrypted under
  the export password, and on import decrypted and protected again.

  The cryptography (DPAPI, PBKDF2 key derivation, AES, Base64) and the round-trip date
  format are not modelled bit by bit: they are functions passed in (`Crypto`, `DateCodec`),
  and the round trip is proved under the stated assumption that they invert each other.
*/
module ExportImport {
  import opened Wrappers
  import opened Text
  import opened Accounts

  // ---------------------------------------------------------------------------
  // Export password

  /** The 62 characters a generated password draws from: upper-case letters, lower-case
      letters, then digits. */
  const PasswordAlphabet: string := UpperCaseLetters + LowerCaseLetters + DecimalDigits
  const UpperCaseLetters: string := "ABCDEFGHIJKLMNOPQRSTUVWXYZ"
  const LowerCaseLetters: string := "abcdefghijklmnopqrstuvwxyz"
  const DecimalDigits: string := "0123456789"
  const ExportPasswordLength: nat := 16

  predicate IsAsciiLetterOrDigit(c: char) {
    'A' <= c <= 'Z' || 'a' <= c <= 'z' || '0' <= c <= '9'
  }

  predicate AllBetween(s: string, lo: char, hi: char) {
    forall i | 0 <= i < |s| :: lo <= s[i] <= hi
  }

  lemma {:induction false} UpperCaseLettersAreLetters() ensures AllBetween(UpperCaseLetters, 'A', 'Z') {}
  lemma {:induction false} LowerCaseLettersAreLetters() ensures AllBetween(LowerCaseLetters, 'a', 'z') {}
  lemma {:induction false} DecimalDigitsAreDigits() ensures AllBetween(DecimalDigits, '0', '9') {}

  newtype byte = x: int | 0 <= x < 256

  /** `chars[b % chars.Length]`: the character a random byte selects. */
  function PasswordChar(b: byte): (c: char)
    ensures c in PasswordAlphabet && IsAsciiLetterOrDigit(c)
  {
    var c := PasswordAlphabet[(b as int) % |PasswordAlphabet|];
    AlphabetIsAlphanumeric(c);
    c
  }

  /** Every character of the alphabet is an ASCII letter or digit. */
  lemma {:induction false} AlphabetIsAlphanumeric(c: char)
    requires c in PasswordAlphabet
    ensures IsAsciiLetterOrDigit(c)
  {
    UpperCaseLettersAreLetters();
    LowerCaseLettersAreLetters();
    DecimalDigitsAreDigits();
    var i :| 0 <= i < |PasswordAlphabet| && PasswordAlphabet[i] == c;
    if i < 26 {
      assert c == UpperCaseLetters[i];
    } else if i < 52 {
      assert c == LowerCaseLetters[i - 26];
    } else {
      assert c == DecimalDigits[i - 52];
    }
  }

  /** `GenerateExportPassword`, with the 16 bytes the random number generator fills in
      passed in: one letter or digit per byte. */
  method GenerateExportPassword(random: seq<byte>) returns (password: string)
    requires |random| == ExportPasswordLength
    ensures |password| == ExportPasswordLength
    ensures forall i | 0 <= i < |password| :: password[i] == PasswordChar(random[i])
    ensures forall i | 0 <= i < |password| :: IsAsciiLetterOrDigit(password[i])
  {
    var result: string := [];
    for i := 0 to |random|
      invariant |result| == i
      invariant forall j | 0 <= j < i :: result[j] == PasswordChar(random[j])
    {
      result := result + [PasswordChar(random[i])];
    }
    password := result;
  }

  // ---------------------------------------------------------------------------
  // Cryptography and dates, as parameters

  datatype Crypto = Crypto(
    /** `ProtectedData.Protect` of the UTF-8 bytes for the current user, in Base64;
        `None` when it throws. */
    protect: string -> Option<string>,
    /** Base64 decoding and `ProtectedData.Unprotect`; `None` when either throws. */
    unprotect: string -> Option<string>,
    /** AES under the key and IV that PBKDF2 (SHA-256, 10000 iterations, fixed salt) derives
        from the export password, in Base64. Arguments: plain text, password. */
    aesEncrypt: (string, string) -> string,
    /** The matching decryption; `None` when the text is not Base64 or the padding is wrong
        (a wrong password or a damaged file). Arguments: cipher text, password. */
    aesDecrypt: (string, string) -> Option<string>)

  datatype DateCodec = DateCodec(
    /** `DateTime.ToString("O")`. */
    format: int -> string,
    /** `DateTime.TryParse`. */
    parse: string -> Option<int>)

  /** `EncryptionService.Encrypt`: "" for "", and "" when protecting fails. */
  function ProtectText(plain: string, c: Crypto): string {
    if plain == "" then ""
    else match c.protect(plain)
      case None => ""
      case Some(cipher) => cipher
  }

  /** `EncryptionService.Decrypt`: "" for "", and "" when unprotecting fails. */
  function UnprotectText(cipher: string, c: Crypto): string {
    if cipher == "" then ""
    else match c.unprotect(cipher)
      case None => ""
      case Some(plain) => plain
  }

  /** `EncryptWithPassword`: "" stays "". */
  function EncryptWithPassword(plain: string, password: string, c: Crypto): string {
    if plain == "" then "" else c.aesEncrypt(plain, password)
  }

  /** `DecryptWithPassword`: "" stays ""; `None` stands for the exception it throws. */
  function DecryptWithPassword(cipher: string, password: string, c: Crypto): Option<string> {
    if cipher == "" then Some("") else c.aesDecrypt(cipher, password)
  }

  /** The assumption on AES: a non-empty plain text encrypts to a non-empty text that
      decrypts back under the same password. */
  predicate AesRoundTrip(c: Crypto, plain: string, password: string) {
    plain == "" || (c.aesEncrypt(plain, password) != "" && c.aesDecrypt(c.aesEncrypt(plain, password), password) == Some(plain))
  }

  lemma {:induction false} PasswordRoundTrip(plain: string, password: string, c: Crypto)
    requires AesRoundTrip(c, plain, password)
    ensures DecryptWithPassword(EncryptWithPassword(plain, password, c), password, c) == Some(plain)
  {
  }

  // ---------------------------------------------------------------------------
  // The export format

  const AccountHeader: string := "[Account]"
  const ImportFailureMessage: string := "Invalid password or corrupted file"

  datatype Field = Field(key: string, value: string)

  function FieldLine(f: Field): string {
    f.key + "=" + f.value
  }

  function FieldLines(fs: seq<Field>): (r: seq<string>)
    ensures |r| == |fs|
    ensures forall i | 0 <= i < |fs| :: r[i] == FieldLine(fs[i])
  {
    if fs == [] then [] else [FieldLine(fs[0])] + FieldLines(fs[1..])
  }

  /** The password as exported: unprotected, then encrypted under the export password. */
  function ExportedPassword(d: AccountData, password: string, c: Crypto): string {
    EncryptWithPassword(UnprotectText(d.encryptedPassword, c), password, c)
  }

  /** The `Key=Value` lines of one account, in the order they are written: the login and
      Riot ID, the password, order and tag, and the penalties that are set. */
  function ExportFields(d: AccountData, password: string, c: Crypto, dates: DateCodec): seq<Field> {
    NameFields(d) + SettingFields(d, password, c) + PenaltyFields(d, dates)
  }

  function NameFields(d: AccountData): seq<Field> {
    [Field("Username", d.username), Field("AccountId", d.accountId),
     Field("GameName", d.gameName), Field("TagLine", d.tagLine)]
  }

  function SettingFields(d: AccountData, password: string, c: Crypto): seq<Field> {
    [Field("EncryptedPassword", ExportedPassword(d, password, c)),
     Field("DisplayOrder", IntToString(d.displayOrder)),
     Field("Tag", TagName(d.tag))]
  }

  /** The low priority minutes and the lockout end, each only when it is set. */
  function PenaltyFields(d: AccountData, dates: DateCodec): seq<Field> {
    (if d.lowPriorityMinutes.Some? then [Field("LowPriorityMinutes", IntToString(d.lowPriorityMinutes.value))] else [])
    + (if d.lockoutUntil.Some? then [Field("LockoutUntil", dates.format(d.lockoutUntil.value))] else [])
  }

  function ExportBlock(d: AccountData, password: string, c: Crypto, dates: DateCodec): seq<string> {
    [AccountHeader] + FieldLines(ExportFields(d, password, c, dates)) + [""]
  }

  function ExportBlocks(ds: seq<AccountData>, password: string, c: Crypto, dates: DateCodec): seq<string> {
    if ds == [] then [] else ExportBlock(ds[0], password, c, dates) + ExportBlocks(ds[1..], password, c, dates)
  }

  /** The three comment lines and the blank line that open an export; `generated` is the
      export time as "yyyy-MM-dd HH:mm:ss". */
  const ExportTitle: string := "# Smurf Account Manager Export"
  const GeneratedPrefix: string := "# Generated: "
  const AccountsPrefix: string := "# Accounts: "

  function ExportHeader(count: nat, generated: string): seq<string> {
    [ExportTitle,
     GeneratedPrefix + generated,
     AccountsPrefix + IntToString(count),
     ""]
  }

  function ExportLines(ds: seq<AccountData>, password: string, generated: string, c: Crypto, dates: DateCodec): seq<string> {
    ExportHeader(|ds|, generated) + ExportBlocks(ds, password, c, dates)
  }

  /** The text `ExportAccounts` writes to the file. */
  function ExportText(ds: seq<AccountData>, password: string, generated: string, c: Crypto, dates: DateCodec): string {
    JoinLines(ExportLines(ds, password, generated, c, dates))
  }

  lemma {:induction false} ExportBlocksAppend(ds: seq<AccountData>, d: AccountData, password: string, c: Crypto, dates: DateCodec)
    ensures ExportBlocks(ds + [d], password, c, dates) == ExportBlocks(ds, password, c, dates) + ExportBlock(d, password, c, dates)
  {
    if ds == [] {
      assert [d][1..] == [];
    } else {
      assert (ds + [d])[1..] == ds[1..] + [d];
      ExportBlocksAppend(ds[1..], d, password, c, dates);
    }
  }

  lemma {:induction false} FieldLinesConcat(a: seq<Field>, b: seq<Field>)
    ensures FieldLines(a + b) == FieldLines(a) + FieldLines(b)
  {
  }

  lemma {:induction false} NameFieldLines(d: AccountData)
    ensures FieldLines(NameFields(d))
      == ["Username" + "=" + d.username, "AccountId" + "=" + d.accountId, "GameName" + "=" + d.gameName, "TagLine" + "=" + d.tagLine]
  {
  }

  lemma {:induction false} SettingFieldLines(d: AccountData, password: string, c: Crypto)
    ensures FieldLines(SettingFields(d, password, c))
      == ["EncryptedPassword" + "=" + ExportedPassword(d, password, c),
          "DisplayOrder" + "=" + IntToString(d.displayOrder), "Tag" + "=" + TagName(d.tag)]
  {
  }

  lemma {:induction false} PenaltyFieldLines(d: AccountData, dates: DateCodec)
    ensures FieldLines(PenaltyFields(d, dates))
      == (if d.lowPriorityMinutes.Some? then ["LowPriorityMinutes" + "=" + IntToString(d.lowPriorityMinutes.value)] else [])
         + (if d.lockoutUntil.Some? then ["LockoutUntil" + "=" + dates.format(d.lockoutUntil.value)] else [])
  {
    var lpq := if d.lowPriorityMinutes.Some? then [Field("LowPriorityMinutes", IntToString(d.lowPriorityMinutes.value))] else [];
    var lockout := if d.lockoutUntil.Some? then [Field("LockoutUntil", dates.format(d.lockoutUntil.value))] else [];
    FieldLinesConcat(lpq, lockout);
  }

  /** An account block appended to the builder, as the loop body appends it: the header,
      then the lines of each group of fields, then a blank line. */
  lemma {:induction false} AppendExportBlock(sb: seq<string>, d: AccountData, password: string, c: Crypto, dates: DateCodec)
    ensures sb + ExportBlock(d, password, c, dates)
      == ((((sb + [AccountHeader]) + FieldLines(NameFields(d))) + FieldLines(SettingFields(d, password, c)))
          + FieldLines(PenaltyFields(d, dates))) + [""]
  {
    var n, t, p := FieldLines(NameFields(d)), FieldLines(SettingFields(d, password, c)), FieldLines(PenaltyFields(d, dates));
    FieldLinesConcat(NameFields(d), SettingFields(d, password, c));
    FieldLinesConcat(NameFields(d) + SettingFields(d, password, c), PenaltyFields(d, dates));
    assert ExportBlock(d, password, c, dates) == [AccountHeader] + (n + t + p) + [""];
    AppendAssociative(sb, [AccountHeader] + (n + t + p), [""]);
    AppendAssociative(sb, [AccountHeader], n + t + p);
    AppendAssociative(sb + [AccountHeader], n + t, p);
    AppendAssociative(sb + [AccountHeader], n, t);
  }

  /** One pass of the loop body of `ExportAccounts`: the block of one account. */
  method AppendAccountBlock(sb: seq<string>, account: Account, password: string, c: Crypto, dates: DateCodec)
    returns (sb': seq<string>)
    ensures sb' == sb + ExportBlock(account.Data(), password, c, dates)
  {
    ghost var d := account.Data();
    sb' := sb + [AccountHeader];
    ghost var s0 := sb';
    sb' := sb' + ["Username" + "=" + account.username];
    sb' := sb' + ["AccountId" + "=" + account.accountId];
    sb' := sb' + ["GameName" + "=" + account.gameName];
    sb' := sb' + ["TagLine" + "=" + account.tagLine];
    assert sb' == s0 + FieldLines(NameFields(d)) by {
      NameFieldLines(d);
    }
    ghost var s1 := sb';
    var plainPassword := UnprotectText(account.encryptedPassword, c);
    var exportEncryptedPassword := EncryptWithPassword(plainPassword, password, c);
    sb' := sb' + ["EncryptedPassword" + "=" + exportEncryptedPassword];
    sb' := sb' + ["DisplayOrder" + "=" + IntToString(account.displayOrder)];
    sb' := sb' + ["Tag" + "=" + TagName(account.tag)];
    assert sb' == s1 + FieldLines(SettingFields(d, password, c)) by {
      SettingFieldLines(d, password, c);
    }
    ghost var s2 := sb';
    if account.lowPriorityMinutes.Some? {
      sb' := sb' + ["LowPriorityMinutes" + "=" + IntToString(account.lowPriorityMinutes.value)];
    }
    if account.lockoutUntil.Some? {
      sb' := sb' + ["LockoutUntil" + "=" + dates.format(account.lockoutUntil.value)];
    }
    assert sb' == s2 + FieldLines(PenaltyFields(d, dates)) by {
      PenaltyFieldLines(d, dates);
    }
    sb' := sb' + [""];
    AppendExportBlock(sb, d, password, c, dates);
  }

  /** `ExportAccounts`: the lines are appended to the builder one by one; the text it
      holds at the end is returned instead of being written to the file. */
  method ExportAccounts(accounts: seq<Account>, password: string, generated: string, c: Crypto, dates: DateCodec)
    returns (text: string)
    ensures text == ExportText(DataOf(accounts), password, generated, c, dates)
  {
    ghost var ds := DataOf(accounts);
    var sb: seq<string> := [];
    sb := sb + [ExportTitle];
    sb := sb + [GeneratedPrefix + generated];
    sb := sb + [AccountsPrefix + IntToString(|accounts|)];
    sb := sb + [""];
    for i := 0 to |accounts|
      invariant sb == ExportHeader(|ds|, generated) + ExportBlocks(ds[..i], password, c, dates)
    {
      sb := AppendAccountBlock(sb, accounts[i], password, c, dates);
      TakeOneMore(ds, i);
      ExportBlocksAppend(ds[..i], ds[i], password, c, dates);
      AppendAssociative(ExportHeader(|ds|, generated), ExportBlocks(ds[..i], password, c, dates), ExportBlock(ds[i], password, c, dates));
    }
    assert ds[..|accounts|] == ds;
    text := JoinLines(sb);
  }

  // ---------------------------------------------------------------------------
  // The import, as a fold over the lines

  /** What the services `ImportAccounts` uses hands out: the cryptography, the date
      parser, and the Guid text `new Account()` draws for the n-th account created. */
  datatype Env = Env(crypto: Crypto, dates: DateCodec, newGuid: nat -> string)

  /** The accounts already added to the list, and the account being filled in (`null`
      before the first `[Account]` line). */
  datatype ImportState = ImportState(done: seq<AccountData>, current: Option<AccountData>)

  const Start: ImportState := ImportState([], None)

  /** The list once the account being filled in is added too. */
  function Finish(st: ImportState): (r: seq<AccountData>)
    ensures |r| == |st.done| + (if st.current.Some? then 1 else 0)
  {
    if st.current.Some? then st.done + [st.current.value] else st.done
  }

  /** The keys the `switch (key)` of the import knows. */
  const ImportKeys: set<string> := {"Username", "AccountId", "GameName", "TagLine", "EncryptedPassword",
                                    "DisplayOrder", "Tag", "LowPriorityMinutes", "LockoutUntil"}

  /** One case of the `switch (key)`: the known keys set their field, a password that does
      not decrypt fails the whole import, numbers, tags and dates that do not parse are
      ignored, and an unknown key changes nothing. */
  function ApplyField(d: AccountData, key: string, value: string, password: string, env: Env): (r: Result<AccountData>)
    ensures r.Failure? ==> key == "EncryptedPassword" && DecryptWithPassword(value, password, env.crypto).None?
    ensures r.Failure? ==> r.message == ImportFailureMessage
    ensures key !in ImportKeys ==> r == Success(d)
    ensures key in {"DisplayOrder", "LowPriorityMinutes"} && ParseInt32(value).None? ==> r == Success(d)
    ensures key == "Tag" && ParseTag(value).None? ==> r == Success(d)
    ensures key == "LockoutUntil" && env.dates.parse(value).None? ==> r == Success(d)
  {
    match key
    case "Username" => Success(d.(username := value))
    case "AccountId" => Success(d.(accountId := value))
    case "GameName" => Success(d.(gameName := value))
    case "TagLine" => Success(d.(tagLine := value))
    case "EncryptedPassword" =>
      (match DecryptWithPassword(value, password, env.crypto)
       case None => Failure(ImportFailureMessage)
       case Some(plainPassword) => Success(d.(encryptedPassword := ProtectText(plainPassword, env.crypto))))
    case "DisplayOrder" =>
      (match ParseInt32(value)
       case Some(order) => Success(d.(displayOrder := order))
       case None => Success(d))
    case "Tag" =>
      (match ParseTag(value)
       case Some(tag) => Success(d.(tag := tag))
       case None => Success(d))
    case "LowPriorityMinutes" =>
      (match ParseInt32(value)
       case Some(lpq) => Success(d.(lowPriorityMinutes := Some(lpq)))
       case None => Success(d))
    case "LockoutUntil" =>
      (match env.dates.parse(value)
       case Some(lockout) => Success(d.(lockoutUntil := Some(lockout)))
       case None => Success(d))
    case _ => Success(d)
  }

  /** What a line of the file is, once trimmed: blank or a comment, the `[Account]`
      header, a `key=value` assignment split at its first '=' (both parts trimmed), or
      anything else. */
  datatype LineKind = Skipped | Header | Assignment(key: string, value: string) | Other

  function ClassifyLine(line: string): (k: LineKind)
    ensures k.Header? <==> Trim(line) == AccountHeader
    ensures k.Skipped? <==> Trim(line) == "" || StartsWith(Trim(line), "#")
    ensures k.Other? <==> !k.Skipped? && Trim(line) != AccountHeader && !Contains(Trim(line), "=")
  {
    ClassifyTrimmed(Trim(line))
  }

  /** The classification of a line once it is trimmed. */
  function ClassifyTrimmed(trimmed: string): (k: LineKind)
    ensures k.Header? <==> trimmed == AccountHeader
    ensures k.Skipped? <==> trimmed == "" || StartsWith(trimmed, "#")
    ensures k.Other? <==> !k.Skipped? && trimmed != AccountHeader && !Contains(trimmed, "=")
  {
    if trimmed == "" || StartsWith(trimmed, "#") then
      assert AccountHeader[0] == '[';
      Skipped
    else if trimmed == AccountHeader then Header
    else if Contains(trimmed, "=") then
      ContainsChar(trimmed, '=');
      var eq := IndexOfChar(trimmed, '=');
      Assignment(Trim(trimmed[..eq]), Trim(trimmed[eq + 1..]))
    else Other
  }

  /** One iteration of the loop over the lines of the file: an assignment before the
      first header is ignored. */
  function ImportLine(st: ImportState, line: string, password: string, env: Env): Result<ImportState> {
    match ClassifyLine(line)
    case Header => Success(ImportState(Finish(st), Some(DefaultAccount(env.newGuid(|Finish(st)|)))))
    case Assignment(key, value) =>
      if st.current.None? then Success(st)
      else (match ApplyField(st.current.value, key, value, password, env)
            case Failure(e) => Failure(e)
            case Success(d) => Success(st.(current := Some(d))))
    case _ => Success(st)
  }

  /** A line that is neither the header nor holds an '=' changes nothing, wherever it
      stands in the file. */
  lemma {:induction false} LineWithoutAssignmentIsIgnored(st: ImportState, line: string, password: string, env: Env)
    requires Trim(line) != AccountHeader && !Contains(Trim(line), "=")
    ensures ImportLine(st, line, password, env) == Success(st)
  {
    var k := ClassifyLine(line);
    assert k.Skipped? || k.Other?;
  }

  /** An assignment to a key the import does not know changes nothing either. */
  lemma {:induction false} UnknownKeyIsIgnored(st: ImportState, line: string, password: string, env: Env)
    requires ClassifyLine(line).Assignment? && ClassifyLine(line).key !in ImportKeys
    ensures ImportLine(st, line, password, env) == Success(st)
  {
    if st.current.Some? {
      var k := ClassifyLine(line);
      assert ApplyField(st.current.value, k.key, k.value, password, env) == Success(st.current.value);
      assert st.(current := Some(st.current.value)) == st;
    }
  }

  /** The loop over the lines, stopping at the first failure. */
  function ImportFrom(st: ImportState, lines: seq<string>, password: string, env: Env): Result<ImportState>
    decreases lines
  {
    if lines == [] then Success(st)
    else match ImportLine(st, lines[0], password, env)
      case Failure(e) => Failure(e)
      case Success(next) => ImportFrom(next, lines[1..], password, env)
  }

  /** What `ImportAccounts` returns for the lines of the file: the accounts read, or the
      failure it throws. */
  function ImportSpec(lines: seq<string>, password: string, env: Env): Result<seq<AccountData>> {
    match ImportFrom(Start, lines, password, env)
    case Failure(e) => Failure(e)
    case Success(st) => Success(Finish(st))
  }

  lemma {:induction false} ImportFromConcat(st: ImportState, a: seq<string>, b: seq<string>, password: string, env: Env)
    ensures ImportFrom(st, a + b, password, env) ==
      match ImportFrom(st, a, password, env)
      case Failure(e) => Failure(e)
      case Success(mid) => ImportFrom(mid, b, password, env)
    decreases a
  {
    if a == [] {
      assert a + b == b;
    } else {
      assert (a + b)[0] == a[0];
      assert (a + b)[1..] == a[1..] + b;
      match ImportLine(st, a[0], password, env)
      case Failure(e) =>
      case Success(next) => ImportFromConcat(next, a[1..], b, password, env);
    }
  }

  /** The number of `[Account]` lines (after trimming). */
  function CountAccountHeaders(lines: seq<string>): nat {
    if lines == [] then 0
    else (if Trim(lines[0]) == AccountHeader then 1 else 0) + CountAccountHeaders(lines[1..])
  }

  /** Every `[Account]` line starts exactly one account, and nothing else does: a
      successful import returns one account per such line. */
  lemma {:induction false} ImportCountsAccountHeaders(st: ImportState, lines: seq<string>, password: string, env: Env)
    ensures ImportFrom(st, lines, password, env).Success? ==>
      |Finish(ImportFrom(st, lines, password, env).value)| == |Finish(st)| + CountAccountHeaders(lines)
    decreases lines
  {
    if lines != [] {
      match ImportLine(st, lines[0], password, env)
      case Failure(e) =>
      case Success(next) =>
        ImportCountsAccountHeaders(next, lines[1..], password, env);
        assert |Finish(next)| == |Finish(st)| + (if Trim(lines[0]) == AccountHeader then 1 else 0);
    }
  }

  /** An import fails only on a password line that does not decrypt, with that message. */
  lemma {:induction false} ImportFailsOnlyOnPassword(st: ImportState, lines: seq<string>, password: string, env: Env)
    ensures ImportFrom(st, lines, password, env).Failure? ==>
      ImportFrom(st, lines, password, env).message == ImportFailureMessage
    decreases lines
  {
    if lines != [] {
      match ImportLine(st, lines[0], password, env)
      case Failure(e) =>
      case Success(next) => ImportFailsOnlyOnPassword(next, lines[1..], password, env);
    }
  }

  /** Lines before the first `[Account]` line are ignored, whatever keys they hold. */
  lemma {:induction false} ImportIgnoresLinesBeforeFirstAccount(lines: seq<string>, password: string, env: Env)
    requires forall i | 0 <= i < |lines| :: Trim(lines[i]) != AccountHeader
    ensures ImportFrom(Start, lines, password, env) == Success(Start)
  {
    if lines != [] {
      assert ImportLine(Start, lines[0], password, env) == Success(Start);
      ImportIgnoresLinesBeforeFirstAccount(lines[1..], password, env);
    }
  }

  // ---------------------------------------------------------------------------
  // Round trip

  /** Text that `Trim` leaves alone and that holds no line break. */
  predicate CleanValue(s: string) {
    SingleLine(s) && Trim(s) == s
  }

  /** A key the import splits off intact: no blank at either end, no '=', and not
      starting like a comment or an account header. */
  predicate GoodKey(k: string) {
    && k != "" && !IsWhiteSpace(k[0]) && !IsWhiteSpace(k[|k| - 1])
    && k[0] != '#' && k[0] != '['
    && forall i | 0 <= i < |k| :: k[i] != '=' && !IsLineBreak(k[i])
  }

  predicate GoodField(f: Field) {
    GoodKey(f.key) && CleanValue(f.value)
  }

  /** The fields applied in order, stopping at the first failure. */
  function ApplyFields(d: AccountData, fs: seq<Field>, password: string, env: Env): Result<AccountData>
    decreases fs
  {
    if fs == [] then Success(d)
    else match ApplyField(d, fs[0].key, fs[0].value, password, env)
      case Failure(e) => Failure(e)
      case Success(d') => ApplyFields(d', fs[1..], password, env)
  }

  /** A well-formed field line is read back as its key and value. */
  lemma {:induction false} ClassifyFieldLine(f: Field)
    requires GoodField(f)
    ensures ClassifyLine(FieldLine(f)) == Assignment(f.key, f.value)
  {
    var line := FieldLine(f);
    TrimOfAssignment(f.key, f.value);
    assert line[0] == f.key[0];
    assert line[|f.key|] == '=';
    FirstEqualsSign(f, line);
    ClassifyAssignmentLine(line);
    FieldLineParts(f);
    TrimOfTrimmed(f.key);
  }

  /** The key and the value are the text before and after the '=' the key is followed by. */
  lemma {:induction false} FieldLineParts(f: Field)
    ensures FieldLine(f)[..|f.key|] == f.key
    ensures FieldLine(f)[|f.key| + 1..] == f.value
  {
    var line := FieldLine(f);
    assert line == (f.key + "=") + f.value;
    assert (f.key + "=")[..|f.key|] == f.key;
  }

  lemma {:induction false} FirstEqualsSign(f: Field, line: string)
    requires GoodKey(f.key) && line == FieldLine(f)
    ensures IndexOfChar(line, '=') == |f.key|
  {
    assert line[|f.key|] == '=';
    assert forall j | 0 <= j < |f.key| :: line[j] == f.key[j];
  }

  /** A trimmed line that is neither blank, a comment nor a header, and holds an '=',
      is read as the trimmed text on either side of its first '='. */
  lemma {:induction false} ClassifyAssignmentLine(line: string)
    requires Trim(line) == line && line != [] && line[0] != '#' && line[0] != '['
    requires IndexOfChar(line, '=') < |line|
    ensures var eq := IndexOfChar(line, '=');
      ClassifyLine(line) == Assignment(Trim(line[..eq]), Trim(line[eq + 1..]))
  {
    ClassifyTrimmedAssignment(line);
  }

  lemma {:induction false} ClassifyTrimmedAssignment(line: string)
    requires line != [] && line[0] != '#' && line[0] != '['
    requires IndexOfChar(line, '=') < |line|
    ensures var eq := IndexOfChar(line, '=');
      ClassifyTrimmed(line) == Assignment(Trim(line[..eq]), Trim(line[eq + 1..]))
  {
    NotCommentLine(line);
    NotHeaderLine(line);
    HoldsEqualsSign(line);
  }

  lemma {:induction false} NotCommentLine(line: string)
    requires line != [] && line[0] != '#'
    ensures !StartsWith(line, "#")
  {
  }

  lemma {:induction false} NotHeaderLine(line: string)
    requires line != [] && line[0] != '['
    ensures line != AccountHeader
  {
    assert AccountHeader[0] == '[';
  }

  lemma {:induction false} HoldsEqualsSign(line: string)
    requires IndexOfChar(line, '=') < |line|
    ensures Contains(line, "=")
  {
    ContainsChar(line, '=');
    assert "=" == ['='];
  }

  lemma {:induction false} ImportFieldLine(st: ImportState, f: Field, password: string, env: Env)
    requires st.current.Some? && GoodField(f)
    ensures ImportLine(st, FieldLine(f), password, env) ==
      match ApplyField(st.current.value, f.key, f.value, password, env)
      case Failure(e) => Failure(e)
      case Success(d) => Success(st.(current := Some(d)))
  {
    ClassifyFieldLine(f);
  }

  lemma {:induction false} ImportFieldLines(st: ImportState, fs: seq<Field>, password: string, env: Env)
    requires st.current.Some?
    requires AllGood(fs)
    ensures ImportFrom(st, FieldLines(fs), password, env) ==
      match ApplyFields(st.current.value, fs, password, env)
      case Failure(e) => Failure(e)
      case Success(d) => Success(st.(current := Some(d)))
    decreases fs
  {
    if fs != [] {
      var lines := FieldLines(fs);
      assert lines[0] == FieldLine(fs[0]);
      assert lines[1..] == FieldLines(fs[1..]);
      ImportFieldLine(st, fs[0], password, env);
      match ApplyField(st.current.value, fs[0].key, fs[0].value, password, env)
      case Failure(e) =>
      case Success(d) => ImportFieldLines(st.(current := Some(d)), fs[1..], password, env);
    }
  }

  lemma {:induction false} ApplyFieldsConcat(d: AccountData, a: seq<Field>, b: seq<Field>, password: string, env: Env)
    ensures ApplyFields(d, a + b, password, env) ==
      match ApplyFields(d, a, password, env)
      case Failure(e) => Failure(e)
      case Success(mid) => ApplyFields(mid, b, password, env)
    decreases a
  {
    if a == [] {
      assert a + b == b;
    } else {
      assert (a + b)[0] == a[0];
      assert (a + b)[1..] == a[1..] + b;
      match ApplyField(d, a[0].key, a[0].value, password, env)
      case Failure(e) =>
      case Success(d') => ApplyFieldsConcat(d', a[1..], b, password, env);
    }
  }

  /** What the import makes of an exported account: a new account (new Guid, fixed-minutes
      fields at their defaults) with the exported fields, and the password protected anew. */
  function Reimported(d: AccountData, n: nat, password: string, env: Env): AccountData {
    DefaultAccount(env.newGuid(n)).(
      username := d.username, accountId := d.accountId, gameName := d.gameName, tagLine := d.tagLine,
      encryptedPassword := ProtectText(UnprotectText(d.encryptedPassword, env.crypto), env.crypto),
      displayOrder := d.displayOrder, tag := d.tag,
      lowPriorityMinutes := d.lowPriorityMinutes, lockoutUntil := d.lockoutUntil)
  }

  function ReimportedAll(ds: seq<AccountData>, n: nat, password: string, env: Env): (r: seq<AccountData>)
    ensures |r| == |ds|
  {
    if ds == [] then [] else [Reimported(ds[0], n, password, env)] + ReimportedAll(ds[1..], n + 1, password, env)
  }

  lemma {:induction false} TakeOneMore<T>(s: seq<T>, i: nat)
    requires i < |s|
    ensures s[..i + 1] == s[..i] + [s[i]]
  {
  }

  lemma {:induction false} AppendAssociative<T>(a: seq<T>, b: seq<T>, c: seq<T>)
    ensures (a + b) + c == a + (b + c)
  {
  }

  lemma {:induction false} ReimportedAllCons(ds: seq<AccountData>, n: nat, password: string, env: Env)
    requires ds != []
    ensures ReimportedAll(ds, n, password, env) == [Reimported(ds[0], n, password, env)] + ReimportedAll(ds[1..], n + 1, password, env)
  {
  }

  /** What an account must satisfy for its export to read back: text fields on one line
      with no blanks around them, numbers in the Int32 range, a lockout end whose round-trip
      text parses back, and a password that AES encrypts to one clean line and back. */
  predicate Exportable(d: AccountData, password: string, env: Env) {
    && CleanValue(d.username) && CleanValue(d.accountId) && CleanValue(d.gameName) && CleanValue(d.tagLine)
    && AesRoundTrip(env.crypto, UnprotectText(d.encryptedPassword, env.crypto), password)
    && CleanValue(ExportedPassword(d, password, env.crypto))
    && Int32Min <= d.displayOrder <= Int32Max
    && (d.lowPriorityMinutes.Some? ==> Int32Min <= d.lowPriorityMinutes.value <= Int32Max)
    && (d.lockoutUntil.Some? ==>
          CleanValue(env.dates.format(d.lockoutUntil.value))
          && env.dates.parse(env.dates.format(d.lockoutUntil.value)) == Some(d.lockoutUntil.value))
  }

  /** A one-line text with no blank at either end is read back as it was written. */
  lemma {:induction false} LiteralIsClean(s: string)
    requires s != [] && !IsWhiteSpace(s[0]) && !IsWhiteSpace(s[|s| - 1]) && '\r' !in s && '\n' !in s
    ensures CleanValue(s)
  {
    TrimOfTrimmed(s);
  }

  lemma {:induction false} TagNameIsClean(t: AccountTag)
    ensures CleanValue(TagName(t))
  {
    match t
    case NoTag => LiteralIsClean("None");
    case YellowStar => LiteralIsClean("YellowStar");
    case RedCircle => LiteralIsClean("RedCircle");
    case GreenCircle => LiteralIsClean("GreenCircle");
  }

  /** A key spelled with ASCII letters only. */
  lemma {:induction false} KeyIsGood(k: string)
    requires k != "" && forall i | 0 <= i < |k| :: 'A' <= k[i] <= 'Z' || 'a' <= k[i] <= 'z'
    ensures GoodKey(k)
  {
  }

  /** Every key the import knows, which are the keys the export writes, is read back
      intact. */
  lemma {:induction false} ImportKeysAreGood()
    ensures forall k | k in ImportKeys :: GoodKey(k)
  {
    KeyIsGood("Username");
    KeyIsGood("AccountId");
    KeyIsGood("GameName");
    KeyIsGood("TagLine");
    KeyIsGood("EncryptedPassword");
    KeyIsGood("DisplayOrder");
    KeyIsGood("Tag");
    KeyIsGood("LowPriorityMinutes");
    KeyIsGood("LockoutUntil");
  }

  predicate AllGood(fs: seq<Field>) {
    forall i | 0 <= i < |fs| :: GoodField(fs[i])
  }

  lemma {:induction false} AllGoodConcat(a: seq<Field>, b: seq<Field>)
    requires AllGood(a) && AllGood(b)
    ensures AllGood(a + b)
  {
    forall i | 0 <= i < |a + b| ensures GoodField((a + b)[i]) {
      if i >= |a| {
        assert (a + b)[i] == b[i - |a|];
      }
    }
  }

  lemma {:induction false} NameFieldsAreGood(d: AccountData)
    requires CleanValue(d.username) && CleanValue(d.accountId) && CleanValue(d.gameName) && CleanValue(d.tagLine)
    ensures AllGood(NameFields(d))
  {
    KeyIsGood("Username");
    KeyIsGood("AccountId");
    KeyIsGood("GameName");
    KeyIsGood("TagLine");
    AllGoodOfFour(Field("Username", d.username), Field("AccountId", d.accountId),
                  Field("GameName", d.gameName), Field("TagLine", d.tagLine));
  }

  lemma {:induction false} AllGoodOfFour(a: Field, b: Field, c: Field, d: Field)
    requires GoodField(a) && GoodField(b) && GoodField(c) && GoodField(d)
    ensures AllGood([a, b, c, d])
  {
    AllOfFour(GoodField, a, b, c, d);
  }

  /** Stated for any predicate, so that the solver does not look inside it. */
  lemma {:induction false} AllOfFour<X>(P: X -> bool, a: X, b: X, c: X, d: X)
    requires P(a) && P(b) && P(c) && P(d)
    ensures forall i | 0 <= i < |[a, b, c, d]| :: P([a, b, c, d][i])
  {
  }

  lemma {:induction false} SettingFieldsAreGood(d: AccountData, password: string, c: Crypto)
    requires CleanValue(ExportedPassword(d, password, c))
    ensures AllGood(SettingFields(d, password, c))
  {
    KeyIsGood("EncryptedPassword");
    KeyIsGood("DisplayOrder");
    KeyIsGood("Tag");
    IntToStringIsClean(d.displayOrder);
    TagNameIsClean(d.tag);
    AllGoodOfThree(Field("EncryptedPassword", ExportedPassword(d, password, c)),
                   Field("DisplayOrder", IntToString(d.displayOrder)), Field("Tag", TagName(d.tag)));
  }

  lemma {:induction false} AllGoodOfThree(a: Field, b: Field, c: Field)
    requires GoodField(a) && GoodField(b) && GoodField(c)
    ensures AllGood([a, b, c])
  {
    AllOfThree(GoodField, a, b, c);
  }

  lemma {:induction false} AllOfThree<X>(P: X -> bool, a: X, b: X, c: X)
    requires P(a) && P(b) && P(c)
    ensures forall i | 0 <= i < |[a, b, c]| :: P([a, b, c][i])
  {
  }

  lemma {:induction false} PenaltyFieldsAreGood(d: AccountData, dates: DateCodec)
    requires d.lockoutUntil.Some? ==> CleanValue(dates.format(d.lockoutUntil.value))
    ensures AllGood(PenaltyFields(d, dates))
  {
    KeyIsGood("LowPriorityMinutes");
    KeyIsGood("LockoutUntil");
    if d.lowPriorityMinutes.Some? {
      IntToStringIsClean(d.lowPriorityMinutes.value);
    }
  }

  lemma {:induction false} ExportFieldsAreGood(d: AccountData, password: string, env: Env)
    requires Exportable(d, password, env)
    ensures AllGood(ExportFields(d, password, env.crypto, env.dates))
  {
    NameFieldsAreGood(d);
    SettingFieldsAreGood(d, password, env.crypto);
    PenaltyFieldsAreGood(d, env.dates);
    AllGoodConcat(NameFields(d), SettingFields(d, password, env.crypto));
    AllGoodConcat(NameFields(d) + SettingFields(d, password, env.crypto), PenaltyFields(d, env.dates));
  }

  lemma {:induction false} ApplyNameFields(d0: AccountData, d: AccountData, password: string, env: Env)
    ensures ApplyFields(d0, NameFields(d), password, env)
      == Success(d0.(username := d.username, accountId := d.accountId, gameName := d.gameName, tagLine := d.tagLine))
  {
    var fs := NameFields(d);
    var d1 := d0.(username := d.username);
    var d2 := d1.(accountId := d.accountId);
    var d3 := d2.(gameName := d.gameName);
    var d4 := d3.(tagLine := d.tagLine);
    assert ApplyFields(d4, fs[4..], password, env) == Success(d4);
    assert ApplyFields(d3, fs[3..], password, env) == Success(d4);
    assert ApplyFields(d2, fs[2..], password, env) == Success(d4);
    assert ApplyFields(d1, fs[1..], password, env) == Success(d4);
  }

  lemma {:induction false} ApplySettingFields(d0: AccountData, d: AccountData, password: string, env: Env)
    requires AesRoundTrip(env.crypto, UnprotectText(d.encryptedPassword, env.crypto), password)
    requires Int32Min <= d.displayOrder <= Int32Max
    ensures ApplyFields(d0, SettingFields(d, password, env.crypto), password, env)
      == Success(d0.(encryptedPassword := ProtectText(UnprotectText(d.encryptedPassword, env.crypto), env.crypto),
                     displayOrder := d.displayOrder, tag := d.tag))
  {
    var c := env.crypto;
    var fs := SettingFields(d, password, c);
    PasswordRoundTrip(UnprotectText(d.encryptedPassword, c), password, c);
    ParseIntegerOfIntToString(d.displayOrder, Int32Min, Int32Max);
    ParseTagName(d.tag);
    var d1 := d0.(encryptedPassword := ProtectText(UnprotectText(d.encryptedPassword, c), c));
    var d2 := d1.(displayOrder := d.displayOrder);
    var d3 := d2.(tag := d.tag);
    assert ApplyFields(d3, fs[3..], password, env) == Success(d3);
    assert ApplyFields(d2, fs[2..], password, env) == Success(d3);
    assert ApplyFields(d1, fs[1..], password, env) == Success(d3);
  }

  lemma {:induction false} ApplyPenaltyFields(d0: AccountData, d: AccountData, password: string, env: Env)
    requires d.lowPriorityMinutes.Some? ==> Int32Min <= d.lowPriorityMinutes.value <= Int32Max
    requires d.lockoutUntil.Some? ==> env.dates.parse(env.dates.format(d.lockoutUntil.value)) == Some(d.lockoutUntil.value)
    requires d0.lowPriorityMinutes.None? && d0.lockoutUntil.None?
    ensures ApplyFields(d0, PenaltyFields(d, env.dates), password, env)
      == Success(d0.(lowPriorityMinutes := d.lowPriorityMinutes, lockoutUntil := d.lockoutUntil))
  {
    var lpq := if d.lowPriorityMinutes.Some? then [Field("LowPriorityMinutes", IntToString(d.lowPriorityMinutes.value))] else [];
    var lockout := if d.lockoutUntil.Some? then [Field("LockoutUntil", env.dates.format(d.lockoutUntil.value))] else [];
    var d1 := d0.(lowPriorityMinutes := d.lowPriorityMinutes);
    ApplyFieldsConcat(d0, lpq, lockout, password, env);
    if d.lowPriorityMinutes.Some? {
      ParseIntegerOfIntToString(d.lowPriorityMinutes.value, Int32Min, Int32Max);
      assert ApplyFields(d0, lpq, password, env) == Success(d1);
    } else {
      assert ApplyFields(d0, lpq, password, env) == Success(d1);
    }
    if d.lockoutUntil.Some? {
      assert ApplyFields(d1, lockout, password, env) == Success(d1.(lockoutUntil := d.lockoutUntil));
    } else {
      assert ApplyFields(d1, lockout, password, env) == Success(d1.(lockoutUntil := d.lockoutUntil));
    }
  }

  /** The fields of an exported account, applied to a new account, give it the exported
      values. */
  lemma {:induction false} ApplyExportFields(d: AccountData, n: nat, password: string, env: Env)
    requires Exportable(d, password, env)
    ensures ApplyFields(DefaultAccount(env.newGuid(n)), ExportFields(d, password, env.crypto, env.dates), password, env)
      == Success(Reimported(d, n, password, env))
  {
    var c, dates := env.crypto, env.dates;
    var d0 := DefaultAccount(env.newGuid(n));
    var d1 := d0.(username := d.username, accountId := d.accountId, gameName := d.gameName, tagLine := d.tagLine);
    var d2 := d1.(encryptedPassword := ProtectText(UnprotectText(d.encryptedPassword, c), c),
                  displayOrder := d.displayOrder, tag := d.tag);
    ApplyFieldsConcat(d0, NameFields(d) + SettingFields(d, password, c), PenaltyFields(d, dates), password, env);
    ApplyFieldsConcat(d0, NameFields(d), SettingFields(d, password, c), password, env);
    ApplyNameFields(d0, d, password, env);
    ApplySettingFields(d1, d, password, env);
    ApplyPenaltyFields(d2, d, password, env);
  }

  /** An `[Account]` line closes the account being filled in and opens a new one. */
  lemma {:induction false} ImportHeaderLine(st: ImportState, password: string, env: Env)
    ensures ImportFrom(st, [AccountHeader], password, env)
      == Success(ImportState(Finish(st), Some(DefaultAccount(env.newGuid(|Finish(st)|)))))
  {
    HeaderLineIsHeader();
    var next := ImportState(Finish(st), Some(DefaultAccount(env.newGuid(|Finish(st)|))));
    assert ImportLine(st, AccountHeader, password, env) == Success(next);
    assert [AccountHeader][1..] == [];
  }

  lemma {:induction false} HeaderLineIsHeader()
    ensures ClassifyLine(AccountHeader) == Header
  {
    TrimOfTrimmed(AccountHeader);
  }

  lemma {:induction false} ImportBlankLine(st: ImportState, password: string, env: Env)
    ensures ImportFrom(st, [""], password, env) == Success(st)
  {
    assert ClassifyLine("") == Skipped;
  }

  /** A header, well-formed field lines and a blank line, read back after any import
      state, close the account being filled in and open a new one with the fields applied. */
  lemma {:induction false} ImportFieldBlock(st: ImportState, fs: seq<Field>, password: string, env: Env)
    requires AllGood(fs)
    requires ApplyFields(DefaultAccount(env.newGuid(|Finish(st)|)), fs, password, env).Success?
    ensures ImportFrom(st, [AccountHeader] + FieldLines(fs) + [""], password, env)
      == Success(ImportState(Finish(st), Some(ApplyFields(DefaultAccount(env.newGuid(|Finish(st)|)), fs, password, env).value)))
  {
    var st1 := ImportState(Finish(st), Some(DefaultAccount(env.newGuid(|Finish(st)|))));
    var st2 := st1.(current := Some(ApplyFields(DefaultAccount(env.newGuid(|Finish(st)|)), fs, password, env).value));
    ImportHeaderLine(st, password, env);
    ImportFieldLines(st1, fs, password, env);
    ImportBlankLine(st2, password, env);
    ImportFromConcat(st, [AccountHeader], FieldLines(fs) + [""], password, env);
    ImportFromConcat(st1, FieldLines(fs), [""], password, env);
    AppendAssociative([AccountHeader], FieldLines(fs), [""]);
  }

  /** An exported account block, read back after any import state, adds the account being
      filled in to the list and starts a new one holding the exported fields. */
  lemma {:induction false} ImportBlock(st: ImportState, d: AccountData, password: string, env: Env)
    requires Exportable(d, password, env)
    ensures ImportFrom(st, ExportBlock(d, password, env.crypto, env.dates), password, env)
      == Success(ImportState(Finish(st), Some(Reimported(d, |Finish(st)|, password, env))))
  {
    ExportFieldsAreGood(d, password, env);
    ApplyExportFields(d, |Finish(st)|, password, env);
    ImportFieldBlock(st, ExportFields(d, password, env.crypto, env.dates), password, env);
  }

  lemma {:induction false} ImportBlocks(st: ImportState, ds: seq<AccountData>, password: string, env: Env)
    requires forall i | 0 <= i < |ds| :: Exportable(ds[i], password, env)
    ensures ImportFrom(st, ExportBlocks(ds, password, env.crypto, env.dates), password, env).Success?
    ensures Finish(ImportFrom(st, ExportBlocks(ds, password, env.crypto, env.dates), password, env).value)
      == Finish(st) + ReimportedAll(ds, |Finish(st)|, password, env)
    decreases ds
  {
    if ds == [] {
      assert Finish(st) + [] == Finish(st);
    } else {
      var first := Reimported(ds[0], |Finish(st)|, password, env);
      var st1 := ImportState(Finish(st), Some(first));
      var rest := ds[1..];
      ImportFirstBlock(st, ds, password, env);
      ExportableTail(ds, password, env);
      ImportBlocks(st1, rest, password, env);
      ReimportedAllStep(Finish(st), ds, password, env);
    }
  }

  /** The first block of a list read back after any import state. */
  lemma {:induction false} ImportFirstBlock(st: ImportState, ds: seq<AccountData>, password: string, env: Env)
    requires ds != [] && Exportable(ds[0], password, env)
    ensures ImportFrom(st, ExportBlocks(ds, password, env.crypto, env.dates), password, env)
      == ImportFrom(ImportState(Finish(st), Some(Reimported(ds[0], |Finish(st)|, password, env))),
                    ExportBlocks(ds[1..], password, env.crypto, env.dates), password, env)
  {
    ImportBlock(st, ds[0], password, env);
    ImportFromConcat(st, ExportBlock(ds[0], password, env.crypto, env.dates),
                     ExportBlocks(ds[1..], password, env.crypto, env.dates), password, env);
  }

  lemma {:induction false} ExportableTail(ds: seq<AccountData>, password: string, env: Env)
    requires ds != [] && forall i | 0 <= i < |ds| :: Exportable(ds[i], password, env)
    ensures forall i | 0 <= i < |ds[1..]| :: Exportable(ds[1..][i], password, env)
  {
    forall i | 0 <= i < |ds[1..]| ensures Exportable(ds[1..][i], password, env) {
      assert ds[1..][i] == ds[i + 1];
    }
  }

  lemma {:induction false} ReimportedAllStep(done: seq<AccountData>, ds: seq<AccountData>, password: string, env: Env)
    requires ds != []
    ensures (done + [Reimported(ds[0], |done|, password, env)]) + ReimportedAll(ds[1..], |done| + 1, password, env)
      == done + ReimportedAll(ds, |done|, password, env)
  {
    var first := Reimported(ds[0], |done|, password, env);
    AppendAssociative(done, [first], ReimportedAll(ds[1..], |done| + 1, password, env));
    ReimportedAllCons(ds, |done|, password, env);
  }

  lemma {:induction false} SingleLineOf(s: string)
    requires '\r' !in s && '\n' !in s
    ensures SingleLine(s)
  {
  }

  lemma {:induction false} FieldLineSingle(f: Field)
    requires GoodField(f)
    ensures SingleLine(FieldLine(f))
  {
    var line := FieldLine(f);
    forall j | 0 <= j < |line| ensures !IsLineBreak(line[j]) {
      if j < |f.key| {
        assert line[j] == f.key[j];
      } else if j > |f.key| {
        assert line[j] == f.value[j - |f.key| - 1];
      }
    }
  }

  predicate AllSingleLines(ls: seq<string>) {
    forall i | 0 <= i < |ls| :: SingleLine(ls[i])
  }

  lemma {:induction false} AllSingleLinesConcat(a: seq<string>, b: seq<string>)
    requires AllSingleLines(a) && AllSingleLines(b)
    ensures AllSingleLines(a + b)
  {
    forall i | 0 <= i < |a + b| ensures SingleLine((a + b)[i]) {
      if i >= |a| {
        assert (a + b)[i] == b[i - |a|];
      }
    }
  }

  lemma {:induction false} FieldLinesSingle(fs: seq<Field>)
    requires AllGood(fs)
    ensures AllSingleLines(FieldLines(fs))
  {
    forall i | 0 <= i < |fs| ensures SingleLine(FieldLines(fs)[i]) {
      FieldLineSingle(fs[i]);
    }
  }

  lemma {:induction false} HeaderLineSingle()
    ensures AllSingleLines([AccountHeader])
  {
    SingleLineOf(AccountHeader);
  }

  lemma {:induction false} BlockLinesSingle(fs: seq<Field>)
    requires AllGood(fs)
    ensures AllSingleLines([AccountHeader] + FieldLines(fs) + [""])
  {
    FieldLinesSingle(fs);
    HeaderLineSingle();
    AllSingleLinesConcat([AccountHeader], FieldLines(fs));
    AllSingleLinesConcat([AccountHeader] + FieldLines(fs), [""]);
  }

  lemma {:induction false} ExportBlockLinesSingle(d: AccountData, password: string, env: Env)
    requires Exportable(d, password, env)
    ensures AllSingleLines(ExportBlock(d, password, env.crypto, env.dates))
  {
    ExportFieldsAreGood(d, password, env);
    BlockLinesSingle(ExportFields(d, password, env.crypto, env.dates));
  }

  lemma {:induction false} ExportBlocksLinesSingle(ds: seq<AccountData>, password: string, env: Env)
    requires forall i | 0 <= i < |ds| :: Exportable(ds[i], password, env)
    ensures AllSingleLines(ExportBlocks(ds, password, env.crypto, env.dates))
    decreases ds
  {
    if ds != [] {
      var rest := ds[1..];
      assert forall i | 0 <= i < |rest| :: Exportable(rest[i], password, env) by {
        forall i | 0 <= i < |rest| ensures Exportable(rest[i], password, env) {
          assert rest[i] == ds[i + 1];
        }
      }
      ExportBlockLinesSingle(ds[0], password, env);
      ExportBlocksLinesSingle(rest, password, env);
      AllSingleLinesConcat(ExportBlock(ds[0], password, env.crypto, env.dates), ExportBlocks(rest, password, env.crypto, env.dates));
    }
  }

  /** A line whose first character is '#' is a comment. */
  lemma {:induction false} CommentLineSkipped(line: string)
    requires line != [] && line[0] == '#'
    ensures ClassifyLine(line) == Skipped
  {
    TrimKeepsFirst(line);
    assert Trim(line)[..1] == "#";
  }

  lemma {:induction false} ImportSkipped(st: ImportState, lines: seq<string>, password: string, env: Env)
    requires forall i | 0 <= i < |lines| :: ClassifyLine(lines[i]) == Skipped
    ensures ImportFrom(st, lines, password, env) == Success(st)
    decreases lines
  {
    if lines != [] {
      ImportSkipped(st, lines[1..], password, env);
    }
  }

  /** The header lines are comments and a blank line, which the import skips. */
  lemma {:induction false} ImportSkipsHeader(count: nat, generated: string, password: string, env: Env)
    ensures ImportFrom(Start, ExportHeader(count, generated), password, env) == Success(Start)
  {
    var h := ExportHeader(count, generated);
    forall i | 0 <= i < |h| ensures ClassifyLine(h[i]) == Skipped {
      if i == 0 {
        CommentLineSkipped(h[0]);
      } else if i == 1 {
        CommentLineSkipped(h[1]);
      } else if i == 2 {
        CommentLineSkipped(h[2]);
      } else {
        assert h[i] == "";
      }
    }
    ImportSkipped(Start, h, password, env);
  }

  lemma {:induction false} ConcatSingle(a: string, b: string)
    requires SingleLine(a) && SingleLine(b)
    ensures SingleLine(a + b)
  {
    forall j | 0 <= j < |a + b| ensures !IsLineBreak((a + b)[j]) {
      if j >= |a| {
        assert (a + b)[j] == b[j - |a|];
      }
    }
  }

  lemma {:induction false} HeaderTextsSingle()
    ensures SingleLine(ExportTitle) && SingleLine(GeneratedPrefix) && SingleLine(AccountsPrefix)
  {
    SingleLineOf(ExportTitle);
    SingleLineOf(GeneratedPrefix);
    SingleLineOf(AccountsPrefix);
  }

  lemma {:induction false} HeaderLinesSingle(count: nat, generated: string)
    requires SingleLine(generated)
    ensures AllSingleLines(ExportHeader(count, generated))
  {
    HeaderTextsSingle();
    IntToStringIsClean(count);
    ConcatSingle(GeneratedPrefix, generated);
    ConcatSingle(AccountsPrefix, IntToString(count));
  }

  /** Exporting a list of accounts and importing the file with the same password gives the
      same accounts back, field for field, each as a new account with a new Guid and its
      password protected anew for the current user. */
  lemma {:induction false} ExportImportRoundTrip(ds: seq<AccountData>, password: string, generated: string, env: Env)
    requires SingleLine(generated)
    requires forall i | 0 <= i < |ds| :: Exportable(ds[i], password, env)
    ensures ImportSpec(Lines(ExportText(ds, password, generated, env.crypto, env.dates)), password, env)
      == Success(ReimportedAll(ds, 0, password, env))
  {
    var header := ExportHeader(|ds|, generated);
    var blocks := ExportBlocks(ds, password, env.crypto, env.dates);
    assert Lines(JoinLines(header + blocks)) == header + blocks by {
      HeaderLinesSingle(|ds|, generated);
      ExportBlocksLinesSingle(ds, password, env);
      AllSingleLinesConcat(header, blocks);
      LinesOfJoinLines(header + blocks);
    }
    ImportFromConcat(Start, header, blocks, password, env);
    ImportSkipsHeader(|ds|, generated, password, env);
    ImportBlocks(Start, ds, password, env);
    assert Finish(Start) + ReimportedAll(ds, 0, password, env) == ReimportedAll(ds, 0, password, env);
  }

  /** The password survives the round trip: when protecting its plain text for the
      current user succeeds and unprotects back, the reimported account's password
      unprotects to the original's. */
  lemma {:induction false} ReimportedPasswordUnprotects(d: AccountData, n: nat, password: string, env: Env)
    requires var plain := UnprotectText(d.encryptedPassword, env.crypto);
      plain == "" || (env.crypto.protect(plain).Some? && env.crypto.protect(plain).value != ""
                      && env.crypto.unprotect(env.crypto.protect(plain).value) == Some(plain))
    ensures UnprotectText(Reimported(d, n, password, env).encryptedPassword, env.crypto)
      == UnprotectText(d.encryptedPassword, env.crypto)
  {
  }

  // ---------------------------------------------------------------------------
  // The import, on accounts in place

  /** The `switch (key)` applied to the account being filled in. */
  method SetField(account: Account, key: string, value: string, password: string, env: Env) returns (ok: bool)
    modifies account
    ensures ok <==> ApplyField(old(account.Data()), key, value, password, env).Success?
    ensures ok ==> account.Data() == ApplyField(old(account.Data()), key, value, password, env).value
  {
    ok := true;
    match key
    case "Username" => account.username := value;
    case "AccountId" => account.accountId := value;
    case "GameName" => account.gameName := value;
    case "TagLine" => account.tagLine := value;
    case "EncryptedPassword" =>
      var plainPassword := DecryptWithPassword(value, password, env.crypto);
      if plainPassword.None? {
        return false;
      }
      account.encryptedPassword := ProtectText(plainPassword.value, env.crypto);
    case "DisplayOrder" =>
      var order := ParseInt32(value);
      if order.Some? {
        account.displayOrder := order.value;
      }
    case "Tag" =>
      var tag := ParseTag(value);
      if tag.Some? {
        account.tag := tag.value;
      }
    case "LowPriorityMinutes" =>
      var lpq := ParseInt32(value);
      if lpq.Some? {
        account.lowPriorityMinutes := lpq;
      }
    case "LockoutUntil" =>
      var lockout := env.dates.parse(value);
      if lockout.Some? {
        account.lockoutUntil := lockout;
      }
    case _ =>
  }

  /** The accounts imported so far and the one being filled in hold what the import state
      says, and none is held twice. */
  ghost predicate Mirrors(accounts: seq<Account>, current: Account?, st: ImportState)
    reads accounts, current
  {
    && |accounts| == |st.done|
    && (forall j | 0 <= j < |accounts| :: accounts[j].Data() == st.done[j])
    && (current == null <==> st.current.None?)
    && (current != null ==> current.Data() == st.current.value && current !in accounts)
    && (forall j, k | 0 <= j < k < |accounts| :: accounts[j] != accounts[k])
  }

  /** The `[Account]` case: the account being filled in joins the list and a new one
      is created. */
  method StartAccount(accounts: seq<Account>, current: Account?, env: Env, ghost st: ImportState)
    returns (accounts': seq<Account>, current': Account, ghost st': ImportState)
    requires Mirrors(accounts, current, st)
    ensures st' == ImportState(Finish(st), Some(DefaultAccount(env.newGuid(|Finish(st)|))))
    ensures Mirrors(accounts', current', st')
    ensures forall a | a in accounts' :: a in accounts || a == current
    ensures fresh(current')
  {
    accounts' := accounts;
    if current != null {
      accounts' := accounts + [current];
    }
    current' := new Account(env.newGuid(|accounts'|));
    st' := ImportState(Finish(st), Some(DefaultAccount(env.newGuid(|Finish(st)|))));
  }

  /** The `key=value` case, once an account is being filled in. */
  method AssignField(accounts: seq<Account>, current: Account, key: string, value: string, password: string, env: Env,
                     ghost st: ImportState)
    returns (ok: bool, ghost st': ImportState)
    requires Mirrors(accounts, current, st)
    modifies current
    ensures ok <==> ApplyField(st.current.value, key, value, password, env).Success?
    ensures ok ==> st' == st.(current := Some(ApplyField(st.current.value, key, value, password, env).value))
    ensures ok ==> Mirrors(accounts, current, st')
  {
    ok := SetField(current, key, value, password, env);
    st' := st;
    if ok {
      st' := st.(current := Some(current.Data()));
    }
  }

  /** One pass of the loop body of `ImportAccounts`. */
  method ImportLineStep(accounts: seq<Account>, current: Account?, line: string, password: string, env: Env,
                        ghost st: ImportState)
    returns (ok: bool, accounts': seq<Account>, current': Account?, ghost st': ImportState)
    requires Mirrors(accounts, current, st)
    modifies current
    ensures ok <==> ImportLine(st, line, password, env).Success?
    ensures ok ==> st' == ImportLine(st, line, password, env).value && Mirrors(accounts', current', st')
    ensures forall a | a in accounts' :: a in accounts || a == current
    ensures current' == current || fresh(current')
  {
    ok, accounts', current', st' := true, accounts, current, st;
    var kind := ClassifyLine(line);
    if kind.Header? {
      accounts', current', st' := StartAccount(accounts, current, env, st);
      assert ImportLine(st, line, password, env) == Success(st');
    } else if kind.Assignment? && current != null {
      ok, st' := AssignField(accounts, current, kind.key, kind.value, password, env, st);
    } else {
      assert ImportLine(st, line, password, env) == Success(st);
    }
  }

  /** `ImportAccounts`, given the lines `File.ReadAllLines` returns (`Lines` of the file's
      text): a list of new accounts equal, field for field, to what `ImportSpec` reads from
      them, or the failure. */
  method ImportAccounts(lines: seq<string>, password: string, env: Env) returns (r: Result<seq<Account>>)
    ensures r.Failure? <==> ImportSpec(lines, password, env).Failure?
    ensures r.Failure? ==> r.message == ImportFailureMessage
    ensures r.Success? ==>
      && |r.value| == |ImportSpec(lines, password, env).value|
      && (forall i | 0 <= i < |r.value| :: fresh(r.value[i]))
      && (forall i, j | 0 <= i < j < |r.value| :: r.value[i] != r.value[j])
      && (forall i | 0 <= i < |r.value| :: r.value[i].Data() == ImportSpec(lines, password, env).value[i])
  {
    var accounts: seq<Account> := [];
    var currentAccount: Account? := null;
    ghost var st := Start;
    for i := 0 to |lines|
      invariant ImportFrom(Start, lines, password, env) == ImportFrom(st, lines[i..], password, env)
      invariant Mirrors(accounts, currentAccount, st)
      invariant forall a | a in accounts :: fresh(a)
      invariant currentAccount != null ==> fresh(currentAccount)
    {
      assert lines[i..][0] == lines[i] && lines[i..][1..] == lines[i + 1..];
      var ok;
      ok, accounts, currentAccount, st := ImportLineStep(accounts, currentAccount, lines[i], password, env, st);
      if !ok {
        ImportFailsOnlyOnPassword(Start, lines, password, env);
        return Failure(ImportFailureMessage);
      }
    }
    assert lines[|lines|..] == [];
    assert ImportSpec(lines, password, env) == Success(Finish(st));
    accounts := FinishAccounts(accounts, currentAccount, st);
    return Success(accounts);
  }

  /** After the last line, the account being filled in joins the list. */
  method FinishAccounts(accounts: seq<Account>, current: Account?, ghost st: ImportState)
    returns (all: seq<Account>)
    requires Mirrors(accounts, current, st)
    ensures |all| == |Finish(st)|
    ensures forall i | 0 <= i < |all| :: all[i].Data() == Finish(st)[i]
    ensures forall i, j | 0 <= i < j < |all| :: all[i] != all[j]
    ensures forall i | 0 <= i < |all| :: all[i] in accounts || all[i] == current
  {
    all := accounts;
    if current != null {
      all := accounts + [current];
    }
  }
}
