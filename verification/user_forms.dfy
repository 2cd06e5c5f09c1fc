/**
 * The field hooks of UserRegisterForm and UserEditForm.
 *
 * The source asks the ORM whether an account with the submitted username or
 * email exists (`AdvUser.objects.filter(...).exists()`). Here that query is
 * membership in a set of the usernames (or emails) already stored. The
 * lemmas at the end relate the hooks to a table of accounts and to the
 * invariant that no two accounts share a username or an email.
 */
module UserForms {
  import opened FormResult

  // ---------------------------------------------------------------------
  // UserRegisterForm
  // ---------------------------------------------------------------------

  /** clean_username at registration: a taken username is refused. */
  function RegisterCleanUsername(existing: set<string>, username: string): (r: Result<string>)
    ensures r.Ok? <==> username !in existing
    ensures r.Ok? ==> r.value == username
    ensures r.Err? ==> r.error == UsernameExists
  {
    if username in existing then Err(UsernameExists) else Ok(username)
  }

  /** clean_email at registration: a taken email is refused. */
  function RegisterCleanEmail(existing: set<string>, email: string): (r: Result<string>)
    ensures r.Ok? <==> email !in existing
    ensures r.Ok? ==> r.value == email
    ensures r.Err? ==> r.error == EmailExists
  {
    if email in existing then Err(EmailExists) else Ok(email)
  }

  /** clean_agree_to_terms: consent must be given; the cleaned value is then `true`. */
  function RegisterCleanAgreeToTerms(agree: bool): (r: Result<bool>)
    ensures r.Err? <==> !agree
    ensures r.Ok? ==> r.value
    ensures r.Err? ==> r.error == ConsentRequired
  {
    if !agree then Err(ConsentRequired) else Ok(agree)
  }

  // ---------------------------------------------------------------------
  // UserEditForm
  // ---------------------------------------------------------------------

  /**
   * clean_username on the profile edit form. The query is over all accounts,
   * the editing user's own included.
   */
  function EditCleanUsername(existing: set<string>, username: string): (r: Result<string>)
    ensures r.Ok? <==> username !in existing
    ensures r.Ok? ==> r.value == username
    ensures r.Err? ==> r.error == UsernameTaken
  {
    if username in existing then Err(UsernameTaken) else Ok(username)
  }

  /** clean_email on the profile edit form, again over all accounts. */
  function EditCleanEmail(existing: set<string>, email: string): (r: Result<string>)
    ensures r.Ok? <==> email !in existing
    ensures r.Ok? ==> r.value == email
    ensures r.Err? ==> r.error == EmailTaken
  {
    if email in existing then Err(EmailTaken) else Ok(email)
  }

  /**
   * The edit hooks as evidently intended: a value is taken only when an
   * account other than the one being edited holds it.
   */
  function EditCleanUsernameIntended(existing: set<string>, current: string, username: string): (r: Result<string>)
    ensures r.Ok? <==> username !in existing - {current}
    ensures r.Ok? ==> r.value == username
    ensures r.Err? ==> r.error == UsernameTaken
  {
    if username != current && username in existing then Err(UsernameTaken) else Ok(username)
  }

  function EditCleanEmailIntended(existing: set<string>, current: string, email: string): (r: Result<string>)
    ensures r.Ok? <==> email !in existing - {current}
    ensures r.Ok? ==> r.value == email
    ensures r.Err? ==> r.error == EmailTaken
  {
    if email != current && email in existing then Err(EmailTaken) else Ok(email)
  }

  // ---------------------------------------------------------------------
  // The account table and its uniqueness invariant
  // ---------------------------------------------------------------------

  /** The two identity columns of an AdvUser row. */
  datatype Account = Account(username: string, email: string)

  /** What `AdvUser.objects.filter(username=...)` ranges over. */
  function Usernames(accounts: seq<Account>): set<string> {
    set a | a in accounts :: a.username
  }

  /** What `AdvUser.objects.filter(email=...)` ranges over. */
  function Emails(accounts: seq<Account>): set<string> {
    set a | a in accounts :: a.email
  }

  /** No two accounts share a username, and no two share an email. */
  predicate IdentitiesUnique(accounts: seq<Account>) {
    forall i, j :: 0 <= i < j < |accounts| ==>
      accounts[i].username != accounts[j].username && accounts[i].email != accounts[j].email
  }

  /** Registration refuses a username or an email that some account already holds. */
  lemma RegisterRejectsDuplicate(accounts: seq<Account>, i: nat, username: string, email: string)
    requires i < |accounts|
    ensures accounts[i].username == username ==>
      RegisterCleanUsername(Usernames(accounts), username) == Err(UsernameExists)
    ensures accounts[i].email == email ==>
      RegisterCleanEmail(Emails(accounts), email) == Err(EmailExists)
  {
  }

  /**
   * Adding an account whose username and email both passed the registration
   * hooks keeps every username and every email unique.
   */
  lemma RegisterKeepsIdentitiesUnique(accounts: seq<Account>, username: string, email: string)
    requires IdentitiesUnique(accounts)
    requires RegisterCleanUsername(Usernames(accounts), username).Ok?
    requires RegisterCleanEmail(Emails(accounts), email).Ok?
    ensures IdentitiesUnique(accounts + [Account(username, email)])
  {
  }

  /**
   * As written, the edit form refuses the editing user's own username and
   * own email, so a profile submitted with either left unchanged fails.
   */
  lemma EditRejectsOwnIdentity(accounts: seq<Account>, me: nat)
    requires me < |accounts|
    ensures EditCleanUsername(Usernames(accounts), accounts[me].username) == Err(UsernameTaken)
    ensures EditCleanEmail(Emails(accounts), accounts[me].email) == Err(EmailTaken)
  {
  }

  /** The intended edit hooks accept the editing user's unchanged username and email. */
  lemma EditIntendedAcceptsOwnIdentity(accounts: seq<Account>, me: nat)
    requires me < |accounts|
    ensures EditCleanUsernameIntended(Usernames(accounts), accounts[me].username, accounts[me].username)
      == Ok(accounts[me].username)
    ensures EditCleanEmailIntended(Emails(accounts), accounts[me].email, accounts[me].email)
      == Ok(accounts[me].email)
  {
  }

  /** Everything the edit hooks accept as written, the intended ones accept too. */
  lemma EditAsWrittenIsStricter(existing: set<string>, current: string, value: string)
    ensures EditCleanUsername(existing, value).Ok? ==>
      EditCleanUsernameIntended(existing, current, value) == EditCleanUsername(existing, value)
    ensures EditCleanEmail(existing, value).Ok? ==>
      EditCleanEmailIntended(existing, current, value) == EditCleanEmail(existing, value)
  {
  }

  /**
   * With the intended hooks, replacing the editing user's row by the
   * submitted username and email keeps every username and email unique.
   */
  lemma EditIntendedKeepsIdentitiesUnique(accounts: seq<Account>, me: nat, username: string, email: string)
    requires IdentitiesUnique(accounts) && me < |accounts|
    requires EditCleanUsernameIntended(Usernames(accounts), accounts[me].username, username).Ok?
    requires EditCleanEmailIntended(Emails(accounts), accounts[me].email, email).Ok?
    ensures IdentitiesUnique(accounts[me := Account(username, email)])
  {
  }

  /** The as-written edit hooks keep the invariant as well, being stricter still. */
  lemma EditKeepsIdentitiesUnique(accounts: seq<Account>, me: nat, username: string, email: string)
    requires IdentitiesUnique(accounts) && me < |accounts|
    requires EditCleanUsername(Usernames(accounts), username).Ok?
    requires EditCleanEmail(Emails(accounts), email).Ok?
    ensures IdentitiesUnique(accounts[me := Account(username, email)])
  {
  }
}
