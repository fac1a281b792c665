/**
 * `getCurrentUser` (src/lib/supabase.ts): the signed-in account as the
 * application's user record, with a display name that is never empty.
 */
module AuthUser {
  import opened Options
  import opened Text

  /** What the authentication service returns: the e-mail and the `name` metadata may be missing. */
  datatype AccountRecord = AccountRecord(id: string, email: Option<string>, metadataName: Option<string>)

  datatype AuthUser = AuthUser(id: string, email: string, name: string)

  const DefaultName := "User"

  function OrEmpty(o: Option<string>): (s: string)
    ensures o.Some? ==> s == o.value
    ensures o.None? ==> s == ""
  {
    if o.Some? then o.value else ""
  }

  /** `email.split('@')[0]`: the text before the first `@` (all of it when there is none). */
  function LocalPart(email: string): (r: string)
    ensures IsPrefix(r, email) && '@' !in r
    ensures |r| < |email| ==> email[|r|] == '@'
  {
    BeforeFirst(email, '@')
  }

  /** The display name: the metadata name, else the e-mail's local part, else "User". */
  function DisplayName(account: AccountRecord): (name: string)
    ensures name != ""
    ensures OrEmpty(account.metadataName) != "" ==> name == account.metadataName.value
    ensures OrEmpty(account.metadataName) == "" && LocalPart(OrEmpty(account.email)) != "" ==>
      name == LocalPart(OrEmpty(account.email))
    ensures OrEmpty(account.metadataName) == "" && LocalPart(OrEmpty(account.email)) == "" ==> name == DefaultName
  {
    var c := [OrEmpty(account.metadataName), LocalPart(OrEmpty(account.email)), DefaultName];
    assert c[2] != "";
    assert c[0] == "" ==> forall j :: 0 <= j < 1 ==> c[j] == "";
    assert c[0] == "" && c[1] == "" ==> forall j :: 0 <= j < 2 ==> c[j] == "";
    FirstNonEmpty(c)
  }

  /** `getCurrentUser`: no account gives no user; otherwise the id, the e-mail or "", and the display name. */
  function CurrentUser(account: Option<AccountRecord>): (u: Option<AuthUser>)
    ensures u.None? <==> account.None?
    ensures u.Some? ==> u.value.id == account.value.id && u.value.email == OrEmpty(account.value.email)
    ensures u.Some? ==> u.value.name != ""
  {
    match account
    case None => None
    case Some(a) => Some(AuthUser(a.id, OrEmpty(a.email), DisplayName(a)))
  }

  /** The local part of `local@domain` is `local`, whatever the domain holds. */
  lemma {:induction false} LocalPartOfAddress(local: string, domain: string)
    requires '@' !in local
    ensures LocalPart(local + "@" + domain) == local
  {
    if local != [] {
      assert (local + "@" + domain)[1..] == local[1..] + "@" + domain;
      LocalPartOfAddress(local[1..], domain);
    }
  }

  /** Without a metadata name, a non-empty local part of the address is the display name. */
  lemma {:induction false} NameFromAddress(id: string, local: string, domain: string)
    requires '@' !in local && local != ""
    ensures DisplayName(AccountRecord(id, Some(local + "@" + domain), None)) == local
  {
    LocalPartOfAddress(local, domain);
  }

  /** An address that starts with `@`, or is empty, falls back to "User". */
  lemma {:induction false} EmptyLocalPartFallsBack(id: string, email: string)
    requires email == "" || email[0] == '@'
    ensures DisplayName(AccountRecord(id, Some(email), None)) == DefaultName
  {
  }
}
