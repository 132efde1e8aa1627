/**
 * The stored records the handlers read and write besides invites: contact
 * addresses, profiles, linked chat identities and pending verifications.
 */
module Records {
  import opened Basics

  /** app.storage.emails entry: an address, a label, "contact through email" and the accounts-admin flag. */
  datatype EmailAddress = EmailAddress(addr: string, labelText: string, contact: bool, admin: bool)

  const ZeroEmail := EmailAddress("", "", false, false)

  /**
   * A profile. The account-service templates are reduced to whether each one
   * is present: a policy with BlockedTags, a homescreen Configuration with
   * GroupedFolders, non-empty display preferences, a non-empty companion
   * template.
   */
  datatype Profile = Profile(admin: bool, fromUser: string, policySet: bool, configurationSet: bool,
                             displayprefsSet: bool, ombiTemplateSet: bool)

  const ZeroProfile := Profile(false, "", false, false, false, false)

  const DefaultProfileName := "Default"

  /** A Discord identity, pending (keyed by PIN) or linked (keyed by account ID). */
  datatype DiscordUser = DiscordUser(id: string, username: string, discriminator: string, contact: bool)

  /** A Matrix identity. */
  datatype MatrixUser = MatrixUser(userID: string, roomID: string, contact: bool)

  /** A Matrix PIN entry: the identity the PIN was sent to and whether it was confirmed. */
  datatype PendingMatrixUser = PendingMatrixUser(user: MatrixUser, verified: bool)

  /** A Telegram PIN that the bot has seen, with the chat it came from. */
  datatype VerifiedToken = VerifiedToken(token: string, chatID: int, username: string)

  /** A linked Telegram identity. */
  datatype TelegramUser = TelegramUser(chatID: int, username: string, lang: string, contact: bool)

  /** One field upserted into an email record by SetAccountsAdmin, ModifyLabels or ModifyEmails. */
  datatype EmailUpdate = SetAdmin(admin: bool) | SetLabel(text: string) | SetAddress(addr: string)

  function ApplyUpdate(e: EmailAddress, u: EmailUpdate): (r: EmailAddress)
    ensures u.SetAdmin? ==> r == e.(admin := u.admin)
    ensures u.SetLabel? ==> r == e.(labelText := u.text)
    ensures u.SetAddress? ==> r == e.(addr := u.addr)
  {
    match u
    case SetAdmin(a) => e.(admin := a)
    case SetLabel(l) => e.(labelText := l)
    case SetAddress(a) => e.(addr := a)
  }

  /**
   * The email map after the handler's loop over the fetched account list
   * `users`: every listed ID with a requested update gets its record (or a
   * zero record) with that one field replaced.
   */
  function Upserted(emails: map<string, EmailAddress>, users: seq<string>, req: map<string, EmailUpdate>): map<string, EmailAddress>
  {
    if users == [] then emails
    else
      var m := Upserted(emails, users[..|users| - 1], req);
      var id := users[|users| - 1];
      if id in req then m[id := ApplyUpdate(MapGet(m, id, ZeroEmail), req[id])] else m
  }

  /**
   * Only IDs that are both listed and requested are touched; each gets the
   * old record (or the zero record) with the one field replaced, whatever the
   * number of times it is listed, and every other entry is left as it was.
   */
  lemma {:induction false} UpsertedEntries(emails: map<string, EmailAddress>, users: seq<string>, req: map<string, EmailUpdate>)
    ensures forall id :: id in Upserted(emails, users, req) <==> id in emails || (id in req && id in users)
    ensures forall id :: id in Upserted(emails, users, req) ==>
      Upserted(emails, users, req)[id] ==
        (if id in req && id in users then ApplyUpdate(MapGet(emails, id, ZeroEmail), req[id]) else emails[id])
  {
    if users != [] {
      var init := users[..|users| - 1];
      UpsertedEntries(emails, init, req);
      forall id ensures id in users <==> id in init || id == users[|users| - 1] {
        if id in users {
          var k :| 0 <= k < |users| && users[k] == id;
          if k < |users| - 1 { assert init[k] == id; }
        }
        if id in init {
          var k :| 0 <= k < |init| && init[k] == id;
          assert users[k] == id;
        }
      }
    }
  }
}
