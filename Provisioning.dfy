/**
 * Invite-gated account creation (newUser and the NewUser handler): the
 * pre-creation checks in their fixed order, the email-confirmation gate,
 * account creation, consumption of the invite, the profile choice, and the
 * linking of the verified chat identities with the consumption of their
 * PINs. The account service, the chat clients and the persistence layer
 * are reduced to the outcomes in `Externals`.
 */
module Provisioning {
  import opened Basics
  import opened Records
  import opened Invites
  import opened Store
  import opened Verification

  /** The configuration switches newUser reads. */
  datatype Config = Config(
    discordEnabled: bool, discordRequired: bool,
    matrixEnabled: bool, matrixRequired: bool,
    telegramEnabled: bool, telegramRequired: bool,
    emailEnabled: bool, emailConfirmation: bool,
    notificationsEnabled: bool, welcomeEmail: bool)

  /** newUserDTO, without the captcha fields. */
  datatype NewUserRequest = NewUserRequest(
    code: string, username: string, password: string, email: string,
    discordPIN: string, discordContact: bool,
    matrixPIN: string, matrixContact: bool,
    telegramPIN: string, telegramContact: bool)

  /**
   * What the outside world answers: whether the account service already has
   * the user name, whether the Discord role was applied, the signed
   * confirmation token (None when signing fails), the new account's ID (None
   * when creation fails), whether the Discord and Telegram link stores were
   * saved, the current time and Go's AddDate(0, months, days).
   */
  datatype Externals = Externals(
    userExists: bool, applyRoleOk: bool,
    confirmationKey: Option<string>, accountID: Option<string>,
    storeDiscordOk: bool, storeTelegramOk: bool,
    now: int, addDate: (int, int, int) -> int)

  /** Everything newUser reads or writes. */
  datatype World = World(
    invites: map<string, Invite>,
    profiles: map<string, Profile>,
    emails: map<string, EmailAddress>,
    users: map<string, int>,
    discordLinks: map<string, DiscordUser>,
    telegramLinks: map<string, TelegramUser>,
    matrixLinks: map<string, MatrixUser>,
    discordPINs: map<string, DiscordUser>,
    matrixPINs: map<string, PendingMatrixUser>,
    telegramTokens: seq<VerifiedToken>,
    languages: map<int, string>)

  /**
   * A refusal with its status and message key, or a created account with the
   * profile applied to it, whether its policy and its homescreen were applied,
   * and whether a welcome message is sent.
   */
  datatype Outcome =
    | Rejected(status: int, message: string)
    | Created(userID: string, profile: Option<Profile>, applyPolicy: bool, applyHomescreen: bool, welcome: bool)

  datatype NewUserResult = NewUserResult(world: World, outcome: Outcome)

  const ErrorUserExists := "errorUserExists"
  const ErrorDiscordVerification := "errorDiscordVerification"
  const ErrorMatrixVerification := "errorMatrixVerification"
  const ErrorTelegramVerification := "errorTelegramVerification"
  const ErrorInvalidPIN := "errorInvalidPIN"
  const ErrorRole := "error"
  const ErrorUnknown := "errorUnknown"
  const ConfirmEmail := "confirmEmail"

  /** Independent statements of when each check passes. */
  predicate DiscordOk(w: World, req: NewUserRequest, cfg: Config, ext: Externals)
  {
    cfg.discordEnabled ==>
      if req.discordPIN == "" then !cfg.discordRequired else req.discordPIN in w.discordPINs && ext.applyRoleOk
  }

  predicate MatrixOk(w: World, req: NewUserRequest, cfg: Config)
  {
    cfg.matrixEnabled ==>
      if req.matrixPIN == "" then !cfg.matrixRequired
      else req.matrixPIN in w.matrixPINs && w.matrixPINs[req.matrixPIN].verified
  }

  predicate TelegramOk(w: World, req: NewUserRequest, cfg: Config)
  {
    cfg.telegramEnabled ==>
      if req.telegramPIN == "" then !cfg.telegramRequired
      else exists j :: 0 <= j < |w.telegramTokens| && w.telegramTokens[j].token == req.telegramPIN
  }

  /** The pre-creation checks of newUser, in the order the source runs them; None when all pass. */
  function Gate(w: World, req: NewUserRequest, cfg: Config, ext: Externals): (r: Option<Outcome>)
    ensures r.Some? ==> r.value.Rejected? && r.value.status == 401
    ensures ext.userExists ==> r.Some?
  {
    if ext.userExists then Some(Rejected(401, ErrorUserExists))
    else if cfg.discordEnabled && req.discordPIN == "" && cfg.discordRequired then Some(Rejected(401, ErrorDiscordVerification))
    else if cfg.discordEnabled && req.discordPIN != "" && req.discordPIN !in w.discordPINs then Some(Rejected(401, ErrorInvalidPIN))
    else if cfg.discordEnabled && req.discordPIN != "" && !ext.applyRoleOk then Some(Rejected(401, ErrorRole))
    else if cfg.matrixEnabled && req.matrixPIN == "" && cfg.matrixRequired then Some(Rejected(401, ErrorMatrixVerification))
    else if cfg.matrixEnabled && req.matrixPIN != "" &&
            (req.matrixPIN !in w.matrixPINs || !w.matrixPINs[req.matrixPIN].verified) then Some(Rejected(401, ErrorInvalidPIN))
    else if cfg.telegramEnabled && req.telegramPIN == "" && cfg.telegramRequired then Some(Rejected(401, ErrorTelegramVerification))
    else if cfg.telegramEnabled && req.telegramPIN != "" && TokenIndex(w.telegramTokens, req.telegramPIN) == -1 then
      Some(Rejected(401, ErrorInvalidPIN))
    else None
  }

  /** The profile applied to a new account: the invite's, else "Default" (a zero profile if that is missing too); none for an empty name. */
  function SelectedProfile(profiles: map<string, Profile>, name: string): Option<Profile>
  {
    if name == "" then None
    else if name in profiles then Some(profiles[name])
    else Some(MapGet(profiles, DefaultProfileName, ZeroProfile))
  }

  /** The account expiry an invite with UserExpiry gives: AddDate(0, months, days) plus 60*hours+minutes minutes. */
  function UserExpiry(invite: Invite, now: int, addDate: (int, int, int) -> int): int
  {
    addDate(now, invite.userMonths, invite.userDays) + 60 * OffsetMinutes(invite.userHours, invite.userMinutes)
  }

  /** The Telegram identity linked from a verified token, with the chat's language when the bot knows it. */
  function LinkedTelegram(t: VerifiedToken, languages: map<int, string>, contact: bool): TelegramUser
  {
    TelegramUser(t.chatID, t.username, MapGet(languages, t.chatID, ""), contact)
  }

  predicate ConfirmationRequired(cfg: Config, confirmed: bool)
  {
    cfg.emailEnabled && cfg.emailConfirmation && !confirmed
  }

  /** The index of the Telegram token newUser links, or -1 when no Telegram PIN is used. */
  function TelegramIndex(w: World, req: NewUserRequest, cfg: Config): int
  {
    if cfg.telegramEnabled && req.telegramPIN != "" then TokenIndex(w.telegramTokens, req.telegramPIN) else -1
  }

  predicate DiscordUsed(cfg: Config, req: NewUserRequest)
  {
    cfg.discordEnabled && req.discordPIN != ""
  }

  predicate MatrixUsed(cfg: Config, req: NewUserRequest)
  {
    cfg.matrixEnabled && req.matrixPIN != ""
  }

  /** checkInvite's notifications are on when both email and notifications are enabled. */
  predicate NotifyOn(cfg: Config)
  {
    cfg.emailEnabled && cfg.notificationsEnabled
  }

  /**
   * The first writes after account `id` exists: the invite (as read before)
   * is consumed through checkInvite, the address is stored with Contact on,
   * and the account expiry is set when the invite asks for one.
   */
  function Registered(w: World, req: NewUserRequest, cfg: Config, ext: Externals, id: string): World
  {
    var invite := MapGet(w.invites, req.code, ZeroInvite);
    w.(invites := Check(w.invites, req.code, true, req.username, ext.now, NotifyOn(cfg)).invites,
       emails := if req.email != "" then w.emails[id := EmailAddress(req.email, "", true, false)] else w.emails,
       users := if invite.userExpiry then w.users[id := UserExpiry(invite, ext.now, ext.addDate)] else w.users)
  }

  /** The Discord link with the requested Contact flag; the PIN goes only when the links were saved. */
  function DiscordLinked(w: World, req: NewUserRequest, used: bool, storeOk: bool, id: string): World
    requires used ==> req.discordPIN in w.discordPINs
  {
    if !used then w
    else w.(discordLinks := w.discordLinks[id := w.discordPINs[req.discordPIN].(contact := req.discordContact)],
            discordPINs := if storeOk then w.discordPINs - {req.discordPIN} else w.discordPINs)
  }

  /** The Telegram link from token `tIndex` (-1: none); the token is swap-removed only when the links were saved. */
  function TelegramLinked(w: World, contact: bool, tIndex: int, storeOk: bool, id: string): World
    requires -1 <= tIndex < |w.telegramTokens|
  {
    if tIndex == -1 then w
    else w.(telegramLinks := w.telegramLinks[id := LinkedTelegram(w.telegramTokens[tIndex], w.languages, contact)],
            telegramTokens := if storeOk then SwapRemoved(w.telegramTokens, tIndex) else w.telegramTokens)
  }

  /** The Matrix link; the PIN goes whatever the save does. */
  function MatrixLinked(w: World, req: NewUserRequest, used: bool, id: string): World
    requires used ==> req.matrixPIN in w.matrixPINs
  {
    if !used then w
    else w.(matrixLinks := w.matrixLinks[id := w.matrixPINs[req.matrixPIN].user.(contact := req.matrixContact)],
            matrixPINs := w.matrixPINs - {req.matrixPIN})
  }

  /** The answer for a created account: the profile chosen for the invite, what of it is applied, and whether to welcome. */
  function CreatedOutcome(w: World, req: NewUserRequest, cfg: Config, id: string): Outcome
  {
    var profile := SelectedProfile(w.profiles, MapGet(w.invites, req.code, ZeroInvite).profile);
    var welcome := (cfg.emailEnabled && cfg.welcomeEmail && req.email != "") || TelegramIndex(w, req, cfg) != -1 || DiscordUsed(cfg, req);
    Created(id, profile,
            profile.Some? && profile.value.policySet,
            profile.Some? && profile.value.configurationSet && profile.value.displayprefsSet,
            welcome)
  }

  /** The state and outcome after a successful account creation with ID `id`. */
  function Create(w: World, req: NewUserRequest, cfg: Config, ext: Externals, id: string): NewUserResult
    requires Gate(w, req, cfg, ext).None?
  {
    var w1 := Registered(w, req, cfg, ext, id);
    var w2 := DiscordLinked(w1, req, DiscordUsed(cfg, req), ext.storeDiscordOk, id);
    var w3 := TelegramLinked(w2, req.telegramContact, TelegramIndex(w, req, cfg), ext.storeTelegramOk, id);
    var w4 := MatrixLinked(w3, req, MatrixUsed(cfg, req), id);
    NewUserResult(w4, CreatedOutcome(w, req, cfg, id))
  }

  /** Create field by field, on the state before creation. */
  lemma CreateFields(w: World, req: NewUserRequest, cfg: Config, ext: Externals, id: string)
    requires Gate(w, req, cfg, ext).None?
    ensures var r := Create(w, req, cfg, ext, id).world;
      var inv := MapGet(w.invites, req.code, ZeroInvite);
      var t := TelegramIndex(w, req, cfg);
      && -1 <= t < |w.telegramTokens|
      && r.invites == Check(w.invites, req.code, true, req.username, ext.now, NotifyOn(cfg)).invites
      && r.profiles == w.profiles && r.languages == w.languages
      && r.emails == (if req.email != "" then w.emails[id := EmailAddress(req.email, "", true, false)] else w.emails)
      && r.users == (if inv.userExpiry then w.users[id := UserExpiry(inv, ext.now, ext.addDate)] else w.users)
      && r.discordLinks == (if DiscordUsed(cfg, req)
                            then w.discordLinks[id := w.discordPINs[req.discordPIN].(contact := req.discordContact)]
                            else w.discordLinks)
      && r.discordPINs == (if DiscordUsed(cfg, req) && ext.storeDiscordOk then w.discordPINs - {req.discordPIN} else w.discordPINs)
      && r.telegramLinks == (if t == -1 then w.telegramLinks
                             else w.telegramLinks[id := LinkedTelegram(w.telegramTokens[t], w.languages, req.telegramContact)])
      && r.telegramTokens == (if t != -1 && ext.storeTelegramOk then SwapRemoved(w.telegramTokens, t) else w.telegramTokens)
      && r.matrixLinks == (if MatrixUsed(cfg, req)
                           then w.matrixLinks[id := w.matrixPINs[req.matrixPIN].user.(contact := req.matrixContact)]
                           else w.matrixLinks)
      && r.matrixPINs == (if MatrixUsed(cfg, req) then w.matrixPINs - {req.matrixPIN} else w.matrixPINs)
  {
    var t := TelegramIndex(w, req, cfg);
    var w1 := Registered(w, req, cfg, ext, id);
    var w2 := DiscordLinked(w1, req, DiscordUsed(cfg, req), ext.storeDiscordOk, id);
    var w3 := TelegramLinked(w2, req.telegramContact, t, ext.storeTelegramOk, id);
    var w4 := MatrixLinked(w3, req, MatrixUsed(cfg, req), id);
    assert Create(w, req, cfg, ext, id).world == w4;
    assert w4.invites == w3.invites == w2.invites == w1.invites;
    assert w4.emails == w3.emails == w2.emails == w1.emails;
    assert w4.users == w3.users == w2.users == w1.users;
    assert w4.discordLinks == w3.discordLinks == w2.discordLinks;
    assert w4.discordPINs == w3.discordPINs == w2.discordPINs;
    assert w4.telegramLinks == w3.telegramLinks;
    assert w4.telegramTokens == w3.telegramTokens;
  }

  /** Create reads the configuration only through the provider switches, the notification switches and the welcome switch. */
  lemma CreateIgnoresConfirmation(w: World, req: NewUserRequest, cfg: Config, ext: Externals, id: string)
    requires Gate(w, req, cfg, ext).None?
    ensures Gate(w, req, cfg.(emailConfirmation := false), ext).None?
    ensures Create(w, req, cfg, ext, id) == Create(w, req, cfg.(emailConfirmation := false), ext, id)
  {
    var cfg2 := cfg.(emailConfirmation := false);
    assert NotifyOn(cfg) == NotifyOn(cfg2) && DiscordUsed(cfg, req) == DiscordUsed(cfg2, req) && MatrixUsed(cfg, req) == MatrixUsed(cfg2, req);
    assert TelegramIndex(w, req, cfg) == TelegramIndex(w, req, cfg2);
    assert Registered(w, req, cfg, ext, id) == Registered(w, req, cfg2, ext, id);
    assert CreatedOutcome(w, req, cfg, id) == CreatedOutcome(w, req, cfg2, id);
  }

  /** newUser(req, confirmed) as a function of the state it reads and the outside world's answers. */
  function NewUserSpec(w: World, req: NewUserRequest, confirmed: bool, cfg: Config, ext: Externals): (r: NewUserResult)
    ensures r.outcome.Rejected? ==> r.outcome.status == 401 || r.outcome.status == 500
    ensures r.outcome.Rejected? && r.outcome.status == 500 ==> r.world == w && r.outcome.message == ErrorUnknown
    ensures r.outcome.Created? ==> ext.accountID == Some(r.outcome.userID)
    ensures r.world.profiles == w.profiles && r.world.languages == w.languages
  {
    var g := Gate(w, req, cfg, ext);
    if g.Some? then NewUserResult(w, g.value)
    else if ConfirmationRequired(cfg, confirmed) then
      match ext.confirmationKey
      case None => NewUserResult(w, Rejected(500, ErrorUnknown))
      case Some(key) =>
        var inv := MapGet(w.invites, req.code, ZeroInvite);
        NewUserResult(w.(invites := w.invites[req.code := inv.(keys := inv.keys + [key])]), Rejected(401, ConfirmEmail))
    else
      match ext.accountID
      case None => NewUserResult(w, Rejected(401, ErrorUnknown))
      case Some(id) => Create(w, req, cfg, ext, id)
  }

  /** The checks pass exactly when the user name is free and each provider's check passes. */
  lemma GatePassesIff(w: World, req: NewUserRequest, cfg: Config, ext: Externals)
    ensures Gate(w, req, cfg, ext).None? <==>
      !ext.userExists && DiscordOk(w, req, cfg, ext) && MatrixOk(w, req, cfg) && TelegramOk(w, req, cfg)
  {
    if cfg.telegramEnabled && req.telegramPIN != "" {
      var i := TokenIndex(w.telegramTokens, req.telegramPIN);
      if i != -1 {
        assert w.telegramTokens[i].token == req.telegramPIN;
      }
    }
  }

  /**
   * The first failing check decides the answer: an existing user name
   * before everything, then Discord, then Matrix, then Telegram, whatever
   * the later checks would have said.
   */
  lemma GateOrder(w: World, req: NewUserRequest, cfg: Config, ext: Externals)
    ensures ext.userExists ==> Gate(w, req, cfg, ext) == Some(Rejected(401, ErrorUserExists))
    ensures !ext.userExists && !DiscordOk(w, req, cfg, ext) ==>
      Gate(w, req, cfg, ext) == Some(Rejected(401,
        if req.discordPIN == "" then ErrorDiscordVerification
        else if req.discordPIN !in w.discordPINs then ErrorInvalidPIN
        else ErrorRole))
    ensures !ext.userExists && DiscordOk(w, req, cfg, ext) && !MatrixOk(w, req, cfg) ==>
      Gate(w, req, cfg, ext) == Some(Rejected(401, if req.matrixPIN == "" then ErrorMatrixVerification else ErrorInvalidPIN))
    ensures !ext.userExists && DiscordOk(w, req, cfg, ext) && MatrixOk(w, req, cfg) && !TelegramOk(w, req, cfg) ==>
      Gate(w, req, cfg, ext) == Some(Rejected(401, if req.telegramPIN == "" then ErrorTelegramVerification else ErrorInvalidPIN))
  {
    GatePassesIff(w, req, cfg, ext);
  }

  /**
   * A provider's "verification not completed" error is reported exactly when
   * it is enabled and required, no PIN was given, and every earlier check
   * passed.
   */
  lemma RequiredProviderIff(w: World, req: NewUserRequest, cfg: Config, ext: Externals)
    ensures Gate(w, req, cfg, ext) == Some(Rejected(401, ErrorDiscordVerification)) <==>
      !ext.userExists && cfg.discordEnabled && req.discordPIN == "" && cfg.discordRequired
    ensures Gate(w, req, cfg, ext) == Some(Rejected(401, ErrorMatrixVerification)) <==>
      !ext.userExists && DiscordOk(w, req, cfg, ext) && cfg.matrixEnabled && req.matrixPIN == "" && cfg.matrixRequired
    ensures Gate(w, req, cfg, ext) == Some(Rejected(401, ErrorTelegramVerification)) <==>
      !ext.userExists && DiscordOk(w, req, cfg, ext) && MatrixOk(w, req, cfg) &&
      cfg.telegramEnabled && req.telegramPIN == "" && cfg.telegramRequired
  {
  }

  /** errorInvalidPIN is reported exactly when the first provider to fail was given a PIN it does not know (or, for Matrix, has not verified). */
  lemma InvalidPINIff(w: World, req: NewUserRequest, cfg: Config, ext: Externals)
    ensures Gate(w, req, cfg, ext) == Some(Rejected(401, ErrorInvalidPIN)) <==>
      !ext.userExists &&
      ((cfg.discordEnabled && req.discordPIN != "" && req.discordPIN !in w.discordPINs) ||
       (DiscordOk(w, req, cfg, ext) && cfg.matrixEnabled && req.matrixPIN != "" &&
        (req.matrixPIN !in w.matrixPINs || !w.matrixPINs[req.matrixPIN].verified)) ||
       (DiscordOk(w, req, cfg, ext) && MatrixOk(w, req, cfg) && cfg.telegramEnabled && req.telegramPIN != "" &&
        forall j :: 0 <= j < |w.telegramTokens| ==> w.telegramTokens[j].token != req.telegramPIN))
  {
  }

  /**
   * Every refusal other than the confirmation gate leaves the whole state
   * unchanged: no invite is consumed, no PIN is used, nothing is linked.
   */
  lemma RejectionsLeaveWorld(w: World, req: NewUserRequest, confirmed: bool, cfg: Config, ext: Externals)
    ensures var r := NewUserSpec(w, req, confirmed, cfg, ext);
      r.outcome.Rejected? && r.outcome.message != ConfirmEmail ==> r.world == w
    ensures Gate(w, req, cfg, ext).Some? ==> NewUserSpec(w, req, confirmed, cfg, ext) == NewUserResult(w, Gate(w, req, cfg, ext).value)
    ensures Gate(w, req, cfg, ext).None? && !ConfirmationRequired(cfg, confirmed) && ext.accountID.None? ==>
      NewUserSpec(w, req, confirmed, cfg, ext) == NewUserResult(w, Rejected(401, ErrorUnknown))
  {
  }

  /**
   * With confirmation required and not yet given, a passing request appends
   * exactly one key to its invite's Keys, changes nothing else, and is
   * answered 401 "confirmEmail".
   */
  lemma ConfirmationGateAppendsKey(w: World, req: NewUserRequest, cfg: Config, ext: Externals)
    requires Gate(w, req, cfg, ext).None? && ConfirmationRequired(cfg, false) && ext.confirmationKey.Some?
    ensures var r := NewUserSpec(w, req, false, cfg, ext);
      var inv := MapGet(w.invites, req.code, ZeroInvite);
      && r.outcome == Rejected(401, ConfirmEmail)
      && r.world == w.(invites := r.world.invites)
      && r.world.invites.Keys == w.invites.Keys + {req.code}
      && r.world.invites[req.code] == inv.(keys := inv.keys + [ext.confirmationKey.value])
      && (forall c :: c in w.invites && c != req.code ==> r.world.invites[c] == w.invites[c])
  {
  }

  /** A confirmed request skips the gate: it behaves as if confirmation were switched off. */
  lemma ConfirmedSkipsGate(w: World, req: NewUserRequest, cfg: Config, ext: Externals)
    ensures NewUserSpec(w, req, true, cfg, ext) == NewUserSpec(w, req, false, cfg.(emailConfirmation := false), ext)
  {
    if Gate(w, req, cfg, ext).None? && ext.accountID.Some? {
      CreateIgnoresConfirmation(w, req, cfg, ext, ext.accountID.value);
    }
  }

  /** An account is created exactly when every check passes, the gate does not apply and the account service succeeds. */
  lemma CreatedIff(w: World, req: NewUserRequest, confirmed: bool, cfg: Config, ext: Externals)
    ensures NewUserSpec(w, req, confirmed, cfg, ext).outcome.Created? <==>
      Gate(w, req, cfg, ext).None? && !ConfirmationRequired(cfg, confirmed) && ext.accountID.Some?
  {
  }

  /**
   * A created account consumes its invite once, through checkInvite with
   * used = true, and applies the invite's profile with the "Default"
   * fallback.
   */
  lemma CreationConsumesInvite(w: World, req: NewUserRequest, confirmed: bool, cfg: Config, ext: Externals)
    requires NewUserSpec(w, req, confirmed, cfg, ext).outcome.Created?
    ensures var r := NewUserSpec(w, req, confirmed, cfg, ext);
      var inv := MapGet(w.invites, req.code, ZeroInvite);
      && r.world.invites == Check(w.invites, req.code, true, req.username, ext.now, cfg.emailEnabled && cfg.notificationsEnabled).invites
      && r.world.profiles == w.profiles
      && (inv.profile == "" ==> r.outcome.profile == None)
      && (inv.profile != "" && inv.profile in w.profiles ==> r.outcome.profile == Some(w.profiles[inv.profile]))
      && (inv.profile != "" && inv.profile !in w.profiles ==>
            r.outcome.profile == Some(MapGet(w.profiles, DefaultProfileName, ZeroProfile)))
      && r.outcome.userID == ext.accountID.value
  {
    CreateFields(w, req, cfg, ext, ext.accountID.value);
  }

  /** On a valid single-use invite the created account leaves the invite deleted. */
  lemma CreationUsesUpSingleUseInvite(w: World, req: NewUserRequest, confirmed: bool, cfg: Config, ext: Externals)
    requires NewUserSpec(w, req, confirmed, cfg, ext).outcome.Created?
    requires req.code in w.invites && !Expired(w.invites[req.code], ext.now) && w.invites[req.code].remainingUses == 1
    ensures req.code !in NewUserSpec(w, req, confirmed, cfg, ext).world.invites
  {
    CreationConsumesInvite(w, req, confirmed, cfg, ext);
  }

  /**
   * PIN consumption on success: the Discord PIN is deleted only when the
   * Discord links were saved, the Matrix PIN always, and the Telegram token
   * is swap-removed only when the Telegram links were saved, taking exactly
   * that token out of the registry.
   */
  lemma CreationConsumesPINs(w: World, req: NewUserRequest, confirmed: bool, cfg: Config, ext: Externals)
    requires NewUserSpec(w, req, confirmed, cfg, ext).outcome.Created?
    ensures var r := NewUserSpec(w, req, confirmed, cfg, ext).world;
      && r.discordPINs == (if cfg.discordEnabled && req.discordPIN != "" && ext.storeDiscordOk
                           then w.discordPINs - {req.discordPIN} else w.discordPINs)
      && r.matrixPINs == (if cfg.matrixEnabled && req.matrixPIN != "" then w.matrixPINs - {req.matrixPIN} else w.matrixPINs)
      && (!(cfg.telegramEnabled && req.telegramPIN != "" && ext.storeTelegramOk) ==> r.telegramTokens == w.telegramTokens)
    ensures cfg.telegramEnabled && req.telegramPIN != "" && ext.storeTelegramOk ==>
      var r := NewUserSpec(w, req, confirmed, cfg, ext).world;
      var i := TokenIndex(w.telegramTokens, req.telegramPIN);
      && 0 <= i < |w.telegramTokens| && w.telegramTokens[i].token == req.telegramPIN
      && |r.telegramTokens| == |w.telegramTokens| - 1
      && multiset(r.telegramTokens) == multiset(w.telegramTokens) - multiset{w.telegramTokens[i]}
  {
    CreateFields(w, req, cfg, ext, ext.accountID.value);
    if cfg.telegramEnabled && req.telegramPIN != "" && ext.storeTelegramOk {
      SwapRemovedDropsOne(w.telegramTokens, TokenIndex(w.telegramTokens, req.telegramPIN));
    }
  }

  /**
   * Identity linking on success: each verified identity is stored under the
   * new account with the requested Contact flag, the address with Contact
   * on, and the account expiry AddDate(0, UserMonths, UserDays) plus
   * 60*UserHours+UserMinutes minutes when the invite sets one.
   */
  lemma CreationLinksIdentities(w: World, req: NewUserRequest, confirmed: bool, cfg: Config, ext: Externals)
    requires NewUserSpec(w, req, confirmed, cfg, ext).outcome.Created?
    ensures var r := NewUserSpec(w, req, confirmed, cfg, ext).world;
      var id := ext.accountID.value;
      var inv := MapGet(w.invites, req.code, ZeroInvite);
      && (cfg.discordEnabled && req.discordPIN != "" ==>
            req.discordPIN in w.discordPINs && r.discordLinks == w.discordLinks[id := w.discordPINs[req.discordPIN].(contact := req.discordContact)])
      && (cfg.matrixEnabled && req.matrixPIN != "" ==>
            req.matrixPIN in w.matrixPINs && r.matrixLinks == w.matrixLinks[id := w.matrixPINs[req.matrixPIN].user.(contact := req.matrixContact)])
      && (cfg.telegramEnabled && req.telegramPIN != "" ==>
            exists j :: 0 <= j < |w.telegramTokens| && w.telegramTokens[j].token == req.telegramPIN &&
              r.telegramLinks == w.telegramLinks[id := TelegramUser(w.telegramTokens[j].chatID, w.telegramTokens[j].username,
                                                                    MapGet(w.languages, w.telegramTokens[j].chatID, ""), req.telegramContact)])
      && (req.email != "" ==> r.emails == w.emails[id := EmailAddress(req.email, "", true, false)])
      && (req.email == "" ==> r.emails == w.emails)
      && (inv.userExpiry ==> r.users == w.users[id := ext.addDate(ext.now, inv.userMonths, inv.userDays) +
                                                       60 * (60 * inv.userHours + inv.userMinutes)])
      && (!inv.userExpiry ==> r.users == w.users)
  {
    var id := ext.accountID.value;
    CreatedIff(w, req, confirmed, cfg, ext);
    CreateFields(w, req, cfg, ext, id);
    var r := NewUserSpec(w, req, confirmed, cfg, ext).world;
    assert r == Create(w, req, cfg, ext, id).world;
    if cfg.telegramEnabled && req.telegramPIN != "" {
      var i := TokenIndex(w.telegramTokens, req.telegramPIN);
      assert 0 <= i < |w.telegramTokens| && w.telegramTokens[i].token == req.telegramPIN;
      assert r.telegramLinks == w.telegramLinks[id := LinkedTelegram(w.telegramTokens[i], w.languages, req.telegramContact)];
    }
  }

  /** What the NewUser handler answers. */
  datatype Reply = Message(status: int, message: string) | Validation(status: int)

  datatype HandlerResult = HandlerResult(world: World, reply: Reply)

  /**
   * The NewUser handler: the captcha, then checkInvite(code, false) (which
   * deletes an expired invite), then the password rules, then the required
   * address, then newUser with confirmed = false. The handler's check reads
   * the clock at `handlerNow`; newUser reads it again, at `ext.now`.
   */
  function NewUserHandlerSpec(w: World, req: NewUserRequest, cfg: Config, ext: Externals, handlerNow: int,
                              captchaOk: bool, passwordValid: bool, emailRequired: bool): (r: HandlerResult)
    ensures r.reply.Validation? ==> r.reply.status == 200
    ensures r.reply.Message? ==> r.reply.status == 400 || r.reply.status == 401 || r.reply.status == 500
    ensures r.world.profiles == w.profiles
    ensures !captchaOk ==> r.world == w && r.reply.Message? && r.reply.status == 400
  {
    if !captchaOk then HandlerResult(w, Message(400, "errorCaptcha"))
    else
      var c := Check(w.invites, req.code, false, "", handlerNow, cfg.emailEnabled && cfg.notificationsEnabled);
      var w1 := w.(invites := c.invites);
      if !c.valid then HandlerResult(w1, Message(401, "errorInvalidCode"))
      else if !passwordValid then HandlerResult(w1, Validation(200))
      else if cfg.emailEnabled && emailRequired && '@' !in req.email then HandlerResult(w1, Message(400, "errorNoEmail"))
      else
        var r := NewUserSpec(w1, req, false, cfg, ext);
        match r.outcome
        case Rejected(status, message) => HandlerResult(r.world, Message(status, message))
        case Created(_, _, _, _, _) => HandlerResult(r.world, Validation(200))
  }

  /**
   * An account is created through the handler only from an invite that is
   * present and unexpired when the handler checks it, and the state is then
   * that of one checkInvite(code, true) at newUser's own instant. An invite
   * still valid at that instant is consumed; one that expired in between is
   * deleted as expired, and the account is created all the same.
   */
  lemma {:induction false} HandlerCreatesOnlyFromValidInvite(w: World, req: NewUserRequest, cfg: Config, ext: Externals,
                                                             handlerNow: int, captchaOk: bool, passwordValid: bool,
                                                             emailRequired: bool)
    requires NewUserHandlerSpec(w, req, cfg, ext, handlerNow, captchaOk, passwordValid, emailRequired).reply == Validation(200)
    requires passwordValid
    ensures req.code in w.invites && !Expired(w.invites[req.code], handlerNow)
    ensures NewUserSpec(w, req, false, cfg, ext).outcome.Created?
    ensures NewUserHandlerSpec(w, req, cfg, ext, handlerNow, captchaOk, passwordValid, emailRequired).world.invites
         == Check(w.invites, req.code, true, req.username, ext.now, NotifyOn(cfg)).invites
    ensures var inv := w.invites[req.code];
      var after := NewUserHandlerSpec(w, req, cfg, ext, handlerNow, captchaOk, passwordValid, emailRequired).world.invites;
      && (!Expired(inv, ext.now) && inv.remainingUses == 1 ==> after == w.invites - {req.code})
      && (!Expired(inv, ext.now) && inv.remainingUses != 1 ==> after == w.invites[req.code := Consumed(inv, req.username, ext.now)])
      && (Expired(inv, ext.now) ==> after == w.invites - {req.code})
  {
    var c := Check(w.invites, req.code, false, "", handlerNow, NotifyOn(cfg));
    assert c.valid;
    assert c.invites == w.invites;
    var w1 := w.(invites := c.invites);
    assert w1 == w;
    CreatedIff(w, req, false, cfg, ext);
    CreationConsumesInvite(w, req, false, cfg, ext);
  }

  /** The objects newUser and the verification handlers work on. */
  class App {
    const storage: Storage
    const discord: DiscordDaemon
    const matrix: MatrixDaemon
    const telegram: TelegramDaemon

    constructor (storage: Storage, discord: DiscordDaemon, matrix: MatrixDaemon, telegram: TelegramDaemon)
      ensures this.storage == storage && this.discord == discord && this.matrix == matrix && this.telegram == telegram
    {
      this.storage := storage;
      this.discord := discord;
      this.matrix := matrix;
      this.telegram := telegram;
    }

    function Snapshot(): World
      reads storage, discord, matrix, telegram
    {
      World(storage.invites, storage.profiles, storage.emails, storage.users,
            storage.discord, storage.telegram, storage.matrix,
            discord.verifiedTokens, matrix.tokens, telegram.verifiedTokens, telegram.languages)
    }

    /** The pre-creation checks of newUser, step by step; `tIndex` is the Telegram token found, when the checks pass. */
    method Screen(req: NewUserRequest, cfg: Config, ext: Externals) returns (rejection: Option<Outcome>, tIndex: int)
      ensures rejection == Gate(Snapshot(), req, cfg, ext)
      ensures rejection.None? ==> tIndex == TelegramIndex(Snapshot(), req, cfg)
    {
      tIndex := -1;
      if ext.userExists {
        return Some(Rejected(401, ErrorUserExists)), tIndex;
      }
      if cfg.discordEnabled {
        if req.discordPIN == "" {
          if cfg.discordRequired {
            return Some(Rejected(401, ErrorDiscordVerification)), tIndex;
          }
        } else {
          if req.discordPIN !in discord.verifiedTokens {
            return Some(Rejected(401, ErrorInvalidPIN)), tIndex;
          }
          if !ext.applyRoleOk {
            return Some(Rejected(401, ErrorRole)), tIndex;
          }
        }
      }
      if cfg.matrixEnabled {
        if req.matrixPIN == "" {
          if cfg.matrixRequired {
            return Some(Rejected(401, ErrorMatrixVerification)), tIndex;
          }
        } else {
          if req.matrixPIN !in matrix.tokens || !matrix.tokens[req.matrixPIN].verified {
            return Some(Rejected(401, ErrorInvalidPIN)), tIndex;
          }
        }
      }
      if cfg.telegramEnabled {
        if req.telegramPIN == "" {
          if cfg.telegramRequired {
            return Some(Rejected(401, ErrorTelegramVerification)), tIndex;
          }
        } else {
          tIndex := FindToken(telegram.verifiedTokens, req.telegramPIN);
          if tIndex == -1 {
            return Some(Rejected(401, ErrorInvalidPIN)), tIndex;
          }
        }
      }
      rejection := None;
    }

    /** newUser, step by step: the checks, the confirmation gate, account creation, then provisioning. */
    method NewUser(req: NewUserRequest, confirmed: bool, cfg: Config, ext: Externals) returns (outcome: Outcome)
      modifies storage`invites, storage`emails, storage`users, storage`discord, storage`telegram, storage`matrix
      modifies discord`verifiedTokens, matrix`tokens, telegram`verifiedTokens
      ensures var r := NewUserSpec(old(Snapshot()), req, confirmed, cfg, ext);
        Snapshot() == r.world && outcome == r.outcome
      ensures storage.defaultProfile == old(storage.defaultProfile) && storage.profiles == old(storage.profiles)
    {
      var rejection, tIndex := Screen(req, cfg, ext);
      if rejection.Some? {
        return rejection.value;
      }
      if cfg.emailEnabled && cfg.emailConfirmation && !confirmed {
        if ext.confirmationKey.None? {
          return Rejected(500, ErrorUnknown);
        }
        var key := ext.confirmationKey.value;
        var inv := MapGet(storage.invites, req.code, ZeroInvite);
        inv := inv.(keys := inv.keys + [key]);
        storage.invites := storage.invites[req.code := inv];
        return Rejected(401, ConfirmEmail);
      }
      if ext.accountID.None? {
        return Rejected(401, ErrorUnknown);
      }
      outcome := Provision(req, cfg, ext, ext.accountID.value, tIndex);
    }

    /** Everything newUser does once the account `id` exists. */
    method Provision(req: NewUserRequest, cfg: Config, ext: Externals, id: string, tIndex: int) returns (outcome: Outcome)
      requires Gate(Snapshot(), req, cfg, ext).None? && tIndex == TelegramIndex(Snapshot(), req, cfg)
      modifies storage`invites, storage`emails, storage`users, storage`discord, storage`telegram, storage`matrix
      modifies discord`verifiedTokens, matrix`tokens, telegram`verifiedTokens
      ensures var r := Create(old(Snapshot()), req, cfg, ext, id);
        Snapshot() == r.world && outcome == r.outcome
    {
      outcome := Answer(req, cfg, id, tIndex);
      Register(req, cfg, ext, id);
      LinkDiscord(req, DiscordUsed(cfg, req), ext.storeDiscordOk, id);
      LinkTelegram(req, tIndex, ext.storeTelegramOk, id);
      LinkMatrix(req, MatrixUsed(cfg, req), id);
    }

    /** The answer newUser gives for the account `id`, read before anything is written. */
    method Answer(req: NewUserRequest, cfg: Config, id: string, tIndex: int) returns (outcome: Outcome)
      requires tIndex == TelegramIndex(Snapshot(), req, cfg)
      ensures outcome == CreatedOutcome(Snapshot(), req, cfg, id)
    {
      var invite := MapGet(storage.invites, req.code, ZeroInvite);
      var profile: Option<Profile> := None;
      var applyPolicy, applyHomescreen := false, false;
      if invite.profile != "" {
        var p := MapGet(storage.profiles, DefaultProfileName, ZeroProfile);
        if invite.profile in storage.profiles {
          p := storage.profiles[invite.profile];
        }
        profile := Some(p);
        applyPolicy := p.policySet;
        applyHomescreen := p.configurationSet && p.displayprefsSet;
      }
      var discordVerified := cfg.discordEnabled && req.discordPIN != "";
      var welcome := (cfg.emailEnabled && cfg.welcomeEmail && req.email != "") || tIndex != -1 || discordVerified;
      outcome := Created(id, profile, applyPolicy, applyHomescreen, welcome);
    }

    /** Consumption of the invite, the address and the account expiry. */
    method Register(req: NewUserRequest, cfg: Config, ext: Externals, id: string)
      modifies storage`invites, storage`emails, storage`users
      ensures Snapshot() == Registered(old(Snapshot()), req, cfg, ext, id)
    {
      var invite := MapGet(storage.invites, req.code, ZeroInvite);
      var valid, notified := storage.CheckInvite(req.code, true, req.username, ext.now, cfg.emailEnabled && cfg.notificationsEnabled);
      if req.email != "" {
        storage.emails := storage.emails[id := EmailAddress(req.email, "", true, false)];
      }
      if invite.userExpiry {
        storage.users := storage.users[id := ext.addDate(ext.now, invite.userMonths, invite.userDays) +
                                             60 * OffsetMinutes(invite.userHours, invite.userMinutes)];
      }
    }

    /** The Discord link of newUser. */
    method LinkDiscord(req: NewUserRequest, verified: bool, storeOk: bool, id: string)
      requires verified ==> req.discordPIN in discord.verifiedTokens
      modifies storage`discord, discord`verifiedTokens
      ensures Snapshot() == DiscordLinked(old(Snapshot()), req, verified, storeOk, id)
    {
      if verified {
        var discordUser := discord.verifiedTokens[req.discordPIN];
        discordUser := discordUser.(contact := req.discordContact);
        storage.discord := storage.discord[id := discordUser];
        if storeOk {
          discord.verifiedTokens := discord.verifiedTokens - {req.discordPIN};
        }
      }
    }

    /** The Telegram link of newUser. */
    method LinkTelegram(req: NewUserRequest, tIndex: int, storeOk: bool, id: string)
      requires -1 <= tIndex < |telegram.verifiedTokens|
      modifies storage`telegram, telegram`verifiedTokens
      ensures Snapshot() == TelegramLinked(old(Snapshot()), req.telegramContact, tIndex, storeOk, id)
    {
      if tIndex != -1 {
        var tgToken := telegram.verifiedTokens[tIndex];
        var tgUser := TelegramUser(tgToken.chatID, tgToken.username, "", req.telegramContact);
        if tgToken.chatID in telegram.languages {
          tgUser := tgUser.(lang := telegram.languages[tgToken.chatID]);
        }
        storage.telegram := storage.telegram[id := tgUser];
        if storeOk {
          telegram.SwapRemove(tIndex);
        }
      }
    }

    /** The Matrix link of newUser. */
    method LinkMatrix(req: NewUserRequest, verified: bool, id: string)
      requires verified ==> req.matrixPIN in matrix.tokens
      modifies storage`matrix, matrix`tokens
      ensures Snapshot() == MatrixLinked(old(Snapshot()), req, verified, id)
    {
      if verified {
        var matrixUser := matrix.tokens[req.matrixPIN].user;
        matrixUser := matrixUser.(contact := req.matrixContact);
        matrix.tokens := matrix.tokens - {req.matrixPIN};
        storage.matrix := storage.matrix[id := matrixUser];
      }
    }

    /**
     * MatrixCheckPIN: an unknown invite answers 401 false; an unknown PIN or
     * one sent to another user answers 200 false; otherwise the PIN is marked
     * Verified and the answer is 200 true.
     */
    method MatrixCheckPIN(code: string, userID: string, pin: string) returns (status: int, ok: bool)
      modifies matrix`tokens
      ensures code !in storage.invites ==> status == 401 && !ok && matrix.tokens == old(matrix.tokens)
      ensures code in storage.invites && (pin !in old(matrix.tokens) || old(matrix.tokens)[pin].user.userID != userID) ==>
        status == 200 && !ok && matrix.tokens == old(matrix.tokens)
      ensures code in storage.invites && pin in old(matrix.tokens) && old(matrix.tokens)[pin].user.userID == userID ==>
        status == 200 && ok && matrix.tokens == old(matrix.tokens)[pin := old(matrix.tokens)[pin].(verified := true)]
    {
      if code !in storage.invites {
        return 401, false;
      }
      if pin !in matrix.tokens {
        return 200, false;
      }
      var user := matrix.tokens[pin];
      if user.user.userID != userID {
        return 200, false;
      }
      user := user.(verified := true);
      matrix.tokens := matrix.tokens[pin := user];
      return 200, true;
    }

    /**
     * TelegramAddUser: an empty token or ID answers 400 and an unknown token
     * 500, changing nothing; otherwise the account's Telegram link is set
     * with Contact on, the token is swap-removed only when the save
     * succeeded, and the answer is 200.
     */
    method TelegramAddUser(token: string, id: string, storeOk: bool) returns (status: int)
      modifies storage`telegram, telegram`verifiedTokens
      ensures token == "" || id == "" ==>
        status == 400 && storage.telegram == old(storage.telegram) && telegram.verifiedTokens == old(telegram.verifiedTokens)
      ensures token != "" && id != "" && TokenIndex(old(telegram.verifiedTokens), token) == -1 ==>
        status == 500 && storage.telegram == old(storage.telegram) && telegram.verifiedTokens == old(telegram.verifiedTokens)
      ensures var i := TokenIndex(old(telegram.verifiedTokens), token);
        token != "" && id != "" && i != -1 ==>
          && status == 200
          && storage.telegram == old(storage.telegram)[id := LinkedTelegram(old(telegram.verifiedTokens)[i], telegram.languages, true)]
          && telegram.verifiedTokens == (if storeOk then SwapRemoved(old(telegram.verifiedTokens), i) else old(telegram.verifiedTokens))
    {
      if token == "" || id == "" {
        return 400;
      }
      var tokenIndex := FindToken(telegram.verifiedTokens, token);
      if tokenIndex == -1 {
        return 500;
      }
      var tgToken := telegram.verifiedTokens[tokenIndex];
      var tgUser := TelegramUser(tgToken.chatID, tgToken.username, "", true);
      if tgToken.chatID in telegram.languages {
        tgUser := tgUser.(lang := telegram.languages[tgToken.chatID]);
      }
      storage.telegram := storage.telegram[id := tgUser];
      if storeOk {
        telegram.SwapRemove(tokenIndex);
      }
      return 200;
    }

    /** TelegramVerified: 200, and true exactly when some verified token equals the PIN. */
    method TelegramVerified(pin: string) returns (status: int, ok: bool)
      ensures status == 200
      ensures ok <==> exists j :: 0 <= j < |telegram.verifiedTokens| && telegram.verifiedTokens[j].token == pin
    {
      var tokenIndex := FindToken(telegram.verifiedTokens, pin);
      if tokenIndex != -1 {
        assert telegram.verifiedTokens[tokenIndex].token == pin;
      }
      return 200, tokenIndex != -1;
    }

    /** TelegramVerifiedInvite: 401 false for an unknown invite, otherwise as TelegramVerified. */
    method TelegramVerifiedInvite(code: string, pin: string) returns (status: int, ok: bool)
      ensures code !in storage.invites ==> status == 401 && !ok
      ensures code in storage.invites ==>
        status == 200 && (ok <==> exists j :: 0 <= j < |telegram.verifiedTokens| && telegram.verifiedTokens[j].token == pin)
    {
      if code !in storage.invites {
        return 401, false;
      }
      var tokenIndex := FindToken(telegram.verifiedTokens, pin);
      if tokenIndex != -1 {
        assert telegram.verifiedTokens[tokenIndex].token == pin;
      }
      return 200, tokenIndex != -1;
    }

    /** DiscordVerifiedInvite: 401 false for an unknown invite, otherwise 200 and whether the PIN is verified. */
    method DiscordVerifiedInvite(code: string, pin: string) returns (status: int, ok: bool)
      ensures code !in storage.invites ==> status == 401 && !ok
      ensures code in storage.invites ==> status == 200 && (ok <==> pin in discord.verifiedTokens)
    {
      if code !in storage.invites {
        return 401, false;
      }
      return 200, pin in discord.verifiedTokens;
    }
  }
}
