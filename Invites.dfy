/**
 * Invites as values and the rules that decide how an invite is created,
 * validated, consumed and displayed. Time is Unix seconds.
 */
module Invites {
  import opened Basics

  /** Per-administrator notification flags, keyed "notify-expiry" / "notify-creation". */
  type NotifySettings = map<string, bool>

  datatype Invite = Invite(
    created: int,
    labelText: string,
    validTill: int,
    remainingUses: int,
    noLimit: bool,
    userExpiry: bool,
    userMonths: int,
    userDays: int,
    userHours: int,
    userMinutes: int,
    profile: string,
    usedBy: seq<(string, int)>,
    notify: map<string, NotifySettings>,
    sendTo: string,
    keys: seq<string>)

  /** Go's zero time.Time (January 1 of year 1, UTC) in Unix seconds. */
  const ZeroTime: int := -62135596800

  /** The zero Invite a Go map read yields for a missing code. */
  const ZeroInvite := Invite(ZeroTime, "", ZeroTime, 0, false, false, 0, 0, 0, 0, "", [], map[], "", [])

  const NotifyExpiry := "notify-expiry"
  const NotifyCreation := "notify-creation"

  /** Go's settings[key] on a map[string]bool: false when the key is missing. */
  function Flag(settings: NotifySettings, key: string): bool
  {
    MapGet(settings, key, false)
  }

  /** An invite has expired once the current time is strictly after ValidTill. */
  predicate Expired(inv: Invite, now: int)
  {
    now > inv.validTill
  }

  /**
   * The administrators sent an expiry notice when an invite is deleted as
   * expired; `notifyOn` is "email enabled and notifications enabled".
   */
  function ExpiryRecipients(inv: Invite, notifyOn: bool): (r: set<string>)
    ensures forall a :: a in r <==> notifyOn && a in inv.notify && Flag(inv.notify[a], NotifyExpiry)
  {
    if notifyOn && |inv.notify| != 0 then set a | a in inv.notify && Flag(inv.notify[a], NotifyExpiry) else {}
  }

  /** Result of checkInvite: whether the code was valid, the new invite map and the expiry notices sent. */
  datatype CheckResult = CheckResult(valid: bool, invites: map<string, Invite>, notified: set<string>)

  /** A kept invite after one use: the counter drops by one unless it is 0 ("no limit"), and the use is recorded. */
  function Consumed(inv: Invite, username: string, now: int): (r: Invite)
    ensures r.remainingUses == (if inv.remainingUses == 0 then 0 else inv.remainingUses - 1)
    ensures r.usedBy == inv.usedBy + [(username, now)]
    ensures r == inv.(remainingUses := r.remainingUses, usedBy := r.usedBy)
  {
    var uses := if inv.remainingUses != 0 then inv.remainingUses - 1 else inv.remainingUses;
    inv.(remainingUses := uses, usedBy := inv.usedBy + [(username, now)])
  }

  /**
   * checkInvite(code, used, username) at time `now`: a missing code is invalid
   * and changes nothing; an expired invite is deleted and invalid whatever its
   * use count; an unexpired invite is valid, and when `used` it is deleted at
   * one remaining use and otherwise kept with one more UsedBy entry.
   */
  function Check(invites: map<string, Invite>, code: string, used: bool, username: string, now: int, notifyOn: bool): (r: CheckResult)
    ensures code !in invites ==> r == CheckResult(false, invites, {})
    ensures code in invites && Expired(invites[code], now) ==>
      !r.valid && r.invites == invites - {code} && r.notified == ExpiryRecipients(invites[code], notifyOn)
    ensures code in invites && !Expired(invites[code], now) ==> r.valid && r.notified == {}
    ensures code in invites && !Expired(invites[code], now) && !used ==> r.invites == invites
    ensures code in invites && !Expired(invites[code], now) && used ==>
      if invites[code].remainingUses == 1 then r.invites == invites - {code}
      else r.invites == invites[code := Consumed(invites[code], username, now)]
    ensures forall c :: c != code ==> (c in r.invites <==> c in invites)
    ensures forall c :: c != code && c in r.invites ==> r.invites[c] == invites[c]
    ensures r.valid ==> code in invites
  {
    if code !in invites then CheckResult(false, invites, {})
    else
      var inv := invites[code];
      if Expired(inv, now) then CheckResult(false, invites - {code}, ExpiryRecipients(inv, notifyOn))
      else if !used then CheckResult(true, invites, {})
      else if inv.remainingUses == 1 then CheckResult(true, invites - {code}, {})
      else CheckResult(true, invites[code := Consumed(inv, username, now)], {})
  }

  /** The use counts the store starts from when every invite came from GenerateInvite with a non-negative count. */
  ghost predicate UsesNonNegative(invites: map<string, Invite>)
  {
    forall c :: c in invites ==> invites[c].remainingUses >= 0
  }

  /** checkInvite never takes a counter below zero. */
  lemma CheckKeepsUsesNonNegative(invites: map<string, Invite>, code: string, used: bool, username: string, now: int, notifyOn: bool)
    requires UsesNonNegative(invites)
    ensures UsesNonNegative(Check(invites, code, used, username, now, notifyOn).invites)
  {
  }

  /** `names` consume the invite one after the other; the results of the calls and the final map. */
  function ConsumeAll(invites: map<string, Invite>, code: string, names: seq<string>, now: int): (r: (seq<bool>, map<string, Invite>))
    ensures |r.0| == |names|
    decreases |names|
  {
    if names == [] then ([], invites)
    else
      var r := Check(invites, code, true, names[0], now, false);
      var rest := ConsumeAll(r.invites, code, names[1..], now);
      ([r.valid] + rest.0, rest.1)
  }

  /**
   * An unexpired invite with N >= 1 remaining uses admits exactly N
   * consumptions: each of them succeeds, the invite is gone afterwards, and
   * the next check reports it invalid.
   */
  lemma {:induction false} UsesExhaust(invites: map<string, Invite>, code: string, names: seq<string>, now: int, next: string)
    requires code in invites && !Expired(invites[code], now)
    requires |names| >= 1 && invites[code].remainingUses == |names|
    ensures forall k :: 0 <= k < |names| ==> ConsumeAll(invites, code, names, now).0[k]
    ensures code !in ConsumeAll(invites, code, names, now).1
    ensures !Check(ConsumeAll(invites, code, names, now).1, code, true, next, now, false).valid
  {
    var r := Check(invites, code, true, names[0], now, false);
    if |names| > 1 {
      assert r.invites[code].remainingUses == |names[1..]|;
      UsesExhaust(r.invites, code, names[1..], now, next);
    }
  }

  /** The UsedBy entries that consumptions by `names` at time `now` append. */
  function Stamped(names: seq<string>, now: int): seq<(string, int)>
  {
    if names == [] then [] else [(names[0], now)] + Stamped(names[1..], now)
  }

  /** One use of an unexpired "no limit" invite keeps it, still unexpired and at 0, with the user recorded. */
  lemma NoLimitStep(invites: map<string, Invite>, code: string, name: string, now: int)
    requires code in invites && !Expired(invites[code], now) && invites[code].remainingUses == 0
    ensures var r := Check(invites, code, true, name, now, false);
      && r.valid && code in r.invites && !Expired(r.invites[code], now) && r.invites[code].remainingUses == 0
      && r.invites[code].usedBy == invites[code].usedBy + [(name, now)]
  {
  }

  /**
   * An unexpired "no limit" invite (RemainingUses 0) is never used up: after
   * any number of consumptions it is present, still at 0, and has recorded
   * each user in order.
   */
  lemma {:induction false} NoLimitNeverExhausts(invites: map<string, Invite>, code: string, names: seq<string>, now: int)
    requires code in invites && !Expired(invites[code], now) && invites[code].remainingUses == 0
    ensures code in ConsumeAll(invites, code, names, now).1
    ensures ConsumeAll(invites, code, names, now).1[code].remainingUses == 0
    ensures ConsumeAll(invites, code, names, now).1[code].usedBy == invites[code].usedBy + Stamped(names, now)
    ensures forall k :: 0 <= k < |names| ==> ConsumeAll(invites, code, names, now).0[k]
  {
    if names != [] {
      var r := Check(invites, code, true, names[0], now, false);
      NoLimitStep(invites, code, names[0], now);
      var rest := ConsumeAll(r.invites, code, names[1..], now);
      assert ConsumeAll(invites, code, names, now) == ([r.valid] + rest.0, rest.1);
      NoLimitNeverExhausts(r.invites, code, names[1..], now);
      assert invites[code].usedBy + [(names[0], now)] + Stamped(names[1..], now)
          == invites[code].usedBy + Stamped(names, now);
    }
  }

  /** The body of a generateInviteDTO request that shapes the stored invite. */
  datatype InviteRequest = InviteRequest(
    labelText: string,
    months: int, days: int, hours: int, minutes: int,
    multipleUses: bool, noLimit: bool, remainingUses: int,
    userExpiry: bool, userMonths: int, userDays: int, userHours: int, userMinutes: int,
    profile: string)

  /**
   * The invite GenerateInvite stores. `addDate` stands for Go's
   * Time.AddDate(0, months, days); `sendTo` is the delivery note the
   * invite-sending step produced ("" when nothing was sent);
   * `profiles` are the names of the stored profiles.
   */
  function NewInvite(req: InviteRequest, now: int, addDate: (int, int, int) -> int, sendTo: string, profiles: set<string>): (inv: Invite)
    ensures !req.multipleUses ==> inv.remainingUses == 1 && !inv.noLimit
    ensures req.multipleUses && req.noLimit ==> inv.noLimit && inv.remainingUses == 0
    ensures req.multipleUses && !req.noLimit ==> !inv.noLimit && inv.remainingUses == req.remainingUses
    ensures inv.userExpiry == req.userExpiry
    ensures req.userExpiry ==> (inv.userMonths, inv.userDays, inv.userHours, inv.userMinutes)
                               == (req.userMonths, req.userDays, req.userHours, req.userMinutes)
    ensures !req.userExpiry ==> inv.userMonths == inv.userDays == inv.userHours == inv.userMinutes == 0
    ensures req.profile == "" ==> inv.profile == ""
    ensures req.profile != "" && req.profile in profiles ==> inv.profile == req.profile
    ensures req.profile != "" && req.profile !in profiles ==> inv.profile == "Default"
    ensures inv.created == now && inv.labelText == req.labelText && inv.sendTo == sendTo
    ensures inv.validTill == addDate(now, req.months, req.days) + 60 * OffsetMinutes(req.hours, req.minutes)
    ensures inv.usedBy == [] && inv.notify == map[] && inv.keys == []
  {
    var uses := if req.multipleUses then (if req.noLimit then 0 else req.remainingUses) else 1;
    var profile := if req.profile == "" then "" else if req.profile in profiles then req.profile else "Default";
    Invite(now, req.labelText, addDate(now, req.months, req.days) + 60 * OffsetMinutes(req.hours, req.minutes),
           uses, req.multipleUses && req.noLimit, req.userExpiry,
           if req.userExpiry then req.userMonths else 0, if req.userExpiry then req.userDays else 0,
           if req.userExpiry then req.userHours else 0, if req.userExpiry then req.userMinutes else 0,
           profile, [], map[], sendTo, [])
  }

  /** A freshly generated single-use invite is deleted by the first consumption before it expires. */
  lemma SingleUseInviteConsumedOnce(invites: map<string, Invite>, code: string, req: InviteRequest, now: int,
                                    addDate: (int, int, int) -> int, sendTo: string, profiles: set<string>,
                                    later: int, username: string)
    requires !req.multipleUses
    requires later <= NewInvite(req, now, addDate, sendTo, profiles).validTill
    ensures var r := Check(invites[code := NewInvite(req, now, addDate, sendTo, profiles)], code, true, username, later, false);
      r.valid && code !in r.invites
  {
  }

  /** Acceptable invite codes: GenerateInvite redraws while strconv.Atoi accepts the first character. */
  predicate AcceptableCode(code: string)
  {
    |code| > 0 && !IsDecimalDigit(code[0])
  }

  /**
   * GenerateInvite's redraw loop over the codes the generator yields in turn.
   * The generator (shortuuid) always yields non-empty codes and eventually
   * one that does not start with a digit.
   */
  method PickCode(candidates: seq<string>) returns (k: nat, code: string)
    requires forall j :: 0 <= j < |candidates| ==> |candidates[j]| > 0
    requires exists j :: 0 <= j < |candidates| && AcceptableCode(candidates[j])
    ensures k < |candidates| && code == candidates[k]
    ensures AcceptableCode(code)
    ensures forall j :: 0 <= j < k ==> IsDecimalDigit(candidates[j][0])
  {
    ghost var w :| 0 <= w < |candidates| && AcceptableCode(candidates[w]);
    k := 0;
    code := candidates[0];
    while IsDecimalDigit(code[0])
      invariant k <= w && code == candidates[k]
      invariant forall j :: 0 <= j < k ==> IsDecimalDigit(candidates[j][0])
      decreases w - k
    {
      k := k + 1;
      code := candidates[k];
    }
  }

  /** GetInvites shows RemainingUses, with 0 ("no limit") shown as 1. */
  function DisplayedUses(inv: Invite): (shown: int)
    ensures inv.remainingUses != 0 ==> shown == inv.remainingUses
    ensures inv.remainingUses == 0 ==> shown == 1
    ensures inv.remainingUses >= 0 ==> shown >= 1
  {
    if inv.remainingUses != 0 then inv.remainingUses else 1
  }

  /** Result of merging one SetNotify request entry into an invite's Notify map. */
  datatype NotifyMerge = NotifyMerge(notify: map<string, NotifySettings>, changed: bool)

  /** Set one flag when the request carries it and it differs from the current (missing = false) value. */
  function MergeFlag(current: NotifySettings, settings: NotifySettings, key: string): (r: (NotifySettings, bool))
    ensures r.1 <==> key in settings && Flag(current, key) != settings[key]
    ensures r.1 ==> r.0 == current[key := settings[key]]
    ensures !r.1 ==> r.0 == current
  {
    if key in settings && Flag(current, key) != settings[key] then (current[key := settings[key]], true)
    else (current, false)
  }

  /**
   * SetNotify for one invite and the administrator `address`: the entry for
   * `address` is created if missing and each of the two flags the request
   * carries is set; nothing else in the map changes.
   */
  function MergeNotify(notify: map<string, NotifySettings>, address: string, settings: NotifySettings): (r: NotifyMerge)
    ensures r.notify.Keys == notify.Keys + {address}
    ensures forall a :: a in notify && a != address ==> r.notify[a] == notify[a]
    ensures forall key :: key == NotifyExpiry || key == NotifyCreation ==>
      Flag(r.notify[address], key) == (if key in settings then settings[key] else Flag(MapGet(notify, address, map[]), key))
    ensures forall key :: key in MapGet(notify, address, map[]) ==> key in r.notify[address]
    ensures forall key :: key != NotifyExpiry && key != NotifyCreation ==>
      (key in r.notify[address] <==> key in MapGet(notify, address, map[])) &&
      (key in r.notify[address] ==> r.notify[address][key] == MapGet(notify, address, map[])[key])
    ensures r.changed <==> exists key :: (key == NotifyExpiry || key == NotifyCreation) && key in settings &&
                                         settings[key] != Flag(MapGet(notify, address, map[]), key)
  {
    var current := MapGet(notify, address, map[]);
    var e := MergeFlag(current, settings, NotifyExpiry);
    var c := MergeFlag(e.0, settings, NotifyCreation);
    NotifyMerge(notify[address := c.0], e.1 || c.1)
  }
}
