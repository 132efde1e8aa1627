/**
 * app.storage as an object whose maps the handlers update in place: the
 * invites, the profiles and the default profile, the contact addresses,
 * the account expiries and the linked chat identities.
 */
module Store {
  import opened Basics
  import opened Records
  import opened Invites
  import opened Responses

  /** Result of a SetNotify run over the request entries. */
  datatype NotifyRun = NotifyRun(status: int, invites: map<string, Invite>, changed: bool)

  /**
   * SetNotify over the request entries in the order the map range visits
   * them: a missing code answers 400 and a missing administrator contact
   * answers 500, each stopping the run with the earlier updates kept; every
   * other entry is merged, and the invite is written back while any entry so
   * far has changed a flag. `addressOk` is false only when Jellyfin login is
   * on and the administrator has no contact method.
   */
  function NotifyAll(invites: map<string, Invite>, entries: seq<(string, NotifySettings)>, addressOk: bool,
                     address: string, changed: bool): (r: NotifyRun)
    ensures r.invites.Keys == invites.Keys
    ensures r.status == 200 <==> (forall k :: 0 <= k < |entries| ==> entries[k].0 in invites) && (entries == [] || addressOk)
    ensures r.status == 200 || r.status == 400 || r.status == 500
    ensures r.status == 200 ==> (r.changed <==> changed || exists k :: 0 <= k < |entries| && NotifyChanges(invites, entries[k], address))
    decreases |entries|
  {
    if entries == [] then NotifyRun(200, invites, changed)
    else
      var code := entries[0].0;
      if code !in invites then NotifyRun(400, invites, changed)
      else if !addressOk then NotifyRun(500, invites, changed)
      else
        var m := MergeNotify(invites[code].notify, address, entries[0].1);
        var ch := changed || m.changed;
        var next := if ch then invites[code := invites[code].(notify := m.notify)] else invites;
        var r := NotifyAll(next, entries[1..], addressOk, address, ch);
        NotifyChangesFrame(invites, next, entries, address);
        r
  }

  /** Whether merging entry `e` into the invite it names changes one of its flags. */
  predicate NotifyChanges(invites: map<string, Invite>, e: (string, NotifySettings), address: string)
  {
    e.0 in invites && MergeNotify(invites[e.0].notify, address, e.1).changed
  }

  /** When `next` differs from `invites` only at the first entry's code, later entries with other codes merge the same way. */
  lemma NotifyChangesFrame(invites: map<string, Invite>, next: map<string, Invite>, entries: seq<(string, NotifySettings)>, address: string)
    requires |entries| > 0 && entries[0].0 in invites
    requires next.Keys == invites.Keys
    requires forall c :: c in next && c != entries[0].0 ==> next[c] == invites[c]
    requires next[entries[0].0].notify == invites[entries[0].0].notify ||
             next[entries[0].0].notify == MergeNotify(invites[entries[0].0].notify, address, entries[0].1).notify
    ensures forall k :: 1 <= k < |entries| && entries[k].0 != entries[0].0 ==>
      (NotifyChanges(next, entries[k], address) <==> NotifyChanges(invites, entries[k], address))
  {
  }

  /** SetNotify only touches the invites its request names. */
  lemma {:induction false} NotifyAllOthersUnchanged(invites: map<string, Invite>, entries: seq<(string, NotifySettings)>,
                                                   addressOk: bool, address: string, changed: bool, c: string)
    requires c in invites
    requires forall k :: 0 <= k < |entries| ==> entries[k].0 != c
    ensures NotifyAll(invites, entries, addressOk, address, changed).invites[c] == invites[c]
  {
    if entries != [] && entries[0].0 in invites && addressOk {
      var code := entries[0].0;
      var m := MergeNotify(invites[code].notify, address, entries[0].1);
      var ch := changed || m.changed;
      var next := if ch then invites[code := invites[code].(notify := m.notify)] else invites;
      NotifyAllOthersUnchanged(next, entries[1..], addressOk, address, ch, c);
    }
  }

  /**
   * On a successful run with distinct codes, every flag a request entry
   * carries is what the invite it names now holds for `address` (a missing
   * entry or flag reading as false).
   */
  lemma {:induction false} NotifyAllSetsFlags(invites: map<string, Invite>, entries: seq<(string, NotifySettings)>,
                                             addressOk: bool, address: string, changed: bool)
    requires forall i, j :: 0 <= i < j < |entries| ==> entries[i].0 != entries[j].0
    requires NotifyAll(invites, entries, addressOk, address, changed).status == 200
    ensures forall k, key :: 0 <= k < |entries| && (key == NotifyExpiry || key == NotifyCreation) && key in entries[k].1 ==>
      var r := NotifyAll(invites, entries, addressOk, address, changed).invites;
      Flag(MapGet(r[entries[k].0].notify, address, map[]), key) == entries[k].1[key]
  {
    if entries != [] {
      var code := entries[0].0;
      var settings := entries[0].1;
      var m := MergeNotify(invites[code].notify, address, settings);
      var ch := changed || m.changed;
      var next := if ch then invites[code := invites[code].(notify := m.notify)] else invites;
      var tail := entries[1..];
      assert forall i, j :: 0 <= i < j < |tail| ==> tail[i].0 != tail[j].0 by {
        forall i, j | 0 <= i < j < |tail| ensures tail[i].0 != tail[j].0 {
          assert tail[i] == entries[i + 1] && tail[j] == entries[j + 1];
        }
      }
      NotifyAllSetsFlags(next, tail, addressOk, address, ch);
      assert forall k :: 0 <= k < |tail| ==> tail[k].0 != code by {
        forall k | 0 <= k < |tail| ensures tail[k].0 != code {
          assert tail[k] == entries[k + 1];
        }
      }
      NotifyAllOthersUnchanged(next, tail, addressOk, address, ch, code);
      var r := NotifyAll(invites, entries, addressOk, address, changed).invites;
      assert r == NotifyAll(next, tail, addressOk, address, ch).invites;
      forall key | (key == NotifyExpiry || key == NotifyCreation) && key in settings
        ensures Flag(MapGet(r[code].notify, address, map[]), key) == settings[key]
      {
        if !ch {
          assert !m.changed;
        }
      }
      forall k, key | 1 <= k < |entries| && (key == NotifyExpiry || key == NotifyCreation) && key in entries[k].1
        ensures Flag(MapGet(r[entries[k].0].notify, address, map[]), key) == entries[k].1[key]
      {
        assert entries[k] == tail[k - 1];
      }
    }
  }

  /** The account-expiry map after ExtendExpiry's loop over `ids`: each listed ID is pushed forward from its expiry, or from `now` when it has none. */
  function Extended(users: map<string, int>, ids: seq<string>, months: int, days: int, hours: int, minutes: int,
                    now: int, addDate: (int, int, int) -> int): map<string, int>
  {
    if ids == [] then users
    else
      var m := Extended(users, ids[..|ids| - 1], months, days, hours, minutes, now, addDate);
      var id := ids[|ids| - 1];
      m[id := addDate(MapGet(m, id, now), months, days) + 60 * OffsetMinutes(hours, minutes)]
  }

  /**
   * ExtendExpiry gives an expiry to every listed ID and to no other; an ID
   * listed once is extended once from its old expiry (or from `now`), and
   * IDs not listed keep theirs.
   */
  lemma {:induction false} ExtendedEntries(users: map<string, int>, ids: seq<string>, months: int, days: int, hours: int,
                                          minutes: int, now: int, addDate: (int, int, int) -> int)
    requires forall i, j :: 0 <= i < j < |ids| ==> ids[i] != ids[j]
    ensures var r := Extended(users, ids, months, days, hours, minutes, now, addDate);
      && (forall id :: id in r <==> id in users || id in ids)
      && (forall id :: id in users && id !in ids ==> r[id] == users[id])
      && (forall id :: id in ids ==> r[id] == addDate(MapGet(users, id, now), months, days) + 60 * OffsetMinutes(hours, minutes))
  {
    if ids != [] {
      var init := ids[..|ids| - 1];
      var last := ids[|ids| - 1];
      ExtendedEntries(users, init, months, days, hours, minutes, now, addDate);
      assert last !in init by {
        forall k | 0 <= k < |init| ensures init[k] != last {
          assert init[k] == ids[k];
        }
      }
      forall id ensures id in ids <==> id in init || id == last {
        if id in ids {
          var k :| 0 <= k < |ids| && ids[k] == id;
          if k < |ids| - 1 { assert init[k] == id; }
        }
        if id in init {
          var k :| 0 <= k < |init| && init[k] == id;
          assert ids[k] == id;
        }
      }
    }
  }

  class Storage {
    var invites: map<string, Invite>
    var profiles: map<string, Profile>
    var defaultProfile: string
    var emails: map<string, EmailAddress>
    /** Account expiries by user ID. */
    var users: map<string, int>
    var discord: map<string, DiscordUser>
    var telegram: map<string, TelegramUser>
    var matrix: map<string, MatrixUser>

    constructor ()
      ensures invites == map[] && profiles == map[] && defaultProfile == "" && emails == map[]
      ensures users == map[] && discord == map[] && telegram == map[] && matrix == map[]
    {
      invites := map[];
      profiles := map[];
      defaultProfile := "";
      emails := map[];
      users := map[];
      discord := map[];
      telegram := map[];
      matrix := map[];
    }

    /** checkInvite, step by step; `notified` are the administrators sent an expiry notice. */
    method CheckInvite(code: string, used: bool, username: string, now: int, notifyOn: bool) returns (valid: bool, notified: set<string>)
      modifies this`invites
      ensures var r := Check(old(invites), code, used, username, now, notifyOn);
        valid == r.valid && invites == r.invites && notified == r.notified
    {
      notified := {};
      if code !in invites {
        return false, {};
      }
      var inv := invites[code];
      valid := true;
      if now > inv.validTill {
        notified := ExpiryRecipients(inv, notifyOn);
        valid := false;
        invites := invites - {code};
      } else if used {
        var del := false;
        var newInv := inv;
        if newInv.remainingUses == 1 {
          del := true;
          invites := invites - {code};
        } else if newInv.remainingUses != 0 {
          newInv := newInv.(remainingUses := newInv.remainingUses - 1);
        }
        newInv := newInv.(usedBy := newInv.usedBy + [(username, now)]);
        if !del {
          invites := invites[code := newInv];
        }
      }
    }

    /**
     * checkInvites: every expired invite is deleted, with its expiry notices,
     * and every other invite is kept unchanged. `changed` says whether
     * anything was deleted (and so saved).
     */
    method CheckInvites(now: int, notifyOn: bool) returns (changed: bool, notified: map<string, set<string>>)
      modifies this`invites
      ensures forall c :: c in invites <==> c in old(invites) && !Expired(old(invites)[c], now)
      ensures forall c :: c in invites ==> invites[c] == old(invites)[c]
      ensures forall c :: c in notified <==> c in old(invites) && Expired(old(invites)[c], now)
      ensures forall c :: c in notified ==> notified[c] == ExpiryRecipients(old(invites)[c], notifyOn)
      ensures changed <==> exists c :: c in old(invites) && Expired(old(invites)[c], now)
    {
      changed := false;
      notified := map[];
      var pending := invites.Keys;
      while pending != {}
        invariant pending <= old(invites).Keys
        invariant forall c :: c in invites <==> c in old(invites) && (c in pending || !Expired(old(invites)[c], now))
        invariant forall c :: c in invites ==> invites[c] == old(invites)[c]
        invariant forall c :: c in notified <==> c in old(invites) && c !in pending && Expired(old(invites)[c], now)
        invariant forall c :: c in notified ==> notified[c] == ExpiryRecipients(old(invites)[c], notifyOn)
        invariant changed <==> exists c :: c in notified
        decreases pending
      {
        var code :| code in pending;
        pending := pending - {code};
        var data := invites[code];
        if !(now > data.validTill) {
          continue;
        }
        notified := notified[code := ExpiryRecipients(data, notifyOn)];
        changed := true;
        invites := invites - {code};
      }
    }

    /**
     * GenerateInvite: the code is the first candidate that does not start
     * with a digit, and the new invite is stored under it, replacing any
     * invite already there.
     */
    method GenerateInvite(req: InviteRequest, now: int, addDate: (int, int, int) -> int, sendTo: string,
                          candidates: seq<string>) returns (code: string)
      requires forall j :: 0 <= j < |candidates| ==> |candidates[j]| > 0
      requires exists j :: 0 <= j < |candidates| && AcceptableCode(candidates[j])
      modifies this`invites
      ensures AcceptableCode(code) && code in candidates
      ensures invites == old(invites)[code := NewInvite(req, now, addDate, sendTo, profiles.Keys)]
    {
      var k;
      k, code := PickCode(candidates);
      invites := invites[code := NewInvite(req, now, addDate, sendTo, profiles.Keys)];
    }

    /** DeleteInvite: 200 and the code is gone when it existed, 400 and nothing changes otherwise. */
    method DeleteInvite(code: string) returns (status: int)
      modifies this`invites
      ensures code in old(invites) ==> status == 200 && invites == old(invites) - {code}
      ensures code !in old(invites) ==> status == 400 && invites == old(invites)
    {
      if code in invites {
        invites := invites - {code};
        return 200;
      }
      return 400;
    }

    /**
     * SetProfile: a non-empty name that is not a stored profile answers 500
     * and changes nothing; otherwise the invite (a zero invite when the code
     * is unknown) gets the profile.
     */
    method SetProfile(code: string, profile: string) returns (status: int)
      modifies this`invites
      ensures profile != "" && profile !in profiles ==> status == 500 && invites == old(invites)
      ensures profile == "" || profile in profiles ==>
        status == 200 && invites == old(invites)[code := MapGet(old(invites), code, ZeroInvite).(profile := profile)]
    {
      if profile !in profiles && profile != "" {
        return 500;
      }
      var inv := MapGet(invites, code, ZeroInvite);
      inv := inv.(profile := profile);
      invites := invites[code := inv];
      return 200;
    }

    /**
     * SetNotify over `entries` in the order given. `jfID` is the logged-in
     * administrator and `addressAvailable` whether it has a contact method;
     * `configEmail` is the configured administrator address used without
     * Jellyfin login. `stored` is whether the invites are saved.
     */
    method SetNotify(entries: seq<(string, NotifySettings)>, jellyfinLogin: bool, jfID: string, addressAvailable: bool,
                     configEmail: string) returns (status: int, stored: bool)
      modifies this`invites
      ensures var r := NotifyAll(old(invites), entries, !jellyfinLogin || addressAvailable,
                                 if jellyfinLogin then jfID else configEmail, false);
        status == r.status && invites == r.invites && (stored <==> status == 200 && r.changed)
    {
      var changed := false;
      var addressOk := !jellyfinLogin || addressAvailable;
      var address := if jellyfinLogin then jfID else configEmail;
      var i := 0;
      while i < |entries|
        invariant 0 <= i <= |entries|
        invariant NotifyAll(invites, entries[i..], addressOk, address, changed) == NotifyAll(old(invites), entries, addressOk, address, false)
      {
        var code := entries[i].0;
        var settings := entries[i].1;
        assert entries[i..][0] == entries[i] && entries[i..][1..] == entries[i + 1..];
        if code !in invites {
          return 400, false;
        }
        if jellyfinLogin && !addressAvailable {
          return 500, false;
        }
        var invite := invites[code];
        var m := MergeNotify(invite.notify, address, settings);
        changed := changed || m.changed;
        if changed {
          invites := invites[code := invite.(notify := m.notify)];
        }
        i := i + 1;
      }
      status := 200;
      stored := changed;
    }

    /**
     * SetDefaultProfile: an unknown name answers 500 and changes nothing; a
     * known one gets Admin set and becomes the default. The loop also clears
     * Admin on every other profile, but on a copy it never writes back.
     */
    method SetDefaultProfile(name: string) returns (status: int)
      modifies this`profiles, this`defaultProfile
      ensures name !in old(profiles) ==> status == 500 && profiles == old(profiles) && defaultProfile == old(defaultProfile)
      ensures name in old(profiles) ==>
        status == 200 && profiles == old(profiles)[name := old(profiles)[name].(admin := true)] && defaultProfile == name
    {
      if name !in profiles {
        return 500;
      }
      var pending := profiles.Keys;
      while pending != {}
        invariant pending <= old(profiles).Keys && name in old(profiles)
        invariant profiles == if name in pending then old(profiles) else old(profiles)[name := old(profiles)[name].(admin := true)]
        decreases pending
      {
        var n :| n in pending;
        pending := pending - {n};
        var profile := profiles[n];
        if n == name {
          profile := profile.(admin := true);
          profiles := profiles[n := profile];
        } else {
          profile := profile.(admin := false);
        }
      }
      defaultProfile := name;
      return 200;
    }

    /** DeleteProfile: the profile is removed, and the default is cleared when it named that profile. */
    method DeleteProfile(name: string) returns (status: int)
      modifies this`profiles, this`defaultProfile
      ensures profiles == old(profiles) - {name}
      ensures defaultProfile == if name in old(profiles) && old(defaultProfile) == name then "" else old(defaultProfile)
      ensures status == 200
    {
      if name in profiles {
        if defaultProfile == name {
          defaultProfile := "";
        }
        profiles := profiles - {name};
      }
      return 200;
    }

    /** The loop shared by SetAccountsAdmin, ModifyLabels and ModifyEmails over the fetched account IDs. */
    method UpsertEmails(ids: seq<string>, req: map<string, EmailUpdate>)
      modifies this`emails
      ensures emails == Upserted(old(emails), ids, req)
    {
      var i := 0;
      while i < |ids|
        invariant 0 <= i <= |ids|
        invariant emails == Upserted(old(emails), ids[..i], req)
      {
        var id := ids[i];
        assert ids[..i + 1][..i] == ids[..i];
        if id in req {
          var emailStore := ZeroEmail;
          if id in emails {
            emailStore := emails[id];
          }
          emailStore := ApplyUpdate(emailStore, req[id]);
          emails := emails[id := emailStore];
        }
        i := i + 1;
      }
      assert ids[..|ids|] == ids;
    }

    /**
     * SetAccountsAdmin: a failed account fetch answers 500 and changes
     * nothing; otherwise every fetched account with a requested flag gets it,
     * and the answer reports the save.
     */
    method SetAccountsAdmin(fetchOk: bool, ids: seq<string>, req: map<string, bool>, storeOk: bool) returns (codes: seq<int>)
      modifies this`emails
      ensures !fetchOk ==> codes == [500] && emails == old(emails)
      ensures fetchOk ==> codes == EmailStoreResponses(storeOk)
      ensures fetchOk ==> codes[0] == EmailStoreResponsesAsWritten(storeOk)[0]
      ensures fetchOk ==> emails == Upserted(old(emails), ids, map id | id in req :: SetAdmin(req[id]))
    {
      if !fetchOk {
        return [500];
      }
      UpsertEmails(ids, map id | id in req :: SetAdmin(req[id]));
      codes := EmailStoreResponses(storeOk);
    }

    /** ModifyLabels: as SetAccountsAdmin, for the label. */
    method ModifyLabels(fetchOk: bool, ids: seq<string>, req: map<string, string>, storeOk: bool) returns (codes: seq<int>)
      modifies this`emails
      ensures !fetchOk ==> codes == [500] && emails == old(emails)
      ensures fetchOk ==> codes == EmailStoreResponses(storeOk)
      ensures fetchOk ==> codes[0] == EmailStoreResponsesAsWritten(storeOk)[0]
      ensures fetchOk ==> emails == Upserted(old(emails), ids, map id | id in req :: SetLabel(req[id]))
    {
      if !fetchOk {
        return [500];
      }
      UpsertEmails(ids, map id | id in req :: SetLabel(req[id]));
      codes := EmailStoreResponses(storeOk);
    }

    /** ModifyEmails: as above, for the address; the save is not checked and the answer is always 200. */
    method ModifyEmails(fetchOk: bool, ids: seq<string>, req: map<string, string>) returns (status: int)
      modifies this`emails
      ensures !fetchOk ==> status == 500 && emails == old(emails)
      ensures fetchOk ==> status == 200 && emails == Upserted(old(emails), ids, map id | id in req :: SetAddress(req[id]))
    {
      if !fetchOk {
        return 500;
      }
      UpsertEmails(ids, map id | id in req :: SetAddress(req[id]));
      return 200;
    }

    /**
     * SetContactMethods: an empty ID answers 400. Otherwise the Telegram,
     * Discord, Matrix and email records of the ID, each only if it exists, get
     * their Contact flag in that order; a failed save answers 500 and stops,
     * keeping the updates made so far.
     */
    method SetContactMethods(id: string, tg: bool, dc: bool, mx: bool, em: bool,
                             tgStoreOk: bool, dcStoreOk: bool, mxStoreOk: bool, emStoreOk: bool) returns (status: int)
      modifies this`telegram, this`discord, this`matrix, this`emails
      ensures telegram.Keys == old(telegram).Keys && discord.Keys == old(discord).Keys
      ensures matrix.Keys == old(matrix).Keys && emails.Keys == old(emails).Keys
      ensures id == "" ==> status == 400 && telegram == old(telegram) && discord == old(discord) &&
                           matrix == old(matrix) && emails == old(emails)
      ensures var tgFail := id in old(telegram) && !tgStoreOk;
              var dcFail := id in old(discord) && !dcStoreOk;
              var mxFail := id in old(matrix) && !mxStoreOk;
              var emFail := id in old(emails) && !emStoreOk;
        id != "" ==>
          && telegram == (if id in old(telegram) then old(telegram)[id := old(telegram)[id].(contact := tg)] else old(telegram))
          && discord == (if !tgFail && id in old(discord) then old(discord)[id := old(discord)[id].(contact := dc)] else old(discord))
          && matrix == (if !tgFail && !dcFail && id in old(matrix) then old(matrix)[id := old(matrix)[id].(contact := mx)] else old(matrix))
          && emails == (if !tgFail && !dcFail && !mxFail && id in old(emails) then old(emails)[id := old(emails)[id].(contact := em)] else old(emails))
          && status == (if tgFail || dcFail || mxFail || emFail then 500 else 200)
    {
      if id == "" {
        return 400;
      }
      if id in telegram {
        var tgUser := telegram[id];
        tgUser := tgUser.(contact := tg);
        telegram := telegram[id := tgUser];
        if !tgStoreOk {
          return 500;
        }
      }
      if id in discord {
        var dcUser := discord[id];
        dcUser := dcUser.(contact := dc);
        discord := discord[id := dcUser];
        if !dcStoreOk {
          return 500;
        }
      }
      if id in matrix {
        var mxUser := matrix[id];
        mxUser := mxUser.(contact := mx);
        matrix := matrix[id := mxUser];
        if !mxStoreOk {
          return 500;
        }
      }
      if id in emails {
        var email := emails[id];
        email := email.(contact := em);
        emails := emails[id := email];
        if !emStoreOk {
          return 500;
        }
      }
      return 200;
    }

    /**
     * ExtendExpiry: a request with no positive offset answers 400 and changes
     * nothing; otherwise every listed ID is extended in turn (an ID listed
     * twice twice), and the answer reports the save.
     */
    method ExtendExpiry(ids: seq<string>, months: int, days: int, hours: int, minutes: int, now: int,
                        addDate: (int, int, int) -> int, storeOk: bool) returns (status: int)
      modifies this`users
      ensures NoExtension(months, days, hours, minutes) ==> status == 400 && users == old(users)
      ensures !NoExtension(months, days, hours, minutes) ==>
        users == Extended(old(users), ids, months, days, hours, minutes, now, addDate) &&
        status == (if storeOk then 204 else 500)
    {
      if months <= 0 && days <= 0 && hours <= 0 && minutes <= 0 {
        return 400;
      }
      var i := 0;
      while i < |ids|
        invariant 0 <= i <= |ids|
        invariant users == Extended(old(users), ids[..i], months, days, hours, minutes, now, addDate)
      {
        var id := ids[i];
        assert ids[..i + 1][..i] == ids[..i];
        if id in users {
          var expiry := users[id];
          users := users[id := addDate(expiry, months, days) + 60 * OffsetMinutes(hours, minutes)];
        } else {
          users := users[id := addDate(now, months, days) + 60 * OffsetMinutes(hours, minutes)];
        }
        i := i + 1;
      }
      assert ids[..|ids|] == ids;
      status := if storeOk then 204 else 500;
    }
  }
}
