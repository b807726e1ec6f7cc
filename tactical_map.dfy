/** The tactical map page: the client's state (its own profile, the realm's
    players, the selected target, the notice and the battle report) and the
    handlers that read and write the store. */
module TacticalMapPage {
  import opened Basics
  import opened Tables
  import opened ActionRules
  import opened Store

  class TacticalMap {
    const db: GameStore
    var myProfile: Option<Profile>
    var players: seq<Profile>
    var conflicts: seq<Conflict>
    var selectedTarget: Option<Profile>
    var notice: Option<Notice>
    var loadingAction: bool
    var battleReport: Option<Conflict>

    ghost predicate Valid()
      reads this, db
    {
      db.Valid()
    }

    constructor (store: GameStore)
      requires store.Valid()
      ensures Valid() && db == store
      ensures myProfile == None && players == [] && conflicts == [] && selectedTarget == None
      ensures notice == None && !loadingAction && battleReport == None
    {
      db := store;
      myProfile, players, conflicts, selectedTarget := None, [], [], None;
      notice, loadingAction, battleReport := None, false, None;
    }

    /** The page load and every realtime refresh: read the signed-in user's
        profile, list its realm, crown a monarch if the realm has none, and
        list the marching conflicts. `pick` is the Math.random() draw of the
        election. */
    method FetchData(user: Option<string>, pick: real)
      requires Valid() && IsDraw(pick)
      modifies this, db
      ensures Valid()
      ensures var current := if user.Some? then Find(old(db.profiles), user.value) else None;
        var res := Election(old(db.State()), RealmOf(current), pick);
        myProfile == (if user.Some? then current else old(myProfile)) &&
        db.State() == res.tables &&
        players == RealmRows(db.profiles, RealmOf(current)) &&
        conflicts == ActiveConflicts(db.conflicts) &&
        notice == (if res.notice.Some? then res.notice else old(notice))
      ensures selectedTarget == old(selectedTarget) && loadingAction == old(loadingAction)
      ensures battleReport == old(battleReport)
    {
      var current := LoadProfile(user);
      LoadRealm(RealmOf(current), pick);
    }

    /** The first read of fetchData: the signed-in user's own profile. */
    method LoadProfile(user: Option<string>) returns (current: Option<Profile>)
      modifies this
      ensures current == if user.Some? then Find(db.profiles, user.value) else None
      ensures myProfile == if user.Some? then current else old(myProfile)
      ensures players == old(players) && conflicts == old(conflicts) && notice == old(notice)
      ensures selectedTarget == old(selectedTarget) && loadingAction == old(loadingAction)
      ensures battleReport == old(battleReport)
    {
      current := None;
      if user.Some? {
        var profile := db.SelectProfile(user.value);
        myProfile := profile;
        current := profile;
      }
    }

    /** The rest of fetchData: list the realm, hold its election, list the
        marching conflicts. */
    method LoadRealm(realm: string, pick: real)
      requires Valid() && IsDraw(pick)
      modifies this, db
      ensures Valid()
      ensures var res := Election(old(db.State()), realm, pick);
        db.State() == res.tables &&
        players == RealmRows(db.profiles, realm) &&
        conflicts == ActiveConflicts(db.conflicts) &&
        notice == (if res.notice.Some? then res.notice else old(notice))
      ensures myProfile == old(myProfile) && selectedTarget == old(selectedTarget)
      ensures loadingAction == old(loadingAction) && battleReport == old(battleReport)
    {
      var allPlayers := db.SelectRealm(realm);
      players := allPlayers;
      var crowned := ElectMonarch(realm, allPlayers, pick);
      if crowned.Some? {
        notice := crowned;
        var updatedPlayers := db.SelectRealm(realm);
        players := updatedPlayers;
      }
      var active := db.SelectMarching();
      conflicts := active;
    }

    /** The election of fetchData over the realm's rows just read: a realm
        with players and no monarch crowns the drawn one. */
    method ElectMonarch(realm: string, allPlayers: seq<Profile>, pick: real) returns (message: Option<Notice>)
      requires db.Valid() && IsDraw(pick) && allPlayers == RealmRows(db.profiles, realm)
      modifies db
      ensures db.Valid()
      ensures var res := Election(old(db.State()), realm, pick);
        db.State() == res.tables && message == res.notice
      ensures message.None? ==> db.State() == old(db.State())
    {
      message := None;
      if !AnyMonarch(allPlayers) && |allPlayers| > 0 {
        var chosen := allPlayers[ScaleDraw(pick, |allPlayers|)];
        db.Update(chosen.id, Crown);
        message := Some(Crowned(chosen.pseudo, chosen.house));
      }
    }

    /** Summon the fixed roster of lords into the player's realm. */
    method SpawnBots(ids: seq<string>)
      requires Valid() && |ids| == 11
      modifies this, db
      ensures Valid()
      ensures myProfile.None? ==> db.State() == old(db.State()) && notice == old(notice)
      ensures myProfile.Some? ==>
        var res := ActionRules.SpawnBots(old(db.State()), myProfile.value, ids);
        db.State() == res.tables && notice == res.notice
      ensures myProfile == old(myProfile) && players == old(players) && selectedTarget == old(selectedTarget)
      ensures !loadingAction || loadingAction == old(loadingAction)
    {
      if myProfile.None? {
        return;
      }
      var me := myProfile.value;
      loadingAction := true;
      notice := SummonRoster(me, ids);
      loadingAction := false;
    }

    /** The insert of spawnBots: the whole roster, or nothing on a duplicate key. */
    method SummonRoster(me: Profile, ids: seq<string>) returns (message: Option<Notice>)
      requires db.Valid() && |ids| == 11
      modifies db
      ensures db.Valid()
      ensures var res := ActionRules.SpawnBots(old(db.State()), me, ids);
        db.State() == res.tables && message == res.notice
    {
      var bots := Roster(me.realmKey, ids);
      var ok := db.InsertProfiles(bots);
      message := if ok then Some(RealmAwakens) else Some(RealmAlreadyPopulated);
    }

    /** Break the Night's Watch vows. */
    method RebelAgainstWatch()
      requires Valid()
      modifies this, db
      ensures Valid()
      ensures myProfile.None? ==> db.State() == old(db.State()) && notice == old(notice)
      ensures myProfile.Some? ==>
        var res := ActionRules.RebelAgainstWatch(old(db.State()), myProfile.value);
        db.State() == res.tables && notice == (if res.notice.Some? then res.notice else old(notice))
      ensures myProfile == old(myProfile) && selectedTarget == old(selectedTarget)
    {
      if myProfile.None? || myProfile.value.house != NightWatchHouse {
        return;
      }
      var me := myProfile.value;
      db.Update(me.id, Rebel(me.pseudo + RebelSuffix));
      notice := Some(VowsBroken);
    }

    /** Collect taxes, or supplies for the Night's Watch. */
    method CollectTaxes()
      requires Valid()
      modifies this, db
      ensures Valid()
      ensures myProfile.None? ==> db.State() == old(db.State()) && notice == old(notice)
      ensures myProfile.Some? ==>
        var res := ActionRules.CollectTaxes(old(db.State()), myProfile.value);
        db.State() == res.tables && notice == res.notice && !loadingAction
      ensures myProfile == old(myProfile) && selectedTarget == old(selectedTarget)
    {
      if myProfile.None? {
        return;
      }
      loadingAction := true;
      var me := myProfile.value;
      var isNW := me.house == NightWatchHouse;
      var gain := if isNW then 300 else 500;
      db.Update(me.id, SetGold(me.gold + gain));
      notice := Some(if isNW then SuppliesArrived else TaxesCollected);
      loadingAction := false;
    }

    /** Raise soldiers: the Watch for free, other houses for 100 gold. */
    method RecruitSoldiers()
      requires Valid()
      modifies this, db
      ensures Valid()
      ensures myProfile.None? ==> db.State() == old(db.State()) && notice == old(notice)
      ensures myProfile.Some? ==>
        var res := ActionRules.Recruit(old(db.State()), myProfile.value);
        db.State() == res.tables && notice == res.notice
      ensures myProfile == old(myProfile) && selectedTarget == old(selectedTarget)
    {
      if myProfile.None? {
        return;
      }
      var me := myProfile.value;
      ghost var before := db.State();
      var isNW := me.house == NightWatchHouse;
      if me.gold < 100 && !isNW {
        assert ActionRules.Recruit(before, me) == Resolution(before, false, Some(RecruitUnaffordable));
        notice := Some(RecruitUnaffordable);
        return;
      }
      loadingAction := true;
      var amount := if isNW then 20 else 10;
      var cost := if isNW then 0 else 100;
      db.Update(me.id, SetForces(me.gold - cost, me.soldiers + amount));
      assert ActionRules.Recruit(before, me) ==
        Resolution(before.(profiles := UpdateById(before.profiles, me.id, SetForces(me.gold - cost, me.soldiers + amount))),
                   true, Some(Recruited(amount)));
      notice := Some(Recruited(amount));
      loadingAction := false;
    }

    /** Select a player on the map; the player's own profile is never a target. */
    method HandleSelectTarget(player: Option<Profile>)
      modifies this
      ensures player.None? ==> selectedTarget == None
      ensures player.Some? ==>
        selectedTarget == if myProfile.Some? && player.value.id != myProfile.value.id then player else old(selectedTarget)
      ensures selectedTarget.Some? && selectedTarget != old(selectedTarget) ==>
        myProfile.Some? && selectedTarget.value.id != myProfile.value.id
      ensures myProfile == old(myProfile) && players == old(players) && notice == old(notice)
    {
      if player.None? {
        selectedTarget := None;
        return;
      }
      if myProfile.Some? && player.value.id != myProfile.value.id {
        selectedTarget := player;
      }
    }

    /** The siege branch of performAction: a march unless the Watch's vow forbids it. */
    method SiegeOrder(me: Profile, tp: Profile, nowMs: int) returns (success: bool, message: Option<Notice>)
      requires db.Valid()
      modifies db
      ensures db.Valid()
      ensures var res := Siege(old(db.State()), me, tp, nowMs);
        db.State() == res.tables && message == res.notice && success == res.success
    {
      if IsNightWatch(me) && !me.isRebel && tp.faction == Some(Noble) {
        return false, Some(SiegeForbidden);
      }
      var minutes := EtaMinutes(tp.x - me.x, tp.y - me.y);
      db.InsertConflict(Conflict(me.id, tp.id, SiegeTitle(me, tp), nowMs + 60000 * minutes, "marching"));
      return true, Some(Marching(tp.pseudo));
    }

    /** The bribe branch: 500 gold for a fifth of the target's soldiers. */
    method BribeOrder(me: Profile, tp: Profile) returns (success: bool, message: Option<Notice>)
      requires db.Valid()
      modifies db
      ensures db.Valid()
      ensures var res := Bribe(old(db.State()), me, tp);
        db.State() == res.tables && message == res.notice && success == res.success
    {
      if me.gold < BribeCost {
        return false, Some(BribeUnaffordable);
      }
      var reduction := Deserters(tp.soldiers);
      db.Update(me.id, SetGold(me.gold - BribeCost));
      db.Update(tp.id, SetSoldiers(BribedSoldiers(tp.soldiers)));
      return true, Some(Bribed(reduction, tp.pseudo));
    }

    /** The infiltration branch: with `chance` above one half, the spies steal. */
    method InfiltrateOrder(me: Profile, tp: Profile, chance: real, amountDraw: real) returns (success: bool, message: Option<Notice>)
      requires db.Valid() && IsDraw(amountDraw)
      modifies db
      ensures db.Valid()
      ensures var res := Infiltrate(old(db.State()), me, tp, chance, amountDraw);
        db.State() == res.tables && message == res.notice && success == res.success
    {
      if chance > 0.5 {
        var stolen := StolenAmount(amountDraw);
        db.Update(me.id, SetGold(me.gold + stolen));
        db.Update(tp.id, SetGold(RobbedGold(tp.gold, stolen)));
        return true, Some(Stole(stolen, tp.pseudo));
      }
      return true, Some(SpiesCaught);
    }

    /** The marriage branch: a proposal on the public channel. */
    method MarriageOrder(me: Profile, tp: Profile) returns (success: bool, message: Option<Notice>)
      requires db.Valid()
      modifies db
      ensures db.Valid()
      ensures var res := Marriage(old(db.State()), me, tp);
        db.State() == res.tables && message == res.notice && success == res.success
    {
      db.InsertMessage(UnionMessage(me, tp));
      return true, Some(UnionProposed(tp.pseudo));
    }

    /** performAction: resolve an action against the given or the selected
        target. `nowMs` is the clock; `chance` and `amountDraw` are the two
        Math.random() draws of an infiltration. `success` is the handler's
        local flag. */
    method PerformAction(kind: ActionKind, target: Option<Profile>, nowMs: int, chance: real, amountDraw: real)
      returns (success: bool)
      requires Valid() && IsDraw(amountDraw)
      modifies this, db
      ensures Valid()
      ensures var tp := if target.Some? then target else old(selectedTarget);
        (myProfile.None? || tp.None? ==> db.State() == old(db.State()) && notice == old(notice) && success) &&
        (myProfile.Some? && tp.Some? ==>
          var res := Resolve(kind, old(db.State()), myProfile.value, tp.value, nowMs, chance, amountDraw);
          db.State() == res.tables && notice == res.notice && success == res.success && !loadingAction)
      ensures target.Some? && myProfile.Some? ==> selectedTarget.Some? && selectedTarget.value.id == target.value.id
      ensures target.None? ==> selectedTarget == old(selectedTarget)
      ensures myProfile == old(myProfile)
    {
      success := true;
      var targetProfile := if target.Some? then target else selectedTarget;
      if myProfile.None? || targetProfile.None? {
        return;
      }
      if target.Some? && (selectedTarget.None? || target.value.id != selectedTarget.value.id) {
        selectedTarget := target;
      }
      var me, tp := myProfile.value, targetProfile.value;
      loadingAction := true;
      var message;
      success, message := Dispatch(kind, me, tp, nowMs, chance, amountDraw);
      notice := message;
      loadingAction := false;
    }

    /** The `switch` of performAction; an unknown kind writes nothing and
        leaves the message empty. */
    method Dispatch(kind: ActionKind, me: Profile, tp: Profile, nowMs: int, chance: real, amountDraw: real)
      returns (success: bool, message: Option<Notice>)
      requires db.Valid() && IsDraw(amountDraw)
      modifies db
      ensures db.Valid()
      ensures var res := Resolve(kind, old(db.State()), me, tp, nowMs, chance, amountDraw);
        db.State() == res.tables && message == res.notice && success == res.success
    {
      success, message := true, None;
      match kind {
        case SiegeAction => success, message := SiegeOrder(me, tp, nowMs);
        case BribeAction => success, message := BribeOrder(me, tp);
        case InfiltrateAction => success, message := InfiltrateOrder(me, tp, chance, amountDraw);
        case MarriageAction => success, message := MarriageOrder(me, tp);
        case OtherAction(_) =>
      }
    }

    /** A realtime change on `conflicts`: an ended battle of this player opens
        the battle report. */
    method OnConflictChange(c: Conflict)
      modifies this
      ensures battleReport == if RaisesReport(c, myProfile) then Some(c) else old(battleReport)
      ensures myProfile == old(myProfile) && notice == old(notice) && selectedTarget == old(selectedTarget)
    {
      if (c.status == "victory" || c.status == "defeat") &&
         myProfile.Some? && (c.attackerId == myProfile.value.id || c.defenderId == myProfile.value.id) {
        battleReport := Some(c);
      }
    }

    /** Close the battle report. */
    method CloseReport()
      modifies this
      ensures battleReport == None
      ensures myProfile == old(myProfile) && notice == old(notice) && selectedTarget == old(selectedTarget)
    {
      battleReport := None;
    }
  }
}
