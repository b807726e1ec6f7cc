/** What the map's actions promise, proved of the rules in ActionRules. */
module ActionProperties {
  import opened Basics
  import opened Tables
  import opened ActionRules

  /** Every id other than `a` and `b` looks up the same row after as before. */
  ghost predicate SameElsewhere(before: seq<Profile>, after: seq<Profile>, a: string, b: string) {
    forall k :: k != a && k != b ==> Find(after, k) == Find(before, k)
  }

  /** Two successive updates by id, seen through lookups. */
  lemma {:induction false} TwoUpdates(rows: seq<Profile>, a: string, pa: Patch, b: string, pb: Patch)
    requires a != b
    ensures var after := UpdateById(UpdateById(rows, a, pa), b, pb);
      Find(after, a) == Patched(Find(rows, a), pa) &&
      Find(after, b) == Patched(Find(rows, b), pb) &&
      SameElsewhere(rows, after, a, b)
  {
    var mid := UpdateById(rows, a, pa);
    var after := UpdateById(mid, b, pb);
    FindAfterUpdate(rows, a, pa, a);
    FindAfterUpdate(mid, b, pb, a);
    FindAfterUpdate(rows, a, pa, b);
    FindAfterUpdate(mid, b, pb, b);
    forall k | k != a && k != b ensures Find(after, k) == Find(rows, k) {
      FindAfterUpdate(rows, a, pa, k);
      FindAfterUpdate(mid, b, pb, k);
    }
  }

  /** The Night's Watch guard on sieges, and the one conflict a permitted siege
      inserts; a siege never writes a profile. */
  lemma SiegeRule(t: Tables, me: Profile, target: Profile, nowMs: int)
    ensures var res := Siege(t, me, target, nowMs);
      (res.success <==> !(me.house == "nightwatch" && !me.isRebel && target.faction == Some(Noble))) &&
      (!res.success ==> res.tables == t && res.notice == Some(SiegeForbidden)) &&
      (res.success ==>
        res.tables == t.(conflicts := res.tables.conflicts) &&
        |res.tables.conflicts| == |t.conflicts| + 1 &&
        res.tables.conflicts[..|t.conflicts|] == t.conflicts &&
        var c := res.tables.conflicts[|t.conflicts|];
        c.attackerId == me.id && c.defenderId == target.id && c.status == "marching" &&
        c.title == (if me.house == "nightwatch" then "Expédition" else "Siège") + " de " + target.pseudo &&
        c.etaMs == nowMs + 60000 * EtaMinutes(target.x - me.x, target.y - me.y))
  {
  }

  /** A march over a distance of 500 takes ten minutes. */
  lemma EtaOfFiveHundred()
    ensures EtaMinutes(300, 400) == 10
    ensures EtaMinutes(0, 500) == 10
  {
  }

  /** A bribe costs the briber exactly 500 gold and strips a fifth of the
      target's garrison, floored at zero; too poor a briber writes nothing. */
  lemma BribeRule(t: Tables, me: Profile, target: Profile)
    requires me.id != target.id
    ensures var res := Bribe(t, me, target);
      (me.gold < 500 ==> res.tables == t && !res.success && res.notice == Some(BribeUnaffordable)) &&
      (me.gold >= 500 ==>
        res.success && res.tables == t.(profiles := res.tables.profiles) &&
        Find(res.tables.profiles, me.id) == Patched(Find(t.profiles, me.id), SetGold(me.gold - 500)) &&
        Find(res.tables.profiles, target.id) == Patched(Find(t.profiles, target.id), SetSoldiers(BribedSoldiers(target.soldiers))) &&
        SameElsewhere(t.profiles, res.tables.profiles, me.id, target.id))
  {
    if me.gold >= 500 {
      BribeApplied(t, me, target);
    } else {
      BribeRefused(t, me, target);
    }
  }

  lemma BribeApplied(t: Tables, me: Profile, target: Profile)
    requires me.id != target.id && me.gold >= 500
    ensures var res := Bribe(t, me, target);
      res.success && res.tables == t.(profiles := res.tables.profiles) &&
      Find(res.tables.profiles, me.id) == Patched(Find(t.profiles, me.id), SetGold(me.gold - 500)) &&
      Find(res.tables.profiles, target.id) == Patched(Find(t.profiles, target.id), SetSoldiers(BribedSoldiers(target.soldiers))) &&
      SameElsewhere(t.profiles, res.tables.profiles, me.id, target.id)
  {
    TwoUpdates(t.profiles, me.id, SetGold(me.gold - 500), target.id, SetSoldiers(BribedSoldiers(target.soldiers)));
  }

  lemma BribeRefused(t: Tables, me: Profile, target: Profile)
    requires me.gold < 500
    ensures var res := Bribe(t, me, target);
      res.tables == t && !res.success && res.notice == Some(BribeUnaffordable)
  {
  }

  /** Read from the stored rows, the briber's gold falls by exactly 500 and the
      target keeps s - floor(s / 5) soldiers, never a negative number. */
  lemma BribeFromStoredRows(t: Tables, me: Profile, target: Profile)
    requires me.id != target.id && me.gold >= 500 && target.soldiers >= 0
    requires Find(t.profiles, me.id) == Some(me) && Find(t.profiles, target.id) == Some(target)
    ensures var rows := Bribe(t, me, target).tables.profiles;
      Find(rows, me.id) == Some(me.(gold := me.gold - 500)) &&
      Find(rows, target.id) == Some(target.(soldiers := target.soldiers - target.soldiers / 5)) &&
      target.soldiers - target.soldiers / 5 >= 0
  {
    BribeRule(t, me, target);
  }

  /** Infiltration: on the favourable roll the spies steal an amount in
      [100, 300), credited in full to the actor and taken from the target down
      to zero; otherwise nothing is written. */
  lemma InfiltrateRule(t: Tables, me: Profile, target: Profile, chance: real, draw: real)
    requires IsDraw(draw) && me.id != target.id
    ensures var res := Infiltrate(t, me, target, chance, draw);
      res.success &&
      (chance <= 0.5 ==> res.tables == t && res.notice == Some(SpiesCaught)) &&
      (chance > 0.5 ==>
        res.notice.Some? && res.notice.value.Stole? && 100 <= res.notice.value.amount < 300 &&
        res.tables == t.(profiles := res.tables.profiles) &&
        Find(res.tables.profiles, me.id) == Patched(Find(t.profiles, me.id), SetGold(me.gold + res.notice.value.amount)) &&
        Find(res.tables.profiles, target.id) ==
          Patched(Find(t.profiles, target.id), SetGold(Max(0, target.gold - res.notice.value.amount))) &&
        SameElsewhere(t.profiles, res.tables.profiles, me.id, target.id))
  {
    if chance > 0.5 {
      var stolen := StolenAmount(draw);
      TwoUpdates(t.profiles, me.id, SetGold(me.gold + stolen), target.id, SetGold(RobbedGold(target.gold, stolen)));
    }
  }

  /** The pair's gold is conserved by a successful theft exactly when the
      target could pay the whole amount; otherwise gold is created. */
  lemma InfiltrationConservesIffAffordable(t: Tables, me: Profile, target: Profile, chance: real, draw: real)
    requires chance > 0.5 && IsDraw(draw) && me.id != target.id
    requires Find(t.profiles, me.id) == Some(me) && Find(t.profiles, target.id) == Some(target)
    ensures var res := Infiltrate(t, me, target, chance, draw);
      var a := Find(res.tables.profiles, me.id);
      var b := Find(res.tables.profiles, target.id);
      a.Some? && b.Some? &&
      (a.value.gold + b.value.gold == me.gold + target.gold <==> target.gold >= StolenAmount(draw))
  {
    InfiltrateRule(t, me, target, chance, draw);
  }

  /** Collecting adds 300 gold to a Night's Watch profile and 500 to any other,
      and touches nothing else. */
  lemma CollectTaxesRule(t: Tables, me: Profile)
    ensures var res := CollectTaxes(t, me);
      res.success && res.tables == t.(profiles := res.tables.profiles) &&
      Find(res.tables.profiles, me.id) ==
        Patched(Find(t.profiles, me.id), SetGold(me.gold + (if me.house == "nightwatch" then 300 else 500))) &&
      SameElsewhere(t.profiles, res.tables.profiles, me.id, me.id)
  {
    var patch := SetGold(me.gold + TaxGain(me.house));
    FindAfterUpdate(t.profiles, me.id, patch, me.id);
    forall k | k != me.id ensures Find(UpdateById(t.profiles, me.id, patch), k) == Find(t.profiles, k) {
      FindAfterUpdate(t.profiles, me.id, patch, k);
    }
  }

  /** Recruitment is refused, writing nothing, for a poor lord outside the
      Watch; the Watch raises 20 men for free, others 10 men for 100 gold. */
  lemma RecruitRule(t: Tables, me: Profile)
    requires Find(t.profiles, me.id) == Some(me)
    ensures var res := Recruit(t, me);
      (res.success <==> me.gold >= 100 || me.house == "nightwatch") &&
      (!res.success ==> res.tables == t && res.notice == Some(RecruitUnaffordable)) &&
      (res.success ==>
        res.tables == t.(profiles := res.tables.profiles) &&
        SameElsewhere(t.profiles, res.tables.profiles, me.id, me.id) &&
        Find(res.tables.profiles, me.id) ==
          Some(if me.house == "nightwatch" then me.(soldiers := me.soldiers + 20)
               else me.(gold := me.gold - 100, soldiers := me.soldiers + 10)))
    ensures me.house != "nightwatch" && me.gold >= 0 ==>
      forall p :: Find(Recruit(t, me).tables.profiles, me.id) == Some(p) ==> p.gold >= 0
  {
    var patch := SetForces(me.gold - RecruitCost(me.house), me.soldiers + RecruitAmount(me.house));
    FindAfterUpdate(t.profiles, me.id, patch, me.id);
    forall k | k != me.id ensures Find(UpdateById(t.profiles, me.id, patch), k) == Find(t.profiles, k) {
      FindAfterUpdate(t.profiles, me.id, patch, k);
    }
  }

  /** A fresh lord of 1000 gold and 100 soldiers recruits to 900 and 110. */
  lemma RecruitScenario(t: Tables, me: Profile)
    requires Find(t.profiles, me.id) == Some(me)
    requires me.gold == 1000 && me.soldiers == 100 && me.house == "stark"
    ensures Find(Recruit(t, me).tables.profiles, me.id) == Some(me.(gold := 900, soldiers := 110))
  {
    RecruitRule(t, me);
  }

  /** Only the Night's Watch can rebel; the rebel is flagged and renamed. */
  lemma RebelRule(t: Tables, me: Profile)
    ensures var res := RebelAgainstWatch(t, me);
      (me.house != "nightwatch" ==> res.tables == t && !res.success && res.notice == None) &&
      (me.house == "nightwatch" ==>
        res.tables == t.(profiles := res.tables.profiles) &&
        Find(res.tables.profiles, me.id) == Patched(Find(t.profiles, me.id), Rebel(me.pseudo + " (Roi au-delà du Mur)")) &&
        SameElsewhere(t.profiles, res.tables.profiles, me.id, me.id))
  {
    var patch := Rebel(me.pseudo + RebelSuffix);
    FindAfterUpdate(t.profiles, me.id, patch, me.id);
    forall k | k != me.id ensures Find(UpdateById(t.profiles, me.id, patch), k) == Find(t.profiles, k) {
      FindAfterUpdate(t.profiles, me.id, patch, k);
    }
  }

  /** A rebel Night's Watch profile may then besiege nobles. */
  lemma RebellionLiftsSiegeGuard(me: Profile, target: Profile)
    requires me.house == "nightwatch"
    ensures !SiegeForbiddenFor(Apply(me, Rebel(me.pseudo + RebelSuffix)), target)
  {
  }

  /** The player an election crowns: the drawn index of the realm's rows. */
  function Chosen(t: Tables, realm: string, pick: real): Profile
    requires IsDraw(pick) && RealmRows(t.profiles, realm) != []
  {
    var players := RealmRows(t.profiles, realm);
    players[ScaleDraw(pick, |players|)]
  }

  /** The election writes nothing when the realm is empty or already has a
      monarch. */
  lemma ElectionNoOp(t: Tables, realm: string, pick: real)
    requires IsDraw(pick)
    requires AnyMonarch(RealmRows(t.profiles, realm)) || RealmRows(t.profiles, realm) == []
    ensures Election(t, realm, pick).tables == t
  {
  }

  /** Otherwise it crowns exactly the drawn player: that row gains the flag,
      every other row is kept, and the realm ends with exactly one monarch. */
  lemma ElectionCrownsOne(t: Tables, realm: string, pick: real)
    requires IsDraw(pick) && UniqueIds(t.profiles)
    requires !AnyMonarch(RealmRows(t.profiles, realm)) && RealmRows(t.profiles, realm) != []
    ensures var after := Election(t, realm, pick).tables;
      var chosen := Chosen(t, realm, pick);
      after == t.(profiles := after.profiles) && UniqueIds(after.profiles) &&
      |after.profiles| == |t.profiles| &&
      MonarchCount(after.profiles, realm) == 1 &&
      forall i :: 0 <= i < |t.profiles| ==>
        after.profiles[i] == if t.profiles[i] == chosen then chosen.(isMonarch := true) else t.profiles[i]
  {
    var c := ChosenRow(t, realm, pick);
    NoMonarchCountZero(t.profiles, realm);
    CrownRow(t.profiles, realm, c);
  }

  /** The drawn player is a row of the table that belongs to the realm. */
  lemma ChosenRow(t: Tables, realm: string, pick: real) returns (c: nat)
    requires IsDraw(pick) && RealmRows(t.profiles, realm) != []
    ensures c < |t.profiles| && t.profiles[c] == Chosen(t, realm, pick)
    ensures t.profiles[c].realmKey == realm
  {
    var chosen := Chosen(t, realm, pick);
    assert chosen in RealmRows(t.profiles, realm);
    c :| 0 <= c < |t.profiles| && t.profiles[c] == chosen;
  }

  /** A second election after the first changes nothing. */
  lemma ElectionSettles(t: Tables, realm: string, pick: real, pick2: real)
    requires IsDraw(pick) && IsDraw(pick2) && UniqueIds(t.profiles)
    ensures var once := Election(t, realm, pick).tables;
      Election(once, realm, pick2).tables == once
  {
    var once := Election(t, realm, pick).tables;
    var players := RealmRows(t.profiles, realm);
    if AnyMonarch(players) || players == [] {
      ElectionNoOp(t, realm, pick);
    } else {
      ElectionCrownsOne(t, realm, pick);
      NoMonarchCountZero(once.profiles, realm);
    }
    ElectionNoOp(once, realm, pick2);
  }

  /** `sub` occurs in `s` at offset `i`. */
  predicate OccursAt(s: string, sub: string, i: int) {
    0 <= i <= |s| - |sub| && s[i..i + |sub|] == sub
  }

  /** `sub` occurs somewhere in `s`. */
  predicate Contains(s: string, sub: string) {
    exists i :: 0 <= i <= |s| - |sub| && OccursAt(s, sub, i)
  }

  /** A marriage proposal always succeeds: it posts one public message from
      the proposer naming both houses, keeps every earlier message and
      touches no other table. */
  lemma MarriageRule(t: Tables, me: Profile, target: Profile)
    ensures var res := Marriage(t, me, target);
      var m := res.tables.messages;
      res.success && res.notice == Some(UnionProposed(target.pseudo)) &&
      res.tables == t.(messages := m) &&
      |m| == |t.messages| + 1 && m[..|t.messages|] == t.messages &&
      m[|t.messages|].senderId == me.id && m[|t.messages|].channel == "public" &&
      Contains(m[|t.messages|].content, me.house) && Contains(m[|t.messages|].content, target.house)
  {
    UnionNamesBothHouses(me, target);
  }

  /** The broadcast names the proposer's house, then the target's. */
  lemma UnionNamesBothHouses(me: Profile, target: Profile)
    ensures Contains(UnionMessage(me, target).content, me.house)
    ensures Contains(UnionMessage(me, target).content, target.house)
  {
    var lead := "\U{1F4E2} [DIPLOMATIE] La Maison ";
    var middle := " propose un pacte d'union à la Maison ";
    var c := UnionMessage(me, target).content;
    assert c == lead + me.house + middle + target.house + ".";
    var i := |lead|;
    var j := |lead| + |me.house| + |middle|;
    assert OccursAt(c, me.house, i);
    assert OccursAt(c, target.house, j);
  }

  /** The summoned roster: eleven bots of the player's realm; the Night King
      is a White Walker, Jeor Mormont of the Watch, every other lord a noble. */
  lemma RosterRule(realm: string, ids: seq<string>)
    requires |ids| == 11
    ensures var r := Roster(realm, ids);
      forall i :: 0 <= i < 11 ==>
        r[i].isBot && r[i].realmKey == realm && r[i].id == ids[i] && !r[i].isMonarch &&
        r[i].faction == Some(if r[i].pseudo == "Night King" then WhiteWalker
                             else if r[i].pseudo == "Jeor Mormont" then NightWatch else Noble)
  {
  }

  /** Summoning either inserts the whole roster, keeping ids unique, or is
      refused with the duplicate-key notice and writes nothing. */
  lemma SpawnBotsRule(t: Tables, me: Profile, ids: seq<string>)
    requires |ids| == 11 && UniqueIds(t.profiles)
    ensures var res := SpawnBots(t, me, ids);
      UniqueIds(res.tables.profiles) && res.tables == t.(profiles := res.tables.profiles) &&
      (res.success ==> res.tables.profiles == t.profiles + Roster(me.realmKey, ids) && res.notice == Some(RealmAwakens)) &&
      (!res.success ==> res.tables == t && res.notice == Some(RealmAlreadyPopulated))
  {
    var bots := Roster(me.realmKey, ids);
    if !InsertConflicts(t.profiles, bots) {
      AppendKeepsIds(t.profiles, bots);
    }
  }

  function BotCount(rows: seq<Profile>): nat {
    if rows == [] then 0 else (if rows[0].isBot then 1 else 0) + BotCount(rows[1..])
  }

  lemma {:induction false} BotCountAppend(a: seq<Profile>, b: seq<Profile>)
    ensures BotCount(a + b) == BotCount(a) + BotCount(b)
  {
    if a != [] {
      assert (a + b)[0] == a[0] && (a + b)[1..] == a[1..] + b;
      BotCountAppend(a[1..], b);
    } else {
      assert a + b == b;
    }
  }

  /** Summoning into a realm that already holds bots still adds eleven more:
      the seed is not idempotent. */
  lemma SpawnBotsAddsEleven(t: Tables, me: Profile, ids: seq<string>)
    requires |ids| == 11 && SpawnBots(t, me, ids).success
    ensures BotCount(SpawnBots(t, me, ids).tables.profiles) == BotCount(t.profiles) + 11
  {
    var bots := Roster(me.realmKey, ids);
    BotCountAppend(t.profiles, bots);
    assert BotCount(bots) == 11 by {
      var k := 0;
      while k < 11
        invariant 0 <= k <= 11
        invariant BotCount(bots[11 - k..]) == k
      {
        assert bots[11 - (k + 1)..][1..] == bots[11 - k..];
        k := k + 1;
      }
      assert bots[0..] == bots;
    }
  }
}
