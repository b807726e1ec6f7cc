/** The game rules of the tactical map: what each action writes to the database,
    as a function of the database and of the client's snapshots of the acting
    profile and of its target. The handlers of TacticalMap perform these writes
    one by one and are proved to produce these states. */
module ActionRules {
  import opened Basics
  import opened Tables

  const NightWatchHouse: string := "nightwatch"
  const BribeCost: int := 500
  const InfiltrationMin: int := 100
  const InfiltrationSpan: nat := 200
  const RecruitMinGold: int := 100
  const RebelSuffix: string := " (Roi au-delà du Mur)"

  /** The one-line notification shown after an action. */
  datatype Notice =
    | SiegeForbidden
    | Marching(targetPseudo: string)
    | BribeUnaffordable
    | Bribed(deserters: int, targetPseudo: string)
    | Stole(amount: int, targetPseudo: string)
    | SpiesCaught
    | UnionProposed(targetPseudo: string)
    | SuppliesArrived
    | TaxesCollected
    | RecruitUnaffordable
    | Recruited(amount: int)
    | VowsBroken
    | Crowned(pseudo: string, house: string)
    | RealmAwakens
    | RealmAlreadyPopulated

  /** The database after an action, the handler's `success` flag and the
      notice it shows (None: the handler shows nothing). */
  datatype Resolution = Resolution(tables: Tables, success: bool, notice: Option<Notice>)

  /** The action kinds the map offers; any other name falls through the switch. */
  datatype ActionKind = SiegeAction | BribeAction | InfiltrateAction | MarriageAction | OtherAction(name: string)

  predicate IsNightWatch(p: Profile) {
    p.house == NightWatchHouse
  }

  /** The Night's Watch may not march on a noble unless it has rebelled. */
  predicate SiegeForbiddenFor(me: Profile, target: Profile) {
    IsNightWatch(me) && !me.isRebel && target.faction == Some(Noble)
  }

  function SiegeTitle(me: Profile, target: Profile): string {
    (if IsNightWatch(me) then "Expédition" else "Siège") + " de " + target.pseudo
  }

  /** Math.ceil(sqrt(d2) / 50), found as the least m with 2500 m^2 >= d2. */
  function LeastCover(d2: nat, m: nat): (r: nat)
    requires m == 0 || 2500 * (m - 1) * (m - 1) < d2
    ensures 2500 * r * r >= d2
    ensures r == 0 || 2500 * (r - 1) * (r - 1) < d2
    decreases d2 - m
  {
    if 2500 * m * m >= d2 then m
    else
      CoverStep(d2, m);
      LeastCover(d2, m + 1)
  }

  /** One more minute is needed while 2500 m^2 < d2; m then stays below d2. */
  lemma CoverStep(d2: nat, m: nat)
    requires 2500 * m * m < d2
    ensures m < d2 && 2500 * ((m + 1) - 1) * ((m + 1) - 1) < d2
  {
    assert (m + 1) - 1 == m;
    if m > 0 {
      assert m * m >= m * 1;
    }
  }

  /** Minutes of march for a coordinate delta: one minute per 50 units of
      straight-line distance, rounded up. */
  function EtaMinutes(dx: int, dy: int): (m: nat)
    ensures 2500 * m * m >= dx * dx + dy * dy
    ensures m == 0 || 2500 * (m - 1) * (m - 1) < dx * dx + dy * dy
  {
    LeastCover(dx * dx + dy * dy, 0)
  }

  /** The conflict a permitted siege inserts. */
  function SiegeConflict(me: Profile, target: Profile, nowMs: int): Conflict {
    Conflict(me.id, target.id, SiegeTitle(me, target),
             nowMs + 60000 * EtaMinutes(target.x - me.x, target.y - me.y), "marching")
  }

  function Siege(t: Tables, me: Profile, target: Profile, nowMs: int): Resolution {
    if SiegeForbiddenFor(me, target) then Resolution(t, false, Some(SiegeForbidden))
    else Resolution(t.(conflicts := t.conflicts + [SiegeConflict(me, target, nowMs)]), true, Some(Marching(target.pseudo)))
  }

  /** Math.floor(s * 0.2): the largest k with 5k <= s. */
  function Deserters(s: int): (k: int)
    ensures 5 * k <= s < 5 * k + 5
  {
    s / 5
  }

  /** The target's garrison after a bribe, floored at zero. */
  function BribedSoldiers(s: int): (r: int)
    ensures r >= 0
    ensures s >= 0 ==> r == s - Deserters(s) && r <= s
  {
    Max(0, s - Deserters(s))
  }

  function Bribe(t: Tables, me: Profile, target: Profile): Resolution {
    if me.gold < BribeCost then Resolution(t, false, Some(BribeUnaffordable))
    else
      var afterActor := UpdateById(t.profiles, me.id, SetGold(me.gold - BribeCost));
      Resolution(t.(profiles := UpdateById(afterActor, target.id, SetSoldiers(BribedSoldiers(target.soldiers)))),
                 true, Some(Bribed(Deserters(target.soldiers), target.pseudo)))
  }

  /** Math.floor(Math.random() * 200) + 100. */
  function StolenAmount(draw: real): (k: int)
    requires IsDraw(draw)
    ensures InfiltrationMin <= k < InfiltrationMin + InfiltrationSpan
  {
    ScaleDraw(draw, InfiltrationSpan) + InfiltrationMin
  }

  /** The victim's gold after a theft, floored at zero. */
  function RobbedGold(g: int, stolen: int): (r: int)
    ensures r >= 0 && r >= g - stolen
    ensures g >= stolen ==> r + stolen == g
  {
    Max(0, g - stolen)
  }

  /** Infiltration: the spies succeed when the first draw exceeds 0.5; the
      second draw fixes the amount. */
  function Infiltrate(t: Tables, me: Profile, target: Profile, chance: real, amountDraw: real): Resolution
    requires IsDraw(amountDraw)
  {
    if chance > 0.5 then
      var stolen := StolenAmount(amountDraw);
      var afterActor := UpdateById(t.profiles, me.id, SetGold(me.gold + stolen));
      Resolution(t.(profiles := UpdateById(afterActor, target.id, SetGold(RobbedGold(target.gold, stolen)))),
                 true, Some(Stole(stolen, target.pseudo)))
    else Resolution(t, true, Some(SpiesCaught))
  }

  /** The `switch` of performAction over the action kinds. */
  function Resolve(kind: ActionKind, t: Tables, me: Profile, target: Profile, nowMs: int, chance: real, amountDraw: real): Resolution
    requires IsDraw(amountDraw)
  {
    match kind
    case SiegeAction => Siege(t, me, target, nowMs)
    case BribeAction => Bribe(t, me, target)
    case InfiltrateAction => Infiltrate(t, me, target, chance, amountDraw)
    case MarriageAction => Marriage(t, me, target)
    case OtherAction(_) => Resolution(t, true, None)
  }

  function UnionMessage(me: Profile, target: Profile): Message {
    Message(me.id, "\U{1F4E2} [DIPLOMATIE] La Maison " + me.house + " propose un pacte d'union à la Maison " + target.house + ".", "public")
  }

  function Marriage(t: Tables, me: Profile, target: Profile): Resolution {
    Resolution(t.(messages := t.messages + [UnionMessage(me, target)]), true, Some(UnionProposed(target.pseudo)))
  }

  /** Gold gathered by one collection: supplies for the Watch, taxes otherwise. */
  function TaxGain(house: string): int {
    if house == NightWatchHouse then 300 else 500
  }

  function CollectTaxes(t: Tables, me: Profile): Resolution {
    Resolution(t.(profiles := UpdateById(t.profiles, me.id, SetGold(me.gold + TaxGain(me.house)))), true,
               Some(if IsNightWatch(me) then SuppliesArrived else TaxesCollected))
  }

  /** Soldiers raised and gold paid by one recruitment. */
  function RecruitAmount(house: string): int {
    if house == NightWatchHouse then 20 else 10
  }

  function RecruitCost(house: string): int {
    if house == NightWatchHouse then 0 else 100
  }

  function Recruit(t: Tables, me: Profile): Resolution {
    if me.gold < RecruitMinGold && !IsNightWatch(me) then Resolution(t, false, Some(RecruitUnaffordable))
    else
      var patch := SetForces(me.gold - RecruitCost(me.house), me.soldiers + RecruitAmount(me.house));
      Resolution(t.(profiles := UpdateById(t.profiles, me.id, patch)), true, Some(Recruited(RecruitAmount(me.house))))
  }

  /** Breaking the Watch's vows: only a Night's Watch profile may; it is
      flagged rebel and its name gains the royal suffix. */
  function RebelAgainstWatch(t: Tables, me: Profile): Resolution {
    if !IsNightWatch(me) then Resolution(t, false, None)
    else Resolution(t.(profiles := UpdateById(t.profiles, me.id, Rebel(me.pseudo + RebelSuffix))), true, Some(VowsBroken))
  }

  /** The realm the page shows: `currentProfile?.realm_key || 'public'`. */
  function RealmOf(current: Option<Profile>): string {
    OrPublic(if current.Some? then current.value.realmKey else "")
  }

  /** `key || 'public'`. */
  function OrPublic(key: string): (r: string)
    ensures r != ""
    ensures key != "" ==> r == key
  {
    if key == "" then "public" else key
  }

  /** The monarch election of a page load: a realm that has players and no
      monarch crowns the player at the drawn index of its rows. */
  function Election(t: Tables, realm: string, pick: real): Resolution
    requires IsDraw(pick)
  {
    var players := RealmRows(t.profiles, realm);
    if AnyMonarch(players) || |players| == 0 then Resolution(t, true, None)
    else
      var chosen := players[ScaleDraw(pick, |players|)];
      Resolution(t.(profiles := UpdateById(t.profiles, chosen.id, Crown)), true, Some(Crowned(chosen.pseudo, chosen.house)))
  }

  /** A lord of the summoned roster, without the id and realm it is given. */
  datatype Lord = Lord(pseudo: string, house: string, gold: int, soldiers: int, x: int, y: int, faction: Faction)

  /** The famous lords of spawnBots, in insertion order. */
  const Lords: seq<Lord> := [
    Lord("Eddard Stark", "stark", 1200, 5000, 250, 300, Noble),
    Lord("Tywin Lannister", "lannister", 8000, 8000, 150, 900, Noble),
    Lord("Robert Baratheon", "baratheon", 2000, 6000, 400, 1100, Noble),
    Lord("Daenerys Targaryen", "targaryen", 500, 3000, 550, 1400, Noble),
    Lord("Jeor Mormont", "nightwatch", 1000, 800, 300, 200, NightWatch),
    Lord("Night King", "whitewalker", 0, 10000, 300, 50, WhiteWalker),
    Lord("Olenna Tyrell", "tyrell", 6000, 7000, 200, 1200, Noble),
    Lord("Balon Greyjoy", "greyjoy", 1500, 4000, 50, 800, Noble),
    Lord("Doran Martell", "martell", 3000, 4500, 300, 1450, Noble),
    Lord("Jon Arryn", "arryn", 2500, 3500, 500, 800, Noble),
    Lord("Edmure Tully", "tully", 1800, 3000, 300, 750, Noble)
  ]

  /** The bot row inserted for a lord: no culture, not rebel, monarch or banker. */
  function LordRow(id: string, lord: Lord, realm: string): Profile {
    Profile(id, lord.pseudo, lord.house, None, lord.gold, lord.soldiers, lord.x, lord.y, realm,
            true, Some(lord.faction), false, false, false)
  }

  /** The eleven lords summoned into the player's realm, with fresh ids. */
  function Roster(realm: string, ids: seq<string>): (r: seq<Profile>)
    requires |ids| == |Lords|
    ensures |r| == |Lords|
    ensures forall i :: 0 <= i < |Lords| ==> r[i] == LordRow(ids[i], Lords[i], realm)
    ensures forall i :: 0 <= i < |Lords| ==> r[i].id == ids[i] && r[i].isBot && r[i].realmKey == realm
  {
    seq(|Lords|, i requires 0 <= i < |Lords| => LordRow(ids[i], Lords[i], realm))
  }

  function SpawnBots(t: Tables, me: Profile, ids: seq<string>): Resolution
    requires |ids| == 11
  {
    var bots := Roster(me.realmKey, ids);
    if InsertConflicts(t.profiles, bots) then Resolution(t, false, Some(RealmAlreadyPopulated))
    else Resolution(t.(profiles := t.profiles + bots), true, Some(RealmAwakens))
  }

  /** A realtime change raises the battle report when the conflict has ended
      and the local player fought in it. */
  predicate RaisesReport(c: Conflict, me: Option<Profile>) {
    (c.status == "victory" || c.status == "defeat") &&
    me.Some? && (c.attackerId == me.value.id || c.defenderId == me.value.id)
  }

  /** `.select('*').eq('status', 'marching')` on conflicts. */
  function ActiveConflicts(cs: seq<Conflict>): (r: seq<Conflict>)
    ensures forall c :: c in r <==> c in cs && c.status == "marching"
  {
    if cs == [] then []
    else
      assert forall c :: c in cs <==> c == cs[0] || c in cs[1..];
      (if cs[0].status == "marching" then [cs[0]] else []) + ActiveConflicts(cs[1..])
  }
}
