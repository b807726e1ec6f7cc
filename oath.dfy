/** The oath page: a three-step wizard (a name and an optional realm key, then
    a house, then a culture) whose last button writes the new lord's profile. */
module Oath {
  import opened Basics
  import opened Tables
  import opened GameData
  import opened ActionRules
  import opened Store

  const StartingGold := 1000
  const StartingSoldiers := 100
  const MinPseudoLength := 3

  /** Math.floor(Math.random() * 600 + 100): a starting coordinate. */
  function SpawnCoordinate(d: real): (k: int)
    requires IsDraw(d)
    ensures 100 <= k < 700
  {
    (d * 600.0 + 100.0).Floor
  }

  /** The columns handleFinalize writes; an empty realm key falls back to
      'public'. `dx` and `dy` are the two Math.random() draws. */
  function OathPatch(pseudo: string, house: string, culture: string, realmKey: string, dx: real, dy: real): (p: Patch)
    requires IsDraw(dx) && IsDraw(dy)
    ensures p.Onboard? && p.pseudo == pseudo && p.house == house && p.culture == culture
    ensures p.gold == StartingGold && p.soldiers == StartingSoldiers
    ensures 100 <= p.x < 700 && 100 <= p.y < 700
    ensures p.realmKey != "" && (realmKey != "" ==> p.realmKey == realmKey)
  {
    Onboard(pseudo, house, culture, OrPublic(realmKey), StartingGold, StartingSoldiers,
            SpawnCoordinate(dx), SpawnCoordinate(dy))
  }

  /** The profile the oath leaves behind: the sworn name, house and culture,
      1000 gold, 100 soldiers, a position in [100, 700) squared and a realm;
      the bot, faction and banker flags of the row stay as they were. A user
      without a row gets none. */
  lemma SwornProfile(rows: seq<Profile>, id: string, pseudo: string, house: string, culture: string,
                     realmKey: string, dx: real, dy: real)
    requires IsDraw(dx) && IsDraw(dy)
    ensures var before := Find(rows, id);
      var after := Find(UpdateById(rows, id, OathPatch(pseudo, house, culture, realmKey, dx, dy)), id);
      after.Some? == before.Some? &&
      (after.Some? ==>
        var p := after.value;
        p.id == id && p.pseudo == pseudo && p.house == house && p.culture == Some(culture) &&
        p.gold == StartingGold && p.soldiers == StartingSoldiers &&
        100 <= p.x < 700 && 100 <= p.y < 700 &&
        p.realmKey == OrPublic(realmKey) &&
        p.isBot == before.value.isBot && p.faction == before.value.faction &&
        p.isBanker == before.value.isBanker)
  {
    var patch := OathPatch(pseudo, house, culture, realmKey, dx, dy);
    FindAfterUpdate(rows, id, patch, id);
    FindSpec(rows, id);
  }

  class OathWizard {
    const db: GameStore
    var step: nat
    var pseudo: string
    var realmKey: string
    var selectedHouse: Option<string>
    var selectedCulture: Option<string>
    var loading: bool

    /** Each step is reached only through the previous step's button: the
        house step needs a name of three characters or more, the culture step
        a chosen house; every choice is an id of the registry. */
    ghost predicate Valid()
      reads this
    {
      1 <= step <= 3 &&
      (step >= 2 ==> |pseudo| >= MinPseudoLength) &&
      (step == 3 ==> selectedHouse.Some?) &&
      (selectedHouse.Some? ==> selectedHouse.value in HouseIdsOf(HOUSES)) &&
      (selectedCulture.Some? ==> selectedCulture.value in CultureIdsOf(CULTURES))
    }

    constructor (store: GameStore)
      ensures Valid() && db == store
      ensures step == 1 && pseudo == "" && realmKey == ""
      ensures selectedHouse == None && selectedCulture == None && !loading
    {
      db := store;
      step, pseudo, realmKey := 1, "", "";
      selectedHouse, selectedCulture, loading := None, None, false;
    }

    /** The name field, shown on the first step only. */
    method SetPseudo(s: string)
      requires Valid() && step == 1
      modifies this
      ensures Valid() && pseudo == s
      ensures step == old(step) && realmKey == old(realmKey) && selectedHouse == old(selectedHouse)
      ensures selectedCulture == old(selectedCulture) && loading == old(loading)
    {
      pseudo := s;
    }

    /** The realm key field, shown on the first step only. */
    method SetRealmKey(s: string)
      requires Valid() && step == 1
      modifies this
      ensures Valid() && realmKey == s
      ensures step == old(step) && pseudo == old(pseudo) && selectedHouse == old(selectedHouse)
      ensures selectedCulture == old(selectedCulture) && loading == old(loading)
    {
      realmKey := s;
    }

    /** "Choisir son Allégeance": on to the houses once the name has three
        characters. */
    method ChooseAllegiance()
      requires Valid() && step == 1
      modifies this
      ensures Valid()
      ensures step == if |pseudo| >= MinPseudoLength then 2 else 1
      ensures pseudo == old(pseudo) && realmKey == old(realmKey) && selectedHouse == old(selectedHouse)
      ensures selectedCulture == old(selectedCulture) && loading == old(loading)
    {
      if |pseudo| >= MinPseudoLength {
        step := 2;
      }
    }

    /** A house card of the second step. */
    method SelectHouse(id: string)
      requires Valid() && step == 2 && id in HouseIdsOf(HOUSES)
      modifies this
      ensures Valid() && selectedHouse == Some(id)
      ensures step == old(step) && pseudo == old(pseudo) && realmKey == old(realmKey)
      ensures selectedCulture == old(selectedCulture) && loading == old(loading)
    {
      selectedHouse := Some(id);
    }

    /** "Définir votre Culture": disabled until a house is chosen. */
    method DefineCulture()
      requires Valid() && step == 2
      modifies this
      ensures Valid()
      ensures step == if selectedHouse.Some? then 3 else 2
      ensures pseudo == old(pseudo) && realmKey == old(realmKey) && selectedHouse == old(selectedHouse)
      ensures selectedCulture == old(selectedCulture) && loading == old(loading)
    {
      if selectedHouse.Some? {
        step := 3;
      }
    }

    /** A culture card of the third step. */
    method SelectCulture(id: string)
      requires Valid() && step == 3 && id in CultureIdsOf(CULTURES)
      modifies this
      ensures Valid() && selectedCulture == Some(id)
      ensures step == old(step) && pseudo == old(pseudo) && realmKey == old(realmKey)
      ensures selectedHouse == old(selectedHouse) && loading == old(loading)
    {
      selectedCulture := Some(id);
    }

    /** handleFinalize, behind a button disabled while no culture is chosen or
        a write is pending: mark the page loading and, for a signed-in `user`,
        write the oath onto that user's row. */
    method Finalize(user: Option<string>, dx: real, dy: real)
      requires Valid() && db.Valid() && step == 3 && IsDraw(dx) && IsDraw(dy)
      modifies this, db
      ensures Valid() && db.Valid()
      ensures step == old(step) && pseudo == old(pseudo) && realmKey == old(realmKey)
      ensures selectedHouse == old(selectedHouse) && selectedCulture == old(selectedCulture)
      ensures old(selectedCulture.None? || loading) ==> db.State() == old(db.State()) && loading == old(loading)
      ensures old(selectedCulture.Some? && !loading) ==>
                loading &&
                db.State() == (if user.None? then old(db.State()) else
                  old(db.State()).(profiles := UpdateById(old(db.profiles), user.value,
                    OathPatch(pseudo, selectedHouse.value, selectedCulture.value, realmKey, dx, dy))))
    {
      if selectedCulture.None? || loading {
        return;
      }
      loading := true;
      if user.Some? {
        db.Update(user.value,
          Onboard(pseudo, selectedHouse.value, selectedCulture.value, OrPublic(realmKey), StartingGold, StartingSoldiers,
                  SpawnCoordinate(dx), SpawnCoordinate(dy)));
      }
    }
  }
}
