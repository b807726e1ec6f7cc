/** The static registry of playable houses and cultures, and its two lookups. */
module GameData {
  import opened Basics

  /** A playable house. Only the catalogue fields are kept; icon, lore,
      description, strengths and weaknesses are display text. */
  datatype House = House(id: string, name: string, motto: string, color: string, seat: string, region: string)

  datatype Culture = Culture(id: string, name: string, bonus: string)

  const HOUSES: seq<House> := [
    House("stark", "Stark", "L'hiver vient", "#888888", "Winterfell", "North"),
    House("lannister", "Lannister", "Je rugis !", "#C02424", "Castral Roc", "Westerlands"),
    House("baratheon", "Baratheon", "Nôtre est la fureur", "#E3B341", "Accalmie", "Stormlands"),
    House("targaryen", "Targaryen", "Feu et Sang", "#000000", "Peyredragon", "Crownlands"),
    House("greyjoy", "Greyjoy", "Nous ne semons pas", "#333333", "Pyke", "Iron Islands"),
    House("martell", "Martell", "Insoumis, Invaincus, Intacts", "#E38041", "Lancehélion", "Dorne"),
    House("tyrell", "Tyrell", "Plus haut, plus fort", "#2D7A2F", "Hautjardin", "Reach"),
    House("nightwatch", "Garde de Nuit", "Le Bouclier des Royaumes", "#000000", "Châteaunoir", "The Wall"),
    House("bolton", "Bolton", "Nos lames sont acérées", "#E86676", "Fort-Terreur", "North"),
    House("frey", "Frey", "Nous tenons le passage", "#4F5D75", "Les Jumeaux", "Riverlands")
  ]

  const CULTURES: seq<Culture> := [
    Culture("north", "Premier Homme", "+20% Défense en Hiver"),
    Culture("andal", "Andal", "+15% Prestige Diplomatique"),
    Culture("rhoynar", "Rhoynar", "+25% Vitesse Navale"),
    Culture("valyrian", "Valyrien", "+10% Puissance Militaire")
  ]

  /** Array.prototype.find over houses by id: the first entry with that id, if any. */
  function FindHouse(hs: seq<House>, id: string): (r: Option<House>)
    ensures r.None? <==> forall i :: 0 <= i < |hs| ==> hs[i].id != id
    ensures r.Some? ==> exists k :: 0 <= k < |hs| && hs[k] == r.value && r.value.id == id &&
                                    forall j :: 0 <= j < k ==> hs[j].id != id
  {
    if hs == [] then None
    else if hs[0].id == id then Some(hs[0])
    else
      var r := FindHouse(hs[1..], id);
      assert forall i :: 1 <= i < |hs| ==> hs[i] == hs[1..][i - 1];
      r
  }

  /** Array.prototype.find over cultures by id. */
  function FindCulture(cs: seq<Culture>, id: string): (r: Option<Culture>)
    ensures r.None? <==> forall i :: 0 <= i < |cs| ==> cs[i].id != id
    ensures r.Some? ==> exists k :: 0 <= k < |cs| && cs[k] == r.value && r.value.id == id &&
                                    forall j :: 0 <= j < k ==> cs[j].id != id
  {
    if cs == [] then None
    else if cs[0].id == id then Some(cs[0])
    else
      var r := FindCulture(cs[1..], id);
      assert forall i :: 1 <= i < |cs| ==> cs[i] == cs[1..][i - 1];
      r
  }

  function GetHouse(id: string): Option<House> {
    FindHouse(HOUSES, id)
  }

  function GetCulture(id: string): Option<Culture> {
    FindCulture(CULTURES, id)
  }

  /** The ids a house list offers. */
  function HouseIdsOf(hs: seq<House>): set<string> {
    set i | 0 <= i < |hs| :: hs[i].id
  }

  function CultureIdsOf(cs: seq<Culture>): set<string> {
    set i | 0 <= i < |cs| :: cs[i].id
  }

  /** A house lookup succeeds exactly for the ids the list offers. */
  lemma FindHouseFound(hs: seq<House>, id: string)
    ensures FindHouse(hs, id).Some? <==> id in HouseIdsOf(hs)
  {
    if id in HouseIdsOf(hs) {
      var i :| 0 <= i < |hs| && hs[i].id == id;
    }
  }

  lemma FindCultureFound(cs: seq<Culture>, id: string)
    ensures FindCulture(cs, id).Some? <==> id in CultureIdsOf(cs)
  {
    if id in CultureIdsOf(cs) {
      var i :| 0 <= i < |cs| && cs[i].id == id;
    }
  }

  predicate DistinctHouseIds(hs: seq<House>) {
    forall i, j :: 0 <= i < j < |hs| ==> hs[i].id != hs[j].id
  }

  predicate DistinctCultureIds(cs: seq<Culture>) {
    forall i, j :: 0 <= i < j < |cs| ==> cs[i].id != cs[j].id
  }

  /** The registry sizes and the distinctness of ids in both tables. */
  lemma RegistryShape()
    ensures |HOUSES| == 10 && |CULTURES| == 4
    ensures DistinctHouseIds(HOUSES) && DistinctCultureIds(CULTURES)
  {
    HouseIdsDistinct();
    CultureIdsDistinct();
  }

  /** No two house ids share both their first letter and their length. */
  lemma HouseIdsDistinct()
    ensures DistinctHouseIds(HOUSES)
  {
    forall i, j | 0 <= i < j < |HOUSES| ensures HOUSES[i].id != HOUSES[j].id {
      assert HOUSES[i].id[0] != HOUSES[j].id[0] || |HOUSES[i].id| != |HOUSES[j].id|;
    }
  }

  lemma CultureIdsDistinct()
    ensures DistinctCultureIds(CULTURES)
  {
    forall i, j | 0 <= i < j < |CULTURES| ensures CULTURES[i].id != CULTURES[j].id {
      assert CULTURES[i].id[0] != CULTURES[j].id[0];
    }
  }

  /** With distinct ids, a lookup by id returns exactly the entry holding it. */
  lemma FindHouseOwnEntry(hs: seq<House>, i: nat)
    requires DistinctHouseIds(hs) && i < |hs|
    ensures FindHouse(hs, hs[i].id) == Some(hs[i])
  {
  }

  lemma FindCultureOwnEntry(cs: seq<Culture>, i: nat)
    requires DistinctCultureIds(cs) && i < |cs|
    ensures FindCulture(cs, cs[i].id) == Some(cs[i])
  {
  }

  /** Every listed house and culture id resolves to its own entry. */
  lemma RegistryLookupsResolve()
    ensures forall i :: 0 <= i < |HOUSES| ==> GetHouse(HOUSES[i].id) == Some(HOUSES[i])
    ensures forall i :: 0 <= i < |CULTURES| ==> GetCulture(CULTURES[i].id) == Some(CULTURES[i])
  {
    RegistryShape();
    forall i | 0 <= i < |HOUSES| ensures GetHouse(HOUSES[i].id) == Some(HOUSES[i]) {
      FindHouseOwnEntry(HOUSES, i);
    }
    forall i | 0 <= i < |CULTURES| ensures GetCulture(CULTURES[i].id) == Some(CULTURES[i]) {
      FindCultureOwnEntry(CULTURES, i);
    }
  }

  /** The Night's Watch is a playable house; the White Walkers are not, so the
      Night King of the bot roster has no registry entry. */
  lemma NightWatchButNoWhiteWalker()
    ensures GetHouse("nightwatch") == Some(HOUSES[7])
    ensures GetHouse("whitewalker") == None
  {
    NightWatchRegistered();
    NoWhiteWalkerHouse();
  }

  lemma NightWatchRegistered()
    ensures GetHouse("nightwatch") == Some(HOUSES[7])
  {
    var nw := HOUSES[7].id;
    assert nw == "nightwatch";
    assert forall j :: 0 <= j < 7 ==> HOUSES[j].id[0] != nw[0];
    FindHouseAt(HOUSES, 7, nw);
  }

  /** The lookup returns entry `k` when it holds the id and no earlier one does. */
  lemma FindHouseAt(hs: seq<House>, k: nat, id: string)
    requires k < |hs| && hs[k].id == id && forall j :: 0 <= j < k ==> hs[j].id != id
    ensures FindHouse(hs, id) == Some(hs[k])
  {
  }

  lemma NoWhiteWalkerHouse()
    ensures forall i :: 0 <= i < |HOUSES| ==> HOUSES[i].id != "whitewalker"
    ensures GetHouse("whitewalker") == None
  {
    forall i | 0 <= i < |HOUSES| ensures HOUSES[i].id != "whitewalker" {
      assert HOUSES[i].id[0] != 'w';
    }
  }
}
