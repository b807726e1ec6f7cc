/** The rows of the hosted database the game talks to, held as values, and the
    row-level operations the client issues against them: an update by id, a
    lookup by id and a selection by realm key. */
module Tables {
  import opened Basics

  datatype Faction = Noble | NightWatch | WhiteWalker

  /** One row of the `profiles` table. Absent optional flags read as false. */
  datatype Profile = Profile(
    id: string, pseudo: string, house: string, culture: Option<string>,
    gold: int, soldiers: int, x: int, y: int, realmKey: string,
    isBot: bool, faction: Option<Faction>,
    isRebel: bool, isMonarch: bool, isBanker: bool)

  /** A row of `conflicts`; `etaMs` is the arrival time in milliseconds. */
  datatype Conflict = Conflict(attackerId: string, defenderId: string, title: string, etaMs: int, status: string)

  /** A row of `messages`. */
  datatype Message = Message(senderId: string, content: string, channel: string)

  /** A row of `loans`; the interest rate is a percentage. */
  datatype Loan = Loan(borrowerId: string, lenderId: string, amount: int, interestRate: real, totalDue: int, status: string)

  /** A row of `quests`; the reward in soldiers is never written by the client. */
  datatype Quest = Quest(creatorId: string, title: string, description: string, rewardGold: int, status: string)

  /** One call of the `pay_tax_to_monarch` remote procedure, whose body is not
      part of this model. */
  datatype TaxCall = TaxCall(playerId: string, taxAmount: int)

  /** The whole database, table by table, rows in storage order. */
  datatype Tables = Tables(
    profiles: seq<Profile>, conflicts: seq<Conflict>, messages: seq<Message>,
    loans: seq<Loan>, quests: seq<Quest>, taxCalls: seq<TaxCall>)

  /** The column sets the client writes with `.update(...)` on a profile. */
  datatype Patch =
    | SetGold(gold: int)
    | SetSoldiers(soldiers: int)
    | SetForces(gold: int, soldiers: int)
    | Crown
    | Rebel(pseudo: string)
    | Onboard(pseudo: string, house: string, culture: string, realmKey: string,
              gold: int, soldiers: int, x: int, y: int)

  /** The row after writing the columns of a patch; the id is never written. */
  function Apply(p: Profile, patch: Patch): (q: Profile)
    ensures q.id == p.id && q.isBot == p.isBot && q.faction == p.faction && q.isBanker == p.isBanker
  {
    match patch
    case SetGold(g) => p.(gold := g)
    case SetSoldiers(s) => p.(soldiers := s)
    case SetForces(g, s) => p.(gold := g, soldiers := s)
    case Crown => p.(isMonarch := true)
    case Rebel(name) => p.(isRebel := true, pseudo := name)
    case Onboard(name, house, culture, realm, g, s, x, y) =>
      p.(pseudo := name, house := house, culture := Some(culture), realmKey := realm,
         gold := g, soldiers := s, x := x, y := y)
  }

  function Patched(o: Option<Profile>, patch: Patch): Option<Profile> {
    if o.Some? then Some(Apply(o.value, patch)) else None
  }

  /** `.update(patch).eq('id', id)`: every row with that id is patched, the
      others are kept; no row with that id means nothing changes. */
  function UpdateById(rows: seq<Profile>, id: string, patch: Patch): (r: seq<Profile>)
    ensures |r| == |rows|
  {
    if rows == [] then []
    else [if rows[0].id == id then Apply(rows[0], patch) else rows[0]] + UpdateById(rows[1..], id, patch)
  }

  /** The update patches exactly the rows with that id and keeps the others
      in place. */
  lemma {:induction false} UpdateByIdAt(rows: seq<Profile>, id: string, patch: Patch)
    ensures forall i :: 0 <= i < |rows| ==>
              UpdateById(rows, id, patch)[i] == if rows[i].id == id then Apply(rows[i], patch) else rows[i]
  {
    if rows != [] {
      UpdateByIdAt(rows[1..], id, patch);
      var head := if rows[0].id == id then Apply(rows[0], patch) else rows[0];
      assert UpdateById(rows, id, patch) == [head] + UpdateById(rows[1..], id, patch);
    }
  }

  /** `.select('*').eq('id', id).single()`: the first row with that id. */
  function Find(rows: seq<Profile>, id: string): Option<Profile> {
    if rows == [] then None
    else if rows[0].id == id then Some(rows[0])
    else Find(rows[1..], id)
  }

  /** Find yields nothing exactly when no row has the id, and otherwise the
      first row that has it. */
  lemma {:induction false} FindSpec(rows: seq<Profile>, id: string)
    ensures var r := Find(rows, id);
      (r.None? <==> forall i :: 0 <= i < |rows| ==> rows[i].id != id) &&
      (r.Some? ==> exists k :: 0 <= k < |rows| && rows[k] == r.value && r.value.id == id &&
                               forall j :: 0 <= j < k ==> rows[j].id != id)
  {
    if rows != [] && rows[0].id != id {
      FindSpec(rows[1..], id);
      assert forall i :: 1 <= i < |rows| ==> rows[i] == rows[1..][i - 1];
      if Find(rows, id).Some? {
        var k :| 0 <= k < |rows[1..]| && rows[1..][k] == Find(rows, id).value &&
                 forall j :: 0 <= j < k ==> rows[1..][j].id != id;
        assert rows[k + 1] == Find(rows, id).value;
      }
    }
  }

  /** `.select('*').eq('realm_key', realm)`: the rows of one realm, in order. */
  function RealmRows(rows: seq<Profile>, realm: string): (r: seq<Profile>)
    ensures |r| <= |rows|
    ensures forall p :: p in r <==> p in rows && p.realmKey == realm
  {
    if rows == [] then []
    else
      assert forall p :: p in rows <==> p == rows[0] || p in rows[1..];
      (if rows[0].realmKey == realm then [rows[0]] else []) + RealmRows(rows[1..], realm)
  }

  /** The table's primary key: no two rows share an id. */
  predicate UniqueIds(rows: seq<Profile>) {
    forall i, j :: 0 <= i < j < |rows| ==> rows[i].id != rows[j].id
  }

  /** A multi-row insert violates the primary key (code 23505) when an id is
      repeated among the new rows or already present; it is then refused whole. */
  predicate InsertConflicts(rows: seq<Profile>, added: seq<Profile>) {
    (exists i, j :: 0 <= i < j < |added| && added[i].id == added[j].id) ||
    (exists i, j :: 0 <= i < |added| && 0 <= j < |rows| && added[i].id == rows[j].id)
  }

  /** An insert the key admits keeps the ids unique. */
  lemma AppendKeepsIds(rows: seq<Profile>, added: seq<Profile>)
    requires UniqueIds(rows) && !InsertConflicts(rows, added)
    ensures UniqueIds(rows + added)
  {
    var all := rows + added;
    forall i, j | 0 <= i < j < |all| ensures all[i].id != all[j].id {
      if j < |rows| {
      } else if i < |rows| {
        assert all[j] == added[j - |rows|];
      } else {
        assert all[i] == added[i - |rows|] && all[j] == added[j - |rows|];
      }
    }
  }

  predicate AnyMonarch(rows: seq<Profile>) {
    exists i :: 0 <= i < |rows| && rows[i].isMonarch
  }

  /** How many rows of a realm carry the monarch flag. */
  function MonarchCount(rows: seq<Profile>, realm: string): nat {
    if rows == [] then 0
    else (if rows[0].realmKey == realm && rows[0].isMonarch then 1 else 0) + MonarchCount(rows[1..], realm)
  }

  /** After an update by id, looking up that id sees the patched row and
      looking up any other id sees what it saw before. */
  lemma {:induction false} FindAfterUpdate(rows: seq<Profile>, id: string, patch: Patch, key: string)
    ensures Find(UpdateById(rows, id, patch), key) ==
            if key == id then Patched(Find(rows, key), patch) else Find(rows, key)
  {
    if rows != [] {
      var r := UpdateById(rows, id, patch);
      assert r[1..] == UpdateById(rows[1..], id, patch);
      FindAfterUpdate(rows[1..], id, patch, key);
    }
  }

  /** An update never changes which ids the table holds. */
  lemma UpdateKeepsIds(rows: seq<Profile>, id: string, patch: Patch)
    requires UniqueIds(rows)
    ensures UniqueIds(UpdateById(rows, id, patch))
    ensures forall i :: 0 <= i < |rows| ==> UpdateById(rows, id, patch)[i].id == rows[i].id
  {
    UpdateByIdAt(rows, id, patch);
  }

  /** With unique ids, the lookup of a row's id returns that row. */
  lemma FindUnique(rows: seq<Profile>, i: nat)
    requires UniqueIds(rows) && i < |rows|
    ensures Find(rows, rows[i].id) == Some(rows[i])
  {
    FindSpec(rows, rows[i].id);
  }

  /** A realm with no monarch whose row `rows[c]` is crowned by id, with ids
      unique, has exactly one monarch afterwards. */
  lemma {:induction false} CrowningLeavesOneMonarch(rows: seq<Profile>, realm: string, c: nat)
    requires UniqueIds(rows) && c < |rows| && rows[c].realmKey == realm
    requires MonarchCount(rows, realm) == 0
    ensures MonarchCount(UpdateById(rows, rows[c].id, Crown), realm) == 1
  {
    var r := UpdateById(rows, rows[c].id, Crown);
    assert r[1..] == UpdateById(rows[1..], rows[c].id, Crown);
    if c == 0 {
      NoMatchNoCount(rows[1..], realm, rows[0].id);
    } else {
      CrowningLeavesOneMonarch(rows[1..], realm, c - 1);
    }
  }

  /** Crowning row `c` of a monarch-free realm, by id, with ids unique: only
      that row gains the flag, the ids stay unique and the realm has exactly
      one monarch. */
  lemma CrownRow(rows: seq<Profile>, realm: string, c: nat)
    requires UniqueIds(rows) && c < |rows| && rows[c].realmKey == realm
    requires MonarchCount(rows, realm) == 0
    ensures var after := UpdateById(rows, rows[c].id, Crown);
      UniqueIds(after) && |after| == |rows| && MonarchCount(after, realm) == 1 &&
      forall i :: 0 <= i < |rows| ==> after[i] == if rows[i] == rows[c] then rows[c].(isMonarch := true) else rows[i]
  {
    var after := UpdateById(rows, rows[c].id, Crown);
    CrowningLeavesOneMonarch(rows, realm, c);
    UpdateKeepsIds(rows, rows[c].id, Crown);
    UpdateByIdAt(rows, rows[c].id, Crown);
    forall i | 0 <= i < |rows| ensures after[i] == if rows[i] == rows[c] then rows[c].(isMonarch := true) else rows[i] {
      if rows[i].id == rows[c].id {
        assert i == c;
      }
    }
  }

  /** Crowning an id no row of a monarch-free realm holds leaves it monarch-free. */
  lemma {:induction false} NoMatchNoCount(rows: seq<Profile>, realm: string, id: string)
    requires forall i :: 0 <= i < |rows| ==> rows[i].id != id
    requires MonarchCount(rows, realm) == 0
    ensures MonarchCount(UpdateById(rows, id, Crown), realm) == 0
  {
    if rows != [] {
      var r := UpdateById(rows, id, Crown);
      assert r[1..] == UpdateById(rows[1..], id, Crown);
      NoMatchNoCount(rows[1..], realm, id);
    }
  }

  /** A realm's rows carry no monarch flag exactly when its count is zero. */
  lemma NoMonarchCountZero(rows: seq<Profile>, realm: string)
    ensures !AnyMonarch(RealmRows(rows, realm)) <==> MonarchCount(rows, realm) == 0
  {
    var players := RealmRows(rows, realm);
    CountZeroNoMonarch(rows, realm);
    if AnyMonarch(players) {
      var i :| 0 <= i < |players| && players[i].isMonarch;
      assert players[i] in rows;
    }
  }

  /** A realm's count is zero exactly when none of its rows is a monarch. */
  lemma {:induction false} CountZeroNoMonarch(rows: seq<Profile>, realm: string)
    ensures MonarchCount(rows, realm) == 0 <==>
            forall p :: p in rows && p.realmKey == realm ==> !p.isMonarch
  {
    if rows != [] {
      CountZeroNoMonarch(rows[1..], realm);
      assert forall p :: p in rows <==> p == rows[0] || p in rows[1..];
    }
  }
}
