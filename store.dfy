/** The hosted database as the client sees it: one mutable store whose tables
    the page handlers read and write, one request at a time. */
module Store {
  import opened Basics
  import opened Tables
  import opened ActionRules

  class GameStore {
    var profiles: seq<Profile>
    var conflicts: seq<Conflict>
    var messages: seq<Message>
    var loans: seq<Loan>
    var quests: seq<Quest>
    var taxCalls: seq<TaxCall>

    /** The primary key of `profiles` holds. */
    ghost predicate Valid()
      reads this
    {
      UniqueIds(profiles)
    }

    /** All tables as one value. */
    function State(): Tables
      reads this
    {
      Tables(profiles, conflicts, messages, loans, quests, taxCalls)
    }

    constructor ()
      ensures Valid() && State() == Tables([], [], [], [], [], [])
    {
      profiles, conflicts, messages := [], [], [];
      loans, quests, taxCalls := [], [], [];
    }

    /** `.from('profiles').update(patch).eq('id', id)`. */
    method Update(id: string, patch: Patch)
      requires Valid()
      modifies this
      ensures Valid()
      ensures State() == old(State()).(profiles := UpdateById(old(profiles), id, patch))
    {
      UpdateKeepsIds(profiles, id, patch);
      profiles := UpdateById(profiles, id, patch);
    }

    /** `.from('profiles').insert(rows)`: all rows or, on a duplicate key, none. */
    method InsertProfiles(rows: seq<Profile>) returns (ok: bool)
      requires Valid()
      modifies this
      ensures Valid()
      ensures ok <==> !InsertConflicts(old(profiles), rows)
      ensures State() == if ok then old(State()).(profiles := old(profiles) + rows) else old(State())
    {
      ok := !InsertConflicts(profiles, rows);
      if ok {
        AppendKeepsIds(profiles, rows);
        profiles := profiles + rows;
      }
    }

    /** `.select('*').eq('id', id).single()`. */
    method SelectProfile(id: string) returns (row: Option<Profile>)
      ensures row == Find(profiles, id)
    {
      row := Find(profiles, id);
    }

    /** `.select('*').eq('realm_key', realm)`. */
    method SelectRealm(realm: string) returns (rows: seq<Profile>)
      ensures rows == RealmRows(profiles, realm)
    {
      rows := RealmRows(profiles, realm);
    }

    /** `.from('conflicts').select(...).eq('status', 'marching')`. */
    method SelectMarching() returns (cs: seq<Conflict>)
      ensures cs == ActiveConflicts(conflicts)
    {
      cs := ActiveConflicts(conflicts);
    }

    method InsertConflict(c: Conflict)
      requires Valid()
      modifies this
      ensures Valid() && State() == old(State()).(conflicts := old(conflicts) + [c])
    {
      conflicts := conflicts + [c];
    }

    method InsertMessage(m: Message)
      requires Valid()
      modifies this
      ensures Valid() && State() == old(State()).(messages := old(messages) + [m])
    {
      messages := messages + [m];
    }

    method InsertLoan(l: Loan)
      requires Valid()
      modifies this
      ensures Valid() && State() == old(State()).(loans := old(loans) + [l])
    {
      loans := loans + [l];
    }

    method InsertQuest(q: Quest)
      requires Valid()
      modifies this
      ensures Valid() && State() == old(State()).(quests := old(quests) + [q])
    {
      quests := quests + [q];
    }

    /** `.rpc('pay_tax_to_monarch', ...)`: the call is recorded; what the
        procedure does to the rows is not part of this model. */
    method CallPayTax(call: TaxCall)
      requires Valid()
      modifies this
      ensures Valid() && State() == old(State()).(taxCalls := old(taxCalls) + [call])
    {
      taxCalls := taxCalls + [call];
    }
  }
}
