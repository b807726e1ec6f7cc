/** The monarchy panel: the realm's monarch, the tax paid to the throne, and the
    banker's loans and quests. */
module Monarchy {
  import opened Basics
  import opened Tables
  import opened Store

  const TaxAmount := 200
  const DefaultLoanAmount := 500
  const DefaultQuestReward := 1000
  const QuestPrefix := "Quête créée par "

  /** `players.find(p => p.is_monarch)`: the first crowned player, if any. */
  function FindMonarch(players: seq<Profile>): (r: Option<Profile>)
    ensures r.None? <==> !AnyMonarch(players)
    ensures r.Some? ==> exists k :: 0 <= k < |players| && players[k] == r.value && r.value.isMonarch &&
                                    forall j :: 0 <= j < k ==> !players[j].isMonarch
  {
    if players == [] then None
    else if players[0].isMonarch then Some(players[0])
    else
      var r := FindMonarch(players[1..]);
      if r.Some? then
        assert exists k :: 0 <= k < |players| && players[k] == r.value && r.value.isMonarch &&
                           forall j :: 0 <= j < k ==> !players[j].isMonarch by {
          var k' :| 0 <= k' < |players[1..]| && players[1..][k'] == r.value && r.value.isMonarch &&
                    forall j :: 0 <= j < k' ==> !players[1..][j].isMonarch;
          assert players[k' + 1] == r.value;
          assert forall j :: 0 <= j < k' + 1 ==> !players[j].isMonarch by {
            forall j | 0 <= j < k' + 1 ensures !players[j].isMonarch {
              if j > 0 { assert players[j] == players[1..][j - 1]; }
            }
          }
        }
        r
      else
        assert !AnyMonarch(players) by {
          forall i | 0 <= i < |players| ensures !players[i].isMonarch {
            if i > 0 { assert players[i] == players[1..][i - 1]; }
          }
        }
        None
  }

  /** The borrower list of the bank tab: every player except the banker.
      Without a profile of one's own (`myProfile?.id` undefined) no player is
      excluded. */
  function Borrowers(players: seq<Profile>, myId: Option<string>): (r: seq<Profile>)
    ensures |r| <= |players|
    ensures forall p :: p in r <==> p in players && (myId.None? || p.id != myId.value)
  {
    if players == [] then []
    else (if myId.None? || players[0].id != myId.value then [players[0]] else []) + Borrowers(players[1..], myId)
  }

  /** `Math.random() * 20 + 5`: a rate in percent. */
  function InterestRate(draw: real): (rate: real)
    requires IsDraw(draw)
    ensures 5.0 <= rate < 25.0
  {
    draw * 20.0 + 5.0
  }

  /** `Math.floor(loanAmount * (1 + interestRate / 100))`. */
  function TotalDue(amount: int, rate: real): int {
    (amount as real * (1.0 + rate / 100.0)).Floor
  }

  /** The row `requestLoan` inserts: lent by the banker, due with interest. */
  function LoanRecord(borrowerId: string, lenderId: string, amount: int, draw: real): (l: Loan)
    requires IsDraw(draw)
    ensures l.borrowerId == borrowerId && l.lenderId == lenderId && l.amount == amount
    ensures 5.0 <= l.interestRate < 25.0 && l.status == "active"
    ensures l.totalDue == TotalDue(amount, l.interestRate)
  {
    var rate := InterestRate(draw);
    Loan(borrowerId, lenderId, amount, rate, TotalDue(amount, rate), "active")
  }

  lemma MulNonNegative(x: real, y: real)
    requires x >= 0.0 && y >= 0.0
    ensures x * y >= 0.0
  {
  }

  /** For a non-negative amount the debt is never less than the loan and at
      most a quarter more. */
  lemma LoanDueBounds(borrowerId: string, lenderId: string, amount: int, draw: real)
    requires IsDraw(draw) && amount >= 0
    ensures var l := LoanRecord(borrowerId, lenderId, amount, draw);
      amount <= l.totalDue && 4 * l.totalDue <= 5 * amount
  {
    var rate := InterestRate(draw);
    var a := amount as real;
    var factor := 1.0 + rate / 100.0;
    assert 1.05 <= factor < 1.25;
    MulNonNegative(a, factor - 1.0);
    MulNonNegative(a, 1.25 - factor);
    assert a * factor == a + a * (factor - 1.0);
    assert a * 1.25 == a * factor + a * (1.25 - factor);
    assert a <= a * factor <= a * 1.25;
    var due := (a * factor).Floor;
    assert due == TotalDue(amount, rate);
    assert amount <= due;
    assert due as real <= a * 1.25;
  }

  /** The row `createQuest` inserts. */
  function QuestRecord(creator: Profile, title: string, reward: int): (q: Quest)
    ensures q.creatorId == creator.id && q.title == title && q.rewardGold == reward && q.status == "active"
    ensures |q.description| == |QuestPrefix| + |creator.pseudo|
    ensures q.description[..|QuestPrefix|] == QuestPrefix && q.description[|QuestPrefix|..] == creator.pseudo
  {
    Quest(creator.id, title, QuestPrefix + creator.pseudo, reward, "active")
  }

  /** `.from('loans').select('*').eq('borrower_id', id)`; with no profile the
      filter matches nothing. */
  function LoansOf(rows: seq<Loan>, borrower: Option<string>): (r: seq<Loan>)
    ensures |r| <= |rows|
    ensures forall l :: l in r <==> l in rows && borrower.Some? && l.borrowerId == borrower.value
  {
    if rows == [] then []
    else (if borrower.Some? && rows[0].borrowerId == borrower.value then [rows[0]] else []) + LoansOf(rows[1..], borrower)
  }

  /** `.from('quests').select('*').eq('status', 'active')`. */
  function ActiveQuests(rows: seq<Quest>): (r: seq<Quest>)
    ensures |r| <= |rows|
    ensures forall q :: q in r <==> q in rows && q.status == "active"
  {
    if rows == [] then []
    else (if rows[0].status == "active" then [rows[0]] else []) + ActiveQuests(rows[1..])
  }

  /** What the player is told after pressing "pay the tax". */
  datatype TaxOutcome = TaxSkipped | TaxRefused | TaxPaid(amount: int)

  datatype Tab = TaxesTab | BankTab | QuestsTab

  class MonarchyPanel {
    const db: GameStore
    const myProfile: Option<Profile>
    const players: seq<Profile>
    var tab: Tab
    var loans: seq<Loan>
    var quests: seq<Quest>
    var loanAmount: int
    var selectedBorrower: string
    var questTitle: string
    var questReward: int

    ghost predicate Valid()
      reads this, db
    {
      db.Valid()
    }

    /** The panel as mounted with the page's profile and realm players. */
    constructor (store: GameStore, me: Option<Profile>, realmPlayers: seq<Profile>)
      requires store.Valid()
      ensures Valid() && db == store && myProfile == me && players == realmPlayers
      ensures tab == TaxesTab && loans == [] && quests == []
      ensures loanAmount == DefaultLoanAmount && selectedBorrower == "" && questTitle == "" && questReward == DefaultQuestReward
    {
      db, myProfile, players := store, me, realmPlayers;
      tab, loans, quests := TaxesTab, [], [];
      loanAmount, selectedBorrower, questTitle, questReward := DefaultLoanAmount, "", "", DefaultQuestReward;
    }

    /** The tabs; the bank and quest tabs are rendered for bankers only. */
    method SetTab(t: Tab)
      requires t != TaxesTab ==> myProfile.Some? && myProfile.value.isBanker
      modifies this
      ensures tab == t && loans == old(loans) && quests == old(quests)
      ensures loanAmount == old(loanAmount) && selectedBorrower == old(selectedBorrower)
      ensures questTitle == old(questTitle) && questReward == old(questReward)
    {
      tab := t;
    }

    /** The two reads issued when the panel opens. */
    method FetchLoans()
      modifies this
      ensures loans == LoansOf(db.loans, if myProfile.Some? then Some(myProfile.value.id) else None)
      ensures tab == old(tab) && quests == old(quests)
      ensures loanAmount == old(loanAmount) && selectedBorrower == old(selectedBorrower)
      ensures questTitle == old(questTitle) && questReward == old(questReward)
    {
      loans := LoansOf(db.loans, if myProfile.Some? then Some(myProfile.value.id) else None);
    }

    method FetchQuests()
      modifies this
      ensures quests == ActiveQuests(db.quests)
      ensures tab == old(tab) && loans == old(loans)
      ensures loanAmount == old(loanAmount) && selectedBorrower == old(selectedBorrower)
      ensures questTitle == old(questTitle) && questReward == old(questReward)
    {
      quests := ActiveQuests(db.quests);
    }

    /** payTaxToMonarch: nothing without a profile or a monarch, a refusal
        below 200 gold, otherwise one call of the tax procedure. */
    method PayTaxToMonarch() returns (outcome: TaxOutcome)
      requires Valid()
      modifies db
      ensures Valid()
      ensures myProfile.None? || FindMonarch(players).None? ==> outcome == TaxSkipped && db.State() == old(db.State())
      ensures myProfile.Some? && FindMonarch(players).Some? && myProfile.value.gold < TaxAmount ==>
                outcome == TaxRefused && db.State() == old(db.State())
      ensures myProfile.Some? && FindMonarch(players).Some? && myProfile.value.gold >= TaxAmount ==>
                outcome == TaxPaid(TaxAmount) &&
                db.State() == old(db.State()).(taxCalls := old(db.taxCalls) + [TaxCall(myProfile.value.id, TaxAmount)])
    {
      var monarch := FindMonarch(players);
      if myProfile.None? || monarch.None? {
        return TaxSkipped;
      }
      if myProfile.value.gold < TaxAmount {
        return TaxRefused;
      }
      db.CallPayTax(TaxCall(myProfile.value.id, TaxAmount));
      return TaxPaid(TaxAmount);
    }

    /** The borrower drop-down: the empty option or a player other than oneself. */
    method SelectBorrower(id: string)
      requires id == "" || exists p :: p in Borrowers(players, if myProfile.Some? then Some(myProfile.value.id) else None) && p.id == id
      modifies this
      ensures selectedBorrower == id && tab == old(tab) && loans == old(loans) && quests == old(quests)
      ensures loanAmount == old(loanAmount) && questTitle == old(questTitle) && questReward == old(questReward)
    {
      selectedBorrower := id;
    }

    method SetLoanAmount(amount: int)
      modifies this
      ensures loanAmount == amount && tab == old(tab) && loans == old(loans) && quests == old(quests)
      ensures selectedBorrower == old(selectedBorrower) && questTitle == old(questTitle) && questReward == old(questReward)
    {
      loanAmount := amount;
    }

    /** requestLoan: with a profile and a chosen borrower, insert the loan and
        re-read one's own loans. `draw` is the Math.random() draw of the rate. */
    method RequestLoan(draw: real)
      requires Valid() && IsDraw(draw)
      modifies this, db
      ensures Valid()
      ensures myProfile.None? || old(selectedBorrower) == "" ==> db.State() == old(db.State()) && loans == old(loans)
      ensures myProfile.Some? && old(selectedBorrower) != "" ==>
                db.State() == old(db.State()).(loans := old(db.loans) + [LoanRecord(old(selectedBorrower), myProfile.value.id, old(loanAmount), draw)]) &&
                loans == LoansOf(db.loans, Some(myProfile.value.id))
      ensures tab == old(tab) && quests == old(quests) && loanAmount == old(loanAmount)
      ensures selectedBorrower == old(selectedBorrower) && questTitle == old(questTitle) && questReward == old(questReward)
    {
      if myProfile.None? || selectedBorrower == "" {
        return;
      }
      var rate := InterestRate(draw);
      var totalDue := TotalDue(loanAmount, rate);
      db.InsertLoan(Loan(selectedBorrower, myProfile.value.id, loanAmount, rate, totalDue, "active"));
      FetchLoans();
    }

    method SetQuestTitle(title: string)
      modifies this
      ensures questTitle == title && tab == old(tab) && loans == old(loans) && quests == old(quests)
      ensures loanAmount == old(loanAmount) && selectedBorrower == old(selectedBorrower) && questReward == old(questReward)
    {
      questTitle := title;
    }

    method SetQuestReward(reward: int)
      modifies this
      ensures questReward == reward && tab == old(tab) && loans == old(loans) && quests == old(quests)
      ensures loanAmount == old(loanAmount) && selectedBorrower == old(selectedBorrower) && questTitle == old(questTitle)
    {
      questReward := reward;
    }

    /** createQuest: with a profile and a title, insert the quest, clear the
        title and re-read the active quests. */
    method CreateQuest()
      requires Valid()
      modifies this, db
      ensures Valid()
      ensures myProfile.None? || old(questTitle) == "" ==>
                db.State() == old(db.State()) && questTitle == old(questTitle) && quests == old(quests)
      ensures myProfile.Some? && old(questTitle) != "" ==>
                db.State() == old(db.State()).(quests := old(db.quests) + [QuestRecord(myProfile.value, old(questTitle), old(questReward))]) &&
                questTitle == "" && quests == ActiveQuests(db.quests)
      ensures tab == old(tab) && loans == old(loans) && loanAmount == old(loanAmount)
      ensures selectedBorrower == old(selectedBorrower) && questReward == old(questReward)
    {
      if myProfile.None? || questTitle == "" {
        return;
      }
      db.InsertQuest(Quest(myProfile.value.id, questTitle, QuestPrefix + myProfile.value.pseudo, questReward, "active"));
      questTitle := "";
      FetchQuests();
    }
  }

  /** A quest created now is listed by the next read of the active quests. */
  lemma CreatedQuestListed(rows: seq<Quest>, creator: Profile, title: string, reward: int)
    ensures QuestRecord(creator, title, reward) in ActiveQuests(rows + [QuestRecord(creator, title, reward)])
  {
  }

  /** A loan granted to `borrower` is listed by that borrower's next read of
      their own loans, and by no one else's. */
  lemma GrantedLoanListed(rows: seq<Loan>, borrower: string, lender: string, amount: int, draw: real, reader: string)
    requires IsDraw(draw)
    ensures var l := LoanRecord(borrower, lender, amount, draw);
      (l in LoansOf(rows + [l], Some(reader)) <==> reader == borrower)
  {
  }
}
