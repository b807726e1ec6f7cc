# IRON-GOAT game rules in Dafny

IRON-GOAT is a browser strategy game set in Westeros. Each player owns one
profile row (gold, soldiers, a position, a house, a realm key and the flags
bot, rebel, monarch, banker) in a hosted database. The game's logic lives in
the event handlers of a few pages. This project models that logic and proves
what it does:

- the tactical map's actions:
  - siege, bribe, infiltration and marriage proposals;
  - tax collection, recruitment and the Night's Watch rebellion;
  - the automatic monarch election;
  - the summoned roster of eleven lords;
  - the battle-report filter;
- the monarchy panel: the monarch lookup, the 200-gold tax, the banker's loans and quests, and the borrower list;
- the three-step oath wizard and the profile it writes;
- the static registry of houses and cultures;
- the lobby's bot generator and its eight-seat capacity rule;
- the terrain classification of the 15 × 40 hexagonal map.

## How the model is built

- **The database.** It is an object, `Store.GameStore`, whose fields are the tables, each a sequence of rows.
  - `State()` returns all tables as one `Tables.Tables` value.
  - Each client call becomes one method: `.update(...).eq('id', …)`, `.insert`, `.select` and `.rpc`.
  - The profiles table keeps its primary key as an invariant: no two rows share an id.
- **The pages are classes.** `TacticalMapPage.TacticalMap`, `Monarchy.MonarchyPanel`, `Oath.OathWizard` and `LobbyPage.Lobby` hold the React state as fields.
  - Their handlers are methods, written as the handlers are: the same guards, the same writes in the same order.
  - Each handler's postcondition gives the new database state as a pure function of the old one. For example, `ActionRules.Bribe`.
  - Lemmas, mostly in `ActionProperties`, then prove what the game promises about those functions.
- **Snapshots.** Like the source, a handler computes its writes from the client's copy of the profiles (`myProfile`, the target) and writes absolute values.
  - The lemmas state the effect on the stored rows. Where it matters, they assume the copy is current.
- **Randomness.** Every `Math.random()` draw is a `real` parameter in [0, 1) (`Basics.IsDraw`).
  - `Math.floor(Math.random() * n)` is `Basics.ScaleDraw`.
  - `Date.now()`, `new Date()` and the ids from `crypto.randomUUID()` are parameters too.
- **Floors and distances.** `Math.floor(s * 0.2)` is `s / 5`.
  - A march's `Math.ceil(sqrt(dx² + dy²) / 50)` minutes is the least `m` with `2500·m² ≥ dx² + dy²`.
  - Loan interest is an exact real, not an IEEE double.

The model follows the code wherever the game's design description says otherwise:

- **Night's Watch tests.** The siege guard, tax collection, recruitment and rebellion all test the actor's *house* id `"nightwatch"`. The design speaks of the faction. The model tests the house, as the code does.
- **Rebellion.** `rebelAgainstWatch` does not check that the actor has not already rebelled. Only the button is hidden. A second rebellion appends the suffix again (`ActionRules.RebelAgainstWatch`).
- **Siege.** It does not check that the target is in the actor's realm.
- **Infiltration.** A target poorer than the stolen amount is floored at 0 gold, while the thief is credited in full. Gold is then created (`ActionProperties.InfiltrationConservesIffAffordable`).
- **Roster.** Summoning it again is not refused: fresh ids never collide, so every press adds eleven bots (`ActionProperties.SpawnBotsAddsEleven`).
- **Election.** It is read-then-write, with no mutual exclusion between clients.
- **Tax.** The client only calls the `pay_tax_to_monarch` procedure, whose body is not part of the source. The model records the call, not a transfer of gold.
- **The `success` flag.** `performAction`'s `success` is assigned but never read. The model returns it.

## Model

| member | source | states |
|---|---|---|
| Basics.ScaleDraw | app/map/page.tsx:77 | `Math.floor(Math.random() * n)` is an index in [0, n) |
| Basics.NatToString | lib/botLogic.ts:21-22 | a non-negative integer renders as a non-empty string of decimal digits without a leading zero |
| Basics.ParseNatToString | lib/botLogic.ts:21-22 | reading the decimal rendering back gives the number |
| Basics.NatToStringInjective | lib/botLogic.ts:21 | distinct numbers render differently |
| GameData.FindHouse | lib/gameData.ts:141 | `HOUSES.find`: absent exactly when no entry has the id; otherwise the first entry holding it |
| GameData.FindCulture | lib/gameData.ts:142 | `CULTURES.find`: absent exactly when no entry has the id; otherwise the first entry holding it |
| GameData.GetHouse | lib/gameData.ts:141 | `getHouse(id)`: the registry lookup; its contract is `FindHouse`'s, and `FindHouseFound` says for which ids it succeeds |
| GameData.GetCulture | lib/gameData.ts:142 | `getCulture(id)`: the registry lookup; its contract is `FindCulture`'s, and `FindCultureFound` says for which ids it succeeds |
| GameData.RegistryShape | lib/gameData.ts:1-139 | 10 houses and 4 cultures, with pairwise distinct ids |
| GameData.HouseIdsDistinct | lib/gameData.ts:3-120 | no two houses of the registry share an id |
| GameData.CultureIdsDistinct | lib/gameData.ts:135-138 | no two cultures of the registry share an id |
| GameData.FindHouseFound | lib/gameData.ts:141 | a house lookup succeeds exactly for the ids the list offers |
| GameData.FindCultureFound | lib/gameData.ts:142 | a culture lookup succeeds exactly for the ids the list offers |
| GameData.FindHouseOwnEntry | lib/gameData.ts:141 | with distinct ids, looking up an entry's id returns that entry |
| GameData.FindCultureOwnEntry | lib/gameData.ts:142 | with distinct ids, looking up an entry's id returns that entry |
| GameData.RegistryLookupsResolve | lib/gameData.ts:3-142 | every listed house id and culture id resolves to its own entry |
| GameData.NightWatchButNoWhiteWalker | lib/gameData.ts:94 | `getHouse('nightwatch')` is the eighth house; `getHouse('whitewalker')` is absent |
| GameData.NoWhiteWalkerHouse | lib/gameData.ts:1-141 | no house has the id `whitewalker`, so `getHouse('whitewalker')` finds nothing |
| Tables.Apply | app/map/page.tsx:80-82 | writing a patch never changes a row's id, bot flag, faction or banker flag |
| Tables.UpdateByIdAt | app/map/page.tsx:300-306 | `.update(patch).eq('id', id)` patches exactly the rows with that id, keeps the others, and keeps the length |
| Tables.FindSpec | app/map/page.tsx:62 | `.eq('id', id).single()` is absent exactly when no row has the id; otherwise it is the first such row |
| Tables.RealmRows | app/map/page.tsx:69 | `.eq('realm_key', realm)` keeps exactly the rows of that realm |
| Tables.AppendKeepsIds | app/map/page.tsx:119-126 | an insert that raises no duplicate key keeps the ids unique |
| Tables.FindAfterUpdate | app/map/page.tsx:300-306 | after an update by id, a lookup of that id gives the patched row and a lookup of any other id gives the old row |
| Tables.UpdateKeepsIds | app/map/page.tsx:80-82 | an update by id keeps every row's id and the key's uniqueness |
| Tables.FindUnique | app/map/page.tsx:62 | with unique ids, looking up a row's id finds that row |
| Tables.CrowningLeavesOneMonarch | app/map/page.tsx:74-82 | crowning a realm row in a realm with no monarch leaves exactly one monarch there |
| Tables.CrownRow | app/map/page.tsx:78-80 | crowning one realm row of a realm without a monarch keeps ids unique and the length, crowns exactly that row, and leaves the realm one monarch |
| Tables.NoMatchNoCount | app/map/page.tsx:80-82 | crowning an id that is absent leaves the monarch count at zero |
| Tables.NoMonarchCountZero | app/map/page.tsx:74 | `allPlayers.some(p => p.is_monarch)` is false exactly when the realm counts no monarch |
| Tables.CountZeroNoMonarch | app/map/page.tsx:74 | a realm counts no monarch exactly when none of its rows carries the flag |
| ActionRules.LeastCover | app/map/page.tsx:280-282 | the least m at or above the start with 2500·m² ≥ d² |
| ActionRules.EtaMinutes | app/map/page.tsx:280-282 | `Math.ceil(dist / 50)`: the least m with 2500·m² ≥ dx² + dy² |
| ActionRules.Deserters | app/map/page.tsx:299 | `Math.floor(s * 0.2)` is the k with 5k ≤ s < 5k + 5 |
| ActionRules.BribedSoldiers | app/map/page.tsx:305 | the garrison after a bribe is never negative |
| ActionRules.StolenAmount | app/map/page.tsx:316 | the stolen amount is an integer in [100, 300) |
| ActionRules.RobbedGold | app/map/page.tsx:322 | the target's gold after a theft is never negative |
| ActionRules.OrPublic | app/oath/page.tsx:38 | `key \|\| 'public'` is never empty and is the key itself when that is non-empty |
| ActionRules.Roster | app/map/page.tsx:103-116 | eleven rows, the i-th being the i-th lord of the table with the i-th fresh id, a bot of the player's realm without culture and not rebel, monarch or banker |
| ActionRules.ActiveConflicts | app/map/page.tsx:94 | `.eq('status', 'marching')` keeps exactly the marching conflicts |
| ActionRules.Siege | app/map/page.tsx:269-291 | the siege branch; its contract is stated by `ActionProperties.SiegeRule` |
| ActionRules.Bribe | app/map/page.tsx:293-310 | the bribe branch; see `ActionProperties.BribeRule`, `BribeApplied` and `BribeRefused` |
| ActionRules.Infiltrate | app/map/page.tsx:312-329 | the infiltration branch; see `ActionProperties.InfiltrateRule` and `InfiltrationConservesIffAffordable` |
| ActionRules.Marriage | app/map/page.tsx:331-339 | the marriage branch; see `ActionProperties.MarriageRule` |
| ActionRules.Resolve | app/map/page.tsx:268-343 | the `switch (type)` over the four actions, each case the rule above; an unknown kind writes nothing (see `TacticalMapPage.TacticalMap.Dispatch`) |
| ActionRules.CollectTaxes | app/map/page.tsx:179-203 | tax collection; see `ActionProperties.CollectTaxesRule` |
| ActionRules.Recruit | app/map/page.tsx:205-238 | recruitment; see `ActionProperties.RecruitRule` and `RecruitScenario` |
| ActionRules.RebelAgainstWatch | app/map/page.tsx:137-151 | breaking the vows; see `ActionProperties.RebelRule` and `RebellionLiftsSiegeGuard` |
| ActionRules.Election | app/map/page.tsx:74-82 | the automatic election; see `ActionProperties.ElectionNoOp`, `ElectionCrownsOne` and `ElectionSettles` |
| ActionRules.SpawnBots | app/map/page.tsx:98-135 | the roster insert; see `ActionProperties.SpawnBotsRule` and `SpawnBotsAddsEleven` |
| ActionRules.RaisesReport | app/map/page.tsx:164-167 | the realtime filter for the battle report; see `TacticalMapPage.TacticalMap.OnConflictChange` |
| ActionProperties.TwoUpdates | app/map/page.tsx:300-306 | two updates on distinct ids patch each row once and leave every other id's row as it was |
| ActionProperties.SiegeRule | app/map/page.tsx:269-291 | refused exactly for an unrebelled Night's Watch actor against a noble, and then nothing is written; otherwise one conflict is appended (attacker, defender, `Expédition`/`Siège` title, arrival now + ETA minutes, `marching`) and no profile changes |
| ActionProperties.EtaOfFiveHundred | app/map/page.tsx:280-282 | a march over a distance of 500 takes ten minutes |
| ActionProperties.BribeRule | app/map/page.tsx:293-310 | below 500 gold nothing is written; otherwise the briber's row gets gold − 500, the target's row gets max(0, s − ⌊s/5⌋) soldiers, and every other row is unchanged |
| ActionProperties.BribeApplied | app/map/page.tsx:300-306 | with 500 gold or more the bribe succeeds, takes exactly 500 gold from the briber, cuts the target to `BribedSoldiers` and touches no other row |
| ActionProperties.BribeRefused | app/map/page.tsx:297-299 | below 500 gold the bribe fails with the unaffordable notice and writes nothing |
| ActionProperties.BribeFromStoredRows | app/map/page.tsx:297-306 | from current rows, the briber ends with exactly 500 gold less and the target with s − ⌊s/5⌋ ≥ 0 soldiers |
| ActionProperties.InfiltrateRule | app/map/page.tsx:312-329 | on the favourable roll the thief gains the stolen amount in [100, 300) and the target drops to max(0, g − stolen), nothing else changes; otherwise nothing is written |
| ActionProperties.InfiltrationConservesIffAffordable | app/map/page.tsx:314-323 | on any favourable roll (above 0.5) the pair's total gold is conserved exactly when the target had at least the stolen amount |
| ActionProperties.MarriageRule | app/map/page.tsx:331-339 | a proposal always succeeds with the raven notice; it appends one public message from the proposer whose text names both houses, keeps every earlier message and touches no other table |
| ActionProperties.UnionNamesBothHouses | app/map/page.tsx:335 | the alliance broadcast contains the proposer's house and the target's house |
| ActionProperties.CollectTaxesRule | app/map/page.tsx:179-203 | the collector's row gains 300 gold (Night's Watch) or 500 (others) and keeps its soldiers; nothing else changes |
| ActionProperties.RecruitRule | app/map/page.tsx:205-238 | a non-Watch actor below 100 gold is refused with no write; otherwise +20 soldiers at no cost (Watch) or +10 for 100 gold, and a non-Watch actor's gold stays non-negative |
| ActionProperties.RecruitScenario | app/map/page.tsx:216-224 | a Stark lord with 1000 gold and 100 soldiers ends with 900 and 110 |
| ActionProperties.RebelRule | app/map/page.tsx:137-151 | any other house is refused silently, with no notice and no write; a Night's Watch house may rebel: the row is flagged rebel and renamed with the ` (Roi au-delà du Mur)` suffix; nothing else changes |
| ActionProperties.RebellionLiftsSiegeGuard | app/map/page.tsx:138-143 | after rebelling, the Watch actor may besiege nobles |
| ActionProperties.ElectionNoOp | app/map/page.tsx:74-75 | the election writes nothing in an empty realm or in one that has a monarch |
| ActionProperties.ElectionCrownsOne | app/map/page.tsx:74-82 | otherwise exactly the drawn realm row gains the monarch flag, every other row is kept, and the realm has exactly one monarch |
| ActionProperties.ChosenRow | app/map/page.tsx:77-78 | the drawn player is a row of the table that belongs to the realm |
| ActionProperties.ElectionSettles | app/map/page.tsx:58-96 | the election of the next page load writes nothing |
| ActionProperties.RosterRule | app/map/page.tsx:103-116 | all eleven lords are bots of the player's realm and not monarchs; the Night King is a White Walker, Jeor Mormont of the Watch, the rest nobles |
| ActionProperties.SpawnBotsRule | app/map/page.tsx:98-135 | the roster is inserted whole, keeping ids unique, or refused with the duplicate-key notice and nothing written |
| ActionProperties.BotCountAppend | app/map/page.tsx:119 | the bot count of two row lists appended is the sum of their counts |
| ActionProperties.SpawnBotsAddsEleven | app/map/page.tsx:98-135 | every successful summons adds eleven bots, whatever the realm already holds |
| Store.GameStore.Update | app/map/page.tsx:300-306 | an update by id changes only the profiles table, as `UpdateById` says, and keeps ids unique |
| Store.GameStore.InsertProfiles | app/map/page.tsx:119-126 | a multi-row insert succeeds and appends all rows exactly when no id repeats; otherwise it writes nothing |
| Store.GameStore.SelectProfile | app/map/page.tsx:62 | returns the row with that id, if any |
| Store.GameStore.SelectRealm | app/map/page.tsx:69 | returns the realm's rows |
| Store.GameStore.SelectMarching | app/map/page.tsx:94 | returns the marching conflicts |
| Store.GameStore.InsertConflict | app/map/page.tsx:284-290 | appends one conflict; nothing else changes |
| Store.GameStore.InsertMessage | app/map/page.tsx:333-337 | appends one message; nothing else changes |
| Store.GameStore.InsertLoan | components/game/MonarchyPanel.tsx:113-120 | appends one loan; nothing else changes |
| Store.GameStore.InsertQuest | components/game/MonarchyPanel.tsx:129-135 | appends one quest; nothing else changes |
| Store.GameStore.CallPayTax | components/game/MonarchyPanel.tsx:95-98 | records one call of the tax procedure; nothing else changes |
| TacticalMapPage.TacticalMap.FetchData | app/map/page.tsx:58-96 | loads the user's profile and realm, runs the election on the old state, and lists the updated realm and the marching conflicts |
| TacticalMapPage.TacticalMap.LoadProfile | app/map/page.tsx:59-65 | a signed-in user's row becomes the profile; without a user the profile is kept; no other field changes |
| TacticalMapPage.TacticalMap.LoadRealm | app/map/page.tsx:67-95 | the store becomes `Election`'s, the players are the updated realm, the conflicts the marching ones |
| TacticalMapPage.TacticalMap.ElectMonarch | app/map/page.tsx:73-84 | the store and notice become `Election`'s; no notice means nothing was written |
| TacticalMapPage.TacticalMap.SpawnBots | app/map/page.tsx:98-135 | without a profile nothing happens; otherwise the store and notice become those of `SpawnBots` |
| TacticalMapPage.TacticalMap.SummonRoster | app/map/page.tsx:103-130 | inserting the roster leaves the store and notice of `SpawnBots` |
| TacticalMapPage.TacticalMap.RebelAgainstWatch | app/map/page.tsx:137-151 | the store and notice become those of the pure rule |
| TacticalMapPage.TacticalMap.CollectTaxes | app/map/page.tsx:179-203 | the store and notice become those of the pure rule |
| TacticalMapPage.TacticalMap.RecruitSoldiers | app/map/page.tsx:205-238 | the store and notice become those of the pure rule, the refusal included |
| TacticalMapPage.TacticalMap.HandleSelectTarget | app/map/page.tsx:240-251 | a null player clears the target; another player's profile becomes the target; one's own is ignored |
| TacticalMapPage.TacticalMap.SiegeOrder | app/map/page.tsx:269-291 | the siege branch writes what `Siege` says |
| TacticalMapPage.TacticalMap.BribeOrder | app/map/page.tsx:293-310 | the bribe branch writes what `Bribe` says |
| TacticalMapPage.TacticalMap.InfiltrateOrder | app/map/page.tsx:312-329 | the infiltration branch writes what `Infiltrate` says |
| TacticalMapPage.TacticalMap.MarriageOrder | app/map/page.tsx:331-339 | the marriage branch writes what `Marriage` says |
| TacticalMapPage.TacticalMap.PerformAction | app/map/page.tsx:253-342 | without an actor or a target nothing is written; otherwise the store, notice and success flag are `Resolve`'s, and a directly passed target becomes the selection |
| TacticalMapPage.TacticalMap.Dispatch | app/map/page.tsx:268-343 | each action kind leaves the store, notice and success flag `Resolve` gives |
| TacticalMapPage.TacticalMap.OnConflictChange | app/map/page.tsx:162-168 | a conflict raises the battle report exactly when it ended in victory or defeat and the player fought in it |
| TacticalMapPage.TacticalMap.CloseReport | app/map/page.tsx:397 | the battle report is dismissed |
| Oath.SpawnCoordinate | app/oath/page.tsx:41-42 | `Math.floor(Math.random() * 600 + 100)` is an integer in [100, 700) |
| Oath.OathPatch | app/oath/page.tsx:34-43 | writes the name, house and culture as chosen, 1000 gold, 100 soldiers, coordinates in [100, 700) and the key, or `public` when it is empty |
| Oath.SwornProfile | app/oath/page.tsx:34-43 | the user's row afterwards carries exactly those values and keeps its bot, faction and banker flags; a user without a row gets none |
| Oath.OathWizard.constructor | app/oath/page.tsx:12-17 | the wizard opens on step 1 with empty fields and nothing chosen |
| Oath.OathWizard.SetPseudo | app/oath/page.tsx:78-79 | the name field is edited on step 1 only |
| Oath.OathWizard.SetRealmKey | app/oath/page.tsx:88-89 | the key field is edited on step 1 only |
| Oath.OathWizard.ChooseAllegiance | app/oath/page.tsx:94-95 | step 1 moves to step 2 exactly when the name has three characters or more |
| Oath.OathWizard.SelectHouse | app/oath/page.tsx:113-116 | step 2 selects a registered house |
| Oath.OathWizard.DefineCulture | app/oath/page.tsx:127-129 | step 2 moves to step 3 exactly when a house is chosen |
| Oath.OathWizard.SelectCulture | app/oath/page.tsx:146-149 | step 3 selects a registered culture |
| Oath.OathWizard.Finalize | app/oath/page.tsx:28-49 | does nothing without a culture or while loading; otherwise marks loading and, for a signed-in user, writes `OathPatch` onto that user's row |
| Monarchy.FindMonarch | components/game/MonarchyPanel.tsx:58 | absent exactly when no player is monarch; otherwise the first monarch of the list |
| Monarchy.Borrowers | components/game/MonarchyPanel.tsx:248 | exactly the players other than oneself; all of them when one has no profile |
| Monarchy.InterestRate | components/game/MonarchyPanel.tsx:110 | the rate lies in [5, 25) percent |
| Monarchy.LoanRecord | components/game/MonarchyPanel.tsx:110-120 | borrower and lender as given, the amount, a rate in [5, 25), `active`, and total due ⌊amount·(1 + rate/100)⌋ |
| Monarchy.LoanDueBounds | components/game/MonarchyPanel.tsx:111 | for a non-negative amount, amount ≤ total due ≤ 5/4 of the amount |
| Monarchy.QuestRecord | components/game/MonarchyPanel.tsx:129-135 | creator, title and reward as given, `active`, and the description `Quête créée par ` followed by the creator's name |
| Monarchy.LoansOf | components/game/MonarchyPanel.tsx:69-75 | exactly the loans of that borrower; none without a profile |
| Monarchy.ActiveQuests | components/game/MonarchyPanel.tsx:77-83 | exactly the active quests |
| Monarchy.CreatedQuestListed | components/game/MonarchyPanel.tsx:129-139 | a new quest appears in the next listing |
| Monarchy.GrantedLoanListed | components/game/MonarchyPanel.tsx:113-123 | a new loan appears in the borrower's listing and in no one else's |
| Monarchy.MonarchyPanel.constructor | components/game/MonarchyPanel.tsx:50-56 | the panel opens on the tax tab with a loan of 500, no borrower, an empty title and a reward of 1000 |
| Monarchy.MonarchyPanel.SetTab | components/game/MonarchyPanel.tsx:174-193 | the bank and quest tabs are open to bankers only |
| Monarchy.MonarchyPanel.FetchLoans | components/game/MonarchyPanel.tsx:69-75 | lists one's own loans |
| Monarchy.MonarchyPanel.FetchQuests | components/game/MonarchyPanel.tsx:77-83 | lists the active quests |
| Monarchy.MonarchyPanel.PayTaxToMonarch | components/game/MonarchyPanel.tsx:85-105 | does nothing without a profile or a monarch; refuses below 200 gold with no call; otherwise makes exactly one 200-gold tax call |
| Monarchy.MonarchyPanel.SelectBorrower | components/game/MonarchyPanel.tsx:244-251 | the choice is empty or another player |
| Monarchy.MonarchyPanel.SetLoanAmount | components/game/MonarchyPanel.tsx:255-256 | edits the loan amount |
| Monarchy.MonarchyPanel.RequestLoan | components/game/MonarchyPanel.tsx:107-124 | inserts nothing without a profile or a borrower; otherwise appends `LoanRecord` and re-lists one's loans |
| Monarchy.MonarchyPanel.SetQuestTitle | components/game/MonarchyPanel.tsx:291-292 | edits the quest title |
| Monarchy.MonarchyPanel.SetQuestReward | components/game/MonarchyPanel.tsx:298-299 | edits the quest reward |
| Monarchy.MonarchyPanel.CreateQuest | components/game/MonarchyPanel.tsx:126-140 | inserts nothing without a profile or a title; otherwise appends `QuestRecord`, clears the title and re-lists the quests |
| BotLogic.Temperament | lib/botLogic.ts:19 | aggressive exactly when the first draw exceeds 0.6; otherwise diplomatic or balanced by the second draw |
| BotLogic.FirstDashAfterDigits | lib/botLogic.ts:21 | in digits followed by a dash, the first dash comes right after the digits |
| BotLogic.BotIdInjective | lib/botLogic.ts:21 | an id `bot-i-t` determines both i and t |
| BotLogic.MakeBot | lib/botLogic.ts:19-27 | a bot's id is `bot-i-t`; it is online; its power is in [5000, 25000); its house is one of the eight listed; its name is a listed name, ` #`, then a number below 999 |
| BotLogic.GenerateBots | lib/botLogic.ts:17-18 | count bots |
| BotLogic.GeneratedBots | lib/botLogic.ts:17-29 | every bot of a batch is online, of a listed house, of power in [5000, 25000), aggressive exactly when its first draw exceeds 0.6, and no two share an id |
| BotLogic.GeneratedIdsDistinct | lib/botLogic.ts:18-21 | no two bots of a batch share an id, whatever the clock reads |
| BotLogic.GeneratedIdsNotHost | lib/botLogic.ts:21 | no generated id is `host` |
| LobbyPage.BotSeats | app/lobby/page.tsx:24 | one seat per bot, in order |
| LobbyPage.SummonCount | app/lobby/page.tsx:20-23 | below eight seats a press adds 1 to 3 bots without passing eight; at eight it adds none |
| LobbyPage.PressesFillUpToCapacity | app/lobby/page.tsx:20-24 | after p presses from n ≤ 8 seats the room holds min(8, n + 3p) |
| LobbyPage.Lobby.constructor | app/lobby/page.tsx:9-11 | no room and no seats |
| LobbyPage.Lobby.CreateRoom | app/lobby/page.tsx:13-18 | the room gets the code, and the seats become the host alone, flagged as host |
| LobbyPage.Lobby.AddBots | app/lobby/page.tsx:20-26 | appends `SummonCount` fresh bots after the old seats, kept in order, and never passes eight seats |
| LobbyPage.Lobby.Leave | app/lobby/page.tsx:137 | the room closes; the seats are kept |
| LobbyPage.FirstSummonsIdsDistinct | app/lobby/page.tsx:17-24 | the host seat and one batch of bots have pairwise distinct ids |
| LobbyPage.SeatIdsDistinct | app/lobby/page.tsx:17-24 | bots with distinct ids, none `host`, seated after the host give pairwise distinct seat ids |
| HexGrid.Tile | components/game/MapComponent.tsx:52-69 | water exactly off the land rectangle 3<q<12, 2<r<38; the region follows the row thresholds (Narrow Sea off the coast); land types are snow, forest, mountain or land by row and only roughen into mountain or forest; there is never a castle |
| HexGrid.Region | components/game/MapComponent.tsx:51-64 | the region table by row; see `HexGrid.Tile` |
| HexGrid.Vary | components/game/MapComponent.tsx:66-68 | the random roughening; see `HexGrid.Tile` |
| HexGrid.Row | components/game/MapComponent.tsx:45-72 | the first q tiles of a row |
| HexGrid.RowTiles | components/game/MapComponent.tsx:45-72 | the i-th tile of a row is the one generated at (i, r) |
| HexGrid.GridLength | components/game/MapComponent.tsx:43-45 | h rows of width w make w·h tiles |
| HexGrid.GridAt | components/game/MapComponent.tsx:44-71 | row r starts after r full rows, and its q-th tile is the one generated at (q, r) |
| HexGrid.GridTiles | components/game/MapComponent.tsx:43-71 | the tile at position r·w + q is the one generated at (q, r): r-major, then q |
| HexGrid.GenerateHexGrid | components/game/MapComponent.tsx:41-74 | the nested loops build exactly the r-major grid |
| HexGrid.GenerateRow | components/game/MapComponent.tsx:44-71 | the inner loop builds exactly one row, left to right |
| HexGrid.GenerateTile | components/game/MapComponent.tsx:51-70 | the loop body builds exactly `Tile` for its position and rolls |
| HexGrid.MapSize | components/game/MapComponent.tsx:93 | the 15 × 40 map has 600 tiles |

## Left out

- The database's transport, authentication, the router, realtime subscriptions and `window.location.reload()`. The store is an in-memory object.
- Write failures other than the duplicate key of the roster insert (code 23505). The other error notices are not modelled.
- `setTimeout` calls that clear notices or navigate to the map after 1.5 s.
- Concurrency between clients. Each handler runs to completion before the next one; the source's awaits could interleave.
- The re-fetch (`fetchData()`) each handler ends with. It is the separate `TacticalMap.FetchData` method, not part of each handler's postcondition.
- The tax procedure's effect: its body is not part of the source, so only the call is recorded.
- Pixel positions of tiles, `Math.sqrt` distances shown on selection, `hexToPixel`/`pixelToHex`, and the occupant proximity test. These are floating-point geometry.
- `Math.random().toString(36)` for the room code: the code is a parameter of `Lobby.CreateRoom`.
- House icons, descriptions, strengths and weaknesses, and tile colours. They are display text.
- Loan repayment and quest claiming, which do not exist in the source.
- ActionRules.Siege: the arrival time is `nowMs` plus 60000 ms per minute of march. The source adds minutes to a local-time `Date` (`setMinutes(getMinutes() + m)`), which differs by an hour across a daylight-saving change; local time is not modelled.
- ActionRules.SiegeConflict: the clock is a UTC millisecond count, so the local-time minute arithmetic of the source and its daylight-saving shift are not modelled.
- Monarchy.MonarchyPanel.SetQuestReward: `Number(e.target.value)` may be fractional or NaN, and that value reaches `reward_gold`; the model takes integers.
- Monarchy.MonarchyPanel.SetLoanAmount: `Number(e.target.value)` may be fractional or NaN; the model takes integers.
- Monarchy.LoanRecord: the rate is an exact real, not an IEEE double, so `total_due` may differ from the source by rounding at exact boundaries.
- UTF-16 length: `pseudo.length` counts UTF-16 units, while `Oath.OathWizard.ChooseAllegiance` counts characters.
- Disabled buttons and hidden sections. The step and role a section needs are preconditions. Where the source handler has no guard of its own (`handleFinalize`, and the step-2 button that only calls `setStep(3)`), the button's `disabled` condition is tested at the top of the method instead.
- BotLogic.GeneratedIdsDistinct: ids `bot-${i}-${Date.now()}` are distinct only within one batch. Two lobby presses in the same millisecond repeat them, so `LobbyPage.FirstSummonsIdsDistinct` covers the host and the first batch only.
