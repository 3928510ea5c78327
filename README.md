# Tiny farm: the SQLite farm store and its night

The repository consists of pytest files only. What they exercise is a small
in-memory SQLite database of farms (`ferme`), animals (`animal`), food stock
(`stock`), feeding records (`alimentation`) and products (`production`).
They also exercise a "night" made of five SQL statements run in a fixed
order:

1. every animal gets one year older;
2. every animal without a feeding record dated today loses 0.2 of weight;
3. animals whose weight is 0 or less are deleted;
4. each farm gets one `oeuf` row counting its hens of weight at least 2.5 and age at least 5;
5. each farm with a cow of weight at least 80 gets one `lait` row of quantity 8.

This project models that store in Dafny and proves what the statements do.

- `tables.dfy` (module `Tables`) holds the rows of the five tables and the column constraints. It also holds the `SELECT ... WHERE` lookups the tests read back with.
- `night.dfy` (module `Night`) gives each night statement, and the decay `UPDATE` of the starvation test, as a function from the rows before to the rows after. The lemmas there state what those statements guarantee.
- `store.dfy` (module `Store`) is the database itself, class `FarmDb`. It has one `seq` field per table and one AUTOINCREMENT counter per table. Each SQL statement is a method, and each method's postcondition ties the new table contents to the `Night`/`Tables` functions. Its invariant `Valid()` says that:
  - ids follow AUTOINCREMENT;
  - every row meets its table's declared constraints;
  - the three-table schema has no `stock` or `production` rows.
- `scenarios.dfy` (module `Scenarios`) replays each test body on a fresh database. Each replay returns what the test's final queries read, and its postcondition says what those values are.

The meaning of each statement is held by one `Night` function, which the method's postcondition names:
- `Night.Aged` for the age update (`AgeAnimals`);
- `Night.Decayed` over `Night.FedOn` for the starvation update (`StarveUnfed`);
- `Night.Lowered` for the single-row weight update (`LowerWeight`);
- `Night.Survivors` for the delete (`DeleteDead`);
- `Night.Tonight` for steps 1-3 (`AgeStarveAndCull`, `NightTick`);
- `Night.GroupRows` over `Night.Keys` and `Night.Count` for the two `INSERT ... SELECT` statements (`Produce`; `Harvest` and `NightTick` through `Night.Harvested`).

The lemmas in the table below state what these functions guarantee.

Two schemas occur. Both `test_setup.py` and `test_tiny_evo.py` create five tables, with `animal.ferme_id`, `stock.ferme_id` and `alimentation.animal_id` declared NOT NULL. These two files share their fixtures line for line, and one model (`Schema.Full`) covers both. `test_tiny.py` creates only `ferme`, `animal` and `alimentation`, and there the reference columns may be NULL (`Schema.Basic`).

SQLite semantics that the model makes explicit:

- **AUTOINCREMENT.** Ids start at 1 and are never reused. Each table keeps its own largest issued id; this is SQLite's `sqlite_sequence`. A rejected insert issues no id.
- **The `sexe` CHECK.** `CHECK(sexe IN ('male','femelle'))` lets a NULL sex through. NOT NULL on `ferme_id` is reported before the CHECK.
- **NULL in the decay step.** `id NOT IN (SELECT animal_id ...)` is unknown, and so updates nothing, once the subquery yields a NULL. A feeding dated today with a NULL animal, possible only in the three-table schema, stops all decay (`Night.NullFeedingStopsDecay`).
- **No cascade.** Foreign keys are never switched on (no `PRAGMA foreign_keys`). Deleting an animal removes only that row, and a dangling `ferme_id` or `animal_id` is accepted.
- **The two `INSERT ... SELECT ... GROUP BY ferme_id` statements.** They append one row per group. SQL leaves the group order open; the model lists groups in order of their first qualifying animal. Everything proved about the rows (`Night.GroupRowsSpec`) is independent of that order, except the consecutive ids.
- **`CURRENT_DATE`.** It is passed in as `today`. The same value stands for the `date.today()` the tests store in `date_nourrissage`.

### What the tests assert and what follows

- `test_evolution_nuit` (`test_tiny_evo.py:101-200`): the assertions at lines 196, 197, 199 and 200 follow from the statements. The one at line 198 does not. The unfed hen ends the night at 2.5 - 0.2 = 2.3, which is above 0, so it is not deleted, and `SELECT COUNT(*)` reads 1 (`Scenarios.NightEvolution`).
- `test_mortalite_si_non_nourrie` (`test_tiny.py:108-120`): four updates of -0.5 leave the hen at 0.5. The delete keeps it, so the count read at line 117 is 1 and not the 0 asserted at line 120 (`Scenarios.StarvationMortality`).
- `test_poule_nourrie_une_fois` (`test_tiny.py:96-106`): the declared `alimentation` table has no UNIQUE constraint, so the second insert is not rejected (see "## Findings").

## Model

| member | source | states |
|---|---|---|
| Tables.AnimalViolation | test_setup.py:29-39 | an animal insert is accepted exactly when its sex is NULL, 'male' or 'femelle' and, in the five-table schema, it names a farm; any other sex is rejected |
| Tables.IdsDetermineAnimal | test_tiny_evo.py:31 | with AUTOINCREMENT ids, two animal rows with the same id are the same row |
| Tables.FarmById | test_tiny.py:75-76 | `SELECT ... FROM ferme WHERE id = ?` returns a row of the table with that id, and returns nothing exactly when no row has that id |
| Tables.AnimalById | test_tiny_evo.py:178-182 | `SELECT ... FROM animal WHERE id = ?` returns a row of the table with that id, and returns nothing exactly when no row has that id |
| Tables.FarmByIdAppended | test_tiny.py:72-76 | a farm inserted under a fresh id is what the lookup by its `lastrowid` reads back |
| Tables.AnimalByIdAppended | test_tiny.py:84-91 | an animal inserted under a fresh id is what the lookup by its `lastrowid` reads back |
| Tables.CountId | test_tiny.py:116-117 | `SELECT COUNT(*) ... WHERE id = ?` is 0 exactly when no row has that id, and never exceeds the table size |
| Tables.CountIdUnique | test_tiny_evo.py:184-185 | with increasing ids, that count is at most 1 |
| Tables.AlreadyFedSpec | test_tiny.py:99-104 | the duplicate test holds exactly when some feeding row pairs that animal with that date |
| Tables.ProductionQuantity | test_tiny_evo.py:187-191 | `SELECT quantite FROM production WHERE type = ? AND ferme_id = ?` then `fetchone()` yields the quantity of a matching row, or nothing exactly when no row matches |
| Tables.ProductionQuantityOfSingle | test_tiny_evo.py:187-191 | when only one row matches, `fetchone()` yields its quantity |
| Night.LoweredTwice | test_tiny.py:112-113 | two weight updates of one animal equal one update by their sum, so four updates of 0.5 are one of 2.0 |
| Night.LoweredOthers | test_tiny.py:113 | `UPDATE ... WHERE id = ?` leaves every other animal reading back as before |
| Night.LoweredTarget | test_tiny.py:113 | the targeted animal reads back exactly `loss` lighter, all other columns unchanged |
| Night.LoweredAbsent | test_tiny.py:113 | with no animal of that id the update changes nothing |
| Night.StarvingIffUnfed | test_tiny_evo.py:148-152 | when none of today's feedings has a NULL animal, an animal is decayed exactly when none of today's feedings is its own (with `NullFeedingStopsDecay` this covers every case) |
| Night.NullFeedingStopsDecay | test_tiny_evo.py:148-152 | one feeding dated today with a NULL animal makes `NOT IN` unknown for every row, so the update changes nothing |
| Night.SurvivorsMembers | test_tiny_evo.py:155 | after the delete, a row remains exactly when it was there with weight above 0 |
| Night.SurvivorsAppend | test_tiny.py:115 | the delete keeps the surviving rows in their original order |
| Night.SurvivorsAllAlive | test_tiny.py:115 | when every weight is above 0 the delete removes nothing |
| Night.SurvivorsIds | test_tiny_evo.py:155 | the delete keeps ids strictly increasing |
| Night.AgedThenDecayed | test_tiny_evo.py:145-152 | the age update followed by the starvation update is, row by row, the one-night change of each animal |
| Night.TonightMembers | test_tiny_evo.py:145-155 | after steps 1-3 the rows are exactly the surviving one-night images of the old rows: each is one year older, keeps its weight when fed today and is 0.2 lighter otherwise, and has weight above 0 |
| Night.TonightById | test_tiny_evo.py:178-185 | for every old animal, the lookup and the count by its id after the night give its one-night image with count 1 if that image weighs above 0, and nothing with count 0 otherwise |
| Night.CountAppend | test_tiny_evo.py:158-164 | the per-farm `COUNT(*)` of qualifying animals adds up over concatenated tables |
| Night.KeysSpec | test_tiny_evo.py:158-164 | `GROUP BY ferme_id` forms a group exactly for each farm with a qualifying animal, and no group twice |
| Night.GroupRowsSpec | test_tiny_evo.py:158-173 | each `INSERT ... SELECT` appends exactly one row per farm with a qualifying animal and none for the others: consecutive fresh ids, kind `oeuf`/`lait`, quantity the hen count for eggs and 8 for milk |
| Night.CountIgnoresDead | test_tiny_evo.py:155-164 | the thresholds exceed 0, so counting after the delete gives the same numbers as counting before: dead animals never yield |
| Store.FarmDb.constructor | test_tiny_evo.py:15-74 | `setup_db` creates the tables of the chosen schema, all empty, with every counter at 0 |
| Store.FarmDb.InsertFarm | test_tiny_evo.py:107-111 | appends one farm with the given name and balance 1500 under id last+1, which exceeds every existing farm id; no other table changes |
| Store.FarmDb.InsertAnimal | test_tiny_evo.py:114-119 | rejects a row with a forbidden sex or, in the five-table schema, a NULL farm, leaving the table as it was; otherwise appends exactly the given row under a fresh id greater than all existing ones and returns that id |
| Store.FarmDb.InsertStock | test_tiny_evo.py:135 | appends the stock row under a fresh id; fails with no such table in the three-table schema and on a NULL farm |
| Store.FarmDb.InsertFeeding | test_tiny_evo.py:138-139 | the insert as declared: appends the feeding under a fresh id and rejects only a NULL animal in the five-table schema |
| Store.FarmDb.RecordFeeding | test_tiny.py:99-104 | the insert the test expects: a feeding of an animal already fed that day is rejected as a UNIQUE violation, leaving the first row alone; otherwise the row is appended |
| Store.FarmDb.SetupFarm | test_setup.py:91-99 | `setup_ferme` appends exactly one farm, `FermeTest` with balance 1500, under a fresh id |
| Store.FarmDb.SetupHen | test_setup.py:77-88 | `setup_poule` appends exactly one animal, `poule` 2.5 age 5 `femelle` of the given farm, under a fresh id |
| Store.FarmDb.AgeAnimals | test_tiny_evo.py:145 | the `animal` table becomes its age-updated image; the invariant is kept |
| Store.FarmDb.StarveUnfed | test_tiny_evo.py:148-152 | the `animal` table becomes its starvation-updated image for `today`'s feedings |
| Store.FarmDb.LowerWeight | test_tiny.py:113 | the `animal` table becomes the image of the single-row weight update |
| Store.FarmDb.DeleteDead | test_tiny_evo.py:155 | the `animal` table keeps exactly its rows of weight above 0, in order, and nothing else changes |
| Store.FarmDb.Produce | test_tiny_evo.py:158-173 | appends the group rows of one product, numbered from the counter; fails with no such table in the three-table schema |
| Store.FarmDb.AgeStarveAndCull | test_tiny_evo.py:145-155 | steps 1-3 turn the `animal` table into its one-night image |
| Store.FarmDb.Harvest | test_tiny_evo.py:158-173 | steps 4-5 append the egg rows and then the milk rows of the animals now present |
| Store.FarmDb.NightTick | test_tiny_evo.py:143-173 | the whole night: the animals become their one-night image, production grows by the egg and milk rows of the survivors, and farms, stock and feedings are unchanged |
| Scenarios.FarmCreation | test_tiny.py:69-79 | `test_creation_ferme` reads back ('MaFermeTest', 1500) |
| Scenarios.AnimalInsertion | test_tiny.py:81-94 | `test_ajout_animal` reads back ('poule', 2.5) |
| Scenarios.HenFixture | test_tiny.py:46-67 | the fixtures leave exactly the farm `FermeTest` with balance 1500 and the hen `poule` 2.5 age 5 `femelle` of that farm, both with id 1, and no feedings |
| Scenarios.FeedTwiceDeclared | test_tiny.py:96-106 | against the declared table, the second feeding is accepted and two rows exist |
| Scenarios.FeedTwiceUnique | test_tiny.py:96-106 | with the expected uniqueness, the second feeding is rejected and only the first row remains |
| Scenarios.StarveFourDays | test_tiny.py:112-113 | the loop takes the hen from 2.5 to 0.5 |
| Scenarios.StarvationMortality | test_tiny.py:108-120 | after the loop and the delete, the hen weighs 0.5 and the count read is 1, not the 0 the test asserts |
| Scenarios.EvolutionFarms | test_tiny_evo.py:107-111 | the two farm inserts return ids 1 and 2 and leave exactly `Ferme Alpha` and `Ferme Beta`, both with balance 1500 |
| Scenarios.EvolutionAnimals | test_tiny_evo.py:114-119 | the three-row insert gives the fed hen id 1 on farm 1, the unfed hen id 2 on farm 2 and the cow id 3 on farm 1 |
| Scenarios.EvolutionFeed | test_tiny_evo.py:135-139 | the stock insert leaves exactly the `paille` 5 row of farm 1, and the two declared feeding inserts leave exactly feedings 1 and 2, for animals 1 and 3, dated today |
| Scenarios.EvolutionSetup | test_tiny_evo.py:101-141 | the start state before the night: the two farms at balance 1500, the three animals, the straw stock, the two feedings dated today and an empty `production` |
| Scenarios.EvolutionTonight | test_tiny_evo.py:145-155 | from that state, steps 1-3 give hen 1 at 2.5/age 6, hen 2 at 2.3/age 6 (alive) and the cow at 80/age 11 |
| Scenarios.EvolutionProduce | test_tiny_evo.py:158-173 | steps 4-5 then add exactly `oeuf` 1 and `lait` 8, both for farm 1 |
| Scenarios.EvolutionReadBack | test_tiny_evo.py:178-191 | the final queries on that state read age 6, weight 2.5, count 1, eggs 1 and milk 8 |
| Scenarios.EvolutionNightTick | test_tiny_evo.py:143-173 | the night method run on the start state reaches exactly that state |
| Scenarios.NightEvolution | test_tiny_evo.py:101-200 | `test_evolution_nuit` reads age 6 and weight 2.5 for the fed hen, count 1 for the unfed hen, 1 egg and 8 milk for farm 1: lines 196, 197, 199 and 200 hold and line 198 does not |

## Left out

- sqlite3 connections, cursors, `commit`, `close` and the pytest fixture wiring: plumbing, with no effect on the tables.
- The `requests` import and `BASE_URL` (`test_tiny.py:3-6`): an HTTP API that nothing calls.
- IEEE doubles: weights are exact `real`s. 2.5 - 0.2 is 2.3 exactly in the model and about 2.3 as a double; no compared value lies near a rounding boundary.
- The clock: `CURRENT_DATE` and `date.today()` are one parameter `today`. SQLite's `CURRENT_DATE` is in UTC while `date.today()` is local time. Near midnight they can differ, and then fed animals would decay too; the model does not capture that.
- The `DEFAULT CURRENT_DATE` of `date_nourrissage`: every insert supplies the date, so the default is never used.
- The NOT NULL constraints on `nom`, `type`, `poids`, `age` and `quantite`: the tests never pass NULL there, and the model's argument types cannot be NULL.
- Column type affinity: the integer 80 of `test_tiny_evo.py:118` is stored in a REAL column as 80.0, which is the value the model inserts.
- The atomicity of the three-row `INSERT` at `test_tiny_evo.py:114-119`: it is modelled as three one-row inserts. These differ only when a row is rejected, and none is.
- The `LIMIT 1` id lookups at `test_tiny_evo.py:124-131`: test scaffolding. The ids they find are the `lastrowid`s 1, 2 and 3 of the inserts.
- The contents of `stock`: they are inserted and never read by any statement.
- `ON DELETE CASCADE` and foreign-key existence checks: not enforced, because foreign keys are never switched on.
- 64-bit integer limits of ids, ages and counts: unbounded `int`s. No test comes anywhere near the limit.
- Store.FarmDb.Produce: fixes the order of the appended groups (first appearance), which SQL leaves unspecified; the lemmas about the rows do not depend on it.

## Findings

| source | as written | input that shows it | evidently intended | confidence | as-written member | corrected member |
|---|---|---|---|---|---|---|
| test_tiny.py:36-42 | `alimentation` declares no UNIQUE(animal_id, date_nourrissage), so the second insert at line 103, which the test expects to raise an integrity error, succeeds | the fixture hen (id 1) fed twice with the same `today` | the second feeding of the same animal on the same date is rejected with an integrity error and the first row stays | not executed | Scenarios.FeedTwiceDeclared | Scenarios.FeedTwiceUnique |

The as-written insert is `Store.FarmDb.InsertFeeding`, and the corrected insert is `Store.FarmDb.RecordFeeding`.
