/**
 * The test bodies of test_tiny.py and test_tiny_evo.py, run against the
 * model. Each method builds its own database, executes the test's
 * statements and returns what the test's final queries read; its
 * postcondition says what those values are, whether or not the test's
 * assertion agrees.
 */
module Scenarios {
  import opened Tables
  import Night
  import opened Store

  /** `test_creation_ferme`: the name and balance read back for the new farm. */
  method FarmCreation() returns (result: Option<(string, int)>)
    ensures result == Some(("MaFermeTest", 1500))
  {
    var db := new FarmDb(Basic);
    var id := db.InsertFarm("MaFermeTest");
    FarmByIdAppended([], Farm(id, "MaFermeTest", DefaultBalance));
    var row := FarmById(db.farms, id);
    result := if row.Some? then Some((row.value.name, row.value.balance)) else None;
  }

  /** `test_ajout_animal`: the type and weight read back for the new hen. */
  method AnimalInsertion() returns (result: Option<(string, real)>)
    ensures result == Some(("poule", 2.5))
  {
    var db := new FarmDb(Basic);
    var farm := db.SetupFarm();
    var r := db.InsertAnimal("poule", 2.5, 5, Some("femelle"), Some(farm));
    AnimalByIdAppended([], Animal(r.value, "poule", 2.5, 5, Some("femelle"), Some(farm)));
    var row := AnimalById(db.animals, r.value);
    result := if row.Some? then Some((row.value.kind, row.value.weight)) else None;
  }

  /** The hen `setup_poule` inserts into the farm of `setup_ferme`. */
  function FixtureHen(): Animal
  {
    Animal(1, "poule", 2.5, 5, Some("femelle"), Some(1))
  }

  /** The fixtures `setup_db`, `setup_ferme` and `setup_poule` of `test_tiny.py`, in that order. */
  method HenFixture() returns (db: FarmDb, hen: int)
    ensures fresh(db) && db.Valid() && db.schema == Basic
    ensures db.farms == [Farm(1, "FermeTest", DefaultBalance)]
    ensures hen == 1 && db.animals == [FixtureHen()]
    ensures db.feedings == [] && db.feedingSeq == 0
  {
    db := new FarmDb(Basic);
    var farm := db.SetupFarm();
    hen := db.SetupHen(farm);
  }

  /**
   * `test_poule_nourrie_une_fois` against the declared `alimentation` table:
   * the second feeding is NOT rejected, so the `pytest.raises` block fails.
   */
  method FeedTwiceDeclared(today: Date) returns (secondRejected: bool, rows: nat)
    ensures !secondRejected
    ensures rows == 2
  {
    var db, hen := HenFixture();
    var first := db.InsertFeeding(Some(hen), today);
    var second := db.InsertFeeding(Some(hen), today);
    secondRejected := second.Err?;
    rows := |db.feedings|;
  }

  /**
   * `test_poule_nourrie_une_fois` with the uniqueness the test expects: the
   * second feeding is rejected as a duplicate and the first row stays.
   */
  method FeedTwiceUnique(today: Date) returns (secondRejected: bool, rows: seq<Feeding>)
    ensures secondRejected
    ensures rows == [Feeding(1, Some(1), today)]
  {
    var db, hen := HenFixture();
    var first := db.RecordFeeding(hen, today);
    assert db.feedings == [Feeding(1, Some(1), today)];
    assert AlreadyFed(db.feedings, hen, today);
    var second := db.RecordFeeding(hen, today);
    secondRejected := second.Err? && second.error.Unique?;
    rows := db.feedings;
  }

  /** The loop of `test_mortalite_si_non_nourrie`: four updates of -0.5 on the hen. */
  method StarveFourDays(db: FarmDb)
    requires db.Valid() && db.animals == [FixtureHen()]
    modifies db`animals
    ensures db.Valid() && db.animals == [FixtureHen().(weight := 0.5)]
  {
    ghost var start := db.animals;
    assert Night.Lowered(start, 1, 0.0) == start;
    for day := 0 to 4
      invariant db.Valid()
      invariant db.animals == Night.Lowered(start, 1, day as real * 0.5)
    {
      db.LowerWeight(1, 0.5);
      Night.LoweredTwice(start, 1, day as real * 0.5, 0.5);
    }
  }

  /**
   * `test_mortalite_si_non_nourrie`: four updates of -0.5 and the mortality
   * delete leave the hen at 0.5, so one row remains (the test asserts 0).
   */
  method StarvationMortality() returns (remaining: nat, weight: Option<real>)
    ensures remaining == 1
    ensures weight == Some(0.5)
  {
    var db, hen := HenFixture();
    StarveFourDays(db);
    var starved := FixtureHen().(weight := 0.5);
    db.DeleteDead();
    Night.SurvivorsAllAlive([starved]);
    remaining := CountId(db.animals, hen);
    var row := AnimalById(db.animals, hen);
    weight := if row.Some? then Some(row.value.weight) else None;
  }

  /** The animal rows `test_evolution_nuit` inserts: fed hen, unfed hen, fed cow. */
  function EvolutionHerd(): seq<Animal>
  {
    [Animal(1, "poule", 2.5, 5, Some("femelle"), Some(1)),
     Animal(2, "poule", 2.5, 5, Some("femelle"), Some(2)),
     Animal(3, "vache", 80.0, 10, Some("femelle"), Some(1))]
  }

  /** The two feedings `test_evolution_nuit` records, both dated `today`. */
  function EvolutionFeedings(today: Date): seq<Feeding>
  {
    [Feeding(1, Some(1), today), Feeding(2, Some(3), today)]
  }

  /** The two farms `test_evolution_nuit` creates, both with the default balance. */
  function EvolutionFarmRows(): seq<Farm>
  {
    [Farm(1, "Ferme Alpha", DefaultBalance), Farm(2, "Ferme Beta", DefaultBalance)]
  }

  /** The straw stock `test_evolution_nuit` gives farm 1. */
  function EvolutionStockRows(): seq<Stock>
  {
    [Stock(1, "paille", 5, 1)]
  }

  /** The two farm inserts of `test_evolution_nuit` on a fresh database. */
  method EvolutionFarms() returns (db: FarmDb, alpha: int, beta: int)
    ensures fresh(db) && db.Valid() && db.schema == Full
    ensures alpha == 1 && beta == 2
    ensures db.farms == EvolutionFarmRows()
    ensures db.stock == [] && db.stockSeq == 0
    ensures db.animals == [] && db.animalSeq == 0 && db.feedings == [] && db.feedingSeq == 0
    ensures db.production == [] && db.productionSeq == 0
  {
    db := new FarmDb(Full);
    alpha := db.InsertFarm("Ferme Alpha");
    beta := db.InsertFarm("Ferme Beta");
  }

  /** The three-row animal insert: the fed hen and the cow on farm 1, the unfed hen on farm 2. */
  method EvolutionAnimals(db: FarmDb)
    requires db.Valid() && db.schema == Full && db.animals == [] && db.animalSeq == 0
    modifies db`animals, db`animalSeq
    ensures db.Valid() && db.animals == EvolutionHerd()
  {
    var r1 := db.InsertAnimal("poule", 2.5, 5, Some("femelle"), Some(1));
    assert r1 == Ok(1);
    var r2 := db.InsertAnimal("poule", 2.5, 5, Some("femelle"), Some(2));
    assert r2 == Ok(2);
    var r3 := db.InsertAnimal("vache", 80.0, 10, Some("femelle"), Some(1));
    assert r3 == Ok(3);
  }

  /** The straw stock of farm 1 and the feedings of the fed hen (id 1) and the cow (id 3). */
  method EvolutionFeed(db: FarmDb, today: Date)
    requires db.Valid() && db.schema == Full
    requires db.stock == [] && db.stockSeq == 0 && db.feedings == [] && db.feedingSeq == 0
    modifies db`stock, db`stockSeq, db`feedings, db`feedingSeq
    ensures db.Valid() && db.stock == EvolutionStockRows() && db.feedings == EvolutionFeedings(today)
  {
    var straw := db.InsertStock("paille", 5, Some(1));
    var f1 := db.InsertFeeding(Some(1), today);
    var f2 := db.InsertFeeding(Some(3), today);
  }

  /**
   * The inserts of `test_evolution_nuit` before the night: farms 'Ferme
   * Alpha' and 'Ferme Beta', the three animals, a straw stock, two feedings.
   */
  method EvolutionSetup(today: Date) returns (db: FarmDb)
    ensures fresh(db) && db.Valid() && db.schema == Full
    ensures db.farms == EvolutionFarmRows() && db.stock == EvolutionStockRows()
    ensures db.animals == EvolutionHerd() && db.feedings == EvolutionFeedings(today)
    ensures db.production == [] && db.productionSeq == 0
  {
    var alpha, beta;
    db, alpha, beta := EvolutionFarms();
    EvolutionAnimals(db);
    EvolutionFeed(db, today);
  }

  /** The animal rows after one night, as the model computes them. */
  function EvolutionMorning(): seq<Animal>
  {
    [Animal(1, "poule", 2.5, 6, Some("femelle"), Some(1)),
     Animal(2, "poule", 2.3, 6, Some("femelle"), Some(2)),
     Animal(3, "vache", 80.0, 11, Some("femelle"), Some(1))]
  }

  /**
   * Steps 1 to 3 of the night from the start state of `test_evolution_nuit`:
   * the fed hen is one year older at 2.5, the unfed hen is at 2.3 and
   * survives, the cow is unchanged but older.
   */
  lemma EvolutionTonight(today: Date)
    ensures Night.Tonight(EvolutionHerd(), EvolutionFeedings(today), today) == EvolutionMorning()
  {
    var before := EvolutionHerd();
    var feedings := EvolutionFeedings(today);
    var fed := Night.FedOn(feedings, today);
    assert feedings[0] in feedings && feedings[1] in feedings;
    assert Some(1) in fed && Some(3) in fed;
    Night.StarvingIffUnfed(feedings, today, before[1]);
    var after := EvolutionMorning();
    Night.AgedThenDecayed(before, fed);
    assert Night.Decayed(Night.Aged(before), fed, Night.NightLoss) == after;
    Night.SurvivorsAllAlive(after);
  }

  /** Steps 4 and 5 on that morning: one egg row and one milk row, both for farm 1. */
  lemma EvolutionProduce()
    ensures Night.GroupRows(EvolutionMorning(), Night.Eggs, 1) == [Production(1, "oeuf", 1, 1)]
    ensures Night.GroupRows(EvolutionMorning(), Night.Milk, 2) == [Production(2, "lait", 8, 1)]
  {
    var after := EvolutionMorning();
    var one, two := after[..1], after[..2];
    assert one[..0] == [] && two[..1] == one && after[..2] == two;
    assert Night.Yields(Night.Eggs, after[0], 1) && !Night.Yields(Night.Eggs, after[1], 1);
    assert !Night.Qualifies(Night.Eggs, after[2]) && !Night.Qualifies(Night.Milk, after[0]);
    assert !Night.Qualifies(Night.Milk, after[1]) && Night.Qualifies(Night.Milk, after[2]);
    assert Night.Count(one, Night.Eggs, 1) == 1;
    assert Night.Count(two, Night.Eggs, 1) == 1;
    assert Night.Count(after, Night.Eggs, 1) == 1;
    assert Night.Keys(one, Night.Eggs) == [1];
    assert Night.Keys(two, Night.Eggs) == [1];
    assert Night.Keys(after, Night.Eggs) == [1];
    assert Night.Keys(one, Night.Milk) == [];
    assert Night.Keys(two, Night.Milk) == [];
    assert Night.Keys(after, Night.Milk) == [1];
  }

  /** The production rows the night appends to an empty table. */
  function EvolutionOutput(): seq<Production>
  {
    [Production(1, "oeuf", 1, 1), Production(2, "lait", 8, 1)]
  }

  /** What the final `SELECT`s of `test_evolution_nuit` read from that state. */
  lemma EvolutionReadBack()
    ensures AnimalById(EvolutionMorning(), 1) == Some(EvolutionMorning()[0])
    ensures CountId(EvolutionMorning(), 2) == 1
    ensures ProductionQuantity(EvolutionOutput(), "oeuf", 1) == Some(1)
    ensures ProductionQuantity(EvolutionOutput(), "lait", 1) == Some(8)
  {
    var m := EvolutionMorning();
    assert m[1..][1..][1..] == [];
    var o := EvolutionOutput();
    assert o[1..][1..] == [];
  }

  /** The night run on the start state of `test_evolution_nuit`. */
  method EvolutionNightTick(db: FarmDb, today: Date)
    requires db.Valid() && db.schema == Full
    requires db.animals == EvolutionHerd() && db.feedings == EvolutionFeedings(today)
    requires db.production == [] && db.productionSeq == 0
    modifies db`animals, db`production, db`productionSeq
    ensures db.animals == EvolutionMorning() && db.production == EvolutionOutput()
  {
    EvolutionTonight(today);
    EvolutionProduce();
    var tick := db.NightTick(today);
  }

  /**
   * `test_evolution_nuit`: the start state, then one night. Returns the fed
   * hen's age and weight, the number of rows left for the unfed hen, and the
   * egg and milk quantities of the first farm. The unfed hen ends at 2.3
   * and survives: the test's assertion that it is gone does not follow.
   */
  method NightEvolution(today: Date)
    returns (fedHenAge: Option<int>, fedHenWeight: Option<real>, starvedHenRows: nat,
             eggs: Option<int>, milk: Option<int>)
    ensures fedHenAge == Some(6)
    ensures fedHenWeight == Some(2.5)
    ensures starvedHenRows == 1
    ensures eggs == Some(1)
    ensures milk == Some(8)
  {
    var db := EvolutionSetup(today);
    EvolutionNightTick(db, today);
    EvolutionReadBack();
    var fedRow := AnimalById(db.animals, 1);
    fedHenAge := if fedRow.Some? then Some(fedRow.value.age) else None;
    fedHenWeight := if fedRow.Some? then Some(fedRow.value.weight) else None;
    starvedHenRows := CountId(db.animals, 2);
    eggs := ProductionQuantity(db.production, "oeuf", 1);
    milk := ProductionQuantity(db.production, "lait", 1);
  }
}
