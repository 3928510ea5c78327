/**
 * The in-memory database the tests create: one sequence of rows per table,
 * the AUTOINCREMENT counter of each table, and one method per SQL
 * statement the tests and their fixtures execute.
 */
module Store {
  import opened Tables
  import Night

  class FarmDb {
    const schema: Schema

    var farms: seq<Farm>
    var animals: seq<Animal>
    var stock: seq<Stock>
    var feedings: seq<Feeding>
    var production: seq<Production>

    // The largest id each table has issued (SQLite's `sqlite_sequence`); ids are never reused.
    var farmSeq: nat
    var animalSeq: nat
    var stockSeq: nat
    var feedingSeq: nat
    var productionSeq: nat

    /** The declared constraints hold of every row, and ids follow AUTOINCREMENT. */
    ghost predicate Valid()
      reads this
    {
      // no statement deletes from these four tables, so their ids are 1, 2, 3, ...
      farmSeq == |farms| && (forall i :: 0 <= i < |farms| ==> farms[i].id == i + 1) &&
      stockSeq == |stock| && (forall i :: 0 <= i < |stock| ==> stock[i].id == i + 1) &&
      feedingSeq == |feedings| && (forall i :: 0 <= i < |feedings| ==> feedings[i].id == i + 1) &&
      productionSeq == |production| && (forall i :: 0 <= i < |production| ==> production[i].id == i + 1) &&
      IdsIncreasing(animals) && (forall i :: 0 <= i < |animals| ==> 1 <= animals[i].id <= animalSeq) &&
      (forall a :: a in animals ==> SexAllowed(a.sex)) &&
      (schema == Full ==>
         (forall a :: a in animals ==> a.farmId.Some?) &&
         (forall r :: r in feedings ==> r.animalId.Some?)) &&
      (schema == Basic ==> stock == [] && production == [])
    }

    /** `setup_db`: the `CREATE TABLE` statements, giving empty tables. */
    constructor (schema: Schema)
      ensures Valid() && this.schema == schema
      ensures farms == [] && animals == [] && stock == [] && feedings == [] && production == []
      ensures farmSeq == 0 && animalSeq == 0 && stockSeq == 0 && feedingSeq == 0 && productionSeq == 0
    {
      this.schema := schema;
      farms, animals, stock, feedings, production := [], [], [], [], [];
      farmSeq, animalSeq, stockSeq, feedingSeq, productionSeq := 0, 0, 0, 0, 0;
    }

    // ---- inserts ---------------------------------------------------------------

    /** `INSERT INTO ferme (nom) VALUES (?)`, returning `lastrowid`. */
    method InsertFarm(name: string) returns (id: int)
      requires Valid()
      modifies this`farms, this`farmSeq
      ensures Valid()
      ensures id == old(farmSeq) + 1 && farmSeq == id
      ensures farms == old(farms) + [Farm(id, name, DefaultBalance)]
      ensures forall f :: f in old(farms) ==> f.id < id
    {
      id := farmSeq + 1;
      forall f | f in farms ensures f.id < id {
        var k :| 0 <= k < |farms| && farms[k] == f;
      }
      farms := farms + [Farm(id, name, DefaultBalance)];
      farmSeq := id;
    }

    /**
     * `INSERT INTO animal (type, poids, age, sexe, ferme_id) VALUES (...)`,
     * returning `lastrowid`, or the constraint the row breaks.
     */
    method InsertAnimal(kind: string, weight: real, age: int, sex: Option<string>, farmId: Option<int>)
      returns (r: Result<int>)
      requires Valid()
      modifies this`animals, this`animalSeq
      ensures Valid()
      ensures AnimalViolation(schema, sex, farmId).Some? ==>
                r == Err(AnimalViolation(schema, sex, farmId).value) &&
                animals == old(animals) && animalSeq == old(animalSeq)
      ensures AnimalViolation(schema, sex, farmId).None? ==>
                r == Ok(old(animalSeq) + 1) && animalSeq == r.value &&
                animals == old(animals) + [Animal(r.value, kind, weight, age, sex, farmId)] &&
                forall a :: a in old(animals) ==> a.id < r.value
    {
      var violation := AnimalViolation(schema, sex, farmId);
      if violation.Some? {
        return Err(violation.value);
      }
      var id := animalSeq + 1;
      var row := Animal(id, kind, weight, age, sex, farmId);
      forall a | a in animals ensures a.id < id {
        var k :| 0 <= k < |animals| && animals[k] == a;
      }
      animals := animals + [row];
      animalSeq := id;
      r := Ok(id);
    }

    /** `INSERT INTO stock (type, quantite, ferme_id) VALUES (?, ?, ?)`. */
    method InsertStock(kind: string, quantity: int, farmId: Option<int>) returns (r: Result<int>)
      requires Valid()
      modifies this`stock, this`stockSeq
      ensures Valid()
      ensures schema == Basic ==> r == Err(NoSuchTable("stock"))
      ensures schema == Full && farmId.None? ==> r == Err(NotNull("stock.ferme_id"))
      ensures r.Err? ==> stock == old(stock) && stockSeq == old(stockSeq)
      ensures schema == Full && farmId.Some? ==>
                r == Ok(old(stockSeq) + 1) && stockSeq == r.value &&
                stock == old(stock) + [Stock(r.value, kind, quantity, farmId.value)]
    {
      if schema == Basic {
        return Err(NoSuchTable("stock"));
      }
      if farmId.None? {
        return Err(NotNull("stock.ferme_id"));
      }
      var id := stockSeq + 1;
      var row := Stock(id, kind, quantity, farmId.value);
      stock := stock + [row];
      stockSeq := id;
      r := Ok(id);
    }

    /**
     * `INSERT INTO alimentation (animal_id, date_nourrissage) VALUES (?, ?)`
     * against the declared table: only NOT NULL is checked (full schema), and
     * nothing stops a second feeding of the same animal on the same day.
     */
    method InsertFeeding(animalId: Option<int>, date: Date) returns (r: Result<int>)
      requires Valid()
      modifies this`feedings, this`feedingSeq
      ensures Valid()
      ensures schema == Full && animalId.None? ==>
                r == Err(NotNull("alimentation.animal_id")) &&
                feedings == old(feedings) && feedingSeq == old(feedingSeq)
      ensures schema == Basic || animalId.Some? ==>
                r == Ok(old(feedingSeq) + 1) && feedingSeq == r.value &&
                feedings == old(feedings) + [Feeding(r.value, animalId, date)]
    {
      if schema == Full && animalId.None? {
        return Err(NotNull("alimentation.animal_id"));
      }
      var id := feedingSeq + 1;
      var row := Feeding(id, animalId, date);
      feedings := feedings + [row];
      feedingSeq := id;
      r := Ok(id);
    }

    /**
     * The feeding insert the tests expect: with `UNIQUE(animal_id,
     * date_nourrissage)` a second feeding of an animal on the same date is
     * rejected and the first one stays.
     */
    method RecordFeeding(animalId: int, date: Date) returns (r: Result<int>)
      requires Valid()
      modifies this`feedings, this`feedingSeq
      ensures Valid()
      ensures AlreadyFed(old(feedings), animalId, date) ==>
                r == Err(Unique("alimentation.animal_id, alimentation.date_nourrissage")) &&
                feedings == old(feedings) && feedingSeq == old(feedingSeq)
      ensures !AlreadyFed(old(feedings), animalId, date) ==>
                r == Ok(old(feedingSeq) + 1) && feedingSeq == r.value &&
                feedings == old(feedings) + [Feeding(r.value, Some(animalId), date)]
    {
      if AlreadyFed(feedings, animalId, date) {
        return Err(Unique("alimentation.animal_id, alimentation.date_nourrissage"));
      }
      r := InsertFeeding(Some(animalId), date);
    }

    // ---- fixtures ----------------------------------------------------------------

    /** `setup_ferme`: one farm named 'FermeTest'. */
    method SetupFarm() returns (id: int)
      requires Valid()
      modifies this`farms, this`farmSeq
      ensures Valid()
      ensures id == old(farmSeq) + 1 && farmSeq == id
      ensures farms == old(farms) + [Farm(id, "FermeTest", DefaultBalance)]
      ensures forall f :: f in old(farms) ==> f.id < id
    {
      id := InsertFarm("FermeTest");
    }

    /** `setup_poule`: one female hen of weight 2.5 and age 5 in the given farm. */
    method SetupHen(farmId: int) returns (id: int)
      requires Valid()
      modifies this`animals, this`animalSeq
      ensures Valid()
      ensures id == old(animalSeq) + 1 && animalSeq == id
      ensures animals == old(animals) + [Animal(id, "poule", 2.5, 5, Some("femelle"), Some(farmId))]
      ensures forall a :: a in old(animals) ==> a.id < id
    {
      var r := InsertAnimal("poule", 2.5, 5, Some("femelle"), Some(farmId));
      id := r.value;
    }

    // ---- updates and deletes -------------------------------------------------------

    /** `UPDATE animal SET age = age + 1`. */
    method AgeAnimals()
      requires Valid()
      modifies this`animals
      ensures Valid()
      ensures animals == Night.Aged(old(animals))
    {
      var before := animals;
      animals := Night.Aged(animals);
      assert forall i :: 0 <= i < |animals| ==> animals[i].id == before[i].id;
      forall a | a in animals ensures SexAllowed(a.sex) && (schema == Full ==> a.farmId.Some?) {
        var k :| 0 <= k < |animals| && animals[k] == a;
        assert before[k] in before;
      }
    }

    /**
     * `UPDATE animal SET poids = poids - 0.2 WHERE id NOT IN (SELECT animal_id
     * FROM alimentation WHERE date_nourrissage = CURRENT_DATE)`, with
     * CURRENT_DATE passed in as `today`.
     */
    method StarveUnfed(today: Date)
      requires Valid()
      modifies this`animals
      ensures Valid()
      ensures animals == Night.Decayed(old(animals), Night.FedOn(feedings, today), Night.NightLoss)
    {
      var before := animals;
      animals := Night.Decayed(animals, Night.FedOn(feedings, today), Night.NightLoss);
      assert forall i :: 0 <= i < |animals| ==> animals[i].id == before[i].id;
      forall a | a in animals ensures SexAllowed(a.sex) && (schema == Full ==> a.farmId.Some?) {
        var k :| 0 <= k < |animals| && animals[k] == a;
        assert before[k] in before;
      }
    }

    /** `UPDATE animal SET poids = poids - ? WHERE id = ?`. */
    method LowerWeight(id: int, loss: real)
      requires Valid()
      modifies this`animals
      ensures Valid()
      ensures animals == Night.Lowered(old(animals), id, loss)
    {
      var before := animals;
      animals := Night.Lowered(animals, id, loss);
      assert forall i :: 0 <= i < |animals| ==> animals[i].id == before[i].id;
      forall a | a in animals ensures SexAllowed(a.sex) && (schema == Full ==> a.farmId.Some?) {
        var k :| 0 <= k < |animals| && animals[k] == a;
        assert before[k] in before;
      }
    }

    /** `DELETE FROM animal WHERE poids <= 0`; foreign keys are off, so nothing cascades. */
    method DeleteDead()
      requires Valid()
      modifies this`animals
      ensures Valid()
      ensures animals == Night.Survivors(old(animals))
      ensures forall a :: a in animals <==> a in old(animals) && a.weight > 0.0
    {
      var before := animals;
      Night.SurvivorsMembers(before);
      Night.SurvivorsIds(before);
      animals := Night.Survivors(animals);
      forall i | 0 <= i < |animals| ensures 1 <= animals[i].id <= animalSeq {
        assert animals[i] in before;
        var k :| 0 <= k < |before| && before[k] == animals[i];
      }
    }

    /**
     * `INSERT INTO production (type, quantite, ferme_id) SELECT ... FROM
     * animal WHERE ... GROUP BY ferme_id`: the egg statement for `Eggs`, the
     * milk statement for `Milk`. Returns the number of rows inserted.
     */
    method Produce(y: Night.Yield) returns (r: Result<nat>)
      requires Valid()
      modifies this`production, this`productionSeq
      ensures Valid()
      ensures schema == Basic ==>
                r == Err(NoSuchTable("production")) &&
                production == old(production) && productionSeq == old(productionSeq)
      ensures schema == Full ==>
                var rows := Night.GroupRows(animals, y, old(productionSeq) + 1);
                r == Ok(|rows|) && production == old(production) + rows &&
                productionSeq == old(productionSeq) + |rows|
    {
      if schema == Basic {
        return Err(NoSuchTable("production"));
      }
      var last := productionSeq;
      var rows := Night.GroupRows(animals, y, last + 1);
      Night.GroupRowsSpec(animals, y, last + 1);
      production := production + rows;
      productionSeq := productionSeq + |rows|;
      r := Ok(|rows|);
    }

    /** The first three statements of the night: aging, starvation and the mortality delete. */
    method AgeStarveAndCull(today: Date)
      requires Valid()
      modifies this`animals
      ensures Valid()
      ensures animals == Night.Tonight(old(animals), feedings, today)
    {
      AgeAnimals();
      StarveUnfed(today);
      DeleteDead();
    }

    /**
     * The two production statements of the night, eggs then milk. Without a
     * `production` table the egg statement fails and the milk statement is
     * never reached.
     */
    method Harvest() returns (r: Result<nat>)
      requires Valid()
      modifies this`production, this`productionSeq
      ensures Valid()
      ensures schema == Basic ==>
                r == Err(NoSuchTable("production")) &&
                production == old(production) && productionSeq == old(productionSeq)
      ensures schema == Full ==>
                r.Ok? && Night.Harvested(animals, old(production), old(productionSeq), r.value, production, productionSeq)
    {
      var eggs := Produce(Night.Eggs);
      if eggs.Err? {
        return Err(eggs.error);
      }
      var milk := Produce(Night.Milk);
      r := Ok(eggs.value + milk.value);
    }

    /** The night of `test_evolution_nuit`: the five statements in their order. */
    method NightTick(today: Date) returns (r: Result<nat>)
      requires Valid()
      modifies this`animals, this`production, this`productionSeq
      ensures Valid()
      ensures animals == Night.Tonight(old(animals), feedings, today)
      ensures farms == old(farms) && stock == old(stock) && feedings == old(feedings)
      ensures schema == Basic ==>
                r == Err(NoSuchTable("production")) &&
                production == old(production) && productionSeq == old(productionSeq)
      ensures schema == Full ==>
                r.Ok? && Night.Harvested(animals, old(production), old(productionSeq), r.value, production, productionSeq)
    {
      ghost var earlier, last := production, productionSeq;
      AgeStarveAndCull(today);
      assert production == earlier && productionSeq == last;
      r := Harvest();
    }
  }
}
