/**
 * Rows, column constraints and the `SELECT ... WHERE` lookups of the farm
 * schema: tables `ferme`, `animal`, `stock`, `alimentation` and `production`.
 */
module Tables {

  datatype Option<T> = None | Some(value: T)

  /** The two schemas the test files create. */
  datatype Schema =
    | Full   // five tables; animal.ferme_id, stock.ferme_id and alimentation.animal_id are NOT NULL
    | Basic  // ferme, animal and alimentation only; their reference columns may be NULL

  /** The constraint failures SQLite reports for these tables. */
  datatype Error =
    | NotNull(column: string)
    | CheckFailed(column: string)
    | Unique(columns: string)
    | NoSuchTable(table: string)

  datatype Result<T> = Ok(value: T) | Err(error: Error)

  /** A calendar date as SQLite stores it, 'YYYY-MM-DD'. */
  type Date = string

  /** Column default of `ferme.solde_ecus`. */
  const DefaultBalance: int := 1500

  datatype Farm = Farm(id: int, name: string, balance: int)

  /** `sex` and `farmId` are nullable columns; a weight is exact, not an IEEE double. */
  datatype Animal = Animal(id: int, kind: string, weight: real, age: int, sex: Option<string>, farmId: Option<int>)

  datatype Stock = Stock(id: int, kind: string, quantity: int, farmId: int)

  datatype Feeding = Feeding(id: int, animalId: Option<int>, date: Date)

  datatype Production = Production(id: int, kind: string, quantity: int, farmId: int)

  /** `CHECK(sexe IN ('male', 'femelle'))`: a NULL makes the check unknown, which passes. */
  predicate SexAllowed(sex: Option<string>)
  {
    sex.None? || sex.value == "male" || sex.value == "femelle"
  }

  /**
   * The constraint an `INSERT INTO animal` breaks, if any: NOT NULL on
   * `ferme_id` (full schema only) is checked before the CHECK on `sexe`.
   */
  function AnimalViolation(schema: Schema, sex: Option<string>, farmId: Option<int>): (e: Option<Error>)
    ensures e.None? <==> SexAllowed(sex) && (schema == Full ==> farmId.Some?)
    ensures sex.Some? && sex.value != "male" && sex.value != "femelle" ==> e.Some?
  {
    if schema == Full && farmId.None? then Some(NotNull("animal.ferme_id"))
    else if !SexAllowed(sex) then Some(CheckFailed("animal.sexe"))
    else None
  }

  // ---- row ids ---------------------------------------------------------------

  /**
   * Animal ids are listed in strictly increasing order: rows are appended
   * with growing AUTOINCREMENT ids and deletes keep the order of the rest.
   */
  ghost predicate IdsIncreasing(s: seq<Animal>)
  {
    forall i, j :: 0 <= i < j < |s| ==> s[i].id < s[j].id
  }

  /** Two animal rows that share an id are the same row. */
  lemma IdsDetermineAnimal(s: seq<Animal>, a: Animal, b: Animal)
    requires IdsIncreasing(s)
    requires a in s && b in s && a.id == b.id
    ensures a == b
  {
    var i :| 0 <= i < |s| && s[i] == a;
    var j :| 0 <= j < |s| && s[j] == b;
  }

  // ---- lookups ---------------------------------------------------------------

  /** `SELECT ... FROM ferme WHERE id = ?` followed by `fetchone()`. */
  function FarmById(s: seq<Farm>, id: int): (r: Option<Farm>)
    ensures r.Some? ==> r.value in s && r.value.id == id
    ensures r.None? <==> forall f :: f in s ==> f.id != id
  {
    if s == [] then None
    else if s[0].id == id then Some(s[0])
    else FarmById(s[1..], id)
  }

  /** `SELECT ... FROM animal WHERE id = ?` followed by `fetchone()`. */
  function AnimalById(s: seq<Animal>, id: int): (r: Option<Animal>)
    ensures r.Some? ==> r.value in s && r.value.id == id
    ensures r.None? <==> forall a :: a in s ==> a.id != id
  {
    if s == [] then None
    else if s[0].id == id then Some(s[0])
    else AnimalById(s[1..], id)
  }

  /** A farm appended under a fresh id is what the lookup by that id returns. */
  lemma {:induction false} FarmByIdAppended(s: seq<Farm>, x: Farm)
    requires forall f :: f in s ==> f.id < x.id
    ensures FarmById(s + [x], x.id) == Some(x)
  {
    if s != [] {
      assert (s + [x])[1..] == s[1..] + [x];
      FarmByIdAppended(s[1..], x);
    }
  }

  /** An animal appended under a fresh id is what the lookup by that id returns. */
  lemma {:induction false} AnimalByIdAppended(s: seq<Animal>, x: Animal)
    requires forall a :: a in s ==> a.id < x.id
    ensures AnimalById(s + [x], x.id) == Some(x)
  {
    if s != [] {
      assert (s + [x])[1..] == s[1..] + [x];
      AnimalByIdAppended(s[1..], x);
    }
  }

  /** `SELECT COUNT(*) FROM animal WHERE id = ?`. */
  function CountId(s: seq<Animal>, id: int): (n: nat)
    ensures n <= |s|
    ensures n == 0 <==> forall a :: a in s ==> a.id != id
  {
    if s == [] then 0
    else CountId(s[1..], id) + (if s[0].id == id then 1 else 0)
  }

  /** With unique ids, an id that is present is counted exactly once. */
  lemma {:induction false} CountIdUnique(s: seq<Animal>, id: int)
    requires IdsIncreasing(s)
    ensures CountId(s, id) <= 1
  {
    if s != [] {
      var rest := s[1..];
      assert IdsIncreasing(rest) by {
        forall i, j | 0 <= i < j < |rest| ensures rest[i].id < rest[j].id {
          assert rest[i] == s[i + 1] && rest[j] == s[j + 1];
        }
      }
      CountIdUnique(rest, id);
      if s[0].id == id {
        forall a | a in rest ensures a.id != id {
          var k :| 0 <= k < |rest| && rest[k] == a;
          assert s[k + 1] == a;
        }
      }
    }
  }

  /** Whether a feeding of the animal on that date is already recorded. */
  predicate AlreadyFed(s: seq<Feeding>, animalId: int, date: Date)
  {
    s != [] && ((s[0].animalId == Some(animalId) && s[0].date == date) || AlreadyFed(s[1..], animalId, date))
  }

  /** `AlreadyFed` holds exactly when some row pairs that animal with that date. */
  lemma {:induction false} AlreadyFedSpec(s: seq<Feeding>, animalId: int, date: Date)
    ensures AlreadyFed(s, animalId, date) <==> exists f :: f in s && f.animalId == Some(animalId) && f.date == date
  {
    if s != [] {
      AlreadyFedSpec(s[1..], animalId, date);
      assert s == [s[0]] + s[1..];
    }
  }

  /**
   * `SELECT quantite FROM production WHERE type = ? AND ferme_id = ?`
   * followed by `fetchone()`.
   */
  function ProductionQuantity(s: seq<Production>, kind: string, farmId: int): (r: Option<int>)
    ensures r.Some? ==> exists p :: p in s && p.kind == kind && p.farmId == farmId && p.quantity == r.value
    ensures r.None? <==> forall p :: p in s ==> p.kind != kind || p.farmId != farmId
  {
    if s == [] then None
    else if s[0].kind == kind && s[0].farmId == farmId then Some(s[0].quantity)
    else ProductionQuantity(s[1..], kind, farmId)
  }

  /** The first matching production row is the only one when there is only one. */
  lemma {:induction false} ProductionQuantityOfSingle(s: seq<Production>, kind: string, farmId: int, p: Production)
    requires p in s && p.kind == kind && p.farmId == farmId
    requires forall q :: q in s && q.kind == kind && q.farmId == farmId ==> q == p
    ensures ProductionQuantity(s, kind, farmId) == Some(p.quantity)
  {
    if s[0] != p {
      assert p in s[1..];
      ProductionQuantityOfSingle(s[1..], kind, farmId, p);
    }
  }
}
