/**
 * The statements of one simulated night, each as a function from the
 * `animal` rows before the statement to the rows after it (or to the
 * `production` rows it inserts), with the properties they guarantee.
 */
module Night {
  import opened Tables

  /** Weight an unfed animal loses in one night. */
  const NightLoss: real := 0.2
  /** A hen lays when it weighs at least this much ... */
  const LayingWeight: real := 2.5
  /** ... and is at least this old. */
  const LayingAge: int := 5
  /** A cow gives milk when it weighs at least this much. */
  const MilkingWeight: real := 80.0
  /** Quantity of the milk row, whatever the number of cows. */
  const MilkYield: int := 8

  // ---- step 1: UPDATE animal SET age = age + 1 ------------------------------

  function Aged(s: seq<Animal>): seq<Animal>
  {
    seq(|s|, i requires 0 <= i < |s| => s[i].(age := s[i].age + 1))
  }

  // ---- step 2: starvation ----------------------------------------------------

  /** `SELECT animal_id FROM alimentation WHERE date_nourrissage = ?`, NULLs included. */
  function FedOn(feedings: seq<Feeding>, today: Date): set<Option<int>>
  {
    set r | r in feedings && r.date == today :: r.animalId
  }

  /**
   * `id NOT IN (fed)` holds in SQL only when the id is absent from `fed`
   * AND `fed` holds no NULL: with a NULL the test is unknown and no row is
   * updated.
   */
  predicate Starving(a: Animal, fed: set<Option<int>>)
  {
    Some(a.id) !in fed && None !in fed
  }

  /** `UPDATE animal SET poids = poids - loss WHERE id NOT IN (fed)`. */
  function Decayed(s: seq<Animal>, fed: set<Option<int>>, loss: real): seq<Animal>
  {
    seq(|s|, i requires 0 <= i < |s| =>
      if Starving(s[i], fed) then s[i].(weight := s[i].weight - loss) else s[i])
  }

  /** `UPDATE animal SET poids = poids - loss WHERE id = ?`. */
  function Lowered(s: seq<Animal>, id: int, loss: real): seq<Animal>
  {
    seq(|s|, i requires 0 <= i < |s| =>
      if s[i].id == id then s[i].(weight := s[i].weight - loss) else s[i])
  }

  /** Lowering one animal's weight twice lowers it by the sum; the other rows stay as they are. */
  lemma LoweredTwice(s: seq<Animal>, id: int, x: real, y: real)
    ensures Lowered(Lowered(s, id, x), id, y) == Lowered(s, id, x + y)
  {
  }

  /** The update reads back unchanged for every animal but the targeted one. */
  lemma {:induction false} LoweredOthers(s: seq<Animal>, id: int, loss: real, other: int)
    requires other != id
    ensures AnimalById(Lowered(s, id, loss), other) == AnimalById(s, other)
  {
    if s != [] {
      assert Lowered(s, id, loss)[1..] == Lowered(s[1..], id, loss);
      LoweredOthers(s[1..], id, loss, other);
    }
  }

  /** The targeted animal reads back `loss` lighter and otherwise as it was. */
  lemma {:induction false} LoweredTarget(s: seq<Animal>, id: int, loss: real, a: Animal)
    requires AnimalById(s, id) == Some(a)
    ensures AnimalById(Lowered(s, id, loss), id) == Some(a.(weight := a.weight - loss))
  {
    var t := Lowered(s, id, loss);
    if s[0].id == id {
      assert t[0] == a.(weight := a.weight - loss);
    } else {
      assert t[0] == s[0];
      assert t[1..] == Lowered(s[1..], id, loss);
      LoweredTarget(s[1..], id, loss, a);
    }
  }

  /** With no animal of that id, the update changes nothing. */
  lemma LoweredAbsent(s: seq<Animal>, id: int, loss: real)
    requires AnimalById(s, id).None?
    ensures Lowered(s, id, loss) == s
  {
    assert forall i :: 0 <= i < |s| ==> s[i] in s;
  }

  /** When every feeding of today carries an animal id, an animal starves exactly when none of today's feedings is its own. */
  lemma StarvingIffUnfed(feedings: seq<Feeding>, today: Date, a: Animal)
    requires forall r :: r in feedings && r.date == today ==> r.animalId.Some?
    ensures Starving(a, FedOn(feedings, today)) <==>
            forall r :: r in feedings && r.date == today ==> r.animalId != Some(a.id)
  {
    var fed := FedOn(feedings, today);
    if Some(a.id) in fed {
      var r :| r in feedings && r.date == today && r.animalId == Some(a.id);
    }
  }

  /** A feeding dated today whose animal id is NULL exempts every animal from decay. */
  lemma NullFeedingStopsDecay(s: seq<Animal>, feedings: seq<Feeding>, today: Date, loss: real)
    requires exists r :: r in feedings && r.date == today && r.animalId.None?
    ensures Decayed(s, FedOn(feedings, today), loss) == s
  {
    var r :| r in feedings && r.date == today && r.animalId.None?;
    assert None in FedOn(feedings, today);
  }

  // ---- step 3: DELETE FROM animal WHERE poids <= 0 ---------------------------

  function Survivors(s: seq<Animal>): seq<Animal>
  {
    if s == [] then []
    else Survivors(s[..|s| - 1]) + (if s[|s| - 1].weight <= 0.0 then [] else [s[|s| - 1]])
  }

  /** Exactly the rows with a positive weight remain. */
  lemma {:induction false} SurvivorsMembers(s: seq<Animal>)
    ensures forall a :: a in Survivors(s) <==> a in s && a.weight > 0.0
  {
    if s != [] {
      var init := s[..|s| - 1];
      SurvivorsMembers(init);
      assert s == init + [s[|s| - 1]];
    }
  }

  /** The delete keeps the remaining rows in their original order. */
  lemma {:induction false} SurvivorsAppend(s: seq<Animal>, t: seq<Animal>)
    ensures Survivors(s + t) == Survivors(s) + Survivors(t)
  {
    if t == [] {
      assert s + t == s;
    } else {
      var init := t[..|t| - 1];
      assert (s + t)[..|s + t| - 1] == s + init;
      SurvivorsAppend(s, init);
    }
  }

  /** A table whose every row is alive is left as it is. */
  lemma {:induction false} SurvivorsAllAlive(s: seq<Animal>)
    requires forall a :: a in s ==> a.weight > 0.0
    ensures Survivors(s) == s
  {
    if s != [] {
      var init, x := s[..|s| - 1], s[|s| - 1];
      assert s == init + [x];
      SurvivorsAllAlive(init);
      assert x in s;
    }
  }

  /** The delete keeps ids strictly increasing. */
  lemma {:induction false} SurvivorsIds(s: seq<Animal>)
    requires IdsIncreasing(s)
    ensures IdsIncreasing(Survivors(s))
  {
    if s != [] {
      var init, x := s[..|s| - 1], s[|s| - 1];
      assert IdsIncreasing(init) by {
        forall i, j | 0 <= i < j < |init| ensures init[i].id < init[j].id {
          assert init[i] == s[i] && init[j] == s[j];
        }
      }
      SurvivorsIds(init);
      SurvivorsMembers(init);
      var r := Survivors(init);
      if x.weight > 0.0 {
        forall i | 0 <= i < |r| ensures r[i].id < x.id {
          assert r[i] in init;
          var k :| 0 <= k < |init| && init[k] == r[i];
          assert s[k] == r[i];
        }
        var t := r + [x];
        forall i, j | 0 <= i < j < |t| ensures t[i].id < t[j].id {
          assert t[i] == r[i];
        }
      } else {
        assert Survivors(s) == r;
      }
    }
  }

  // ---- steps 1 to 3 together ---------------------------------------------------

  /** What one night does to a single animal row before the mortality delete. */
  function Overnight(a: Animal, fed: set<Option<int>>): Animal
  {
    a.(age := a.age + 1, weight := if Starving(a, fed) then a.weight - NightLoss else a.weight)
  }

  /** The `animal` table after the age update, the starvation update and the delete. */
  function Tonight(s: seq<Animal>, feedings: seq<Feeding>, today: Date): seq<Animal>
  {
    Survivors(Decayed(Aged(s), FedOn(feedings, today), NightLoss))
  }

  lemma AgedThenDecayed(s: seq<Animal>, fed: set<Option<int>>)
    ensures Decayed(Aged(s), fed, NightLoss) == seq(|s|, i requires 0 <= i < |s| => Overnight(s[i], fed))
  {
  }

  /**
   * The rows left after the night are exactly the rows of `Overnight` that
   * still weigh more than 0: every survivor is one year older, keeps its
   * weight when fed and loses 0.2 otherwise.
   */
  lemma TonightMembers(s: seq<Animal>, feedings: seq<Feeding>, today: Date)
    ensures forall a :: a in Tonight(s, feedings, today) <==>
              exists b :: b in s && a == Overnight(b, FedOn(feedings, today)) && a.weight > 0.0
  {
    var fed := FedOn(feedings, today);
    var d := Decayed(Aged(s), fed, NightLoss);
    AgedThenDecayed(s, fed);
    SurvivorsMembers(d);
    forall a ensures a in d <==> exists b :: b in s && a == Overnight(b, fed) {
      if a in d {
        var i :| 0 <= i < |d| && d[i] == a;
        assert s[i] in s;
      }
      if exists b :: b in s && a == Overnight(b, fed) {
        var b :| b in s && a == Overnight(b, fed);
        var i :| 0 <= i < |s| && s[i] == b;
        assert d[i] == a;
      }
    }
  }

  /** Ages, weights and survivors as the test's `SELECT ... WHERE id = ?` queries see them. */
  lemma TonightById(s: seq<Animal>, feedings: seq<Feeding>, today: Date, b: Animal)
    requires IdsIncreasing(s)
    requires b in s
    ensures var after := Overnight(b, FedOn(feedings, today));
            var t := Tonight(s, feedings, today);
            AnimalById(t, b.id) == (if after.weight > 0.0 then Some(after) else None) &&
            CountId(t, b.id) == (if after.weight > 0.0 then 1 else 0)
  {
    var fed := FedOn(feedings, today);
    var after := Overnight(b, fed);
    var d := Decayed(Aged(s), fed, NightLoss);
    var t := Tonight(s, feedings, today);
    AgedThenDecayed(s, fed);
    assert IdsIncreasing(d) by {
      forall i, j | 0 <= i < j < |d| ensures d[i].id < d[j].id {
        assert d[i].id == s[i].id && d[j].id == s[j].id;
      }
    }
    SurvivorsIds(d);
    TonightMembers(s, feedings, today);
    forall c | c in t && c.id == b.id ensures c == after {
      var b' :| b' in s && c == Overnight(b', fed) && c.weight > 0.0;
      IdsDetermineAnimal(s, b, b');
    }
    CountIdUnique(t, b.id);
    if after.weight > 0.0 {
      assert after in t;
    }
  }

  // ---- steps 4 and 5: INSERT INTO production SELECT ... GROUP BY ferme_id ------

  datatype Yield = Eggs | Milk

  /** The `type` written into the production row. */
  function ProductName(y: Yield): string
  {
    match y
    case Eggs => "oeuf"
    case Milk => "lait"
  }

  /** The WHERE clause of the `INSERT ... SELECT`. */
  predicate Qualifies(y: Yield, a: Animal)
  {
    match y
    case Eggs => a.kind == "poule" && a.weight >= LayingWeight && a.age >= LayingAge
    case Milk => a.kind == "vache" && a.weight >= MilkingWeight
  }

  predicate Yields(y: Yield, a: Animal, farmId: int)
  {
    a.farmId == Some(farmId) && Qualifies(y, a)
  }

  /** `COUNT(*)` of the qualifying animals of one farm. */
  function Count(s: seq<Animal>, y: Yield, farmId: int): nat
  {
    if s == [] then 0
    else Count(s[..|s| - 1], y, farmId) + (if Yields(y, s[|s| - 1], farmId) then 1 else 0)
  }

  /** The groups of `GROUP BY ferme_id`, in order of first appearance. */
  function Keys(s: seq<Animal>, y: Yield): seq<int>
  {
    if s == [] then []
    else
      var k := Keys(s[..|s| - 1], y);
      var a := s[|s| - 1];
      if Qualifies(y, a) && a.farmId.Some? && a.farmId.value !in k then k + [a.farmId.value] else k
  }

  /** The quantity of a group's row: the count of hens, but a fixed 8 for milk. */
  function Quantity(s: seq<Animal>, y: Yield, farmId: int): int
  {
    match y
    case Eggs => Count(s, y, farmId)
    case Milk => MilkYield
  }

  /** The rows one `INSERT ... SELECT` appends, numbered from `firstId`. */
  function GroupRows(s: seq<Animal>, y: Yield, firstId: int): seq<Production>
  {
    var k := Keys(s, y);
    seq(|k|, j requires 0 <= j < |k| => Production(firstId + j, ProductName(y), Quantity(s, y, k[j]), k[j]))
  }

  /**
   * What the two production statements of the night do to a `production`
   * table of rows `before` whose counter stands at `last`: egg rows, then
   * milk rows, with consecutive ids.
   */
  predicate Harvested(s: seq<Animal>, before: seq<Production>, last: int, n: nat, after: seq<Production>, afterLast: int)
  {
    var eggs := GroupRows(s, Eggs, last + 1);
    var milk := GroupRows(s, Milk, last + |eggs| + 1);
    n == |eggs| + |milk| && after == before + eggs + milk && afterLast == last + |eggs| + |milk|
  }

  /** Count is additive over the rows of a table. */
  lemma {:induction false} CountAppend(s: seq<Animal>, t: seq<Animal>, y: Yield, farmId: int)
    ensures Count(s + t, y, farmId) == Count(s, y, farmId) + Count(t, y, farmId)
  {
    if t == [] {
      assert s + t == s;
    } else {
      var init := t[..|t| - 1];
      assert (s + t)[..|s + t| - 1] == s + init;
      CountAppend(s, init, y, farmId);
    }
  }

  /** A farm is a group exactly when it has a qualifying animal, and no group is listed twice. */
  lemma {:induction false} KeysSpec(s: seq<Animal>, y: Yield)
    ensures forall f :: f in Keys(s, y) <==> Count(s, y, f) > 0
    ensures forall i, j :: 0 <= i < j < |Keys(s, y)| ==> Keys(s, y)[i] != Keys(s, y)[j]
  {
    if s != [] {
      KeysSpec(s[..|s| - 1], y);
    }
  }

  /**
   * One `INSERT ... SELECT ... GROUP BY ferme_id` adds exactly one row for
   * each farm with at least one qualifying animal and none for the others;
   * each row has the product's name, the group's quantity and a fresh
   * consecutive id.
   */
  lemma GroupRowsSpec(s: seq<Animal>, y: Yield, firstId: int)
    ensures var r := GroupRows(s, y, firstId);
            (forall j :: 0 <= j < |r| ==>
               r[j].id == firstId + j && r[j].kind == ProductName(y) &&
               Count(s, y, r[j].farmId) > 0 && r[j].quantity == Quantity(s, y, r[j].farmId)) &&
            (forall f :: Count(s, y, f) > 0 ==> exists j :: 0 <= j < |r| && r[j].farmId == f) &&
            (forall i, j :: 0 <= i < j < |r| ==> r[i].farmId != r[j].farmId)
  {
    var k := Keys(s, y);
    var r := GroupRows(s, y, firstId);
    KeysSpec(s, y);
    forall f | Count(s, y, f) > 0 ensures exists j :: 0 <= j < |r| && r[j].farmId == f {
      var j :| 0 <= j < |k| && k[j] == f;
      assert r[j].farmId == f;
    }
  }

  /**
   * Dead animals never yield: the weight thresholds are positive, so
   * producing before or after the mortality delete gives the same counts.
   */
  lemma {:induction false} CountIgnoresDead(s: seq<Animal>, y: Yield, farmId: int)
    ensures Count(Survivors(s), y, farmId) == Count(s, y, farmId)
  {
    if s != [] {
      var init := s[..|s| - 1];
      var x := s[|s| - 1];
      CountIgnoresDead(init, y, farmId);
      var tail := if x.weight <= 0.0 then [] else [x];
      CountAppend(Survivors(init), tail, y, farmId);
      if tail == [x] {
        assert [x][..0] == [];
      }
    }
  }
}
