/** api/init_db.py: fill an empty `equipos` table with eight teams. */
module InitDb {
  import opened Common
  import opened PyModels
  import opened PyStore

  /** The teams `init_db` adds, in order: name, city, coach. */
  const Seeds: seq<(string, string, string)> := [
    ("Real Madrid", "Madrid", "Pablo Laso"),
    ("FC Barcelona", "Barcelona", "Sarunas Jasikevicius"),
    ("Unicaja", "Málaga", "Ibon Navarro"),
    ("Valencia Basket", "Valencia", "Pedro Martínez"),
    ("Baskonia", "Vitoria", "Joan Peñarroya"),
    ("Gran Canaria", "Las Palmas", "Jaka Lakovic"),
    ("UCAM Murcia", "Murcia", "Sito Alonso"),
    ("Joventut", "Badalona", "Carles Duran")
  ]

  /** The row `Equipo(**seed)` becomes: no game played yet. */
  function SeedRow(seed: (string, string, string)): (r: EquipoRow)
    ensures Filled(r) && r.victorias == 0 && r.derrotas == 0
    ensures r.nombre == PyStr(seed.0)
  {
    EquipoRow(PyStr(seed.0), PyStr(seed.1), PyStr(seed.2), 0, 0)
  }

  /** The table after the first `n` of `seeds` were added to an empty one:
      the i-th seed under rowid i + 1. */
  function SeedRows(seeds: seq<(string, string, string)>, n: nat): (m: map<int, EquipoRow>)
    requires n <= |seeds|
    ensures forall k :: k in m <==> 1 <= k <= n
    ensures forall k :: k in m ==> m[k] == SeedRow(seeds[k - 1])
  {
    if n == 0 then map[] else SeedRows(seeds, n - 1)[n := SeedRow(seeds[n - 1])]
  }

  /** The rowid the next seed takes is one past the seeds already added. */
  lemma {:induction false} SeedRowsNextId(seeds: seq<(string, string, string)>, i: nat)
    requires i < |seeds|
    ensures NextRowId(SeedRows(seeds, i).Keys) == i + 1
  {
    var k := NextRowId(SeedRows(seeds, i).Keys);
    if i > 0 {
      assert i in SeedRows(seeds, i);
      assert k - 1 in SeedRows(seeds, i);
    }
  }

  /** Flushing the first `n` seed rows into an empty table numbers them
      1..n in the order they were added. */
  lemma {:induction false} FlushSeeds(equipos: map<int, EquipoRow>, seeds: seq<(string, string, string)>,
                                      pending: seq<EquipoRow>, n: nat)
    requires |equipos| == 0 && n <= |seeds| && n <= |pending|
    requires forall j :: 0 <= j < n ==> pending[j] == SeedRow(seeds[j])
    ensures Flush(equipos, pending[..n]) == SeedRows(seeds, n)
  {
    if n == 0 {
      assert equipos.Keys == {};
      assert equipos == map[];
    } else {
      assert pending[..n][..n - 1] == pending[..n - 1];
      FlushSeeds(equipos, seeds, pending, n - 1);
      SeedRowsNextId(seeds, n - 1);
    }
  }

  /** The store `init_db` leaves behind: untouched when a team already
      exists or the commit fails, otherwise the eight seeded teams. */
  function Seeded(db: PyDb, accepted: bool): (r: PyDb)
    ensures r.partidos == db.partidos
    ensures r != db <==> |db.equipos| == 0 && accepted
    ensures r != db ==> r.equipos == SeedRows(Seeds, |Seeds|)
  {
    if |db.equipos| == 0 && accepted then
      assert 1 in SeedRows(Seeds, |Seeds|);
      db.(equipos := SeedRows(Seeds, |Seeds|))
    else db
  }

  /** No two seeds share a name, as the unique `nombre` column demands. */
  lemma {:induction false} SeedNamesDistinct()
    ensures forall i, j :: 0 <= i < j < |Seeds| ==> Seeds[i].0 != Seeds[j].0
  {
    forall i, j | 0 <= i < j < |Seeds| ensures Seeds[i].0 != Seeds[j].0 {
      if Seeds[i].0[0] == Seeds[j].0[0] {
        assert i == 2 && j == 6;
        assert Seeds[i].0[1] != Seeds[j].0[1];
      }
    }
  }

  /** The seeded table satisfies every constraint of an otherwise empty team table. */
  lemma {:induction false} SeededIntegrity(db: PyDb)
    requires Integrity(db)
    ensures Integrity(db.(equipos := SeedRows(Seeds, |Seeds|)))
  {
    var m := SeedRows(Seeds, |Seeds|);
    SeedNamesDistinct();
    forall k | k in m ensures Filled(m[k]) && NameFree(m, k, m[k].nombre) {
      forall j | j in m && j != k ensures m[j].nombre != m[k].nombre {
        if j < k {
          assert Seeds[j - 1].0 != Seeds[k - 1].0;
        } else {
          assert Seeds[k - 1].0 != Seeds[j - 1].0;
        }
      }
    }
  }

  /** Committing the seeded table into an empty one succeeds exactly when the
      database accepts it, and leaves what `Seeded` describes. */
  lemma {:induction false} SeededCommit(db: PyDb, accepted: bool)
    requires Integrity(db) && |db.equipos| == 0
    ensures Commit(db.(equipos := SeedRows(Seeds, |Seeds|)), accepted) == (if accepted then Some(Seeded(db, accepted)) else None)
  {
    SeededIntegrity(db);
  }

  /** `init_db()`: returns at once when the table has a team; otherwise adds
      the seeds to the session one by one and commits, which numbers them in
      that order. A failed
      commit raises (`failed`) and leaves nothing behind. */
  method InitDb(db: PyDb, accepted: bool) returns (db': PyDb, failed: bool)
    requires Integrity(db)
    ensures Integrity(db')
    ensures db' == Seeded(db, accepted)
    ensures failed <==> |db.equipos| == 0 && !accepted
  {
    if |db.equipos| > 0 {
      return db, false;
    }
    var pending: seq<EquipoRow> := [];
    var i := 0;
    while i < |Seeds|
      invariant 0 <= i <= |Seeds| && |pending| == i
      invariant forall j :: 0 <= j < i ==> pending[j] == SeedRow(Seeds[j])
    {
      var seed := Seeds[i];
      var equipo := new Equipo(PyStr(seed.0), PyStr(seed.1), PyStr(seed.2));
      pending := pending + [equipo.Row()];
      i := i + 1;
    }
    FlushSeeds(db.equipos, Seeds, pending, |Seeds|);
    assert pending[..|Seeds|] == pending;
    var staged := db.(equipos := Flush(db.equipos, pending));
    SeededCommit(db, accepted);
    var committed := Commit(staged, accepted);
    if committed.None? {
      return db, true;
    }
    return committed.value, false;
  }

  /** Seeding is idempotent: a second run changes nothing after a first one
      that committed, and after one that failed it acts as a first run. */
  lemma {:induction false} SeededIdempotent(db: PyDb, first: bool, second: bool)
    ensures Seeded(Seeded(db, first), second) == Seeded(db, first || second)
  {
    if |db.equipos| == 0 && first {
      assert 1 in Seeded(db, first).equipos;
    }
  }
}
