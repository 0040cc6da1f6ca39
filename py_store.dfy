/** The API's SQLite database as SQLAlchemy's session sees it: both tables
    keyed by rowid, the constraints the schema declares, and a commit that
    either installs the staged state or rolls back to the last committed one. */
module PyStore {
  import opened Common
  import opened PyModels

  datatype PyDb = PyDb(equipos: map<int, EquipoRow>, partidos: map<int, PartidoRow>)

  /** The `nullable=False` columns of `equipos` hold a value. */
  predicate Filled(r: EquipoRow)
  {
    r.nombre != PyNone && r.ciudad != PyNone && r.entrenador != PyNone
  }

  /** No other team already carries this name (the `unique=True` column). */
  predicate NameFree(equipos: map<int, EquipoRow>, key: int, nombre: PyVal)
  {
    forall j :: j in equipos && j != key ==> equipos[j].nombre != nombre
  }

  /** What SQLite enforces at commit: the NOT NULL columns and the unique
      team name. Foreign keys are not enforced (the pragma is never set), so
      a match may name a team id that does not exist. */
  predicate Integrity(db: PyDb)
  {
    (forall k :: k in db.equipos ==> Filled(db.equipos[k]) && NameFree(db.equipos, k, db.equipos[k].nombre))
    && (forall k :: k in db.partidos ==>
          db.partidos[k].equipoLocalId != PyNone && db.partidos[k].equipoVisitanteId != PyNone)
  }

  lemma {:induction false} NegatedNonEmpty(ids: set<int>)
    requires ids != {}
    ensures (set k | k in ids :: -k) != {}
  {
    if forall z :: z !in ids {
      assert false;
    }
    var y :| y in ids;
    var negated := set k | k in ids :: -k;
    assert -y in negated;
    assert |negated| > 0;
  }

  /** The rowid SQLite gives a new row of a table without AUTOINCREMENT: one
      past the largest in use, 1 in an empty table. */
  function NextRowId(ids: set<int>): (n: int)
    ensures ids == {} ==> n == 1
    ensures ids != {} ==> n - 1 in ids
    ensures forall k :: k in ids ==> k < n
  {
    if ids == {} then 1
    else
      var negated := set k | k in ids :: -k;
      NegatedNonEmpty(ids);
      var m := Least(negated);
      assert forall k :: k in ids ==> -k in negated;
      1 - m
  }

  /** The team table after the session flushes the rows `db.session.add`
      queued, in the order they were added: each takes the next rowid. The
      rows already stored stay as they are. */
  function Flush(equipos: map<int, EquipoRow>, pending: seq<EquipoRow>): (m: map<int, EquipoRow>)
    ensures forall k :: k in equipos ==> k in m && m[k] == equipos[k]
    decreases |pending|
  {
    if |pending| == 0 then equipos
    else
      var before := Flush(equipos, pending[..|pending| - 1]);
      before[NextRowId(before.Keys) := pending[|pending| - 1]]
  }

  /** Every queued row gets a rowid of its own: the table grows by exactly
      the number of rows flushed. */
  lemma {:induction false} FlushAddsEveryRow(equipos: map<int, EquipoRow>, pending: seq<EquipoRow>)
    ensures |Flush(equipos, pending)| == |equipos| + |pending|
    decreases |pending|
  {
    if |pending| > 0 {
      var before := Flush(equipos, pending[..|pending| - 1]);
      FlushAddsEveryRow(equipos, pending[..|pending| - 1]);
      assert NextRowId(before.Keys) !in before;
      assert before[NextRowId(before.Keys) := pending[|pending| - 1]].Keys == before.Keys + {NextRowId(before.Keys)};
    }
  }

  /** `db.session.commit()` of the staged state: the new committed state, or
      `None` when the database refuses it (a constraint of `Integrity`, or
      any other failure `accepted` reports) and the session rolls back. */
  function Commit(staged: PyDb, accepted: bool): (r: Option<PyDb>)
    ensures r.Some? <==> accepted && Integrity(staged)
    ensures r.Some? ==> r.value == staged
  {
    if accepted && Integrity(staged) then Some(staged) else None
  }

  /** Dropping a row keeps every constraint. */
  lemma {:induction false} RemovalKeepsIntegrity(db: PyDb, equipo: int, partido: int)
    requires Integrity(db)
    ensures Integrity(db.(equipos := db.equipos - {equipo}))
    ensures Integrity(db.(partidos := db.partidos - {partido}))
  {
    var smaller := db.equipos - {equipo};
    forall k | k in smaller ensures NameFree(smaller, k, smaller[k].nombre) {
      assert NameFree(db.equipos, k, db.equipos[k].nombre);
    }
  }
}
