/** The frontend's local database and the two outside parties its services
    talk to, reduced to values: the tables as maps keyed by id, the Flask API
    as an oracle that either answers with a body, answers with no body, or
    fails, and a switch that makes the database fail. */
module JavaStore {
  import opened Common
  import opened Time
  import opened Exceptions
  import opened EquipoEntity
  import opened PartidoEntity

  /** A row of the `partidos` table: the teams are foreign keys. */
  datatype PartidoRow = PartidoRow(
    id: int,
    local: Option<int>,
    visitante: Option<int>,
    puntosLocal: int,
    puntosVisitante: int,
    fecha: Option<DateTime>,
    finalizado: bool)

  /** Both tables, with the next value of each IDENTITY column. */
  datatype Db = Db(
    equipos: map<int, EquipoRecord>,
    partidos: map<int, PartidoRow>,
    nextEquipoId: int,
    nextPartidoId: int)

  /** A foreign key that is null or names a stored team. */
  predicate RefOk(db: Db, r: Option<int>)
  {
    r.None? || r.value in db.equipos
  }

  /** The integrity the database maintains: every row is stored under its own
      id, ids lie below the IDENTITY counters, foreign keys point at teams. */
  ghost predicate Wf(db: Db)
  {
    (forall k :: k in db.equipos ==> db.equipos[k].id == Some(k) && k < db.nextEquipoId)
    && (forall k :: k in db.partidos ==>
          db.partidos[k].id == k && k < db.nextPartidoId
          && RefOk(db, db.partidos[k].local) && RefOk(db, db.partidos[k].visitante))
  }

  /** The team a foreign key designates. */
  function TeamOf(db: Db, r: Option<int>): Option<EquipoRecord>
  {
    if r.Some? && r.value in db.equipos then Some(db.equipos[r.value]) else None
  }

  /** What a match loaded from the database looks like, teams included. */
  function Resolve(db: Db, row: PartidoRow): PartidoData
  {
    PartidoData(Some(row.id), TeamOf(db, row.local), TeamOf(db, row.visitante),
                row.puntosLocal, row.puntosVisitante, row.fecha, row.finalizado)
  }

  /** The outcome of one RestTemplate call to the Flask API: it threw (network
      error or non-2xx status), it returned no body, or it returned `value`. */
  datatype Remote<+T> = Failed | NullBody | Body(value: T)

  /** Whether the local database is up: with `ReadFails` every repository
      call throws; with `WriteFails` reads work and `save`/`deleteById` throw. */
  datatype StoreFault = Healthy | ReadFails | WriteFails

  /** The exception a failing repository call throws. */
  const StoreFailure := Exc(Persistence, None, None)
}
