/** The mutating endpoints of the Flask API (api/routes.py). Each handler
    maps the committed store and the request to a reply and the store
    afterwards. A handler validates in a fixed order and answers the first
    failed check; any exception inside the `try` rolls the session back and
    answers 500. The `details` text of a 500 (`str(e)`) is not modelled. */
module FlaskRoutes {
  import opened Common
  import opened Time
  import opened PyModels
  import opened PyStore

  /** `request.get_json()`: a JSON object, or `None` when the body is
      missing or not JSON, where the first `k in data` raises. */
  type Payload = Option<map<string, PyVal>>

  /** The JSON body of a reply. `Failure` is `{'error': ..., 'details': str(e)}`. */
  datatype Body =
    | Error(error: string)
    | Failure(error: string)
    | EquipoJson(equipo: EquipoDict)
    | PartidoJson(partido: PartidoDict)
    | Message(message: string)

  datatype Reply = Reply(status: int, body: Body)

  const EquipoNotFound := "Equipo no encontrado"
  const PartidoNotFound := "Partido no encontrado"
  const MissingEquipoFields := "Faltan datos requeridos (nombre, ciudad, entrenador)"
  const MissingPartidoFields := "Faltan datos requeridos (equipo_local_id, equipo_visitante_id, fecha)"
  const MissingScores := "Faltan datos requeridos (puntos_local, puntos_visitante)"
  const AlreadyFinished := "El partido ya está finalizado"
  const CreateEquipoFailed := "Error al crear equipo"
  const UpdateEquipoFailed := "Error al actualizar equipo"
  const DeleteEquipoFailed := "Error al eliminar equipo"
  const CreatePartidoFailed := "Error al crear partido"
  const ResultadoFailed := "Error al registrar resultado"
  const DeletePartidoFailed := "Error al eliminar partido"

  /** `all(k in data for k in keys)`. */
  predicate HasAll(data: map<string, PyVal>, keys: set<string>)
  {
    keys <= data.Keys
  }

  const EquipoKeys: set<string> := {"nombre", "ciudad", "entrenador"}
  const PartidoKeys: set<string> := {"equipo_local_id", "equipo_visitante_id", "fecha"}
  const ScoreKeys: set<string> := {"puntos_local", "puntos_visitante"}

  /** Writing one team row keeps the constraints exactly when the row fills
      its NOT NULL columns and its name is not another team's. */
  lemma {:induction false} StoreEquipoIntegrity(db: PyDb, key: int, row: EquipoRow)
    requires Integrity(db)
    ensures Integrity(db.(equipos := db.equipos[key := row])) <==> Filled(row) && NameFree(db.equipos, key, row.nombre)
  {
    var equipos := db.equipos[key := row];
    if Integrity(db.(equipos := equipos)) {
      assert equipos[key] == row;
      forall j | j in db.equipos && j != key ensures db.equipos[j].nombre != row.nombre {
        assert j in equipos && equipos[j] == db.equipos[j];
      }
    }
    if Filled(row) && NameFree(db.equipos, key, row.nombre) {
      forall k | k in equipos ensures Filled(equipos[k]) && NameFree(equipos, k, equipos[k].nombre) {
        if k != key {
          assert NameFree(db.equipos, k, db.equipos[k].nombre);
          assert equipos[k] == db.equipos[k];
        }
      }
    }
  }

  /** Writing one match row keeps the constraints exactly when both team
      ids are non-null. */
  lemma {:induction false} StorePartidoIntegrity(db: PyDb, key: int, row: PartidoRow)
    requires Integrity(db)
    ensures Integrity(db.(partidos := db.partidos[key := row]))
            <==> row.equipoLocalId != PyNone && row.equipoVisitanteId != PyNone
  {
    assert db.partidos[key := row][key] == row;
  }

  /** `create_equipo()`: the three keys must be present; the new team gets
      the next rowid and no game played. The database refuses a null field or
      a name already taken, and then the store is as before. */
  method CreateEquipo(db: PyDb, data: Payload, accepted: bool) returns (reply: Reply, db': PyDb)
    requires Integrity(db)
    ensures Integrity(db')
    ensures reply.status != 201 ==> db' == db
    ensures data.None? ==> reply == Reply(500, Failure(CreateEquipoFailed))
    ensures data.Some? && !HasAll(data.value, EquipoKeys) ==> reply == Reply(400, Error(MissingEquipoFields))
    ensures data.Some? && HasAll(data.value, EquipoKeys) ==>
              var k := NextRowId(db.equipos.Keys);
              var row := EquipoRow(data.value["nombre"], data.value["ciudad"], data.value["entrenador"], 0, 0);
              (reply.status == 201 <==> accepted && Filled(row) && NameFree(db.equipos, k, row.nombre))
              && (reply.status == 201 ==>
                    db' == db.(equipos := db.equipos[k := row])
                    && reply.body == EquipoJson(EquipoDict(Some(k), row.nombre, row.ciudad, row.entrenador, 0, 0, 0.0)))
              && (reply.status != 201 ==> reply == Reply(500, Failure(CreateEquipoFailed)))
  {
    if data.None? {
      return Reply(500, Failure(CreateEquipoFailed)), db;
    }
    var d := data.value;
    if !("nombre" in d && "ciudad" in d && "entrenador" in d) {
      assert !HasAll(d, EquipoKeys);
      return Reply(400, Error(MissingEquipoFields)), db;
    }
    assert HasAll(d, EquipoKeys);
    var equipo := new Equipo(d["nombre"], d["ciudad"], d["entrenador"]);
    var k := NextRowId(db.equipos.Keys);
    equipo.id := Some(k);
    var staged := db.(equipos := db.equipos[k := equipo.Row()]);
    StoreEquipoIntegrity(db, k, equipo.Row());
    var committed := Commit(staged, accepted);
    if committed.None? {
      return Reply(500, Failure(CreateEquipoFailed)), db;
    }
    return Reply(201, EquipoJson(equipo.ToDict())), committed.value;
  }

  /** The team row after `update_equipo`: each of the three fields takes the
      payload's value when its key is present, even a null one, and keeps
      the stored value otherwise; the counters are never touched. */
  function Updated(r: EquipoRow, data: map<string, PyVal>): (u: EquipoRow)
    ensures u.nombre == (if "nombre" in data then data["nombre"] else r.nombre)
    ensures u.ciudad == (if "ciudad" in data then data["ciudad"] else r.ciudad)
    ensures u.entrenador == (if "entrenador" in data then data["entrenador"] else r.entrenador)
    ensures u.victorias == r.victorias && u.derrotas == r.derrotas
    ensures EquipoKeys !! data.Keys ==> u == r
  {
    var n := if "nombre" in data then data["nombre"] else r.nombre;
    var c := if "ciudad" in data then data["ciudad"] else r.ciudad;
    var e := if "entrenador" in data then data["entrenador"] else r.entrenador;
    r.(nombre := n, ciudad := c, entrenador := e)
  }

  /** `update_equipo(id)`: 404 for an unknown id, before the payload is
      read; otherwise the fields present in the payload are assigned in
      place and committed. */
  method UpdateEquipo(db: PyDb, id: int, data: Payload, accepted: bool) returns (reply: Reply, db': PyDb)
    requires Integrity(db)
    ensures Integrity(db')
    ensures reply.status != 200 ==> db' == db
    ensures id !in db.equipos ==> reply == Reply(404, Error(EquipoNotFound))
    ensures id in db.equipos && data.None? ==> reply == Reply(500, Failure(UpdateEquipoFailed))
    ensures id in db.equipos && data.Some? ==>
              var row := Updated(db.equipos[id], data.value);
              (reply.status == 200 <==> accepted && Filled(row) && NameFree(db.equipos, id, row.nombre))
              && (reply.status == 200 ==>
                    db' == db.(equipos := db.equipos[id := row])
                    && reply.body.EquipoJson? && reply.body.equipo.id == Some(id)
                    && reply.body.equipo.nombre == row.nombre && reply.body.equipo.ciudad == row.ciudad
                    && reply.body.equipo.entrenador == row.entrenador
                    && reply.body.equipo.victorias == row.victorias && reply.body.equipo.derrotas == row.derrotas)
              && (reply.status != 200 ==> reply == Reply(500, Failure(UpdateEquipoFailed)))
  {
    if id !in db.equipos {
      return Reply(404, Error(EquipoNotFound)), db;
    }
    if data.None? {
      return Reply(500, Failure(UpdateEquipoFailed)), db;
    }
    var d := data.value;
    var equipo := new Equipo.Load(id, db.equipos[id]);
    if "nombre" in d {
      equipo.nombre := d["nombre"];
    }
    if "ciudad" in d {
      equipo.ciudad := d["ciudad"];
    }
    if "entrenador" in d {
      equipo.entrenador := d["entrenador"];
    }
    assert equipo.Row() == Updated(db.equipos[id], d);
    StoreEquipoIntegrity(db, id, equipo.Row());
    var committed := Commit(db.(equipos := db.equipos[id := equipo.Row()]), accepted);
    if committed.None? {
      return Reply(500, Failure(UpdateEquipoFailed)), db;
    }
    return Reply(200, EquipoJson(equipo.ToDict())), committed.value;
  }

  /** Whether a match names team `id` on either side. */
  predicate References(r: PartidoRow, id: int)
  {
    PyEq(r.equipoLocalId, PyInt(id)) || PyEq(r.equipoVisitanteId, PyInt(id))
  }

  /** What the ORM does to a match when the team it names is deleted: the
      relationship has no delete cascade, so the foreign key is set to null. */
  function Unlinked(r: PartidoRow, id: int): (u: PartidoRow)
    ensures References(r, id) ==> u.equipoLocalId == PyNone || u.equipoVisitanteId == PyNone
    ensures !References(r, id) ==> u == r
  {
    r.(equipoLocalId := if PyEq(r.equipoLocalId, PyInt(id)) then PyNone else r.equipoLocalId,
       equipoVisitanteId := if PyEq(r.equipoVisitanteId, PyInt(id)) then PyNone else r.equipoVisitanteId)
  }

  /** The state `db.session.delete(equipo)` stages. */
  function DeletionStaged(db: PyDb, id: int): PyDb
  {
    PyDb(db.equipos - {id}, map k | k in db.partidos :: Unlinked(db.partidos[k], id))
  }

  /** The staged deletion passes the constraints exactly when no match
      names the team: a referencing match would get a null team id. */
  lemma {:induction false} DeletionStagedIntegrity(db: PyDb, id: int)
    requires Integrity(db)
    ensures Integrity(DeletionStaged(db, id)) <==> forall k :: k in db.partidos ==> !References(db.partidos[k], id)
    ensures (forall k :: k in db.partidos ==> !References(db.partidos[k], id)) ==>
              DeletionStaged(db, id) == db.(equipos := db.equipos - {id})
  {
    var staged := DeletionStaged(db, id);
    if forall k :: k in db.partidos ==> !References(db.partidos[k], id) {
      assert staged.partidos.Keys == db.partidos.Keys;
      forall k | k in db.partidos ensures staged.partidos[k] == db.partidos[k] {
      }
      assert staged.partidos == db.partidos;
      RemovalKeepsIntegrity(db, id, 0);
    } else {
      var k :| k in db.partidos && References(db.partidos[k], id);
      assert staged.partidos[k] == Unlinked(db.partidos[k], id);
    }
  }

  /** `delete_equipo(id)`: 404 for an unknown id; otherwise exactly that team
      goes, which the database allows only while no match names it. */
  method DeleteEquipo(db: PyDb, id: int, accepted: bool) returns (reply: Reply, db': PyDb)
    requires Integrity(db)
    ensures Integrity(db')
    ensures reply.status != 200 ==> db' == db
    ensures id !in db.equipos ==> reply == Reply(404, Error(EquipoNotFound))
    ensures id in db.equipos ==>
              (reply.status == 200 <==> accepted && forall k :: k in db.partidos ==> !References(db.partidos[k], id))
              && (reply.status != 200 ==> reply == Reply(500, Failure(DeleteEquipoFailed)))
    ensures reply.status == 200 ==>
              db' == db.(equipos := db.equipos - {id})
              && reply.body == Message("Equipo " + IntToString(id) + " eliminado correctamente")
  {
    if id !in db.equipos {
      return Reply(404, Error(EquipoNotFound)), db;
    }
    DeletionStagedIntegrity(db, id);
    var committed := Commit(DeletionStaged(db, id), accepted);
    if committed.None? {
      return Reply(500, Failure(DeleteEquipoFailed)), db;
    }
    return Reply(200, Message("Equipo " + IntToString(id) + " eliminado correctamente")), committed.value;
  }

  /** `create_partido()`: missing keys, then equal team ids, are refused with
      400; an unparsable `fecha` (`datetime.fromisoformat`, given as
      `fromIso`) and a null team id, which the NOT NULL column refuses, end
      in 500. A team id naming no team is accepted. */
  method CreatePartido(db: PyDb, data: Payload, fromIso: PyVal -> Option<DateTime>, accepted: bool)
    returns (reply: Reply, db': PyDb)
    requires Integrity(db)
    ensures Integrity(db')
    ensures reply.status != 201 ==> db' == db
    ensures data.None? ==> reply == Reply(500, Failure(CreatePartidoFailed))
    ensures data.Some? && !HasAll(data.value, PartidoKeys) ==> reply == Reply(400, Error(MissingPartidoFields))
    ensures data.Some? && HasAll(data.value, PartidoKeys) ==>
              var local, visitante := data.value["equipo_local_id"], data.value["equipo_visitante_id"];
              var fecha := fromIso(data.value["fecha"]);
              (PyEq(local, visitante) ==> reply == Reply(400, Error(SameTeam)))
              && (!PyEq(local, visitante) && fecha.None? ==> reply == Reply(500, Failure(CreatePartidoFailed)))
              && (!PyEq(local, visitante) && fecha.Some? ==>
                    var k := NextRowId(db.partidos.Keys);
                    var row := PartidoRow(local, visitante, 0, 0, fecha.value, false);
                    (reply.status == 201 <==> accepted && local != PyNone && visitante != PyNone)
                    && (reply.status == 201 ==>
                          db' == db.(partidos := db.partidos[k := row])
                          && reply.body == PartidoJson(PartidoDict(Some(k), local, visitante, 0, 0, fecha.value, false, None, 0)))
                    && (reply.status != 201 ==> reply == Reply(500, Failure(CreatePartidoFailed))))
  {
    if data.None? {
      return Reply(500, Failure(CreatePartidoFailed)), db;
    }
    var d := data.value;
    if !("equipo_local_id" in d && "equipo_visitante_id" in d && "fecha" in d) {
      assert !HasAll(d, PartidoKeys);
      return Reply(400, Error(MissingPartidoFields)), db;
    }
    assert HasAll(d, PartidoKeys);
    if PyEq(d["equipo_local_id"], d["equipo_visitante_id"]) {
      return Reply(400, Error(SameTeam)), db;
    }
    var fecha := fromIso(d["fecha"]);
    if fecha.None? {
      return Reply(500, Failure(CreatePartidoFailed)), db;
    }
    var created := Partido.Create(d["equipo_local_id"], d["equipo_visitante_id"], fecha.value);
    if created.Err? {
      assert false;
    }
    var partido := created.value;
    var k := NextRowId(db.partidos.Keys);
    partido.id := Some(k);
    StorePartidoIntegrity(db, k, partido.Row());
    var committed := Commit(db.(partidos := db.partidos[k := partido.Row()]), accepted);
    if committed.None? {
      return Reply(500, Failure(CreatePartidoFailed)), db;
    }
    return Reply(201, PartidoJson(partido.ToDict())), committed.value;
  }

  /** How `registrar_resultado` judges the two scores: `puntos_local < 0 or
      puntos_visitante < 0` short-circuits, and comparing `None` or a string
      with 0 raises a TypeError. */
  datatype ScoreVerdict = TypeFailure | Negative | Scores(local: int, visitante: int)

  function JudgeScores(pl: PyVal, pv: PyVal): (v: ScoreVerdict)
    ensures v.TypeFailure? <==> AsNumber(pl).None? || (AsNumber(pl).value >= 0 && AsNumber(pv).None?)
    ensures v.Negative? <==> AsNumber(pl).Some? && (AsNumber(pl).value < 0 || (AsNumber(pv).Some? && AsNumber(pv).value < 0))
    ensures v.Scores? ==> 0 <= v.local && 0 <= v.visitante
                          && AsNumber(pl) == Some(v.local) && AsNumber(pv) == Some(v.visitante)
  {
    match AsNumber(pl)
    case None => TypeFailure
    case Some(a) =>
      if a < 0 then Negative
      else match AsNumber(pv)
           case None => TypeFailure
           case Some(b) => if b < 0 then Negative else Scores(a, b)
  }

  /** `registrar_resultado(id)`: unknown id (404), already finalised (400),
      missing scores (400) and a negative score (400) are refused in that
      order; then the match takes the scores and is finalised. Whatever
      happens, the teams' tallies stay as they were. */
  method RegistrarResultado(db: PyDb, id: int, data: Payload, accepted: bool) returns (reply: Reply, db': PyDb)
    requires Integrity(db)
    ensures Integrity(db')
    ensures db'.equipos == db.equipos
    ensures reply.status != 200 ==> db' == db
    ensures id !in db.partidos ==> reply == Reply(404, Error(PartidoNotFound))
    ensures id in db.partidos && db.partidos[id].finalizado ==> reply == Reply(400, Error(AlreadyFinished))
    ensures id in db.partidos && !db.partidos[id].finalizado ==>
              (data.None? ==> reply == Reply(500, Failure(ResultadoFailed)))
              && (data.Some? && !HasAll(data.value, ScoreKeys) ==> reply == Reply(400, Error(MissingScores)))
              && (data.Some? && HasAll(data.value, ScoreKeys) ==>
                    var verdict := JudgeScores(data.value["puntos_local"], data.value["puntos_visitante"]);
                    (verdict.TypeFailure? ==> reply == Reply(500, Failure(ResultadoFailed)))
                    && (verdict.Negative? ==> reply == Reply(400, Error(NegativePoints)))
                    && (verdict.Scores? ==>
                          var row := db.partidos[id].(puntosLocal := verdict.local, puntosVisitante := verdict.visitante,
                                                      finalizado := true);
                          (reply.status == 200 <==> accepted)
                          && (reply.status == 200 ==>
                                db' == db.(partidos := db.partidos[id := row])
                                && reply.body.PartidoJson? && reply.body.partido.id == Some(id)
                                && reply.body.partido.finalizado
                                && reply.body.partido.puntosLocal == verdict.local
                                && reply.body.partido.puntosVisitante == verdict.visitante)
                          && (reply.status != 200 ==> reply == Reply(500, Failure(ResultadoFailed)))))
  {
    if id !in db.partidos {
      return Reply(404, Error(PartidoNotFound)), db;
    }
    if db.partidos[id].finalizado {
      return Reply(400, Error(AlreadyFinished)), db;
    }
    if data.None? {
      return Reply(500, Failure(ResultadoFailed)), db;
    }
    var d := data.value;
    if !("puntos_local" in d && "puntos_visitante" in d) {
      assert !HasAll(d, ScoreKeys);
      return Reply(400, Error(MissingScores)), db;
    }
    assert HasAll(d, ScoreKeys);
    var verdict := JudgeScores(d["puntos_local"], d["puntos_visitante"]);
    if verdict.TypeFailure? {
      return Reply(500, Failure(ResultadoFailed)), db;
    }
    if verdict.Negative? {
      return Reply(400, Error(NegativePoints)), db;
    }
    var partido := new Partido.Load(id, db.partidos[id]);
    var registered := partido.RegistrarResultado(verdict.local, verdict.visitante);
    var staged := db.(partidos := db.partidos[id := partido.Row()]);
    StorePartidoIntegrity(db, id, partido.Row());
    var committed := Commit(staged, accepted);
    if committed.None? {
      return Reply(500, Failure(ResultadoFailed)), db;
    }
    return Reply(200, PartidoJson(partido.ToDict())), committed.value;
  }

  /** `delete_partido(id)`: 404 for an unknown id; otherwise exactly that
      match goes. */
  method DeletePartido(db: PyDb, id: int, accepted: bool) returns (reply: Reply, db': PyDb)
    requires Integrity(db)
    ensures Integrity(db')
    ensures reply.status != 200 ==> db' == db
    ensures id !in db.partidos ==> reply == Reply(404, Error(PartidoNotFound))
    ensures id in db.partidos ==>
              (reply.status == 200 <==> accepted)
              && (reply.status != 200 ==> reply == Reply(500, Failure(DeletePartidoFailed)))
    ensures reply.status == 200 ==>
              db' == db.(partidos := db.partidos - {id})
              && reply.body == Message("Partido " + IntToString(id) + " eliminado correctamente")
  {
    if id !in db.partidos {
      return Reply(404, Error(PartidoNotFound)), db;
    }
    RemovalKeepsIntegrity(db, 0, id);
    var committed := Commit(db.(partidos := db.partidos - {id}), accepted);
    if committed.None? {
      return Reply(500, Failure(DeletePartidoFailed)), db;
    }
    return Reply(200, Message("Partido " + IntToString(id) + " eliminado correctamente")), committed.value;
  }
}
