/** controller/PartidoController.java: the match pages' guards, the match
    built for saving, and the rewrapping of every failure into the
    DatabaseException the global handler renders. Each service call is
    given the outcome of its own API call. */
module PartidoController {
  import opened Common
  import opened Time
  import opened Exceptions
  import opened JavaJson
  import opened EquipoEntity
  import opened PartidoEntity
  import opened JavaStore
  import EquipoService
  import PartidoService

  const Redirect := "redirect:/partidos"

  /** `new DatabaseException(prefix + e.getMessage(), e)`. */
  function Rewrapped(prefix: string, e: Exc): (w: Exc)
    ensures w.kind == DatabaseError(None) && w.cause == Some(e)
    ensures w.message == Some(prefix + JavaString(e.message))
  {
    DatabaseExceptionWithCause(Some(prefix + JavaString(e.message)), Some(e))
  }

  const GuardarPrefix := "Error al guardar partido: "
  const ResultadoPrefix := "Error al registrar resultado: "
  const EliminarPrefix := "Error al eliminar partido: "

  const SameTeams := Exc(IllegalArgument, Some(SameTeam), None)
  const TeamMissing := DatabaseException(Some("No se encontró uno de los equipos"))

  /** The match `guardarPartido` hands to the service: `new Partido()` with
      both teams and the date set, 0-0 and not finalised. */
  function NewPartido(local: EquipoRecord, visitante: EquipoRecord, fecha: DateTime): PartidoData
  {
    PartidoData(None, Some(local), Some(visitante), 0, 0, Some(fecha), false)
  }

  /** The `new Partido()` the form builds: the two teams found and the date,
      no id, no score. */
  method BuildPartido(local: EquipoRecord, visitante: EquipoRecord, fecha: DateTime) returns (partido: Partido)
    ensures fresh(partido) && partido.Snapshot() == NewPartido(local, visitante, fecha)
  {
    partido := new Partido.Empty();
    partido.equipoLocal := new Equipo.Load(local);
    partido.equipoVisitante := new Equipo.Load(visitante);
    partido.fecha := Some(fecha);
  }

  /** `guardarPartido(equipoLocalId, equipoVisitanteId, fecha)`: equal ids are
      refused before any lookup; both teams are looked up, a missing one is
      an error; the new match goes to `save`. Whatever fails is rewrapped
      with the "Error al guardar partido: " prefix, and then nothing was
      stored. */
  method GuardarPartido(localId: int, visitanteId: int, fecha: DateTime,
                        remoteLocal: Remote<JsonObject>, remoteVisitante: Remote<JsonObject>, remoteSave: Remote<JsonObject>,
                        db: Db, fault: StoreFault, parseLong: string -> Option<int>, parseDate: string -> Option<DateTime>)
    returns (r: Result<string, Exc>, db': Db)
    requires Wf(db)
    ensures Wf(db')
    ensures r.Ok? ==> r.value == Redirect
    ensures r.Err? ==> db' == db && r.error.cause.Some? && r.error == Rewrapped(GuardarPrefix, r.error.cause.value)
    ensures localId == visitanteId ==> r == Err(Rewrapped(GuardarPrefix, SameTeams)) && db' == db
    ensures localId != visitanteId ==>
              var local := EquipoService.FoundEquipo(remoteLocal, db, fault, localId, parseLong);
              var visitante := EquipoService.FoundEquipo(remoteVisitante, db, fault, visitanteId, parseLong);
              (local.Err? ==> r == Err(Rewrapped(GuardarPrefix, local.error)))
              && (local.Ok? && visitante.Err? ==> r == Err(Rewrapped(GuardarPrefix, visitante.error)))
              && (local.Ok? && visitante.Ok? && (local.value.None? || visitante.value.None?) ==>
                    r == Err(Rewrapped(GuardarPrefix, TeamMissing)))
              && (local.Ok? && visitante.Ok? && local.value.Some? && visitante.value.Some? ==>
                    var saved := PartidoService.Saved(remoteSave, db, fault,
                                                      NewPartido(local.value.value, visitante.value.value, fecha),
                                                      parseLong, parseDate);
                    db' == saved.1 && (r.Ok? <==> saved.0.Ok?)
                    && (saved.0.Err? ==> r == Err(Rewrapped(GuardarPrefix, saved.0.error))))
  {
    if localId == visitanteId {
      return Err(Rewrapped(GuardarPrefix, SameTeams)), db;
    }
    var localOpt := EquipoService.FindById(remoteLocal, db, fault, localId, parseLong);
    if localOpt.Err? {
      return Err(Rewrapped(GuardarPrefix, localOpt.error)), db;
    }
    var visitanteOpt := EquipoService.FindById(remoteVisitante, db, fault, visitanteId, parseLong);
    if visitanteOpt.Err? {
      return Err(Rewrapped(GuardarPrefix, visitanteOpt.error)), db;
    }
    if localOpt.value.None? || visitanteOpt.value.None? {
      return Err(Rewrapped(GuardarPrefix, TeamMissing)), db;
    }
    var partido := BuildPartido(localOpt.value.value, visitanteOpt.value.value, fecha);
    var saved;
    saved, db' := PartidoService.Save(remoteSave, db, fault, partido.Snapshot(), parseLong, parseDate);
    if saved.Err? {
      return Err(Rewrapped(GuardarPrefix, saved.error)), db';
    }
    r := Ok(Redirect);
  }

  /** With the API down and both teams stored, saving a match between two
      different teams adds exactly one row, under a fresh id. */
  lemma {:induction false} GuardarPartidoOffline(localId: int, visitanteId: int, fecha: DateTime, db: Db,
                                                parseLong: string -> Option<int>, parseDate: string -> Option<DateTime>)
    requires Wf(db) && localId != visitanteId && localId in db.equipos && visitanteId in db.equipos
    ensures var local := EquipoService.FoundEquipo(Failed, db, Healthy, localId, parseLong);
            var visitante := EquipoService.FoundEquipo(Failed, db, Healthy, visitanteId, parseLong);
            local == Ok(Some(db.equipos[localId])) && visitante == Ok(Some(db.equipos[visitanteId]))
            && var saved := PartidoService.Saved(Failed, db, Healthy,
                                                 NewPartido(db.equipos[localId], db.equipos[visitanteId], fecha),
                                                 parseLong, parseDate);
               saved.0.Ok? && saved.0.value.id.Some?
               && var k := saved.0.value.id.value;
                  k !in db.partidos
                  && saved.1.partidos == db.partidos[k := PartidoRow(k, Some(localId), Some(visitanteId), 0, 0, Some(fecha), false)]
  {
    PartidoService.SavedLocallyAddsOneRow(db, localId, visitanteId, fecha, parseLong, parseDate);
  }

  /** The page `mostrarFormularioResultado` renders, with its model attributes. */
  datatype FormView = FormView(view: string, titulo: string, partido: PartidoData)

  /** `mostrarFormularioResultado(id)`: the result form for a known match; an
      absent match is a DatabaseException; a failure of the lookup itself
      propagates as the service threw it, since nothing here catches. */
  method MostrarFormularioResultado(id: int, remote: Remote<JsonObject>, db: Db, fault: StoreFault,
                                    parseLong: string -> Option<int>, parseDate: string -> Option<DateTime>)
    returns (r: Result<FormView, Exc>)
    ensures var found := PartidoService.FoundPartido(remote, db, fault, id, parseLong, parseDate);
            (found.Err? ==> r == Err(found.error))
            && (found == Ok(None) ==> r == Err(DatabaseException(Some("No se encontró el partido con ID: " + IntToString(id)))))
            && (found.Ok? && found.value.Some? ==> r == Ok(FormView("form-resultado", "Registrar Resultado", found.value.value)))
  {
    var partidoOpt := PartidoService.FindById(remote, db, fault, id, parseLong, parseDate);
    if partidoOpt.Err? {
      return Err(partidoOpt.error);
    }
    if partidoOpt.value.Some? {
      return Ok(FormView("form-resultado", "Registrar Resultado", partidoOpt.value.value));
    }
    return Err(DatabaseException(Some("No se encontró el partido con ID: " + IntToString(id))));
  }

  /** `registrarResultado(id, puntosLocal, puntosVisitante)`: a negative score
      is refused before the service is called; any failure is rewrapped with
      the "Error al registrar resultado: " prefix and leaves the store alone. */
  method RegistrarResultado(id: int, pl: int, pv: int, remote: Remote<JsonObject>, db: Db, fault: StoreFault,
                            parseLong: string -> Option<int>, parseDate: string -> Option<DateTime>)
    returns (r: Result<string, Exc>, db': Db)
    requires Wf(db)
    ensures Wf(db')
    ensures r.Ok? ==> r.value == Redirect
    ensures r.Err? ==> db' == db && r.error.cause.Some? && r.error == Rewrapped(ResultadoPrefix, r.error.cause.value)
    ensures pl < 0 || pv < 0 ==>
              r == Err(Rewrapped(ResultadoPrefix, Exc(IllegalArgument, Some(NegativePoints), None))) && db' == db
    ensures pl >= 0 && pv >= 0 ==>
              var out := PartidoService.Registered(remote, db, fault, id, pl, pv, parseLong, parseDate);
              db' == out.1 && (r.Ok? <==> out.0.Ok?)
              && (out.0.Err? ==> r == Err(Rewrapped(ResultadoPrefix, out.0.error)))
  {
    if pl < 0 || pv < 0 {
      return Err(Rewrapped(ResultadoPrefix, Exc(IllegalArgument, Some(NegativePoints), None))), db;
    }
    var registered;
    registered, db' := PartidoService.RegistrarResultado(remote, db, fault, id, pl, pv, parseLong, parseDate);
    if registered.Err? {
      return Err(Rewrapped(ResultadoPrefix, registered.error)), db';
    }
    r := Ok(Redirect);
  }

  /** `eliminarPartido(id)`: the service's deletion, its failure rewrapped
      with the "Error al eliminar partido: " prefix. */
  method EliminarPartido(id: int, remoteOk: bool, db: Db, fault: StoreFault) returns (r: Result<string, Exc>, db': Db)
    requires Wf(db)
    ensures Wf(db')
    ensures var out := PartidoService.Deleted(remoteOk, db, fault, id);
            db' == out.1
            && (out.0.None? ==> r == Ok(Redirect))
            && (out.0.Some? ==> r == Err(Rewrapped(EliminarPrefix, out.0.value)) && db' == db)
  {
    var err;
    err, db' := PartidoService.DeleteById(remoteOk, db, fault, id);
    if err.Some? {
      return Err(Rewrapped(EliminarPrefix, err.value)), db';
    }
    r := Ok(Redirect);
  }
}
