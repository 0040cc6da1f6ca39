/** service/PartidoServiceImpl.java: every operation asks the Flask API first
    and falls back to the local database when the call throws; the result
    registration's fallback is a load-mutate-save of the match and, through
    the entity, of its two teams. */
module PartidoService {
  import opened Common
  import opened Time
  import opened Exceptions
  import opened JavaJson
  import opened EquipoEntity
  import opened PartidoEntity
  import opened JavaStore
  import opened PartidoRepository

  /** `new DatabaseException(message, cause)`. */
  function Wrapped(message: string, cause: Exc): Exc
  {
    DatabaseExceptionWithCause(Some(message), Some(cause))
  }

  /** Every stored row with its teams, in listing order. */
  function ResolveAll(db: Db, rows: seq<PartidoRow>): (r: seq<PartidoData>)
    ensures |r| == |rows|
    ensures forall i :: 0 <= i < |rows| ==> r[i] == Resolve(db, rows[i])
  {
    seq(|rows|, i requires 0 <= i < |rows| => Resolve(db, rows[i]))
  }

  // ---- JSON mapping --------------------------------------------------------------

  /** `LocalDateTime.parse((String) map.get("fecha"))` when the key is present;
      `parseDate` stands for the ISO parser. */
  function ReadFecha(m: JsonObject, parseDate: string -> Option<DateTime>): (r: Result<Option<DateTime>, Exc>)
    ensures "fecha" !in m ==> r == Ok(None)
    ensures r.Ok? && "fecha" in m ==> m["fecha"].JString? && r.value.Some? && parseDate(m["fecha"].s) == r.value
  {
    if "fecha" !in m then Ok(None)
    else match m["fecha"]
      case JString(s) =>
        (match parseDate(s)
         case Some(d) => Ok(Some(d))
         case None => Err(Exc(DateTimeParse, None, None)))
      case JNull => Err(Exc(NullPointer, None, None))   // LocalDateTime.parse(null)
      case _ => Err(BadCast)
  }

  /** A side of the match, built only when its name key is present: a new
      team with the id when it is an Integer or Long and the name cast to
      String; nothing else of the team travels. */
  function ReadTeam(m: JsonObject, nameKey: string, idKey: string): (r: Result<Option<EquipoRecord>, Exc>)
    ensures nameKey !in m ==> r == Ok(None)
    ensures nameKey in m ==> (r.Ok? <==> CastString(m[nameKey]).Ok?)
    ensures r.Ok? && nameKey in m ==>
              r.value == Some(EquipoRecord(IntegerOrLongField(m, idKey), CastString(m[nameKey]).value, None, None, 0, 0))
  {
    if nameKey !in m then Ok(None)
    else
      var nombre :- CastString(m[nameKey]);
      Ok(Some(EquipoRecord(IntegerOrLongField(m, idKey), nombre, None, None, 0, 0)))
  }

  /** A score copied only when it is boxed as an Integer; 0 otherwise. */
  function ReadScore(m: JsonObject, key: string): int
  {
    match IntegerField(m, key)
    case Some(n) => n
    case None => 0
  }

  /** What `mapToPartido` makes of a JSON object. */
  function MappedPartido(m: JsonObject, parseLong: string -> Option<int>, parseDate: string -> Option<DateTime>)
    : (r: Result<PartidoData, Exc>)
    ensures r.Ok? ==> ReadId(m, parseLong) == Ok(r.value.id)
    ensures r.Ok? ==> (r.value.fecha.Some? <==> "fecha" in m)
                      && ("fecha" in m ==> m["fecha"].JString? && parseDate(m["fecha"].s) == r.value.fecha)
    ensures r.Ok? ==> (r.value.local.Some? <==> "equipo_local" in m)
                      && (r.value.visitante.Some? <==> "equipo_visitante" in m)
    ensures r.Ok? && r.value.local.Some? ==>
              var t := r.value.local.value;
              t.id == IntegerOrLongField(m, "equipo_local_id") && CastString(m["equipo_local"]) == Ok(t.nombre)
              && t.ciudad.None? && t.entrenador.None? && t.victorias == 0 && t.derrotas == 0
    ensures r.Ok? && r.value.visitante.Some? ==>
              var t := r.value.visitante.value;
              t.id == IntegerOrLongField(m, "equipo_visitante_id") && CastString(m["equipo_visitante"]) == Ok(t.nombre)
              && t.ciudad.None? && t.entrenador.None? && t.victorias == 0 && t.derrotas == 0
    ensures r.Ok? ==> (IntegerField(m, "puntos_local").Some? ==> r.value.puntosLocal == IntegerField(m, "puntos_local").value)
                      && (IntegerField(m, "puntos_local").None? ==> r.value.puntosLocal == 0)
                      && (IntegerField(m, "puntos_visitante").Some? ==> r.value.puntosVisitante == IntegerField(m, "puntos_visitante").value)
                      && (IntegerField(m, "puntos_visitante").None? ==> r.value.puntosVisitante == 0)
    ensures r.Ok? ==> (r.value.finalizado <==> "finalizado" in m && m["finalizado"] == JBoolean(true))
    ensures r.Err? <==> ReadId(m, parseLong).Err?
                        || ("fecha" in m && !(m["fecha"].JString? && parseDate(m["fecha"].s).Some?))
                        || ("equipo_local" in m && CastString(m["equipo_local"]).Err?)
                        || ("equipo_visitante" in m && CastString(m["equipo_visitante"]).Err?)
    ensures r.Err? ==> r.error.kind in {NumberFormat, DateTimeParse, NullPointer, ClassCast}
  {
    var id :- ReadId(m, parseLong);
    var fecha :- ReadFecha(m, parseDate);
    var local :- ReadTeam(m, "equipo_local", "equipo_local_id");
    var visitante :- ReadTeam(m, "equipo_visitante", "equipo_visitante_id");
    var finalizado := "finalizado" in m && m["finalizado"] == JBoolean(true);
    Ok(PartidoData(id, local, visitante, ReadScore(m, "puntos_local"), ReadScore(m, "puntos_visitante"), fecha, finalizado))
  }

  /** One side of `mapToPartido`: a `new Equipo()` given the id when it is an
      Integer or Long and the name through a `(String)` cast. */
  method MapTeam(m: JsonObject, nameKey: string, idKey: string) returns (r: Result<Equipo, Exc>)
    requires nameKey in m
    ensures r.Ok? ==> fresh(r.value) && ReadTeam(m, nameKey, idKey) == Ok(Some(r.value.Snapshot()))
    ensures r.Err? ==> ReadTeam(m, nameKey, idKey) == Err(r.error)
  {
    var equipo := new Equipo.Empty();
    if idKey in m {
      match m[idKey] {
        case JInteger(n) => equipo.id := Some(n);
        case JLong(n) => equipo.id := Some(n);
        case _ =>
      }
    }
    var nombre := CastString(m[nameKey]);
    if nombre.Err? {
      return Err(nombre.error);
    }
    equipo.nombre := nombre.value;
    return Ok(equipo);
  }

  /** The id step of `mapToPartido`: Integer and Long are taken, a String is
      parsed, anything else leaves the id unset. */
  method SetId(partido: Partido, m: JsonObject, parseLong: string -> Option<int>) returns (err: Option<Exc>)
    requires partido.id == None
    modifies partido
    ensures ReadId(m, parseLong) == (if err.Some? then Err(err.value) else Ok(partido.id))
    ensures err.None? ==> partido.equipoLocal == old(partido.equipoLocal) && partido.equipoVisitante == old(partido.equipoVisitante)
                          && partido.fecha == old(partido.fecha) && partido.puntosLocal == old(partido.puntosLocal)
                          && partido.puntosVisitante == old(partido.puntosVisitante) && partido.finalizado == old(partido.finalizado)
  {
    if "id" in m {
      match m["id"] {
        case JInteger(n) => partido.id := Some(n);
        case JLong(n) => partido.id := Some(n);
        case JString(s) =>
          var parsed := parseLong(s);
          if parsed.None? {
            return Some(Exc(NumberFormat, None, None));
          }
          partido.id := parsed;
        case _ =>
      }
    }
    return None;
  }

  /** The date step of `mapToPartido`: `LocalDateTime.parse((String) value)`. */
  method SetFecha(partido: Partido, m: JsonObject, parseDate: string -> Option<DateTime>) returns (err: Option<Exc>)
    requires partido.fecha == None
    modifies partido
    ensures ReadFecha(m, parseDate) == (if err.Some? then Err(err.value) else Ok(partido.fecha))
    ensures err.None? ==> partido.equipoLocal == old(partido.equipoLocal) && partido.equipoVisitante == old(partido.equipoVisitante)
                          && partido.id == old(partido.id) && partido.puntosLocal == old(partido.puntosLocal)
                          && partido.puntosVisitante == old(partido.puntosVisitante) && partido.finalizado == old(partido.finalizado)
  {
    if "fecha" in m {
      match m["fecha"] {
        case JString(s) =>
          var parsed := parseDate(s);
          if parsed.None? {
            return Some(Exc(DateTimeParse, None, None));
          }
          partido.fecha := parsed;
        case JNull =>
          return Some(Exc(NullPointer, None, None));
        case _ =>
          return Some(BadCast);
      }
    }
    return None;
  }

  /** The score and flag steps of `mapToPartido`: each copied only when boxed
      as the expected type. */
  method SetResult(partido: Partido, m: JsonObject)
    requires partido.puntosLocal == 0 && partido.puntosVisitante == 0 && !partido.finalizado
    modifies partido
    ensures partido.puntosLocal == ReadScore(m, "puntos_local")
    ensures partido.puntosVisitante == ReadScore(m, "puntos_visitante")
    ensures partido.finalizado == ("finalizado" in m && m["finalizado"] == JBoolean(true))
    ensures partido.equipoLocal == old(partido.equipoLocal) && partido.equipoVisitante == old(partido.equipoVisitante)
            && partido.id == old(partido.id) && partido.fecha == old(partido.fecha)
  {
    if "puntos_local" in m {
      match m["puntos_local"] {
        case JInteger(n) => partido.puntosLocal := n;
        case _ =>
      }
    }
    if "puntos_visitante" in m {
      match m["puntos_visitante"] {
        case JInteger(n) => partido.puntosVisitante := n;
        case _ =>
      }
    }
    if "finalizado" in m {
      match m["finalizado"] {
        case JBoolean(b) => partido.finalizado := b;
        case _ =>
      }
    }
  }

  /** `mapToPartido(partidoMap)`: a `new Partido()` filled in by setters, with
      a `new Equipo()` for each side whose name is present. */
  method MapToPartido(m: JsonObject, parseLong: string -> Option<int>, parseDate: string -> Option<DateTime>)
    returns (r: Result<PartidoData, Exc>)
    ensures r == MappedPartido(m, parseLong, parseDate)
  {
    var partido := new Partido.Empty();
    var err := SetId(partido, m, parseLong);
    if err.Some? {
      return Err(err.value);
    }
    err := SetFecha(partido, m, parseDate);
    if err.Some? {
      return Err(err.value);
    }
    ghost var local: Option<EquipoRecord> := None;
    if "equipo_local" in m {
      var equipoLocal := MapTeam(m, "equipo_local", "equipo_local_id");
      if equipoLocal.Err? {
        return Err(equipoLocal.error);
      }
      partido.equipoLocal := equipoLocal.value;
      local := Some(equipoLocal.value.Snapshot());
    }
    ghost var visitante: Option<EquipoRecord> := None;
    if "equipo_visitante" in m {
      var equipoVisitante := MapTeam(m, "equipo_visitante", "equipo_visitante_id");
      if equipoVisitante.Err? {
        return Err(equipoVisitante.error);
      }
      partido.equipoVisitante := equipoVisitante.value;
      visitante := Some(equipoVisitante.value.Snapshot());
    }
    SetResult(partido, m);
    assert partido.Snapshot() == PartidoData(partido.id, local, visitante, partido.puntosLocal, partido.puntosVisitante,
                                             partido.fecha, partido.finalizado);
    return Ok(partido.Snapshot());
  }

  // ---- Listing and lookup with local fallback --------------------------------------------------

  /** The matches a JSON array maps to, in order, or `None` when some element
      is null or fails to map. */
  function MappedAll(items: seq<Option<JsonObject>>, parseLong: string -> Option<int>, parseDate: string -> Option<DateTime>)
    : (r: Option<seq<PartidoData>>)
    ensures r.Some? <==> forall i :: 0 <= i < |items| ==> items[i].Some? && MappedPartido(items[i].value, parseLong, parseDate).Ok?
    ensures r.Some? ==> |r.value| == |items|
                        && forall i :: 0 <= i < |items| ==> r.value[i] == MappedPartido(items[i].value, parseLong, parseDate).value
    decreases |items|
  {
    if items == [] then Some([])
    else if items[|items| - 1].None? then None
    else
      var last := MappedPartido(items[|items| - 1].value, parseLong, parseDate);
      var init := MappedAll(items[..|items| - 1], parseLong, parseDate);
      if last.Err? || init.None? then None
      else Some(init.value + [last.value])
  }

  lemma MappedAllFailsFrom(items: seq<Option<JsonObject>>, i: int, parseLong: string -> Option<int>, parseDate: string -> Option<DateTime>)
    requires 0 <= i < |items|
    requires items[i].None? || MappedPartido(items[i].value, parseLong, parseDate).Err?
    ensures MappedAll(items, parseLong, parseDate).None?
  {
  }

  /** The local fallback of `findAll`: every stored match, or a wrapped failure. */
  function LocalFindAll(db: Db, fault: StoreFault): (r: Result<seq<PartidoData>, Exc>)
    ensures r.Err? <==> fault == ReadFails
    ensures r.Ok? ==> |r.value| == |db.partidos|
                      && forall row :: row in db.partidos.Values ==> Resolve(db, row) in r.value
  {
    if fault == ReadFails then Err(Wrapped("Error al obtener todos los partidos", StoreFailure))
    else
      var rows := Listing(db.partidos);
      var r := ResolveAll(db, rows);
      assert forall row :: row in db.partidos.Values ==> Resolve(db, row) in r by {
        forall row | row in db.partidos.Values
          ensures Resolve(db, row) in r
        {
          var i :| 0 <= i < |rows| && rows[i] == row;
          assert r[i] == Resolve(db, row);
        }
      }
      Ok(r)
  }

  /** `findAll()`: one match per element of the body, in order; an empty list
      for no body; the local table when the call fails or an element cannot
      be mapped. */
  method FindAll(remote: Remote<seq<Option<JsonObject>>>, db: Db, fault: StoreFault,
                 parseLong: string -> Option<int>, parseDate: string -> Option<DateTime>)
    returns (r: Result<seq<PartidoData>, Exc>)
    ensures remote.NullBody? ==> r == Ok([])
    ensures remote.Body? && MappedAll(remote.value, parseLong, parseDate).Some? ==>
              r == Ok(MappedAll(remote.value, parseLong, parseDate).value)
    ensures remote.Failed? || (remote.Body? && MappedAll(remote.value, parseLong, parseDate).None?) ==>
              r == LocalFindAll(db, fault)
  {
    match remote {
      case Failed =>
        return LocalFindAll(db, fault);
      case NullBody =>
        return Ok([]);
      case Body(items) =>
        var partidos: seq<PartidoData> := [];
        var i := 0;
        while i < |items|
          invariant 0 <= i <= |items|
          invariant MappedAll(items[..i], parseLong, parseDate) == Some(partidos)
        {
          assert items[..i + 1][..i] == items[..i];
          if items[i].None? {
            MappedAllFailsFrom(items, i, parseLong, parseDate);
            return LocalFindAll(db, fault);
          }
          var partido := MapToPartido(items[i].value, parseLong, parseDate);
          if partido.Err? {
            MappedAllFailsFrom(items, i, parseLong, parseDate);
            return LocalFindAll(db, fault);
          }
          partidos := partidos + [partido.value];
          i := i + 1;
        }
        assert items[..i] == items;
        return Ok(partidos);
    }
  }

  /** What `findById(id)` returns: the mapped body; `Optional.empty()` on a
      null body; the local lookup when the call fails or the body cannot be
      mapped, with its own failure wrapped. */
  function FoundPartido(remote: Remote<JsonObject>, db: Db, fault: StoreFault, id: int,
                        parseLong: string -> Option<int>, parseDate: string -> Option<DateTime>)
    : (r: Result<Option<PartidoData>, Exc>)
    ensures remote.NullBody? ==> r == Ok(None)
    ensures remote.Body? && MappedPartido(remote.value, parseLong, parseDate).Ok? ==>
              r == Ok(Some(MappedPartido(remote.value, parseLong, parseDate).value))
    ensures remote.Failed? || (remote.Body? && MappedPartido(remote.value, parseLong, parseDate).Err?) ==>
              (fault == ReadFails ==> r == Err(Wrapped("Error al buscar partido con ID " + IntToString(id), StoreFailure)))
              && (fault != ReadFails ==> r == Ok(if id in db.partidos then Some(Resolve(db, db.partidos[id])) else None))
  {
    if remote.NullBody? then Ok(None)
    else if remote.Body? && MappedPartido(remote.value, parseLong, parseDate).Ok? then
      Ok(Some(MappedPartido(remote.value, parseLong, parseDate).value))
    else if fault == ReadFails then Err(Wrapped("Error al buscar partido con ID " + IntToString(id), StoreFailure))
    else if id in db.partidos then Ok(Some(Resolve(db, db.partidos[id])))
    else Ok(None)
  }

  /** `findById(id)` as the code runs it. */
  method FindById(remote: Remote<JsonObject>, db: Db, fault: StoreFault, id: int,
                  parseLong: string -> Option<int>, parseDate: string -> Option<DateTime>)
    returns (r: Result<Option<PartidoData>, Exc>)
    ensures r == FoundPartido(remote, db, fault, id, parseLong, parseDate)
  {
    if remote.Body? {
      var mapped := MapToPartido(remote.value, parseLong, parseDate);
      if mapped.Ok? {
        return Ok(Some(mapped.value));
      }
    } else if remote.NullBody? {
      return Ok(None);
    }
    if fault == ReadFails {
      return Err(Wrapped("Error al buscar partido con ID " + IntToString(id), StoreFailure));
    }
    r := if id in db.partidos then Ok(Some(Resolve(db, db.partidos[id]))) else Ok(None);
  }

  // ---- save -----------------------------------------------------------------------------------

  /** A team reference the database can store as a foreign key: null, or a
      team whose id names a stored row. */
  predicate Storable(db: Db, t: Option<EquipoRecord>)
  {
    t.None? || (t.value.id.Some? && t.value.id.value in db.equipos)
  }

  /** The foreign key written for a team reference. */
  function ForeignKey(t: Option<EquipoRecord>): Option<int>
  {
    if t.Some? then t.value.id else None
  }

  const SaveFailed := "Error al guardar partido"

  /** `partidoRepository.save(partido)` behind the wrapping of `save`: a new
      match gets the next IDENTITY value, a known id is overwritten, and a
      transient or unknown team, an unknown id or a failing store is an error
      that leaves the store as it was. Teams are referenced, never cascaded. */
  function LocalSave(db: Db, fault: StoreFault, p: PartidoData): (out: (Result<PartidoData, Exc>, Db))
    requires Wf(db)
    ensures Wf(out.1)
    ensures out.1.equipos == db.equipos
    ensures out.0.Err? ==> out.0 == Err(Wrapped(SaveFailed, StoreFailure)) && out.1 == db
    ensures out.0.Ok? <==> fault == Healthy && Storable(db, p.local) && Storable(db, p.visitante)
                           && (p.id.Some? ==> p.id.value in db.partidos)
    ensures out.0.Ok? ==> out.0.value.id.Some?
    ensures out.0.Ok? ==>
              var k := out.0.value.id.value;
              out.0.value == p.(id := Some(k))
              && (p.id.None? ==> k !in db.partidos)
              && out.1.partidos == db.partidos[k := PartidoRow(k, ForeignKey(p.local), ForeignKey(p.visitante),
                                                               p.puntosLocal, p.puntosVisitante, p.fecha, p.finalizado)]
  {
    if fault != Healthy || !Storable(db, p.local) || !Storable(db, p.visitante)
       || (p.id.Some? && p.id.value !in db.partidos) then
      (Err(Wrapped(SaveFailed, StoreFailure)), db)
    else
      var k := if p.id.Some? then p.id.value else db.nextPartidoId;
      var row := PartidoRow(k, ForeignKey(p.local), ForeignKey(p.visitante),
                            p.puntosLocal, p.puntosVisitante, p.fecha, p.finalizado);
      var next := if p.id.Some? then db.nextPartidoId else db.nextPartidoId + 1;
      (Ok(p.(id := Some(k))), db.(partidos := db.partidos[k := row], nextPartidoId := next))
  }

  /** Whether `save` keeps the API's answer: the log line dereferences both
      teams and the request body the date, so a null there throws at once,
      and a failed call, a null body (the DatabaseException thrown inside the
      try) or an unmappable body throw as well. */
  predicate RemoteSaved(remote: Remote<JsonObject>, p: PartidoData,
                        parseLong: string -> Option<int>, parseDate: string -> Option<DateTime>)
  {
    p.local.Some? && p.visitante.Some? && p.fecha.Some?
    && remote.Body? && MappedPartido(remote.value, parseLong, parseDate).Ok?
  }

  /** What `save(partido)` does: the API's match with the local store left
      alone, or else the local save. */
  function Saved(remote: Remote<JsonObject>, db: Db, fault: StoreFault, p: PartidoData,
                 parseLong: string -> Option<int>, parseDate: string -> Option<DateTime>)
    : (out: (Result<PartidoData, Exc>, Db))
    requires Wf(db)
    ensures Wf(out.1)
    ensures RemoteSaved(remote, p, parseLong, parseDate) ==>
              out == (MappedPartido(remote.value, parseLong, parseDate), db)
    ensures !RemoteSaved(remote, p, parseLong, parseDate) ==> out == LocalSave(db, fault, p)
    ensures out.0.Err? ==> out.1 == db
  {
    if RemoteSaved(remote, p, parseLong, parseDate) then (MappedPartido(remote.value, parseLong, parseDate), db)
    else LocalSave(db, fault, p)
  }

  /** `save(partido)` as the code runs it. */
  method Save(remote: Remote<JsonObject>, db: Db, fault: StoreFault, p: PartidoData,
              parseLong: string -> Option<int>, parseDate: string -> Option<DateTime>)
    returns (r: Result<PartidoData, Exc>, db': Db)
    requires Wf(db)
    ensures (r, db') == Saved(remote, db, fault, p, parseLong, parseDate)
  {
    if p.local.Some? && p.visitante.Some? && p.fecha.Some? && remote.Body? {
      var mapped := MapToPartido(remote.value, parseLong, parseDate);
      if mapped.Ok? {
        return mapped, db;
      }
    }
    r, db' := LocalSave(db, fault, p).0, LocalSave(db, fault, p).1;
  }

  /** A match between two stored teams, built as the controller builds it,
      is saved locally when the API is unreachable: one new row under a fresh
      id, with the two teams as foreign keys, 0-0 and not finalised. */
  lemma {:induction false} SavedLocallyAddsOneRow(db: Db, localId: int, visitanteId: int, fecha: DateTime,
                                                 parseLong: string -> Option<int>, parseDate: string -> Option<DateTime>)
    requires Wf(db) && localId in db.equipos && visitanteId in db.equipos
    ensures var p := PartidoData(None, Some(db.equipos[localId]), Some(db.equipos[visitanteId]), 0, 0, Some(fecha), false);
            var out := Saved(Failed, db, Healthy, p, parseLong, parseDate);
            out.0.Ok? && out.0.value.id.Some?
            && var k := out.0.value.id.value;
               k !in db.partidos
               && out.1 == db.(partidos := db.partidos[k := PartidoRow(k, Some(localId), Some(visitanteId), 0, 0, Some(fecha), false)],
                              nextPartidoId := db.nextPartidoId + 1)
  {
    var p := PartidoData(None, Some(db.equipos[localId]), Some(db.equipos[visitanteId]), 0, 0, Some(fecha), false);
    assert db.equipos[localId].id == Some(localId) && db.equipos[visitanteId].id == Some(visitanteId);
    assert Storable(db, p.local) && Storable(db, p.visitante);
  }

  // ---- registrarResultado ---------------------------------------------------------------------

  /** Wins credited to team `k` by a result between the teams behind the
      foreign keys `local` and `visitante`. */
  function Wins(k: int, local: Option<int>, visitante: Option<int>, pl: int, pv: int): int
  {
    if (pl > pv && local == Some(k)) || (pv > pl && visitante == Some(k)) then 1 else 0
  }

  /** Losses charged to team `k` by the same result. */
  function Losses(k: int, local: Option<int>, visitante: Option<int>, pl: int, pv: int): int
  {
    if (pl > pv && visitante == Some(k)) || (pv > pl && local == Some(k)) then 1 else 0
  }

  function AddWin(eqs: map<int, EquipoRecord>, t: Option<int>): map<int, EquipoRecord>
  {
    if t.Some? && t.value in eqs then eqs[t.value := eqs[t.value].(victorias := eqs[t.value].victorias + 1)] else eqs
  }

  function AddLoss(eqs: map<int, EquipoRecord>, t: Option<int>): map<int, EquipoRecord>
  {
    if t.Some? && t.value in eqs then eqs[t.value := eqs[t.value].(derrotas := eqs[t.value].derrotas + 1)] else eqs
  }

  /** The teams table after the entity credited a result: the winner's row
      first, then the loser's. Team by team, that is one win for the winner,
      one loss for the loser (both for a team that plays itself), and nothing
      for anyone else or on a tie. */
  function Credited(eqs: map<int, EquipoRecord>, local: Option<int>, visitante: Option<int>, pl: int, pv: int)
    : (r: map<int, EquipoRecord>)
    ensures r.Keys == eqs.Keys
    ensures forall k :: k in eqs ==>
              r[k] == eqs[k].(victorias := eqs[k].victorias + Wins(k, local, visitante, pl, pv),
                              derrotas := eqs[k].derrotas + Losses(k, local, visitante, pl, pv))
  {
    if pl > pv then AddLoss(AddWin(eqs, local), visitante)
    else if pv > pl then AddLoss(AddWin(eqs, visitante), local)
    else eqs
  }

  function ResultadoFailed(id: int, inner: Exc): Exc
  {
    Wrapped("Error al registrar resultado para partido con ID " + IntToString(id), inner)
  }

  function PartidoNotFound(id: int): Exc
  {
    DatabaseException(Some("No se encontró partido con ID: " + IntToString(id)))
  }

  function AlreadyFinished(id: int): Exc
  {
    DatabaseException(Some("El partido con ID " + IntToString(id) + " ya está finalizado"))
  }

  /** The row of a match once its result is recorded. */
  function Scored(row: PartidoRow, pl: int, pv: int): PartidoRow
  {
    row.(puntosLocal := pl, puntosVisitante := pv, finalizado := true)
  }

  /** The local fallback of `registrarResultado`: find the match, refuse a
      finished one, let the entity record the result and credit the teams,
      save. Every failure, the inner not-found and already-finished ones
      included, is rewrapped with the match id, and the transaction leaves
      the store as it was. */
  function LocalResultado(db: Db, fault: StoreFault, id: int, pl: int, pv: int): (out: (Result<PartidoData, Exc>, Db))
    requires Wf(db)
    ensures Wf(out.1)
    ensures out.0.Err? ==> out.1 == db && exists inner :: out.0.error == ResultadoFailed(id, inner)
    ensures fault != ReadFails && id !in db.partidos ==> out.0 == Err(ResultadoFailed(id, PartidoNotFound(id)))
    ensures fault != ReadFails && id in db.partidos && db.partidos[id].finalizado ==>
              out.0 == Err(ResultadoFailed(id, AlreadyFinished(id)))
    ensures out.0.Ok? <==> fault == Healthy && id in db.partidos && !db.partidos[id].finalizado && pl >= 0 && pv >= 0
                           && (pl == pv || (db.partidos[id].local.Some? && db.partidos[id].visitante.Some?))
    ensures out.0.Ok? ==>
              var row := db.partidos[id];
              out.1.partidos == db.partidos[id := Scored(row, pl, pv)]
              && out.1.equipos == Credited(db.equipos, row.local, row.visitante, pl, pv)
              && out.1.nextEquipoId == db.nextEquipoId && out.1.nextPartidoId == db.nextPartidoId
              && out.0.value == Resolve(out.1, Scored(row, pl, pv))
  {
    if fault == ReadFails then (Err(ResultadoFailed(id, StoreFailure)), db)
    else if id !in db.partidos then (Err(ResultadoFailed(id, PartidoNotFound(id))), db)
    else
      var row := db.partidos[id];
      if row.finalizado then (Err(ResultadoFailed(id, AlreadyFinished(id))), db)
      else if pl < 0 || pv < 0 then (Err(ResultadoFailed(id, Exc(IllegalArgument, Some(NegativePoints), None))), db)
      else if pl != pv && (row.local.None? || row.visitante.None?) then (Err(ResultadoFailed(id, NullTeamAccess)), db)
      else if fault == WriteFails then (Err(ResultadoFailed(id, StoreFailure)), db)
      else
        assert fault == Healthy;
        var db' := db.(equipos := Credited(db.equipos, row.local, row.visitante, pl, pv),
                       partidos := db.partidos[id := Scored(row, pl, pv)]);
        (Ok(Resolve(db', Scored(row, pl, pv))), db')
  }

  /** The fallback as the code performs it: the match and its teams are
      loaded as objects (one object when both foreign keys name the same
      team, as the persistence context would hand out), the entity's
      `registrarResultado` mutates them, and the new states are saved. */
  method RegistrarResultadoLocal(db: Db, fault: StoreFault, id: int, pl: int, pv: int)
    returns (r: Result<PartidoData, Exc>, db': Db)
    requires Wf(db)
    ensures (r, db') == LocalResultado(db, fault, id, pl, pv)
  {
    if fault == ReadFails {
      return Err(ResultadoFailed(id, StoreFailure)), db;
    }
    if id !in db.partidos {
      return Err(ResultadoFailed(id, PartidoNotFound(id))), db;
    }
    var row := db.partidos[id];
    if row.finalizado {
      return Err(ResultadoFailed(id, AlreadyFinished(id))), db;
    }
    var partido := LoadPartido(db, id);
    var local, visitante := partido.equipoLocal, partido.equipoVisitante;

    var err := partido.RegistrarResultado(pl, pv);
    if err.Some? {
      return Err(ResultadoFailed(id, err.value)), db;
    }
    if fault == WriteFails {
      return Err(ResultadoFailed(id, StoreFailure)), db;
    }

    var equipos := db.equipos;
    if local != null {
      equipos := equipos[row.local.value := local.Snapshot()];
    }
    if visitante != null {
      equipos := equipos[row.visitante.value := visitante.Snapshot()];
    }
    SavedTeamsAreCredited(db, row, pl, pv, equipos, local, visitante);
    var scored := Scored(row, pl, pv);
    db' := db.(equipos := equipos, partidos := db.partidos[id := scored]);
    r := Ok(Resolve(db', scored));
  }

  /** `partidoRepository.findById(id)`: the stored match as a fresh object
      whose teams are fresh objects too, one object when both foreign keys
      name the same team. */
  method LoadPartido(db: Db, id: int) returns (partido: Partido)
    requires Wf(db) && id in db.partidos
    ensures fresh(partido)
    ensures partido.id == Some(id) && partido.fecha == db.partidos[id].fecha
    ensures partido.finalizado == db.partidos[id].finalizado
    ensures partido.puntosLocal == db.partidos[id].puntosLocal
    ensures partido.puntosVisitante == db.partidos[id].puntosVisitante
    ensures partido.equipoLocal == null <==> db.partidos[id].local.None?
    ensures partido.equipoVisitante == null <==> db.partidos[id].visitante.None?
    ensures partido.equipoLocal != null ==>
              fresh(partido.equipoLocal) && partido.equipoLocal.Snapshot() == db.equipos[db.partidos[id].local.value]
    ensures partido.equipoVisitante != null ==>
              fresh(partido.equipoVisitante) && partido.equipoVisitante.Snapshot() == db.equipos[db.partidos[id].visitante.value]
    ensures partido.equipoLocal != null && partido.equipoVisitante != null ==>
              (partido.equipoLocal == partido.equipoVisitante <==> db.partidos[id].local == db.partidos[id].visitante)
  {
    var row := db.partidos[id];
    var local: Equipo? := null;
    if row.local.Some? {
      local := new Equipo.Load(db.equipos[row.local.value]);
    }
    var visitante: Equipo? := null;
    if row.visitante.Some? {
      if row.visitante == row.local {
        visitante := local;
      } else {
        visitante := new Equipo.Load(db.equipos[row.visitante.value]);
      }
    }
    partido := new Partido.Empty();
    partido.id, partido.equipoLocal, partido.equipoVisitante := Some(id), local, visitante;
    partido.puntosLocal, partido.puntosVisitante := row.puntosLocal, row.puntosVisitante;
    partido.fecha, partido.finalizado := row.fecha, row.finalizado;
  }

  /** The per-object deltas the entity promises add up to `Credited`. */
  lemma SavedTeamsAreCredited(db: Db, row: PartidoRow, pl: int, pv: int, equipos: map<int, EquipoRecord>,
                              local: Equipo?, visitante: Equipo?)
    requires Wf(db) && RefOk(db, row.local) && RefOk(db, row.visitante)
    requires pl >= 0 && pv >= 0
    requires (local == null <==> row.local.None?) && (visitante == null <==> row.visitante.None?)
    requires pl != pv ==> row.local.Some? && row.visitante.Some?
    requires local != null && visitante != null ==> (local == visitante <==> row.local == row.visitante)
    requires local != null ==>
               local.Snapshot() == db.equipos[row.local.value].(
                 victorias := db.equipos[row.local.value].victorias + Wins(row.local.value, row.local, row.visitante, pl, pv),
                 derrotas := db.equipos[row.local.value].derrotas + Losses(row.local.value, row.local, row.visitante, pl, pv))
    requires visitante != null ==>
               visitante.Snapshot() == db.equipos[row.visitante.value].(
                 victorias := db.equipos[row.visitante.value].victorias + Wins(row.visitante.value, row.local, row.visitante, pl, pv),
                 derrotas := db.equipos[row.visitante.value].derrotas + Losses(row.visitante.value, row.local, row.visitante, pl, pv))
    requires equipos == (var e1 := if local != null then db.equipos[row.local.value := local.Snapshot()] else db.equipos;
                         if visitante != null then e1[row.visitante.value := visitante.Snapshot()] else e1)
    ensures equipos == Credited(db.equipos, row.local, row.visitante, pl, pv)
  {
    var c := Credited(db.equipos, row.local, row.visitante, pl, pv);
    assert equipos.Keys == c.Keys;
    forall k | k in c
      ensures equipos[k] == c[k]
    {
    }
  }

  /** What `registrarResultado(id, pl, pv)` does: a mappable body is the
      answer and the local store is untouched; a failed call, a null body or
      an unmappable body lead to the local fallback. */
  function Registered(remote: Remote<JsonObject>, db: Db, fault: StoreFault, id: int, pl: int, pv: int,
                      parseLong: string -> Option<int>, parseDate: string -> Option<DateTime>)
    : (out: (Result<PartidoData, Exc>, Db))
    requires Wf(db)
    ensures Wf(out.1)
    ensures remote.Body? && MappedPartido(remote.value, parseLong, parseDate).Ok? ==>
              out == (MappedPartido(remote.value, parseLong, parseDate), db)
    ensures !(remote.Body? && MappedPartido(remote.value, parseLong, parseDate).Ok?) ==>
              out == LocalResultado(db, fault, id, pl, pv)
    ensures out.0.Err? ==> out.1 == db
  {
    if remote.Body? && MappedPartido(remote.value, parseLong, parseDate).Ok? then
      (MappedPartido(remote.value, parseLong, parseDate), db)
    else LocalResultado(db, fault, id, pl, pv)
  }

  /** `registrarResultado(id, pl, pv)` as the code runs it. */
  method RegistrarResultado(remote: Remote<JsonObject>, db: Db, fault: StoreFault, id: int, pl: int, pv: int,
                            parseLong: string -> Option<int>, parseDate: string -> Option<DateTime>)
    returns (r: Result<PartidoData, Exc>, db': Db)
    requires Wf(db)
    ensures (r, db') == Registered(remote, db, fault, id, pl, pv, parseLong, parseDate)
  {
    if remote.Body? {
      var mapped := MapToPartido(remote.value, parseLong, parseDate);
      if mapped.Ok? {
        return mapped, db;
      }
    }
    r, db' := RegistrarResultadoLocal(db, fault, id, pl, pv);
  }

  /** A result recorded locally cannot be recorded again: the second attempt
      meets the already-finished guard and leaves the store alone, so no
      team is credited twice. */
  lemma {:induction false} LocalResultadoOnce(db: Db, id: int, pl: int, pv: int, pl2: int, pv2: int)
    requires Wf(db)
    requires LocalResultado(db, Healthy, id, pl, pv).0.Ok?
    ensures var db1 := LocalResultado(db, Healthy, id, pl, pv).1;
            LocalResultado(db1, Healthy, id, pl2, pv2) == (Err(ResultadoFailed(id, AlreadyFinished(id))), db1)
  {
    var db1 := LocalResultado(db, Healthy, id, pl, pv).1;
    assert db1.partidos[id] == Scored(db.partidos[id], pl, pv);
  }

  /** A tie finishes the match without touching any team. */
  lemma {:induction false} LocalResultadoTieKeepsTeams(db: Db, fault: StoreFault, id: int, pts: int)
    requires Wf(db)
    requires LocalResultado(db, fault, id, pts, pts).0.Ok?
    ensures LocalResultado(db, fault, id, pts, pts).1.equipos == db.equipos
  {
    var eqs := LocalResultado(db, fault, id, pts, pts).1.equipos;
    forall k | k in db.equipos
      ensures eqs[k] == db.equipos[k]
    {
    }
  }

  // ---- deleteById -------------------------------------------------------------------------------

  /** What `deleteById(id)` does: when the API call goes through nothing
      local happens; otherwise the local row is removed (an unknown id is
      ignored, as Spring Data does), and a failing store is wrapped. */
  function Deleted(remoteOk: bool, db: Db, fault: StoreFault, id: int): (out: (Option<Exc>, Db))
    requires Wf(db)
    ensures Wf(out.1)
    ensures remoteOk ==> out == (None, db)
    ensures !remoteOk && fault != Healthy ==>
              out == (Some(Wrapped("Error al eliminar partido con ID " + IntToString(id), StoreFailure)), db)
    ensures !remoteOk && fault == Healthy ==>
              out.0.None? && id !in out.1.partidos && out.1.equipos == db.equipos
              && forall k :: k in db.partidos && k != id ==> k in out.1.partidos && out.1.partidos[k] == db.partidos[k]
  {
    if remoteOk then (None, db)
    else if fault != Healthy then (Some(Wrapped("Error al eliminar partido con ID " + IntToString(id), StoreFailure)), db)
    else (None, db.(partidos := db.partidos - {id}))
  }

  /** `deleteById(id)` as the code runs it. */
  method DeleteById(remoteOk: bool, db: Db, fault: StoreFault, id: int) returns (err: Option<Exc>, db': Db)
    requires Wf(db)
    ensures (err, db') == Deleted(remoteOk, db, fault, id)
  {
    if remoteOk {
      return None, db;
    }
    if fault != Healthy {
      return Some(Wrapped("Error al eliminar partido con ID " + IntToString(id), StoreFailure)), db;
    }
    err, db' := None, db.(partidos := db.partidos - {id});
  }

  // ---- findByFecha ------------------------------------------------------------------------------

  /** The range `findByFecha` queries, as written: from the start of the day
      to `atTime(23, 59, 59)`, which has no fraction of a second. */
  function DayBoundsAsWritten(fecha: DateTime): (b: (DateTime, DateTime))
    ensures b.0.Valid() && b.1.Valid() && b.0.day == fecha.day && b.1.day == fecha.day
    ensures b.0.nano == 0 && b.1.nano == NanosPerDay - NanosPerSecond
  {
    (AtTime(fecha.day, 0, 0, 0), AtTime(fecha.day, 23, 59, 59))
  }

  /** A match at 23:59:59.5 on the queried day is left out by the bounds as written. */
  lemma DayBoundsAsWrittenMissLastSecond(row: PartidoRow, fecha: DateTime)
    requires row.fecha == Some(DateTime(fecha.day, NanosPerDay - NanosPerSecond / 2))
    ensures row.fecha.value.Valid() && row.fecha.value.day == fecha.day
    ensures row !in ByFechaBetween([row], DayBoundsAsWritten(fecha).0, DayBoundsAsWritten(fecha).1)
  {
  }

  /** The evidently intended range: the whole calendar day, up to its last nanosecond. */
  function DayBounds(fecha: DateTime): (b: (DateTime, DateTime))
    ensures b.0.Valid() && b.1.Valid() && b.0.day == fecha.day && b.1.day == fecha.day
    ensures forall t: DateTime :: t.Valid() ==> (NotAfter(b.0, t) && NotAfter(t, b.1) <==> t.day == fecha.day)
  {
    (DateTime(fecha.day, 0), DateTime(fecha.day, NanosPerDay - 1))
  }

  /** `findByFecha(fecha)` as written, over the local table: a wrapped
      failure when the store fails, otherwise the stored matches, with their
      teams, between midnight and 23:59:59.000 of the day of `fecha`.
      `render` is `LocalDateTime.toString`. */
  function FindByFecha(db: Db, fault: StoreFault, fecha: DateTime, render: DateTime -> string)
    : (r: Result<seq<PartidoData>, Exc>)
    ensures r.Err? <==> fault == ReadFails
    ensures r.Err? ==> r.error == Wrapped("Error al buscar partidos con fecha " + render(fecha), StoreFailure)
    ensures r.Ok? ==> r.value == ResolveAll(db, ByFechaBetween(Listing(db.partidos), DayBoundsAsWritten(fecha).0,
                                                                DayBoundsAsWritten(fecha).1))
  {
    if fault == ReadFails then Err(Wrapped("Error al buscar partidos con fecha " + render(fecha), StoreFailure))
    else
      var b := DayBoundsAsWritten(fecha);
      Ok(ResolveAll(db, ByFechaBetween(Listing(db.partidos), b.0, b.1)))
  }

  /** As written, a stored match is found exactly when it has a date on the
      queried day no later than 23:59:59.000. */
  lemma {:induction false} FindByFechaFound(db: Db, fecha: DateTime, row: PartidoRow)
    ensures var b := DayBoundsAsWritten(fecha);
            row in ByFechaBetween(Listing(db.partidos), b.0, b.1) <==>
            row in db.partidos.Values && row.fecha.Some? && row.fecha.value.day == fecha.day
            && 0 <= row.fecha.value.nano <= NanosPerDay - NanosPerSecond
  {
  }

  /** `findByFecha` with the evidently intended bounds: the same failure,
      otherwise every stored match of the queried calendar day. */
  function FindByFechaWholeDay(db: Db, fault: StoreFault, fecha: DateTime, render: DateTime -> string)
    : (r: Result<seq<PartidoData>, Exc>)
    ensures r.Err? <==> fault == ReadFails
    ensures r.Err? ==> r.error == Wrapped("Error al buscar partidos con fecha " + render(fecha), StoreFailure)
    ensures r.Ok? ==> r.value == ResolveAll(db, ByFechaBetween(Listing(db.partidos), DayBounds(fecha).0, DayBounds(fecha).1))
  {
    if fault == ReadFails then Err(Wrapped("Error al buscar partidos con fecha " + render(fecha), StoreFailure))
    else
      var b := DayBounds(fecha);
      Ok(ResolveAll(db, ByFechaBetween(Listing(db.partidos), b.0, b.1)))
  }

  /** With the intended bounds a stored match is found exactly when it has a
      date on the queried calendar day. */
  lemma {:induction false} FindByFechaSameDay(db: Db, fecha: DateTime, row: PartidoRow)
    requires forall k :: k in db.partidos && db.partidos[k].fecha.Some? ==> db.partidos[k].fecha.value.Valid()
    ensures var b := DayBounds(fecha);
            row in ByFechaBetween(Listing(db.partidos), b.0, b.1) <==>
            row in db.partidos.Values && row.fecha.Some? && row.fecha.value.day == fecha.day
  {
    var b := DayBounds(fecha);
    var rows := Listing(db.partidos);
    if row in db.partidos.Values && row.fecha.Some? {
      var k :| k in db.partidos && db.partidos[k] == row;
      assert row.fecha.value.Valid();
    }
  }
}
