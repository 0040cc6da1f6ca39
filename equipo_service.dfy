/** service/EquipoServiceImpl.java: team operations against the local
    database, the JSON-to-team mapper, and the listing that asks the Flask
    API first and falls back to the database. */
module EquipoService {
  import opened Common
  import opened Exceptions
  import opened JavaJson
  import opened EquipoEntity
  import opened JavaStore

  // ---- Messages ----------------------------------------------------------------

  function NotFound(id: int): Exc
  {
    DatabaseException(Some("No se encontró equipo con ID: " + IntToString(id)))
  }

  /** `new DatabaseException(message, cause)` around a failure of the store. */
  function Wrapped(message: string): Exc
  {
    DatabaseExceptionWithCause(Some(message), Some(StoreFailure))
  }

  function UpdateFailed(id: int): Exc
  {
    Wrapped("Error al actualizar equipo con ID " + IntToString(id))
  }

  function VictoriaFailed(id: int): Exc
  {
    Wrapped("Error al registrar victoria para equipo con ID " + IntToString(id))
  }

  function DerrotaFailed(id: int): Exc
  {
    Wrapped("Error al registrar derrota para equipo con ID " + IntToString(id))
  }

  // ---- Load, mutate, save ------------------------------------------------------------

  /** `update(id, equipoDetails)`: the three descriptive fields are copied
      from the details, nulls included; id and counters stay. A missing team
      raises the not-found DatabaseException, which is rethrown as it is; a
      failing store is wrapped with its cause. The store changes only on
      success, and only in that team's row. */
  method Update(db: Db, fault: StoreFault, id: int, details: EquipoRecord) returns (r: Result<EquipoRecord, Exc>, db': Db)
    requires Wf(db)
    ensures Wf(db')
    ensures fault == ReadFails ==> r == Err(UpdateFailed(id))
    ensures fault != ReadFails && id !in db.equipos ==> r == Err(NotFound(id))
    ensures fault == WriteFails && id in db.equipos ==> r == Err(UpdateFailed(id))
    ensures r.Ok? <==> fault == Healthy && id in db.equipos
    ensures r.Err? ==> db' == db
    ensures r.Ok? ==>
              var old_ := db.equipos[id];
              r.value.id == Some(id) && r.value.victorias == old_.victorias && r.value.derrotas == old_.derrotas
              && r.value.nombre == details.nombre && r.value.ciudad == details.ciudad
              && r.value.entrenador == details.entrenador
              && db' == db.(equipos := db.equipos[id := r.value])
  {
    if fault == ReadFails {
      return Err(UpdateFailed(id)), db;
    }
    if id !in db.equipos {
      return Err(NotFound(id)), db;
    }
    var equipo := new Equipo.Load(db.equipos[id]);
    equipo.nombre := details.nombre;
    equipo.ciudad := details.ciudad;
    equipo.entrenador := details.entrenador;
    if fault == WriteFails {
      return Err(UpdateFailed(id)), db;
    }
    var saved := equipo.Snapshot();
    r, db' := Ok(saved), db.(equipos := db.equipos[id := saved]);
  }

  /** `registrarVictoria(id)`: the stored team comes back with one more win and
      everything else as it was; same error handling as `update`. */
  method RegistrarVictoria(db: Db, fault: StoreFault, id: int) returns (r: Result<EquipoRecord, Exc>, db': Db)
    requires Wf(db)
    ensures Wf(db')
    ensures fault == ReadFails ==> r == Err(VictoriaFailed(id))
    ensures fault != ReadFails && id !in db.equipos ==> r == Err(NotFound(id))
    ensures fault == WriteFails && id in db.equipos ==> r == Err(VictoriaFailed(id))
    ensures r.Ok? <==> fault == Healthy && id in db.equipos
    ensures r.Err? ==> db' == db
    ensures r.Ok? ==>
              r.value == db.equipos[id].(victorias := db.equipos[id].victorias + 1)
              && db' == db.(equipos := db.equipos[id := r.value])
  {
    if fault == ReadFails {
      return Err(VictoriaFailed(id)), db;
    }
    if id !in db.equipos {
      return Err(NotFound(id)), db;
    }
    var equipo := new Equipo.Load(db.equipos[id]);
    equipo.RegistrarVictoria();
    if fault == WriteFails {
      return Err(VictoriaFailed(id)), db;
    }
    var saved := equipo.Snapshot();
    r, db' := Ok(saved), db.(equipos := db.equipos[id := saved]);
  }

  /** `registrarDerrota(id)`: the stored team comes back with one more loss
      and everything else as it was; same error handling as `update`. */
  method RegistrarDerrota(db: Db, fault: StoreFault, id: int) returns (r: Result<EquipoRecord, Exc>, db': Db)
    requires Wf(db)
    ensures Wf(db')
    ensures fault == ReadFails ==> r == Err(DerrotaFailed(id))
    ensures fault != ReadFails && id !in db.equipos ==> r == Err(NotFound(id))
    ensures fault == WriteFails && id in db.equipos ==> r == Err(DerrotaFailed(id))
    ensures r.Ok? <==> fault == Healthy && id in db.equipos
    ensures r.Err? ==> db' == db
    ensures r.Ok? ==>
              r.value == db.equipos[id].(derrotas := db.equipos[id].derrotas + 1)
              && db' == db.(equipos := db.equipos[id := r.value])
  {
    if fault == ReadFails {
      return Err(DerrotaFailed(id)), db;
    }
    if id !in db.equipos {
      return Err(NotFound(id)), db;
    }
    var equipo := new Equipo.Load(db.equipos[id]);
    equipo.RegistrarDerrota();
    if fault == WriteFails {
      return Err(DerrotaFailed(id)), db;
    }
    var saved := equipo.Snapshot();
    r, db' := Ok(saved), db.(equipos := db.equipos[id := saved]);
  }

  // ---- JSON mapping --------------------------------------------------------------

  /** A string field read only when its key is present: `(String) map.get(key)`. */
  function OptionalString(m: JsonObject, key: string): (r: Result<Option<string>, Exc>)
    ensures key !in m ==> r == Ok(None)
    ensures key in m ==> r == CastString(m[key])
  {
    if key in m then CastString(m[key]) else Ok(None)
  }

  /** What `mapToEquipo` makes of a JSON object: the id as `ReadId` reads it,
      the three strings when their keys are present, and counters that are
      never read and stay 0. A non-numeric string id or a non-string text
      field makes it throw. */
  function MappedEquipo(m: JsonObject, parseLong: string -> Option<int>): (r: Result<EquipoRecord, Exc>)
    ensures r.Ok? ==> r.value.victorias == 0 && r.value.derrotas == 0
    ensures r.Ok? ==> ReadId(m, parseLong) == Ok(r.value.id)
    ensures r.Ok? ==> OptionalString(m, "nombre") == Ok(r.value.nombre)
                      && OptionalString(m, "ciudad") == Ok(r.value.ciudad)
                      && OptionalString(m, "entrenador") == Ok(r.value.entrenador)
    ensures r.Err? <==> ReadId(m, parseLong).Err? || OptionalString(m, "nombre").Err?
                        || OptionalString(m, "ciudad").Err? || OptionalString(m, "entrenador").Err?
    ensures r.Err? ==> r.error.kind == NumberFormat || r.error.kind == ClassCast
  {
    var id :- ReadId(m, parseLong);
    var nombre :- OptionalString(m, "nombre");
    var ciudad :- OptionalString(m, "ciudad");
    var entrenador :- OptionalString(m, "entrenador");
    Ok(EquipoRecord(id, nombre, ciudad, entrenador, 0, 0))
  }

  /** `mapToEquipo(equipoMap)`: a fresh `new Equipo()` filled in step by step. */
  method MapToEquipo(m: JsonObject, parseLong: string -> Option<int>) returns (r: Result<EquipoRecord, Exc>)
    ensures r == MappedEquipo(m, parseLong)
  {
    var equipo := new Equipo.Empty();
    if "id" in m {
      match m["id"] {
        case JInteger(n) => equipo.id := Some(n);
        case JLong(n) => equipo.id := Some(n);
        case JString(s) =>
          var parsed := parseLong(s);
          if parsed.None? {
            return Err(Exc(NumberFormat, None, None));
          }
          equipo.id := parsed;
        case _ =>
      }
    }
    if "nombre" in m {
      var v := CastString(m["nombre"]);
      if v.Err? {
        return Err(v.error);
      }
      equipo.nombre := v.value;
    }
    if "ciudad" in m {
      var v := CastString(m["ciudad"]);
      if v.Err? {
        return Err(v.error);
      }
      equipo.ciudad := v.value;
    }
    if "entrenador" in m {
      var v := CastString(m["entrenador"]);
      if v.Err? {
        return Err(v.error);
      }
      equipo.entrenador := v.value;
    }
    return Ok(equipo.Snapshot());
  }

  /** The counters a JSON object carries never reach the mapped team. */
  lemma {:induction false} MappedEquipoIgnoresCounters(m: JsonObject, parseLong: string -> Option<int>, v: JValue, d: JValue)
    ensures MappedEquipo(m["victorias" := v]["derrotas" := d], parseLong) == MappedEquipo(m, parseLong)
  {
    var m' := m["victorias" := v]["derrotas" := d];
    assert ReadId(m', parseLong) == ReadId(m, parseLong);
    assert OptionalString(m', "nombre") == OptionalString(m, "nombre");
    assert OptionalString(m', "ciudad") == OptionalString(m, "ciudad");
    assert OptionalString(m', "entrenador") == OptionalString(m, "entrenador");
  }

  // ---- Remote listing with local fallback ----------------------------------------------------

  /** The teams a JSON array maps to, in order, or `None` when some element
      is null or fails to map (which makes `findAll` fall back). */
  function MappedAll(items: seq<Option<JsonObject>>, parseLong: string -> Option<int>): (r: Option<seq<EquipoRecord>>)
    ensures r.Some? <==> forall i :: 0 <= i < |items| ==> items[i].Some? && MappedEquipo(items[i].value, parseLong).Ok?
    ensures r.Some? ==> |r.value| == |items|
                        && forall i :: 0 <= i < |items| ==> r.value[i] == MappedEquipo(items[i].value, parseLong).value
    decreases |items|
  {
    if items == [] then Some([])
    else if items[|items| - 1].None? then None
    else
      var last := MappedEquipo(items[|items| - 1].value, parseLong);
      var init := MappedAll(items[..|items| - 1], parseLong);
      if last.Err? || init.None? then None
      else Some(init.value + [last.value])
  }

  /** The local fallback of `findAll`: every stored team, or a wrapped failure. */
  function LocalFindAll(db: Db, fault: StoreFault): (r: Result<seq<EquipoRecord>, Exc>)
    ensures r.Err? <==> fault == ReadFails
    ensures r.Err? ==> r.error == Wrapped("Error al obtener todos los equipos")
    ensures r.Ok? ==> |r.value| == |db.equipos| && forall i :: 0 <= i < |r.value| ==> r.value[i] in db.equipos.Values
    ensures r.Ok? ==> forall v :: v in db.equipos.Values ==> v in r.value
  {
    if fault == ReadFails then Err(Wrapped("Error al obtener todos los equipos"))
    else Ok(Listing(db.equipos))
  }

  /** `findAll()`: with a body, one team per element in the same order; with
      no body, an empty list (no fallback); when the call fails or an element
      cannot be mapped, the local table. */
  method FindAll(remote: Remote<seq<Option<JsonObject>>>, db: Db, fault: StoreFault, parseLong: string -> Option<int>)
    returns (r: Result<seq<EquipoRecord>, Exc>)
    ensures remote.NullBody? ==> r == Ok([])
    ensures remote.Body? && MappedAll(remote.value, parseLong).Some? ==> r == Ok(MappedAll(remote.value, parseLong).value)
    ensures remote.Failed? || (remote.Body? && MappedAll(remote.value, parseLong).None?) ==> r == LocalFindAll(db, fault)
  {
    match remote {
      case Failed =>
        return LocalFindAll(db, fault);
      case NullBody =>
        return Ok([]);
      case Body(items) =>
        var equipos: seq<EquipoRecord> := [];
        var i := 0;
        while i < |items|
          invariant 0 <= i <= |items|
          invariant MappedAll(items[..i], parseLong) == Some(equipos)
        {
          assert items[..i + 1][..i] == items[..i];
          if items[i].None? {
            // `mapToEquipo(null)` dereferences null
            MappedAllFailsFrom(items, i, parseLong);
            return LocalFindAll(db, fault);
          }
          var equipo := MapToEquipo(items[i].value, parseLong);
          if equipo.Err? {
            MappedAllFailsFrom(items, i, parseLong);
            return LocalFindAll(db, fault);
          }
          equipos := equipos + [equipo.value];
          i := i + 1;
        }
        assert items[..i] == items;
        return Ok(equipos);
    }
  }

  /** An element that cannot be mapped makes the whole array unmappable. */
  lemma MappedAllFailsFrom(items: seq<Option<JsonObject>>, i: int, parseLong: string -> Option<int>)
    requires 0 <= i < |items|
    requires items[i].None? || MappedEquipo(items[i].value, parseLong).Err?
    ensures MappedAll(items, parseLong).None?
  {
  }

  /** What `findById(id)` returns: the mapped body; `Optional.empty()` on a
      null body; on a failed call or an unmappable body, the local lookup,
      whose own failure is wrapped. */
  function FoundEquipo(remote: Remote<JsonObject>, db: Db, fault: StoreFault, id: int, parseLong: string -> Option<int>)
    : (r: Result<Option<EquipoRecord>, Exc>)
    ensures remote.NullBody? ==> r == Ok(None)
    ensures remote.Body? && MappedEquipo(remote.value, parseLong).Ok? ==> r == Ok(Some(MappedEquipo(remote.value, parseLong).value))
    ensures remote.Failed? || (remote.Body? && MappedEquipo(remote.value, parseLong).Err?) ==>
              (fault == ReadFails ==> r == Err(Wrapped("Error al buscar equipo con ID " + IntToString(id))))
              && (fault != ReadFails ==> r == Ok(if id in db.equipos then Some(db.equipos[id]) else None))
  {
    if remote.NullBody? then Ok(None)
    else if remote.Body? && MappedEquipo(remote.value, parseLong).Ok? then Ok(Some(MappedEquipo(remote.value, parseLong).value))
    else if fault == ReadFails then Err(Wrapped("Error al buscar equipo con ID " + IntToString(id)))
    else if id in db.equipos then Ok(Some(db.equipos[id]))
    else Ok(None)
  }

  /** `findById(id)` as the code runs it. */
  method FindById(remote: Remote<JsonObject>, db: Db, fault: StoreFault, id: int, parseLong: string -> Option<int>)
    returns (r: Result<Option<EquipoRecord>, Exc>)
    ensures r == FoundEquipo(remote, db, fault, id, parseLong)
  {
    if remote.Body? {
      var mapped := MapToEquipo(remote.value, parseLong);
      if mapped.Ok? {
        return Ok(Some(mapped.value));
      }
    } else if remote.NullBody? {
      return Ok(None);
    }
    if fault == ReadFails {
      return Err(Wrapped("Error al buscar equipo con ID " + IntToString(id)));
    }
    r := if id in db.equipos then Ok(Some(db.equipos[id])) else Ok(None);
  }
}
