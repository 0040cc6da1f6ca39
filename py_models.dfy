/** The SQLAlchemy models of the Flask API (api/models.py). Unlike the Java
    entity, a Python match refers to its teams by id only, so registering a
    result never touches a team's tallies. */
module PyModels {
  import opened Common
  import opened Time
  import opened WinRatio

  /** The JSON values a request payload can carry, as Python sees them. */
  datatype PyVal = PyNone | PyBool(b: bool) | PyInt(i: int) | PyStr(s: string)

  /** Python's `==` between two payload values: `bool` is a subclass of
      `int`, so `True == 1`; values of unrelated types are never equal. */
  predicate PyEq(a: PyVal, b: PyVal)
  {
    match (a, b)
    case (PyNone, PyNone) => true
    case (PyStr(x), PyStr(y)) => x == y
    case _ => AsNumber(a).Some? && AsNumber(a) == AsNumber(b)
  }

  /** The integer a value stands for in arithmetic and ordering: `bool` as 0
      or 1; `None` and `str` make `< 0` raise a TypeError. */
  function AsNumber(v: PyVal): (n: Option<int>)
    ensures n.Some? <==> v.PyInt? || v.PyBool?
    ensures v.PyInt? ==> n == Some(v.i)
    ensures v.PyBool? ==> n == Some(if v.b then 1 else 0)
  {
    match v
    case PyInt(i) => Some(i)
    case PyBool(b) => Some(if b then 1 else 0)
    case _ => None
  }

  /** Python equality on payload values is an equivalence. */
  lemma {:induction false} PyEqEquivalence(a: PyVal, b: PyVal, c: PyVal)
    ensures PyEq(a, a)
    ensures PyEq(a, b) ==> PyEq(b, a)
    ensures PyEq(a, b) && PyEq(b, c) ==> PyEq(a, c)
  {
    match a {
      case PyNone =>
      case PyStr(_) =>
      case PyInt(_) =>
      case PyBool(_) =>
    }
  }

  /** The one exception the models raise themselves. */
  datatype PyError = ValueError(message: string)

  const SameTeam := "El equipo local y visitante no pueden ser el mismo"
  const NegativePoints := "Los puntos no pueden ser negativos"

  /** `Equipo.to_dict()` without `fecha_creacion`, which the clock sets. */
  datatype EquipoDict = EquipoDict(
    id: Option<int>,
    nombre: PyVal,
    ciudad: PyVal,
    entrenador: PyVal,
    victorias: int,
    derrotas: int,
    porcentajeVictorias: real)

  /** A row of the API's `equipos` table; the id is its key. */
  datatype EquipoRow = EquipoRow(nombre: PyVal, ciudad: PyVal, entrenador: PyVal, victorias: int, derrotas: int)

  class Equipo {
    var id: Option<int>
    var nombre: PyVal
    var ciudad: PyVal
    var entrenador: PyVal
    var victorias: int
    var derrotas: int

    function Row(): EquipoRow
      reads this
    {
      EquipoRow(nombre, ciudad, entrenador, victorias, derrotas)
    }

    /** `Equipo(nombre, ciudad, entrenador)`: no id until the session
        flushes it, no game played. */
    constructor (nombre: PyVal, ciudad: PyVal, entrenador: PyVal)
      ensures id == None && Row() == EquipoRow(nombre, ciudad, entrenador, 0, 0)
    {
      id := None;
      this.nombre, this.ciudad, this.entrenador := nombre, ciudad, entrenador;
      victorias, derrotas := 0, 0;
    }

    /** The object `Equipo.query.get(key)` returns for a stored row. */
    constructor Load(key: int, r: EquipoRow)
      ensures id == Some(key) && Row() == r
    {
      id := Some(key);
      nombre, ciudad, entrenador := r.nombre, r.ciudad, r.entrenador;
      victorias, derrotas := r.victorias, r.derrotas;
    }

    /** `registrar_victoria()`: one more win, returned; nothing else changes. */
    method RegistrarVictoria() returns (n: int)
      modifies this
      ensures Row() == old(Row()).(victorias := old(victorias) + 1) && id == old(id)
      ensures n == victorias
    {
      victorias := victorias + 1;
      n := victorias;
    }

    /** `registrar_derrota()`: one more loss, returned; nothing else changes. */
    method RegistrarDerrota() returns (n: int)
      modifies this
      ensures Row() == old(Row()).(derrotas := old(derrotas) + 1) && id == old(id)
      ensures n == derrotas
    {
      derrotas := derrotas + 1;
      n := derrotas;
    }

    /** `calcular_porcentaje_victorias()`: 0.0 before any game, otherwise the
        share of games won; the same ratio as the Java entity's. */
    function CalcularPorcentajeVictorias(): (p: real)
      reads this
      ensures victorias + derrotas == 0 ==> p == 0.0
      ensures 0 <= victorias && 0 <= derrotas ==> 0.0 <= p <= 1.0
      ensures p == Ratio(victorias, derrotas)
    {
      if 0 <= victorias && 0 <= derrotas then RatioWithinUnitInterval(victorias, derrotas); Ratio(victorias, derrotas)
      else Ratio(victorias, derrotas)
    }

    /** `to_dict()`: the fields as stored, with the ratio of the same counters. */
    function ToDict(): (d: EquipoDict)
      reads this
      ensures d.id == id && d.nombre == nombre && d.ciudad == ciudad && d.entrenador == entrenador
      ensures d.victorias == victorias && d.derrotas == derrotas
      ensures d.porcentajeVictorias == CalcularPorcentajeVictorias()
    {
      EquipoDict(id, nombre, ciudad, entrenador, victorias, derrotas, CalcularPorcentajeVictorias())
    }
  }

  /** `Partido.to_dict()` without `fecha_creacion`; `fecha` stays a date-time
      rather than its ISO text. */
  datatype PartidoDict = PartidoDict(
    id: Option<int>,
    equipoLocalId: PyVal,
    equipoVisitanteId: PyVal,
    puntosLocal: int,
    puntosVisitante: int,
    fecha: DateTime,
    finalizado: bool,
    ganadorId: Option<PyVal>,
    diferenciaPuntos: int)

  /** A row of the API's `partidos` table; the id is its key. */
  datatype PartidoRow = PartidoRow(
    equipoLocalId: PyVal,
    equipoVisitanteId: PyVal,
    puntosLocal: int,
    puntosVisitante: int,
    fecha: DateTime,
    finalizado: bool)

  class Partido {
    var id: Option<int>
    var equipoLocalId: PyVal
    var equipoVisitanteId: PyVal
    var puntosLocal: int
    var puntosVisitante: int
    var fecha: DateTime
    var finalizado: bool

    function Row(): PartidoRow
      reads this
    {
      PartidoRow(equipoLocalId, equipoVisitanteId, puntosLocal, puntosVisitante, fecha, finalizado)
    }

    constructor Init(local: PyVal, visitante: PyVal, fecha: DateTime)
      ensures id == None && Row() == PartidoRow(local, visitante, 0, 0, fecha, false)
    {
      id := None;
      equipoLocalId, equipoVisitanteId, this.fecha := local, visitante, fecha;
      puntosLocal, puntosVisitante, finalizado := 0, 0, false;
    }

    /** `Partido(equipo_local_id, equipo_visitante_id, fecha)`: a ValueError
        when the two ids compare equal, otherwise an unplayed 0-0 match. */
    static method Create(local: PyVal, visitante: PyVal, fecha: DateTime) returns (r: Result<Partido, PyError>)
      ensures r.Err? <==> PyEq(local, visitante)
      ensures r.Err? ==> r.error == ValueError(SameTeam)
      ensures r.Ok? ==> fresh(r.value) && r.value.id == None
                        && r.value.Row() == PartidoRow(local, visitante, 0, 0, fecha, false)
    {
      if PyEq(local, visitante) {
        return Err(ValueError(SameTeam));
      }
      var p := new Partido.Init(local, visitante, fecha);
      return Ok(p);
    }

    /** The object `Partido.query.get(key)` returns for a stored row. */
    constructor Load(key: int, r: PartidoRow)
      ensures id == Some(key) && Row() == r
    {
      id := Some(key);
      equipoLocalId, equipoVisitanteId, fecha := r.equipoLocalId, r.equipoVisitanteId, r.fecha;
      puntosLocal, puntosVisitante, finalizado := r.puntosLocal, r.puntosVisitante, r.finalizado;
    }

    /** `registrar_resultado(puntos_local, puntos_visitante)`: a negative
        score raises before any field changes; otherwise both scores are
        written, the match is finalised and True returned. Only the match
        itself is modified: the teams' tallies are left alone. */
    method RegistrarResultado(pl: int, pv: int) returns (r: Result<bool, PyError>)
      modifies this
      ensures id == old(id)
      ensures r.Err? <==> pl < 0 || pv < 0
      ensures r.Err? ==> r.error == ValueError(NegativePoints) && Row() == old(Row())
      ensures r.Ok? ==> r.value && Row() == old(Row()).(puntosLocal := pl, puntosVisitante := pv, finalizado := true)
    {
      if pl < 0 || pv < 0 {
        return Err(ValueError(NegativePoints));
      }
      puntosLocal := pl;
      puntosVisitante := pv;
      finalizado := true;
      return Ok(true);
    }

    /** `get_ganador_id()`: None before the end or on a tie, otherwise the id
        on the side with more points. */
    function GanadorId(): (g: Option<PyVal>)
      reads this
      ensures g.None? <==> !finalizado || puntosLocal == puntosVisitante
      ensures g.Some? ==> g.value == (if puntosLocal > puntosVisitante then equipoLocalId else equipoVisitanteId)
    {
      if !finalizado then None
      else if puntosLocal > puntosVisitante then Some(equipoLocalId)
      else if puntosVisitante > puntosLocal then Some(equipoVisitanteId)
      else None
    }

    /** `get_diferencia_puntos()`: the margin, whoever won. */
    function DiferenciaPuntos(): (d: int)
      reads this
      ensures 0 <= d && (d == 0 <==> puntosLocal == puntosVisitante)
      ensures d == Margin(puntosLocal, puntosVisitante)
    {
      Margin(puntosLocal, puntosVisitante)
    }

    /** `to_dict()`: the stored fields plus the winner and margin those two
        methods compute. */
    function ToDict(): (d: PartidoDict)
      reads this
      ensures d.id == id && d.equipoLocalId == equipoLocalId && d.equipoVisitanteId == equipoVisitanteId
      ensures d.puntosLocal == puntosLocal && d.puntosVisitante == puntosVisitante
      ensures d.fecha == fecha && d.finalizado == finalizado
      ensures d.ganadorId == GanadorId() && d.diferenciaPuntos == DiferenciaPuntos()
    {
      PartidoDict(id, equipoLocalId, equipoVisitanteId, puntosLocal, puntosVisitante, fecha, finalizado,
                  GanadorId(), DiferenciaPuntos())
    }
  }

  // ---- Properties ------------------------------------------------------------

  /** The dictionary of a finished match names a winner exactly when the
      margin is positive, and the winner is one of the two teams. */
  lemma {:induction false} DictWinnerIffMargin(p: Partido)
    requires p.finalizado
    ensures var d := p.ToDict();
            (d.ganadorId.Some? <==> d.diferenciaPuntos > 0)
            && (d.ganadorId.Some? ==> d.ganadorId.value == d.equipoLocalId || d.ganadorId.value == d.equipoVisitanteId)
  {
    var d := p.ToDict();
    assert d.ganadorId == p.GanadorId();
    assert d.diferenciaPuntos == p.DiferenciaPuntos();
  }

  /** A registered result is read back by `to_dict`: the scores given, a
      winner unless tied, and the margin between the two scores. */
  method RegistrarYLeer(p: Partido, pl: int, pv: int) returns (d: PartidoDict)
    requires 0 <= pl && 0 <= pv
    modifies p
    ensures d.finalizado && d.puntosLocal == pl && d.puntosVisitante == pv
    ensures d.ganadorId == (if pl > pv then Some(d.equipoLocalId) else if pv > pl then Some(d.equipoVisitanteId) else None)
    ensures d.diferenciaPuntos == (if pl >= pv then pl - pv else pv - pl)
  {
    var r := p.RegistrarResultado(pl, pv);
    d := p.ToDict();
  }
}
