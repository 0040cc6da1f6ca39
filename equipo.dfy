/** The team entity of the Java frontend (model/Equipo.java): a mutable JPA
    object whose win/loss counters only ever move by one. */
module EquipoEntity {
  import opened Common
  import opened WinRatio

  /** The persistent state of one `Equipo` object. `id` is null until the
      store assigns one. */
  datatype EquipoRecord = EquipoRecord(
    id: Option<int>,
    nombre: Option<string>,
    ciudad: Option<string>,
    entrenador: Option<string>,
    victorias: int,
    derrotas: int)

  /** `Equipo.toString()`: the name followed by the city in parentheses. */
  function EquipoText(nombre: Option<string>, ciudad: Option<string>): (s: string)
    ensures |s| == |JavaString(nombre)| + |JavaString(ciudad)| + 3
    ensures s[..|JavaString(nombre)|] == JavaString(nombre)
    ensures s[|JavaString(nombre)|..|JavaString(nombre)| + 2] == " ("
    ensures s[|JavaString(nombre)| + 2..|s| - 1] == JavaString(ciudad)
    ensures s[|s| - 1] == ')'
  {
    JavaString(nombre) + " (" + JavaString(ciudad) + ")"
  }

  class Equipo {
    var id: Option<int>
    var nombre: Option<string>
    var ciudad: Option<string>
    var entrenador: Option<string>
    var victorias: int
    var derrotas: int

    function Snapshot(): EquipoRecord
      reads this
    {
      EquipoRecord(id, nombre, ciudad, entrenador, victorias, derrotas)
    }

    /** `new Equipo()`: every reference null, counters 0 (used by JPA and the JSON mappers). */
    constructor Empty()
      ensures Snapshot() == EquipoRecord(None, None, None, None, 0, 0)
    {
      id, nombre, ciudad, entrenador := None, None, None, None;
      victorias, derrotas := 0, 0;
    }

    /** `new Equipo(nombre, ciudad, entrenador)`. */
    constructor (nombre: Option<string>, ciudad: Option<string>, entrenador: Option<string>)
      ensures Snapshot() == EquipoRecord(None, nombre, ciudad, entrenador, 0, 0)
    {
      id := None;
      this.nombre, this.ciudad, this.entrenador := nombre, ciudad, entrenador;
      victorias, derrotas := 0, 0;
    }

    /** The managed object the persistence layer hands out for a stored row. */
    constructor Load(r: EquipoRecord)
      ensures Snapshot() == r
    {
      id, nombre, ciudad, entrenador := r.id, r.nombre, r.ciudad, r.entrenador;
      victorias, derrotas := r.victorias, r.derrotas;
    }

    /** `registrarVictoria()`: one more win, nothing else changes. */
    method RegistrarVictoria()
      modifies this
      ensures Snapshot() == old(Snapshot()).(victorias := old(victorias) + 1)
    {
      victorias := victorias + 1;
    }

    /** `registrarDerrota()`: one more loss, nothing else changes. */
    method RegistrarDerrota()
      modifies this
      ensures Snapshot() == old(Snapshot()).(derrotas := old(derrotas) + 1)
    {
      derrotas := derrotas + 1;
    }

    /** `calcularPorcentajeVictorias()`: 0 before any game, otherwise the
        share of games won, a proportion while the counters are non-negative. */
    function CalcularPorcentajeVictorias(): real
      reads this
    {
      Ratio(victorias, derrotas)
    }

    function ToString(): string
      reads this
    {
      EquipoText(nombre, ciudad)
    }
  }

  // ---- Properties ------------------------------------------------------------

  /** Two teams of the same city print the same text only if their names print the same. */
  lemma {:induction false} EquipoTextInjective(n1: Option<string>, n2: Option<string>, c: Option<string>)
    requires EquipoText(n1, c) == EquipoText(n2, c)
    ensures JavaString(n1) == JavaString(n2)
  {
    var s := EquipoText(n1, c);
    assert |JavaString(n1)| == |JavaString(n2)|;
    assert JavaString(n1) == s[..|JavaString(n1)|];
  }
}
