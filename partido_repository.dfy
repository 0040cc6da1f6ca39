/** The derived queries of repository/PartidoRepository.java as functions over
    the rows of the `partidos` table, in table order. */
module PartidoRepository {
  import opened Common
  import opened Time
  import opened JavaStore

  /** `findByEquipoLocalOrEquipoVisitante(local, visitante)`. */
  function ByEquipoLocalOrEquipoVisitante(rows: seq<PartidoRow>, local: int, visitante: int): (r: seq<PartidoRow>)
    ensures forall x :: x in r <==> x in rows && (x.local == Some(local) || x.visitante == Some(visitante))
  {
    Filter(rows, (x: PartidoRow) => x.local == Some(local) || x.visitante == Some(visitante))
  }

  /** `findByEquipoLocal(equipo)`. */
  function ByEquipoLocal(rows: seq<PartidoRow>, equipo: int): (r: seq<PartidoRow>)
    ensures forall x :: x in r <==> x in rows && x.local == Some(equipo)
  {
    Filter(rows, (x: PartidoRow) => x.local == Some(equipo))
  }

  /** `findByEquipoVisitante(equipo)`. */
  function ByEquipoVisitante(rows: seq<PartidoRow>, equipo: int): (r: seq<PartidoRow>)
    ensures forall x :: x in r <==> x in rows && x.visitante == Some(equipo)
  {
    Filter(rows, (x: PartidoRow) => x.visitante == Some(equipo))
  }

  /** `findByFecha(fecha)`: the exact instant. */
  function ByFecha(rows: seq<PartidoRow>, fecha: DateTime): (r: seq<PartidoRow>)
    ensures forall x :: x in r <==> x in rows && x.fecha == Some(fecha)
  {
    Filter(rows, (x: PartidoRow) => x.fecha == Some(fecha))
  }

  /** `findByFechaBetween(inicio, fin)`: SQL BETWEEN, both ends included; a
      null date never matches. */
  function ByFechaBetween(rows: seq<PartidoRow>, inicio: DateTime, fin: DateTime): (r: seq<PartidoRow>)
    ensures forall x :: x in r <==>
              x in rows && x.fecha.Some? && NotAfter(inicio, x.fecha.value) && NotAfter(x.fecha.value, fin)
  {
    Filter(rows, (x: PartidoRow) => x.fecha.Some? && NotAfter(inicio, x.fecha.value) && NotAfter(x.fecha.value, fin))
  }

  /** `findByFinalizadoTrue()`. */
  function FinalizadoTrue(rows: seq<PartidoRow>): (r: seq<PartidoRow>)
    ensures forall x :: x in r <==> x in rows && x.finalizado
  {
    Filter(rows, (x: PartidoRow) => x.finalizado)
  }

  /** `findByFinalizadoFalse()`. */
  function FinalizadoFalse(rows: seq<PartidoRow>): (r: seq<PartidoRow>)
    ensures forall x :: x in r <==> x in rows && !x.finalizado
  {
    Filter(rows, (x: PartidoRow) => !x.finalizado)
  }

  /** The order `ORDER BY fecha ASC` uses; a null date sorts first. */
  predicate FechaLe(a: Option<DateTime>, b: Option<DateTime>)
  {
    a.None? || (b.Some? && NotAfter(a.value, b.value))
  }

  predicate SortedByFecha(s: seq<PartidoRow>)
  {
    forall i, j :: 0 <= i < j < |s| ==> FechaLe(s[i].fecha, s[j].fecha)
  }

  lemma FechaLeTotal(a: Option<DateTime>, b: Option<DateTime>)
    ensures FechaLe(a, b) || FechaLe(b, a)
  {
  }

  lemma FechaLeTransitive(a: Option<DateTime>, b: Option<DateTime>, c: Option<DateTime>)
    requires FechaLe(a, b) && FechaLe(b, c)
    ensures FechaLe(a, c)
  {
  }

  function InsertByFecha(x: PartidoRow, s: seq<PartidoRow>): (r: seq<PartidoRow>)
    ensures multiset(r) == multiset(s) + multiset{x}
  {
    if s == [] || FechaLe(x.fecha, s[0].fecha) then [x] + s
    else
      assert s == [s[0]] + s[1..];
      [s[0]] + InsertByFecha(x, s[1..])
  }

  /** Inserting above a lower bound keeps every element above that bound. */
  lemma {:induction false} InsertByFechaBounded(x: PartidoRow, s: seq<PartidoRow>, b: Option<DateTime>)
    requires FechaLe(b, x.fecha) && forall k :: 0 <= k < |s| ==> FechaLe(b, s[k].fecha)
    ensures forall j :: 0 <= j < |InsertByFecha(x, s)| ==> FechaLe(b, InsertByFecha(x, s)[j].fecha)
  {
    if s != [] && !FechaLe(x.fecha, s[0].fecha) {
      InsertByFechaBounded(x, s[1..], b);
    }
  }

  lemma {:induction false} InsertByFechaSorted(x: PartidoRow, s: seq<PartidoRow>)
    requires SortedByFecha(s)
    ensures SortedByFecha(InsertByFecha(x, s))
  {
    var r := InsertByFecha(x, s);
    if s == [] || FechaLe(x.fecha, s[0].fecha) {
      forall i, j | 0 <= i < j < |r| ensures FechaLe(r[i].fecha, r[j].fecha) {
        if i == 0 && j > 1 {
          FechaLeTransitive(x.fecha, s[0].fecha, s[j - 1].fecha);
        }
      }
    } else {
      var rest := InsertByFecha(x, s[1..]);
      InsertByFechaSorted(x, s[1..]);
      assert r == [s[0]] + rest;
      FechaLeTotal(x.fecha, s[0].fecha);
      InsertByFechaBounded(x, s[1..], s[0].fecha);
      forall i, j | 0 <= i < j < |r| ensures FechaLe(r[i].fecha, r[j].fecha) {
        if i == 0 {
          assert r[j] == rest[j - 1];
        } else {
          assert r[i] == rest[i - 1] && r[j] == rest[j - 1];
        }
      }
    }
  }

  /** `findAllByOrderByFechaAsc()`: every match exactly once, dates never
      decreasing (an insertion sort; ties keep table order, one of the orders
      the database may return). */
  function OrderByFechaAsc(rows: seq<PartidoRow>): (r: seq<PartidoRow>)
    ensures SortedByFecha(r)
    ensures multiset(r) == multiset(rows)
    decreases |rows|
  {
    if rows == [] then []
    else
      assert rows == [rows[0]] + rows[1..];
      var sorted := OrderByFechaAsc(rows[1..]);
      InsertByFechaSorted(rows[0], sorted);
      InsertByFecha(rows[0], sorted)
  }

  // ---- Properties ------------------------------------------------------------

  /** Finished and pending matches split the table: every row lands in exactly
      one of the two lists, with its multiplicity. */
  lemma {:induction false} FinalizadoPartition(rows: seq<PartidoRow>)
    ensures multiset(FinalizadoTrue(rows)) + multiset(FinalizadoFalse(rows)) == multiset(rows)
    ensures forall x :: !(x in FinalizadoTrue(rows) && x in FinalizadoFalse(rows))
  {
    FilterSplits(rows, (x: PartidoRow) => x.finalizado, (x: PartidoRow) => !x.finalizado);
  }

  /** Asking for the same team in both roles, as the service does, returns
      exactly the matches that team plays, home or away. */
  lemma {:induction false} ByEquipoEitherRole(rows: seq<PartidoRow>, t: int)
    ensures forall x :: x in ByEquipoLocalOrEquipoVisitante(rows, t, t) <==>
              x in ByEquipoLocal(rows, t) || x in ByEquipoVisitante(rows, t)
  {
  }
}
