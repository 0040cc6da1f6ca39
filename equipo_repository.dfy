/** The derived queries of repository/EquipoRepository.java as functions over
    the rows of the `equipos` table, in table order. */
module EquipoRepository {
  import opened Common
  import opened Exceptions
  import opened EquipoEntity

  /** `findByNombreContaining(nombre)`: a LIKE '%nombre%' match, with the
      wildcard characters of the argument escaped; a null name never matches. */
  function NombreContaining(rows: seq<EquipoRecord>, nombre: string): (r: seq<EquipoRecord>)
    ensures forall x :: x in r <==> x in rows && x.nombre.Some? && Contains(x.nombre.value, nombre)
  {
    Filter(rows, (x: EquipoRecord) => x.nombre.Some? && Contains(x.nombre.value, nombre))
  }

  /** The teams whose name is exactly `nombre`. */
  function NamedExactly(rows: seq<EquipoRecord>, nombre: string): (r: seq<EquipoRecord>)
    ensures forall x :: x in r <==> x in rows && x.nombre == Some(nombre)
  {
    Filter(rows, (x: EquipoRecord) => x.nombre == Some(nombre))
  }

  /** `findByNombre(nombre)`: null when no team has that name, the team when
      one does; a single-result query that finds several throws
      (IncorrectResultSizeDataAccessException), since the Java entity declares
      no unique constraint on the name. */
  function FindByNombre(rows: seq<EquipoRecord>, nombre: string): (r: Result<Option<EquipoRecord>, Exc>)
    ensures r == Ok(None) <==> forall x :: x in rows ==> x.nombre != Some(nombre)
    ensures r.Ok? && r.value.Some? ==> r.value.value in rows && r.value.value.nombre == Some(nombre)
    ensures r.Err? <==> |NamedExactly(rows, nombre)| > 1
  {
    var found := NamedExactly(rows, nombre);
    if |found| == 0 then Ok(None)
    else if |found| == 1 then
      assert found[0] in found;
      Ok(Some(found[0]))
    else Err(StoreFailureForSize())
  }

  function StoreFailureForSize(): Exc
  {
    Exc(Persistence, Some("query did not return a unique result"), None)
  }

  /** `findByCiudad(ciudad)`: Spring Data binds a null argument as IS NULL, so
      the comparison is plain equality of possibly-null values. */
  function ByCiudad(rows: seq<EquipoRecord>, ciudad: Option<string>): (r: seq<EquipoRecord>)
    ensures forall x :: x in r <==> x in rows && x.ciudad == ciudad
  {
    Filter(rows, (x: EquipoRecord) => x.ciudad == ciudad)
  }

  predicate SortedByVictoriasDesc(s: seq<EquipoRecord>)
  {
    forall i, j :: 0 <= i < j < |s| ==> s[i].victorias >= s[j].victorias
  }

  function InsertByVictorias(x: EquipoRecord, s: seq<EquipoRecord>): (r: seq<EquipoRecord>)
    ensures multiset(r) == multiset(s) + multiset{x}
  {
    if s == [] || x.victorias >= s[0].victorias then [x] + s
    else
      assert s == [s[0]] + s[1..];
      [s[0]] + InsertByVictorias(x, s[1..])
  }

  /** Inserting under a bound keeps every element under that bound. */
  lemma {:induction false} InsertByVictoriasBounded(x: EquipoRecord, s: seq<EquipoRecord>, b: int)
    requires x.victorias <= b && forall k :: 0 <= k < |s| ==> s[k].victorias <= b
    ensures forall j :: 0 <= j < |InsertByVictorias(x, s)| ==> InsertByVictorias(x, s)[j].victorias <= b
  {
    if s != [] && x.victorias < s[0].victorias {
      InsertByVictoriasBounded(x, s[1..], b);
    }
  }

  lemma {:induction false} InsertByVictoriasSorted(x: EquipoRecord, s: seq<EquipoRecord>)
    requires SortedByVictoriasDesc(s)
    ensures SortedByVictoriasDesc(InsertByVictorias(x, s))
  {
    var r := InsertByVictorias(x, s);
    if s == [] || x.victorias >= s[0].victorias {
      forall i, j | 0 <= i < j < |r| ensures r[i].victorias >= r[j].victorias {
        if i == 0 && j > 1 {
          assert s[0].victorias >= s[j - 1].victorias;
        }
      }
    } else {
      var rest := InsertByVictorias(x, s[1..]);
      InsertByVictoriasSorted(x, s[1..]);
      assert r == [s[0]] + rest;
      InsertByVictoriasBounded(x, s[1..], s[0].victorias);
      forall i, j | 0 <= i < j < |r| ensures r[i].victorias >= r[j].victorias {
        if i == 0 {
          assert r[j] == rest[j - 1];
        } else {
          assert r[i] == rest[i - 1] && r[j] == rest[j - 1];
        }
      }
    }
  }

  /** `findAllByOrderByVictoriasDesc()`: every team exactly once, wins never
      increasing (an insertion sort; ties keep table order, one of the orders
      the database may return). */
  function OrderByVictoriasDesc(rows: seq<EquipoRecord>): (r: seq<EquipoRecord>)
    ensures SortedByVictoriasDesc(r)
    ensures multiset(r) == multiset(rows)
    decreases |rows|
  {
    if rows == [] then []
    else
      assert rows == [rows[0]] + rows[1..];
      var sorted := OrderByVictoriasDesc(rows[1..]);
      InsertByVictoriasSorted(rows[0], sorted);
      InsertByVictorias(rows[0], sorted)
  }

  // ---- Properties ------------------------------------------------------------

  /** With unique names the exact-name lookup never fails: at most one row
      carries a given name. */
  lemma {:induction false} FindByNombreUnique(rows: seq<EquipoRecord>, nombre: string)
    requires forall i, j :: 0 <= i < j < |rows| && rows[i].nombre.Some? ==> rows[i].nombre != rows[j].nombre
    ensures |NamedExactly(rows, nombre)| <= 1
    ensures FindByNombre(rows, nombre).Ok?
    decreases |rows|
  {
    if rows != [] {
      var tail := rows[1..];
      assert forall i, j :: 0 <= i < j < |tail| && tail[i].nombre.Some? ==> tail[i].nombre != tail[j].nombre by {
        forall i, j | 0 <= i < j < |tail| && tail[i].nombre.Some? ensures tail[i].nombre != tail[j].nombre {
          assert tail[i] == rows[i + 1] && tail[j] == rows[j + 1];
        }
      }
      FindByNombreUnique(tail, nombre);
      if rows[0].nombre == Some(nombre) {
        forall x | x in tail ensures x.nombre != Some(nombre) {
          var k :| 0 <= k < |tail| && tail[k] == x;
          assert rows[k + 1] == x;
        }
        FilterNone(tail, (x: EquipoRecord) => x.nombre == Some(nombre));
      }
    }
  }
}
