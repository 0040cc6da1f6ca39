/** The match entity of the Java frontend (model/Partido.java). A match holds
    references to two `Equipo` objects; registering a result writes the scores
    and then credits the teams through those references. Team identity is
    reference identity, since `Equipo` does not override `equals`. */
module PartidoEntity {
  import opened Common
  import opened Time
  import opened Exceptions
  import opened EquipoEntity
  import opened WinRatio

  /** The state of a match together with the state of the teams it refers to. */
  datatype PartidoData = PartidoData(
    id: Option<int>,
    local: Option<EquipoRecord>,
    visitante: Option<EquipoRecord>,
    puntosLocal: int,
    puntosVisitante: int,
    fecha: Option<DateTime>,
    finalizado: bool)

  const NullTeams := "Los equipos no pueden ser nulos"
  const SameTeam := "El equipo local y visitante no pueden ser el mismo"
  const NegativePoints := "Los puntos no pueden ser negativos"

  /** The exception thrown when a method is invoked through a null team reference. */
  const NullTeamAccess := Exc(NullPointer, None, None)

  /** `Partido.toString()` once both teams are known: the two names, and the
      score in parentheses when the match is over. */
  function PartidoText(local: string, visitante: string, finalizado: bool, pl: int, pv: int): (s: string)
    ensures |local| + 4 + |visitante| <= |s|
    ensures s[..|local|] == local
    ensures s[|local|..|local| + 4] == " vs "
    ensures s[|local| + 4..|local| + 4 + |visitante|] == visitante
    ensures !finalizado <==> |s| == |local| + 4 + |visitante|
  {
    var open := local + " vs " + visitante;
    var tail := if finalizado then " (" + IntToString(pl) + " - " + IntToString(pv) + ")" else "";
    assert (open + tail)[..|open|] == open;
    open + tail
  }

  class Partido {
    var id: Option<int>
    var equipoLocal: Equipo?
    var equipoVisitante: Equipo?
    var puntosLocal: int
    var puntosVisitante: int
    var fecha: Option<DateTime>
    var finalizado: bool

    function Snapshot(): PartidoData
      reads this, equipoLocal, equipoVisitante
    {
      PartidoData(id,
                  if equipoLocal == null then None else Some(equipoLocal.Snapshot()),
                  if equipoVisitante == null then None else Some(equipoVisitante.Snapshot()),
                  puntosLocal, puntosVisitante, fecha, finalizado)
    }

    /** `new Partido()`: no teams, no date, 0-0, not finalised. */
    constructor Empty()
      ensures id == None && equipoLocal == null && equipoVisitante == null && fecha == None
      ensures puntosLocal == 0 && puntosVisitante == 0 && !finalizado
    {
      id, equipoLocal, equipoVisitante, fecha := None, null, null, None;
      puntosLocal, puntosVisitante, finalizado := 0, 0, false;
    }

    /** `new Partido(equipoLocal, equipoVisitante, fecha)`: rejects a null
        team, then the same team object on both sides; otherwise a 0-0
        unfinished match between the two. */
    static method Create(local: Equipo?, visitante: Equipo?, fecha: Option<DateTime>) returns (r: Result<Partido, Exc>)
      ensures (local == null || visitante == null) ==> r == Err(Exc(IllegalArgument, Some(NullTeams), None))
      ensures local != null && visitante != null && local == visitante ==>
                r == Err(Exc(IllegalArgument, Some(SameTeam), None))
      ensures r.Ok? <==> local != null && visitante != null && local != visitante
      ensures r.Ok? ==> fresh(r.value) && r.value.id == None
                        && r.value.equipoLocal == local && r.value.equipoVisitante == visitante
                        && r.value.fecha == fecha && r.value.puntosLocal == 0 && r.value.puntosVisitante == 0
                        && !r.value.finalizado
    {
      if local == null || visitante == null {
        return Err(Exc(IllegalArgument, Some(NullTeams), None));
      }
      if local == visitante {
        return Err(Exc(IllegalArgument, Some(SameTeam), None));
      }
      var p := new Partido.Empty();
      p.equipoLocal, p.equipoVisitante, p.fecha := local, visitante, fecha;
      return Ok(p);
    }

    /** The number of wins `registrarResultado(pl, pv)` credits to team `t`. */
    function WinDelta(t: Equipo, pl: int, pv: int): int
      reads this
    {
      if pl < 0 || pv < 0 then 0
      else if (pl > pv && t == equipoLocal) || (pv > pl && t == equipoVisitante) then 1
      else 0
    }

    /** The number of losses `registrarResultado(pl, pv)` charges to team `t`:
        the loser is only reached once the winner has been credited. */
    function LossDelta(t: Equipo, pl: int, pv: int): int
      reads this
    {
      if pl < 0 || pv < 0 then 0
      else if (pl > pv && t == equipoVisitante && equipoLocal != null)
              || (pv > pl && t == equipoLocal && equipoVisitante != null) then 1
      else 0
    }

    /** `registrarResultado(puntosLocal, puntosVisitante)`. A negative score is
        rejected before anything changes. Otherwise the scores are written and
        the match finalised, then the winner gains a win and the loser a loss;
        a tie credits nobody. Nothing guards against a match that is already
        finalised. A null team reference surfaces as a NullPointerException
        after the scores, and possibly the winner's win, were written. */
    method RegistrarResultado(pl: int, pv: int) returns (err: Option<Exc>)
      modifies this, equipoLocal, equipoVisitante
      ensures equipoLocal == old(equipoLocal) && equipoVisitante == old(equipoVisitante)
      ensures id == old(id) && fecha == old(fecha)
      ensures (pl < 0 || pv < 0) ==> err == Some(Exc(IllegalArgument, Some(NegativePoints), None))
      ensures (pl < 0 || pv < 0) ==>
                puntosLocal == old(puntosLocal) && puntosVisitante == old(puntosVisitante) && finalizado == old(finalizado)
      ensures pl >= 0 && pv >= 0 ==> puntosLocal == pl && puntosVisitante == pv && finalizado
      ensures err.None? <==> pl >= 0 && pv >= 0 && (pl == pv || (equipoLocal != null && equipoVisitante != null))
      ensures err.Some? && pl >= 0 && pv >= 0 ==> err == Some(NullTeamAccess)
      ensures equipoLocal != null ==>
                equipoLocal.Snapshot() == old(equipoLocal.Snapshot()).(
                  victorias := old(equipoLocal.victorias) + WinDelta(equipoLocal, pl, pv),
                  derrotas := old(equipoLocal.derrotas) + LossDelta(equipoLocal, pl, pv))
      ensures equipoVisitante != null ==>
                equipoVisitante.Snapshot() == old(equipoVisitante.Snapshot()).(
                  victorias := old(equipoVisitante.victorias) + WinDelta(equipoVisitante, pl, pv),
                  derrotas := old(equipoVisitante.derrotas) + LossDelta(equipoVisitante, pl, pv))
    {
      if pl < 0 || pv < 0 {
        return Some(Exc(IllegalArgument, Some(NegativePoints), None));
      }
      puntosLocal := pl;
      puntosVisitante := pv;
      finalizado := true;
      if pl > pv {
        if equipoLocal == null {
          return Some(NullTeamAccess);
        }
        equipoLocal.RegistrarVictoria();
        if equipoVisitante == null {
          return Some(NullTeamAccess);
        }
        equipoVisitante.RegistrarDerrota();
      } else if pv > pl {
        if equipoVisitante == null {
          return Some(NullTeamAccess);
        }
        equipoVisitante.RegistrarVictoria();
        if equipoLocal == null {
          return Some(NullTeamAccess);
        }
        equipoLocal.RegistrarDerrota();
      }
      err := None;
    }

    /** `getGanador()`: no winner before the end or on a tie, otherwise the
        team on the side with more points. */
    function Ganador(): (g: Equipo?)
      reads this
      ensures g != null ==> finalizado && puntosLocal != puntosVisitante
      ensures g != null ==> g == (if puntosLocal > puntosVisitante then equipoLocal else equipoVisitante)
      ensures finalizado && puntosLocal != puntosVisitante ==>
                g == (if puntosLocal > puntosVisitante then equipoLocal else equipoVisitante)
    {
      if !finalizado then null
      else if puntosLocal > puntosVisitante then equipoLocal
      else if puntosVisitante > puntosLocal then equipoVisitante
      else null
    }

    /** `getDiferenciaPuntos()`: the margin, whoever won. */
    function DiferenciaPuntos(): int
      reads this
    {
      Margin(puntosLocal, puntosVisitante)
    }

    /** `toString()`; `None` when a team reference is null, where Java throws
        a NullPointerException. */
    function ToString(): (s: Option<string>)
      reads this, equipoLocal, equipoVisitante
      ensures s.Some? <==> equipoLocal != null && equipoVisitante != null
      ensures s.Some? ==> s.value == PartidoText(JavaString(equipoLocal.nombre), JavaString(equipoVisitante.nombre),
                                                 finalizado, puntosLocal, puntosVisitante)
    {
      if equipoLocal == null || equipoVisitante == null then None
      else Some(PartidoText(JavaString(equipoLocal.nombre), JavaString(equipoVisitante.nombre),
                            finalizado, puntosLocal, puntosVisitante))
    }
  }

  // ---- Properties ------------------------------------------------------------

  /** Finishing a match only appends the score to its text. */
  lemma {:induction false} PartidoTextFinishedExtends(l: string, v: string, pl: int, pv: int)
    ensures var open := PartidoText(l, v, false, 0, 0);
            var done := PartidoText(l, v, true, pl, pv);
            |open| < |done| && done[..|open|] == open
            && done[|open|..] == " (" + IntToString(pl) + " - " + IntToString(pv) + ")"
  {
    var open := l + " vs " + v;
    var tail := " (" + IntToString(pl) + " - " + IntToString(pv) + ")";
    assert PartidoText(l, v, false, 0, 0) == open + "" == open;
    assert PartidoText(l, v, true, pl, pv) == open + tail;
    assert (open + tail)[..|open|] == open;
    assert (open + tail)[|open|..] == tail;
  }

  /** The margin is zero exactly on a tie, and the winner's margin is positive. */
  lemma {:induction false} DiferenciaZeroIffTie(p: Partido)
    ensures p.DiferenciaPuntos() == 0 <==> p.puntosLocal == p.puntosVisitante
    ensures p.finalizado && p.DiferenciaPuntos() > 0 ==> p.Ganador() == (if p.puntosLocal > p.puntosVisitante then p.equipoLocal else p.equipoVisitante)
  {
  }

  /** Between two distinct, non-null teams a decisive result moves exactly one
      win and one loss, and the team reported as winner is the one credited. */
  method RegistrarDecisivo(p: Partido, pl: int, pv: int) returns (ganador: Equipo?)
    requires p.equipoLocal != null && p.equipoVisitante != null && p.equipoLocal != p.equipoVisitante
    requires 0 <= pl && 0 <= pv && pl != pv
    modifies p, p.equipoLocal, p.equipoVisitante
    ensures p.equipoLocal == old(p.equipoLocal) && p.equipoVisitante == old(p.equipoVisitante)
    ensures ganador != null && ganador == p.Ganador()
    ensures ganador == p.equipoLocal || ganador == p.equipoVisitante
    ensures ganador.victorias == old(ganador.victorias) + 1 && ganador.derrotas == old(ganador.derrotas)
    ensures var perdedor := if ganador == p.equipoLocal then p.equipoVisitante else p.equipoLocal;
            perdedor.derrotas == old(perdedor.derrotas) + 1 && perdedor.victorias == old(perdedor.victorias)
  {
    var err := p.RegistrarResultado(pl, pv);
    ganador := p.Ganador();
  }

  /** The entity keeps no "already finalised" guard: registering the same
      home win twice credits the home team twice. */
  method RegistrarDosVeces(p: Partido, pl: int, pv: int)
    requires p.equipoLocal != null && p.equipoVisitante != null && p.equipoLocal != p.equipoVisitante
    requires 0 <= pv < pl
    modifies p, p.equipoLocal, p.equipoVisitante
    ensures p.equipoLocal == old(p.equipoLocal) && p.equipoVisitante == old(p.equipoVisitante)
    ensures p.finalizado
    ensures p.equipoLocal.victorias == old(p.equipoLocal.victorias) + 2
    ensures p.equipoVisitante.derrotas == old(p.equipoVisitante.derrotas) + 2
  {
    var first := p.RegistrarResultado(pl, pv);
    var second := p.RegistrarResultado(pl, pv);
  }
}
