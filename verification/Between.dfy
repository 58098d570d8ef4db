/**
 * What a change of the system DNS leaves at each moment: the states between one setting or system call and the
 * next, where a crash would leave the machine (crates/cli/src/engine.rs, dns_cmd.rs).
 */
module Between {
  import opened Basics
  import opened Parking

  /** The machine can be put back: what points at the guardian has a stored copy. */
  predicate Cubierta(e: Equipo) { e.apunta ==> e.copia.Some? }

  predicate TodasCubiertas(es: seq<Equipo>) { forall i | 0 <= i < |es| :: Cubierta(es[i]) }

  // ----- the states of each operation, in order -----

  /** Giving the DNS back on standing down: undone, parked, and only then cleared. */
  function AlDevolver(e: Equipo, m: Mundo): seq<Equipo> {
    match e.copia
    case None => []
    case Some(c) =>
      var d := Devuelto(e, c, m);
      if m.restaura.ok || NadaApunta(d, m) then [d, d.(aparcada := Some(c)), d.(aparcada := Some(c), copia := None)]
          else [d]
  }

  /** Coming back: the copy of today, and only then the parked one goes. */
  function AlVolver(e: Equipo, m: Mundo): seq<Equipo> {
    match e.aparcada
    case None => []
    case Some(a) =>
      if e.copia.None?
      then
        var d := e.(copia := if Foto(e, m).Some? then Foto(e, m) else Some(a));
        [d, Anotado(d, DnsOn, Licencia).(aparcada := None)]
      else [e.(aparcada := None)]
  }

  function AlCallar(e: Equipo, m: Mundo): seq<Equipo> {
    match e.copia
    case None => []
    case Some(c) => if NadaApunta(e, m) then [] else [Devuelto(e, c, m)]
  }

  /** Pointing here again: the copy that grew is stored first. */
  function AlReapuntar(e: Equipo, c: Copia, m: Mundo): seq<Equipo> {
    if m.crece && m.foto.Some?
    then var g := e.(copia := Some(c.(texto := c.texto + m.foto.value))); [g, Apuntado(g, m)]
    else [Apuntado(e, m)]
  }

  function AlRetirar(a: Equipo, c: Copia, m: Mundo): seq<Equipo> {
    if m.sinPermiso && NadaApunta(a, m) then [a.(copia := None)]
    else
      var d := Devuelto(a, c, m);
      if m.restaura.ok then [d, d.(copia := None)] else [d]
  }

  /** Undoing what the system's own queries do not follow: cleared first, and back when undoing fails. */
  function AlNoLlegar(a: Equipo, c: Copia, m: Mundo): seq<Equipo> {
    var d := Devuelto(a.(copia := None), c, m);
    if m.restaura.ok then [a.(copia := None), d] else [a.(copia := None), d, d.(copia := Some(c))]
  }

  predicate Cambia(e: Equipo, m: Mundo, apartado: bool) { e.copia.None? && !apartado && m.contesta && Foto(e, m).Some? }

  function AlAplicar(e: Equipo, m: Mundo, apartado: bool): seq<Equipo> {
    if !Cambia(e, m, apartado) then []
    else
      var c := Foto(e, m).value;
      var s := e.(copia := Some(c));
      var a := Apuntado(s, m);
      [s, a] + (if !m.aplica.ok then AlRetirar(a, c, m) else if !m.llega then AlNoLlegar(a, c, m) else [])
  }

  /** Undoing by hand: cleared first, and back when undoing fails; then what was parked goes. */
  function AlDeshacer(e: Equipo, m: Mundo): seq<Equipo> {
    match e.copia
    case None => [e.(aparcada := None)]
    case Some(c) =>
      var s := e.(copia := None);
      var d := Devuelto(s, c, m);
      if m.restaura.ok then [s, d, d.(aparcada := None)] else [s, d, d.(copia := Some(c))]
  }

  // ----- where a crash leaves a way back -----

  /** Standing aside and coming back leave one at every moment, and never lose the copy. */
  lemma ParkingIsCovered(e: Equipo, m: Mundo)
    requires SiempreHayVuelta(e)
    ensures TodasCubiertas(AlDevolver(e, m)) && TodasCubiertas(AlVolver(e, m))
    ensures forall i | 0 <= i < |AlDevolver(e, m)| ::
      AlDevolver(e, m)[i].copia.Some? || AlDevolver(e, m)[i].aparcada.Some?
    ensures forall i | 0 <= i < |AlVolver(e, m)| :: AlVolver(e, m)[i].copia.Some?
  {
  }

  /** So do giving the DNS back, and pointing here again with what appeared since. */
  lemma EngineIsCovered(e: Equipo, c: Copia, m: Mundo)
    requires SiempreHayVuelta(e) && e.copia == Some(c)
    ensures TodasCubiertas(AlCallar(e, m)) && TodasCubiertas(AlReapuntar(e, c, m))
  {
  }

  /** What is pointed here is covered already by the copy that grew. */
  lemma CopyGrowsFirst(e: Equipo, c: Copia, m: Mundo)
    ensures var es := AlReapuntar(e, c, m);
      && es[|es| - 1] == Reapuntado(e, c, m)
      && (m.crece && m.foto.Some? ==>
            |es| == 2 && es[0].apunta == e.apunta && es[0].copia == es[1].copia
            && es[0].copia == Some(c.(texto := c.texto + m.foto.value)))
  {
  }

  lemma TakingBackIsCovered(a: Equipo, c: Copia, m: Mundo)
    requires a.copia == Some(c) && c.limpia
    ensures TodasCubiertas(AlRetirar(a, c, m))
  {
  }

  /** A change taken back because it is not followed is uncovered while it is undone, and only then. */
  lemma UnfollowedIsUncovered(a: Equipo, c: Copia, m: Mundo)
    requires c.limpia
    ensures var es := AlNoLlegar(a, c, m);
      && !Cubierta(es[0]) == a.apunta
      && (!Cubierta(es[1]) <==> a.apunta && !m.restaura.ok && m.restaura.queda)
      && Cubierta(es[|es| - 1])
  {
  }

  /**
   * `dns --apply` stores its copy before anything changes, and leaves a way back at every moment exactly when the
   * change is not made, fails, or is followed.
   */
  lemma ApplyIsCovered(e: Equipo, m: Mundo, apartado: bool)
    requires SiempreHayVuelta(e)
    ensures Cambia(e, m, apartado) ==> AlAplicar(e, m, apartado)[0] == e.(copia := Foto(e, m))
    ensures TodasCubiertas(AlAplicar(e, m, apartado)) <==> !(Cambia(e, m, apartado) && m.aplica.ok && !m.llega)
  {
    if Cambia(e, m, apartado) {
      var c := Foto(e, m).value;
      var a := Apuntado(e.(copia := Some(c)), m);
      var es := AlAplicar(e, m, apartado);
      TakingBackIsCovered(a, c, m);
      UnfollowedIsUncovered(a, c, m);
      if m.aplica.ok && !m.llega {
        assert es[2] == AlNoLlegar(a, c, m)[0];
      }
      if !m.aplica.ok {
        assert es[2..] == AlRetirar(a, c, m);
        assert forall i | 2 <= i < |es| :: es[i] == es[2..][i - 2];
      }
    }
  }

  /** `dns --restore` leaves a way back at every moment exactly when nothing points here. */
  lemma UndoIsUncovered(e: Equipo, m: Mundo)
    requires SiempreHayVuelta(e)
    ensures TodasCubiertas(AlDeshacer(e, m)) <==> !e.apunta
    ensures var es := AlDeshacer(e, m); Cubierta(es[|es| - 1])
    ensures e.copia.Some? ==> AlDeshacer(e, m)[0] == e.(copia := None)
  {
    if e.apunta { assert !Cubierta(AlDeshacer(e, m)[0]); }
  }
}
