/** The parking operations as the program runs them: one setting or one system call after another. */
module Machine {
  import opened Basics
  import opened Parking
  import opened Between

  lemma TwoThenRest(antes: seq<Equipo>, a: Equipo, b: Equipo, rest: seq<Equipo>)
    ensures ((antes + [a]) + [b]) + rest == antes + ([a, b] + rest)
  {
  }

  /** An undo by hand, with its three steps one after another. */
  lemma UndoneIn(e: Equipo, antes: seq<Equipo>, c: Copia, m: Mundo, quien: Quien)
    requires e.copia == Some(c)
    ensures var s := e.(copia := None);
            var d := Devuelto(s, c, m);
            var x := if m.restaura.ok then d.(aparcada := None) else d.(copia := Some(c));
      && antes + AlDeshacer(e, m) == ((antes + [s]) + [d]) + [x]
      && Deshecho(e, c, m, quien)
           == (if m.restaura.ok then Anotado(d.(aparcada := None, quiereDns := false), DnsOff, quien) else x)
  {
  }

  class Maquina {
    var copia: Option<Copia>
    var aparcada: Option<Copia>
    var hogar: bool
    var hogarAparcado: bool
    var heredado: bool
    var cambios: seq<Cambio>
    /** The system's own state. */
    var apunta: bool
    ghost var quiereHogar: bool
    ghost var quiereDns: bool
    /** The machine after each change of a stored copy and each system call. */
    ghost var huella: seq<Equipo>

    ghost function State(): Equipo
      reads this
    {
      Equipo(copia, aparcada, hogar, hogarAparcado, heredado, cambios, apunta, quiereHogar, quiereDns)
    }

    // ----- settings, system calls and the record of changes -----

    method StoreCopy(c: Option<Copia>)
      modifies `copia, `huella
      ensures copia == c && huella == old(huella) + [State()]
    {
      copia := c;
      huella := huella + [State()];
    }

    method StoreParked(c: Option<Copia>)
      modifies `aparcada, `huella
      ensures aparcada == c && huella == old(huella) + [State()]
    {
      aparcada := c;
      huella := huella + [State()];
    }

    method Snapshot(m: Mundo) returns (c: Option<Copia>)
      ensures c == Foto(State(), m)
    {
      c := match m.foto case None => None case Some(t) => Some(Copia(t, !apunta));
    }

    method Apply(m: Mundo) returns (ok: bool)
      modifies `apunta, `huella
      ensures State() == Apuntado(old(State()), m) && ok == m.aplica.ok && huella == old(huella) + [State()]
    {
      ok := m.aplica.ok;
      apunta := ok || m.aplica.queda;
      huella := huella + [State()];
    }

    method Restore(c: Copia, m: Mundo) returns (ok: bool)
      modifies `apunta, `huella
      ensures State() == Devuelto(old(State()), c, m) && ok == m.restaura.ok && huella == old(huella) + [State()]
    {
      ok := m.restaura.ok;
      apunta := if ok then !c.limpia else apunta && m.restaura.queda;
      huella := huella + [State()];
    }

    method NothingPointsHere(m: Mundo) returns (nada: bool)
      ensures nada == NadaApunta(State(), m)
    {
      nada := m.seSabe && !apunta;
    }

    method RecordChange(clase: Clase, quien: Quien)
      modifies `cambios
      ensures cambios == old(cambios) + [Cambio(clase, quien)]
    {
      cambios := cambios + [Cambio(clase, quien)];
    }

    /** The newest change of some classes, looking at the last 500. */
    method LastChange(clases: set<Clase>) returns (c: Option<Cambio>)
      ensures c == Ultimo(cambios, 500, clases)
    {
      var n := 0;
      assert cambios[..|cambios|] == cambios;
      while n < 500 && n < |cambios|
        invariant n <= 500 && n <= |cambios|
        invariant Ultimo(cambios[..|cambios| - n], 500 - n, clases) == Ultimo(cambios, 500, clases)
      {
        var last := cambios[|cambios| - 1 - n];
        if last.clase in clases { return Some(last); }
        assert cambios[..|cambios| - n][..|cambios| - n - 1] == cambios[..|cambios| - n - 1];
        n := n + 1;
      }
      c := None;
    }

    // ----- the engine -----

    /** Looks once at what 1.0.1 left, and parks it. */
    method Heredar(m: Mundo)
      modifies this
      ensures State() == Heredado(old(State()), m)
      ensures old(HogarBien(State()) && CuentaHogar(State(), Hereda)) ==> HogarBien(State())
      ensures old(DnsBien(State()) && CuentaDns(State(), Hereda, m)) ==> DnsBien(State())
    {
      ghost var e := State();
      if !heredado { Inherit(m); }
      KeptHome(e, Hereda, m);
      KeptDns(e, Hereda, m);
    }

    method Inherit(m: Mundo)
      requires !heredado
      modifies this
      ensures State() == Heredado(old(State()), m)
    {
      heredado := true;
      var ultimoHogar := LastChange(HOGAR);
      if ultimoHogar == Some(Cambio(HogarOff, Licencia)) && !hogar && !hogarAparcado {
        hogarAparcado := true;
      }
      var ultimoDns := LastChange(DNS);
      if ultimoDns == Some(Cambio(DnsOff, Licencia)) && copia.None? && aparcada.None? {
        var foto := Snapshot(m);
        if foto.Some? { StoreParked(foto); }
      }
    }

    /** Gives the DNS back, parks the copy and only then clears it. */
    method DevolverDns(m: Mundo) returns (hecho: bool)
      modifies this
      ensures State() == DnsAparcado(old(State()), m) && huella == old(huella) + AlDevolver(old(State()), m)
      ensures hecho ==> copia.None?
    {
      if copia.None? { return true; }
      var c := copia.value;
      hecho := Restore(c, m);
      if !hecho { hecho := NothingPointsHere(m); }
      if hecho {
        StoreParked(Some(c));
        StoreCopy(None);
        RecordChange(DnsOff, Licencia);
      }
    }

    method StandDown(m: Mundo)
      modifies this
      ensures State() == Apartado(old(State()), m)
      ensures old(HogarBien(State()) && CuentaHogar(State(), SeAparta)) ==> HogarBien(State())
      ensures old(DnsBien(State()) && CuentaDns(State(), SeAparta, m)) ==> DnsBien(State())
    {
      ghost var e := State();
      if !heredado { Inherit(m); }
      var _ := DevolverDns(m);
      if hogar {
        hogarAparcado := true;
        hogar := false;
        RecordChange(HogarOff, Licencia);
      }
      KeptHome(e, SeAparta, m);
      KeptDns(e, SeAparta, m);
    }

    /** The licence is back: a copy taken today, or the parked one, and Home Mode as it was parked. */
    method Volver(m: Mundo) returns (dns: bool, casa: bool)
      modifies this
      ensures State() == Vuelto(old(State()), m) && huella == old(huella) + AlVolver(old(State()), m)
      ensures casa == old(hogarAparcado)
      ensures old(HogarBien(State())) ==> HogarBien(State())
      ensures old(DnsBien(State())) ==> DnsBien(State())
    {
      ghost var e := State();
      dns := false;
      if aparcada.Some? { dns := ReturnDns(m); }
      casa := hogarAparcado;
      if hogarAparcado {
        hogar := true;
        hogarAparcado := false;
        RecordChange(HogarOn, Licencia);
      }
      KeptHome(e, Vuelve, m);
      KeptDns(e, Vuelve, m);
    }

    method ReturnDns(m: Mundo) returns (dns: bool)
      requires aparcada.Some?
      modifies `copia, `aparcada, `cambios, `huella
      ensures State() == DnsVuelto(old(State()), m) && huella == old(huella) + AlVolver(old(State()), m)
    {
      dns := false;
      if copia.None? {
        var fresca := Snapshot(m);
        StoreCopy(if fresca.Some? then fresca else aparcada);
        dns := true;
        RecordChange(DnsOn, Licencia);
      }
      StoreParked(None);
    }

    method DevolverPorSilencio(m: Mundo) returns (hecho: bool)
      modifies this
      ensures State() == DevueltoPorSilencio(old(State()), m) && huella == old(huella) + AlCallar(old(State()), m)
      ensures hecho ==> m.restaura.ok
      ensures old(DnsBien(State())) ==> DnsBien(State())
    {
      ghost var e := State();
      hecho := false;
      if copia.Some? {
        var nada := NothingPointsHere(m);
        if !nada {
          hecho := Restore(copia.value, m);
          if hecho { RecordChange(DnsOff, SinArriba); }
        }
      }
      KeptDns(e, Silencio, m);
    }

    /** Points here, with what appeared since added to the stored copy first. */
    method Reapuntar(c: Copia, m: Mundo) returns (ok: bool)
      modifies this
      ensures State() == Reapuntado(old(State()), c, m) && ok == m.aplica.ok
      ensures huella == old(huella) + AlReapuntar(old(State()), c, m)
    {
      if m.crece && m.foto.Some? {
        StoreCopy(Some(Copia(c.texto + m.foto.value, c.limpia)));
      }
      ok := Apply(m);
    }

    method VolverConArriba(m: Mundo) returns (hecho: bool)
      modifies this
      ensures State() == VueltoConArriba(old(State()), m)
      ensures hecho <==> old(copia).None? || m.aplica.ok
      ensures old(DnsBien(State())) ==> DnsBien(State())
    {
      ghost var e := State();
      hecho := true;
      if copia.Some? {
        hecho := Reapuntar(copia.value, m);
        if hecho { RecordChange(DnsOn, ConArriba); }
      }
      KeptDns(e, ConRespuesta, m);
    }

    /** The minute's watch. */
    method ReapplyIfDropped(m: Mundo)
      modifies this
      ensures State() == Reaplicado(old(State()), m)
      ensures old(DnsBien(State())) ==> DnsBien(State())
    {
      ghost var e := State();
      if copia.Some? && m.seSabe && !apunta {
        var _ := Reapuntar(copia.value, m);
      }
      KeptDns(e, Vigila, m);
    }

    method GiveBackWhileStopped(m: Mundo)
      modifies this
      ensures State() == DadoMientrasParado(old(State()), m) && huella == old(huella) + AlCallar(old(State()), m)
      ensures old(DnsBien(State())) ==> DnsBien(State())
    {
      ghost var e := State();
      if copia.Some? {
        var nada := NothingPointsHere(m);
        if !nada { var _ := Restore(copia.value, m); }
      }
      KeptDns(e, Para, m);
    }

    // ----- the person's commands -----

    method RollBack(c: Copia, m: Mundo)
      modifies this
      ensures State() == RetiradoTrasFallo(old(State()), c, m) && huella == old(huella) + AlRetirar(old(State()), c, m)
    {
      if m.sinPermiso {
        var nada := NothingPointsHere(m);
        if nada {
          StoreCopy(None);
          return;
        }
      }
      var devuelta := Restore(c, m);
      if devuelta { StoreCopy(None); } else { quiereDns := true; }
    }

    method UndoUnreached(c: Copia, m: Mundo)
      modifies this
      ensures State() == RetiradoSinLlegar(old(State()), c, m) && huella == old(huella) + AlNoLlegar(old(State()), c, m)
    {
      StoreCopy(None);
      var devuelta := Restore(c, m);
      if !devuelta {
        StoreCopy(Some(c));
        quiereDns := true;
      }
    }

    /** `dns --apply --yes`, by the installer or from the terminal. */
    method DnsApply(m: Mundo, instalador: bool, apartado: bool)
      modifies this
      ensures State() == Aplicado(old(State()), m, if instalador then Instalador else Terminal, apartado)
      ensures huella == old(huella) + AlAplicar(old(State()), m, apartado)
      ensures old(DnsBien(State())) ==> DnsBien(State())
    {
      ghost var e := State();
      var quien := if instalador then Instalador else Terminal;
      if copia.None? && !apartado && m.contesta && m.foto.Some? { Change(m, quien); }
      KeptDns(e, DnsAplica(quien, apartado), m);
    }

    method Change(m: Mundo, quien: Quien)
      requires Cambia(State(), m, false)
      modifies this
      ensures State() == Aplicado(old(State()), m, quien, false)
      ensures huella == old(huella) + AlAplicar(old(State()), m, false)
    {
      var foto := Snapshot(m);
      var c := foto.value;
      StoreCopy(Some(c));
      ghost var s := State();
      var ok := Apply(m);
      ghost var a := State();
      if !ok {
        TwoThenRest(old(huella), s, a, AlRetirar(a, c, m));
        RollBack(c, m);
      } else if !m.llega {
        TwoThenRest(old(huella), s, a, AlNoLlegar(a, c, m));
        UndoUnreached(c, m);
      } else {
        TwoThenRest(old(huella), s, a, []);
        NoteApplied(quien);
      }
    }

    /** Applied and followed: the change is recorded. */
    method NoteApplied(quien: Quien)
      modifies `cambios, `quiereDns
      ensures State() == Anotado(old(State()), DnsOn, quien).(quiereDns := true)
    {
      RecordChange(DnsOn, quien);
      quiereDns := true;
    }

    /** `dns --restore`, by the uninstaller or from the terminal. */
    method DnsRestore(m: Mundo, desinstalando: bool)
      modifies this
      ensures State() == Restaurado(old(State()), m, if desinstalando then Desinstalador else Terminal)
      ensures huella == old(huella) + AlDeshacer(old(State()), m)
      ensures old(DnsBien(State()) && CuentaDns(State(), DnsRestaura(Terminal), m)) ==> DnsBien(State())
    {
      ghost var e := State();
      var quien := if desinstalando then Desinstalador else Terminal;
      if copia.None? {
        StoreParked(None);
        quiereDns := false;
      } else {
        UndoByHand(copia.value, m, quien);
      }
      KeptDns(e, DnsRestaura(quien), m);
    }

    /** The copy is cleared and the undo tried. */
    method ClearAndUndo(c: Copia, m: Mundo) returns (ok: bool)
      modifies `copia, `apunta, `huella
      ensures State() == Devuelto(old(State()).(copia := None), c, m) && ok == m.restaura.ok
      ensures huella == (old(huella) + [old(State()).(copia := None)]) + [State()]
    {
      StoreCopy(None);
      ok := Restore(c, m);
    }

    method UndoByHand(c: Copia, m: Mundo, quien: Quien)
      requires copia == Some(c)
      modifies `copia, `aparcada, `apunta, `cambios, `quiereDns, `huella
      ensures State() == Deshecho(old(State()), c, m, quien) && huella == old(huella) + AlDeshacer(old(State()), m)
    {
      var ok := ClearAndUndo(c, m);
      UndoneIn(old(State()), old(huella), c, m, quien);
      if ok { NoteUndone(quien); } else { StoreCopy(Some(c)); }
    }

    /** Undone: what was parked goes too, and the change is recorded. */
    method NoteUndone(quien: Quien)
      modifies `aparcada, `cambios, `quiereDns, `huella
      ensures State() == Anotado(old(State()).(aparcada := None, quiereDns := false), DnsOff, quien)
      ensures huella == old(huella) + [old(State()).(aparcada := None)]
    {
      StoreParked(None);
      quiereDns := false;
      RecordChange(DnsOff, quien);
    }

    method TurnHomeOn(permitido: bool)
      modifies this
      ensures State() == HogarEncendido(old(State()), permitido)
      ensures old(HogarBien(State())) ==> HogarBien(State())
    {
      ghost var e := State();
      if permitido {
        hogar := true;
        quiereHogar := true;
        RecordChange(HogarOn, Terminal);
      }
      KeptHome(e, Enciende(permitido), TODO_BIEN);
    }

    /** `hogar off`, by the uninstaller or from the terminal. */
    method TurnHomeOff(desinstalando: bool)
      modifies this
      ensures State() == HogarApagado(old(State()), if desinstalando then Desinstalador else Terminal)
      ensures old(HogarBien(State())) ==> HogarBien(State()) && !hogar && !hogarAparcado
    {
      ghost var e := State();
      var quien := if desinstalando then Desinstalador else Terminal;
      hogar := false;
      hogarAparcado := false;
      quiereHogar := false;
      RecordChange(HogarOff, quien);
      KeptHome(e, Apaga(quien), TODO_BIEN);
    }
  }

  lemma KeptHome(e: Equipo, p: Paso, m: Mundo)
    requires DeLaPersona(p)
    ensures HogarBien(e) && CuentaHogar(e, p) ==> HogarBien(Da(e, p, m))
  {
    if HogarBien(e) { HomeStep(e, p, m); }
  }

  lemma KeptDns(e: Equipo, p: Paso, m: Mundo)
    requires DeLaPersona(p)
    ensures DnsBien(e) && CuentaDns(e, p, m) ==> DnsBien(Da(e, p, m))
  {
    if DnsBien(e) { DnsStep(e, p, m); }
  }
}
