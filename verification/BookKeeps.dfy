/** Every operation keeps the invariant of the tables, and so does every run. */
module BookKeeps {
  import opened Basics
  import WhoAsked
  import opened Contracts
  import opened Book
  import opened BookInvariant

  // ----- one row of a pass -----

  /** What comes before the company: the learning ended, the version changed. */
  function Previos(c: Contrato, o: Observacion): (es: seq<Efecto>)
    ensures SinNovedad(es)
  {
    (if TocaAprender(c, o.ts) then [SeAprendio] else []) + EfectoVersion(Revisado(c, o.ts), o.proceso)
  }

  /** The contract before its companies are looked at. */
  function Leido(c: Contrato, o: Observacion): Contrato { ConProceso(Revisado(c, o.ts), o) }

  lemma LeidoGoesOn(c: Contrato, k: string, o: Observacion)
    requires ContratoBien(c, k)
    ensures ContratoBien(Leido(c, o), k) && Sigue(c, Leido(c, o))
    ensures Leido(c, o).pendientes == c.pendientes
  {
    RevisadoGoesOn(c, k, o.ts);
    ConProcesoGoesOn(Revisado(c, o.ts), k, o);
  }

  lemma QuietObservation(l: Libro, k: string, o: Observacion, d: Contrato, es: seq<Efecto>)
    requires Tablas(l) && k in l.contratos && ContratoBien(d, k) && Sigue(l.contratos[k], d) && SinNovedad(es)
    ensures Tablas(AplicaEfectos(l.(contratos := l.contratos[k := d]), d, o, es))
  {
    var m := l.(contratos := l.contratos[k := d]);
    GoesOn(l, k, d);
    EffectsAreRows(m, d, o, es);
    RowsKeep(m, FilasDe(es, o.ts, d.clave));
  }

  /** The notice a new company goes to, with it. */
  function AvisoDestino(l: Libro, d: Contrato, o: Observacion, empresa: string): Aviso {
    var a := if Abiertos(l, d.clave) == {} then AvisoVacio(d, o.ts) else l.avisos[Ultimo(Abiertos(l, d.clave))];
    ConNovedad(a, d, o, empresa)
  }

  lemma GrownWith(m: map<string, Empresa>, empresa: string, ev: Empresa, o: Observacion)
    requires EmpresasAcotadas(m) && Acotada(ev)
    ensures EmpresasAcotadas(m[empresa := Anota(ev, o)]) && m[empresa := Anota(ev, o)].Keys == m.Keys + {empresa}
  {
    AnotaBounded(ev, o);
    UpdatedBounded(m, empresa, Anota(ev, o));
  }

  lemma NoticeGrows(a: Aviso, c: Contrato, o: Observacion, empresa: string)
    requires EmpresasAcotadas(a.nuevas)
    ensures var b := ConNovedad(a, c, o, empresa);
      EmpresasAcotadas(b.nuevas) && b.nuevas.Keys == a.nuevas.Keys + {empresa}
      && b.clave == a.clave && b.estado == a.estado && b.reglas == a.reglas
      && b.antes == a.antes && b.resuelto == a.resuelto && b.desde == a.desde && a.ultimo <= b.ultimo
  {
    var ev := if empresa in a.nuevas then a.nuevas[empresa] else EmpresaVacia(Etiqueta(c));
    assert Acotada(ev);
    GrownWith(a.nuevas, empresa, ev, o);
  }

  lemma DestinationNotice(l: Libro, d: Contrato, o: Observacion, empresa: string)
    requires Tablas(l)
    ensures var id, a := AvisoPara(l, d.clave), AvisoDestino(l, d, o, empresa);
      && Anunciante(l, d, id, a, empresa)
      && (if Abiertos(l, d.clave) == {} then id == l.proximo else id in Abiertos(l, d.clave))
  {
    var id := AvisoPara(l, d.clave);
    if Abiertos(l, d.clave) != {} {
      assert AvisoBien(l.contratos, l.avisos[id]);
      NoticeGrows(l.avisos[id], d, o, empresa);
    } else {
      assert id !in l.avisos;
      NoticeGrows(AvisoVacio(d, o.ts), d, o, empresa);
    }
  }

  /** The tables after a new company, before too many old notices go. */
  function Anunciado(l: Libro, d: Contrato, o: Observacion, empresa: string, primera: bool): Libro {
    var id := AvisoPara(l, d.clave);
    l.(contratos := l.contratos[d.clave := d], avisos := l.avisos[id := AvisoDestino(l, d, o, empresa)],
       proximo := Max(l.proximo, id + 1),
       registro := l.registro + (if primera then [Asiento(o.ts, d.clave, RNovedad(id, empresa))] else []))
  }

  /** Only resolved notices went. */
  predicate SoloResueltosFuera(antes: map<nat, Aviso>, r: map<nat, Aviso>) {
    r.Keys <= antes.Keys && (forall i | i in r :: r[i] == antes[i])
    && (forall i | i in antes && i !in r :: antes[i].estado != Abierto)
  }

  lemma NewStored(l: Libro, a: Aviso)
    ensures var n := ConAvisoNuevo(l, a);
            n == l.(avisos := n.avisos, proximo := l.proximo + 1)
                && SoloResueltosFuera(l.avisos[l.proximo := a], n.avisos)
  {
  }

  lemma NoticeStored(l: Libro, d: Contrato, o: Observacion, empresa: string)
    requires AvisosBien(l)
    ensures var n := ConNovedadEn(l, d, o, empresa);
            var id := AvisoPara(l, d.clave);
            n == l.(avisos := n.avisos, proximo := Max(l.proximo, id + 1))
            && SoloResueltosFuera(l.avisos[id := AvisoDestino(l, d, o, empresa)], n.avisos)
  {
    if Abiertos(l, d.clave) == {} {
      NewStored(l, AvisoDestino(l, d, o, empresa));
    } else {
      assert AvisoPara(l, d.clave) < l.proximo;
    }
  }

  lemma AnunciadoIs(l: Libro, d: Contrato, o: Observacion, empresa: string, primera: bool)
    requires AvisosBien(l)
    ensures var m := Anunciado(l, d, o, empresa, primera);
            var r := AplicaEfecto(l.(contratos := l.contratos[d.clave := d]), d, o, Novedad(empresa, primera));
            r == m.(avisos := r.avisos) && SoloResueltosFuera(m.avisos, r.avisos)
  {
    var cs, id := l.contratos[d.clave := d], AvisoPara(l, d.clave);
    NoticeStored(l, d, o, empresa);
    StoredAnywhere(l, cs, d, o, empresa);
    OpenAnywhere(l, cs, d.clave);
    NoveltyEffect(l.(contratos := cs), d, o, empresa, primera);
  }

  /** What announcing a company does: the notice stored and, the first time, its row. */
  lemma NoveltyEffect(l: Libro, d: Contrato, o: Observacion, empresa: string, primera: bool)
    ensures var n := ConNovedadEn(l, d, o, empresa);
            var fila := Asiento(o.ts, d.clave, RNovedad(AvisoPara(l, d.clave), empresa));
            AplicaEfecto(l, d, o, Novedad(empresa, primera))
              == n.(registro := n.registro + (if primera then [fila] else []))
  {
    var n := ConNovedadEn(l, d, o, empresa);
    assert n.registro + [] == n.registro;
  }

  lemma AnunciadoKeeps(l: Libro, q: Contrato, d: Contrato, o: Observacion, empresa: string, primera: bool)
    requires d == q.(pendientes := q.pendientes + {empresa}) && (primera <==> empresa !in q.pendientes)
    requires Tablas(l) && q.clave in l.contratos && q == l.contratos[q.clave]
    requires q.estado == Vigilando || q.estado == Fijado
    requires empresa !in q.empresas && empresa !in q.cortadas
    ensures Tablas(Anunciado(l, d, o, empresa, primera))
  {
    DestinationNotice(l, d, o, empresa);
    var id := AvisoPara(l, d.clave);
    AnnouncedKeeps(l, Anunciado(l, d, o, empresa, primera), q, id, AvisoDestino(l, d, o, empresa), empresa,
                   if primera then [Asiento(o.ts, d.clave, RNovedad(id, empresa))] else []);
  }

  lemma NewCompanyKeeps(l: Libro, q: Contrato, o: Observacion, empresa: string)
    requires Tablas(l) && q.clave in l.contratos && q == l.contratos[q.clave]
    requires q.estado == Vigilando || q.estado == Fijado
    requires empresa !in q.empresas && empresa !in q.cortadas
    ensures var d := q.(pendientes := q.pendientes + {empresa});
            Tablas(AplicaEfecto(l.(contratos := l.contratos[q.clave := d]), d, o,
                                Novedad(empresa, empresa !in q.pendientes)))
  {
    var d := q.(pendientes := q.pendientes + {empresa});
    var primera := empresa !in q.pendientes;
    AnunciadoKeeps(l, q, d, o, empresa, primera);
    AnunciadoIs(l, d, o, empresa, primera);
    PruningKeeps(Anunciado(l, d, o, empresa, primera),
                 AplicaEfecto(l.(contratos := l.contratos[q.clave := d]), d, o, Novedad(empresa, primera)).avisos);
  }

  lemma GoesOnTwice(c: Contrato, q: Contrato, d: Contrato)
    requires Sigue(c, q) && Sigue(q, d) && (q.estado == NoAplica ==> d.estado == NoAplica)
    ensures Sigue(c, d)
  {
  }

  lemma ObservedInTwo(c: Contrato, o: Observacion, lec: Lector)
    ensures var (d, e) := ConEmpresa(Leido(c, o), o, lec); Observa(c, o, lec) == (d, Previos(c, o) + e)
  {
  }

  /** A query leaves its contract going on, or makes one company outside it pending. */
  lemma Observations(c: Contrato, k: string, o: Observacion, lec: Lector)
    requires ContratoBien(c, k)
    ensures var q, (d, es) := Leido(c, o), Observa(c, o, lec);
      && ContratoBien(q, k) && Sigue(c, q)
      && ((ContratoBien(d, k) && Sigue(c, d) && SinNovedad(es))
          || (d == q.(pendientes := q.pendientes + {o.empresa})
              && es == Previos(c, o) + [Novedad(o.empresa, o.empresa !in q.pendientes)]
              && (q.estado == Vigilando || q.estado == Fijado)
              && o.empresa !in q.empresas && o.empresa !in q.cortadas))
  {
    var q := Leido(c, o);
    var (d, e) := ConEmpresa(q, o, lec);
    LeidoGoesOn(c, k, o);
    ConEmpresaGoesOn(q, k, o, lec);
    ObservedInTwo(c, o, lec);
    if e == [] || e[0].SinContrato? {
      GoesOnTwice(c, q, d);
    } else {
      assert e == [Novedad(o.empresa, o.empresa !in q.pendientes)];
    }
  }

  lemma ObservedKeeps(l: Libro, k: string, o: Observacion, lec: Lector)
    requires Tablas(l) && k in l.contratos
    ensures Tablas(ObservadoEn(l, k, o, lec))
  {
    var c := l.contratos[k];
    var (d, es) := Observa(c, o, lec);
    Observations(c, k, o, lec);
    if ContratoBien(d, k) && Sigue(c, d) && SinNovedad(es) {
      QuietObservation(l, k, o, d, es);
    } else {
      NovelObservation(l, k, o, Leido(c, o), Previos(c, o));
    }
  }

  lemma NovelObservation(l: Libro, k: string, o: Observacion, q: Contrato, pre: seq<Efecto>)
    requires Tablas(l) && k in l.contratos && ContratoBien(q, k) && Sigue(l.contratos[k], q) && SinNovedad(pre)
    requires q.estado == Vigilando || q.estado == Fijado
    requires o.empresa !in q.empresas && o.empresa !in q.cortadas
    ensures var d := q.(pendientes := q.pendientes + {o.empresa});
            Tablas(AplicaEfectos(l.(contratos := l.contratos[k := d]), d, o,
                                 pre + [Novedad(o.empresa, o.empresa !in q.pendientes)]))
  {
    var d := q.(pendientes := q.pendientes + {o.empresa});
    var e := Novedad(o.empresa, o.empresa !in q.pendientes);
    var ld := l.(contratos := l.contratos[k := d]);
    var rows := FilasDe(pre, o.ts, k);
    NovelEffects(ld, d, o, pre, e);
    var lq := l.(contratos := l.contratos[k := q]);
    GoesOn(l, k, q);
    RowsKeep(lq, rows);
    var lr := lq.(registro := lq.registro + rows);
    NewCompanyKeeps(lr, q, o, o.empresa);
    TwiceStored(l, lr, k, q, d, l.registro + rows);
  }

  lemma TwiceStored(l: Libro, lr: Libro, k: string, q: Contrato, d: Contrato, registro: seq<Asiento>)
    requires lr == l.(contratos := l.contratos[k := q], registro := registro)
    ensures lr.(contratos := lr.contratos[k := d]) == l.(contratos := l.contratos[k := d], registro := registro)
  {
    assert lr.contratos[k := d] == l.contratos[k := d];
  }

  lemma NovelEffects(l: Libro, c: Contrato, o: Observacion, pre: seq<Efecto>, e: Efecto)
    requires SinNovedad(pre)
    ensures AplicaEfectos(l, c, o, pre + [e])
      == AplicaEfecto(l.(registro := l.registro + FilasDe(pre, o.ts, c.clave)), c, o, e)
  {
    EffectsSplit(l, c, o, pre, [e]);
    EffectsAreRows(l, c, o, pre);
    OneEffect(l.(registro := l.registro + FilasDe(pre, o.ts, c.clave)), c, o, e);
  }

  lemma OneEffect(l: Libro, c: Contrato, o: Observacion, e: Efecto)
    ensures AplicaEfectos(l, c, o, [e]) == AplicaEfecto(l, c, o, e)
  {
    assert [e][1..] == [];
  }

  lemma ProgramKeeps(l: Libro, p: Proceso, ts: int, lec: Lector, inicio: int)
    requires Tablas(l)
    ensures Tablas(ConPrograma(l, p, ts, lec, inicio))
  {
    var c := Nuevo(lec, p, Max(ts, inicio));
    if c.clave !in l.contratos && |l.contratos| < MAX_CONTRATOS {
      NewContract(l, c);
      RowKeeps(ConContrato(l, c), ts, c.clave, if c.estado == NoAplica then RNoAplica else RAprendiendo);
    }
  }

  lemma RowOfPassKeeps(l: Libro, f: Fila, lec: Lector, inicio: int)
    requires Tablas(l)
    ensures Tablas(ConFila(l, f, lec, inicio))
  {
    if f.proceso.Some? && !Blanco(f.proceso.value.nombre) && lec.lee(WhoAsked.Normaliza(f.qname)).Some? {
      var p, r := f.proceso.value, lec.lee(WhoAsked.Normaliza(f.qname)).value;
      ProgramKeeps(l, p, f.ts, lec, inicio);
      var m := ConPrograma(l, p, f.ts, lec, inicio);
      if lec.clave(p) in m.contratos {
        ObservedKeeps(m, lec.clave(p),
                      Observacion(f.ts, WhoAsked.Normaliza(f.qname), r.empresa, r.sitio, f.esperado, p), lec);
      }
    }
  }

  lemma {:induction false} RowsOfPassKeep(l: Libro, fs: seq<Fila>, lec: Lector, inicio: int)
    requires Tablas(l)
    ensures Tablas(ConFilas(l, fs, lec, inicio))
    decreases |fs|
  {
    if fs != [] {
      RowOfPassKeeps(l, fs[0], lec, inicio);
      RowsOfPassKeep(ConFila(l, fs[0], lec, inicio), fs[1..], lec, inicio);
    }
  }

  lemma {:induction false} QuietKeep(l: Libro, orden: seq<string>, ahora: int)
    requires Tablas(l)
    ensures Tablas(Quietos(l, orden, ahora))
    decreases |orden|
  {
    if orden != [] {
      var k := orden[0];
      if k in l.contratos && TocaAprender(l.contratos[k], ahora) {
        RevisadoGoesOn(l.contratos[k], k, ahora);
        GoesOn(l, k, Revisado(l.contratos[k], ahora));
        RowKeeps(l.(contratos := l.contratos[k := Revisado(l.contratos[k], ahora)]), ahora, l.contratos[k].clave,
                 RAprendido);
        QuietKeep(Registra(l.(contratos := l.contratos[k := Revisado(l.contratos[k], ahora)]), ahora,
                           l.contratos[k].clave,
                           RAprendido), orden[1..], ahora);
      } else {
        QuietKeep(l, orden[1..], ahora);
      }
    }
  }

  // ----- notices resolved -----

  lemma SameTables(l: Libro, m: Libro)
    requires Tablas(l) && m.contratos == l.contratos && m.avisos == l.avisos && m.proximo == l.proximo
    requires m.registro == l.registro
    ensures Tablas(m)
  {
    forall x | x in m.contratos && m.contratos[x].pendientes != {} ensures Abiertos(m, x) != {} {
      assert Abiertos(m, x) == Abiertos(l, x);
    }
  }

  /** The contract of a notice being resolved, `d` instead of `c`. */
  predicate Asentado(c: Contrato, d: Contrato, a: Aviso) {
    && d.clave == c.clave && (d.estado == NoAplica <==> c.estado == NoAplica)
    && d.pendientes == (if a.estado == Abierto then {} else c.pendientes)
    && c.empresas.Keys + c.cortadas + a.nuevas.Keys <= d.empresas.Keys + d.cortadas
  }

  /** The notice `b` is `a` resolved. */
  predicate Resuelve(a: Aviso, b: Aviso) {
    && b.clave == a.clave && b.nuevas == a.nuevas && b.antes == a.antes && b.desde == a.desde && b.ultimo == a.ultimo
    && b.estado != Abierto && b.resuelto.Some?
  }

  lemma SettledKeeps(l: Libro, m: Libro, id: nat, b: Aviso, d: Contrato)
    requires Tablas(l) && id in l.avisos
    requires Resuelve(l.avisos[id], b)
    requires b.clave in l.contratos && ContratoBien(d, b.clave) && Asentado(l.contratos[b.clave], d, l.avisos[id])
    requires m.contratos == l.contratos[b.clave := d] && m.avisos == l.avisos[id := b]
    requires m.proximo == l.proximo && m.registro == l.registro
    ensures Tablas(m)
  {
    SettledNotices(l, m, id, b, d);
    SettledPending(l, m, id, b, d);
    SettledRegister(l, m, id, b, d);
  }

  lemma SettledNotices(l: Libro, m: Libro, id: nat, b: Aviso, d: Contrato)
    requires Tablas(l) && id in l.avisos
    requires Resuelve(l.avisos[id], b)
    requires b.clave in l.contratos && Asentado(l.contratos[b.clave], d, l.avisos[id])
    requires m.contratos == l.contratos[b.clave := d] && m.avisos == l.avisos[id := b] && m.proximo == l.proximo
    ensures AvisosBien(m)
  {
    assert AvisoBien(l.contratos, l.avisos[id]);
    forall i | i in m.avisos ensures AvisoBien(m.contratos, m.avisos[i]) && i < m.proximo {
      if i != id { OtherSettled(l, id, i, d); }
    }
    SettledApart(l, m, id, b);
  }

  lemma SettledApart(l: Libro, m: Libro, id: nat, b: Aviso)
    requires AvisosBien(l) && id in l.avisos && m.avisos == l.avisos[id := b]
    requires Resuelve(l.avisos[id], b)
    ensures forall i, j | i in m.avisos && j in m.avisos && i != j :: Aparte(m.avisos[i], m.avisos[j])
  {
    forall i, j | i in m.avisos && j in m.avisos && i != j ensures Aparte(m.avisos[i], m.avisos[j]) {
      assert Aparte(l.avisos[i], l.avisos[j]);
    }
  }

  lemma OtherSettled(l: Libro, id: nat, i: nat, d: Contrato)
    requires Tablas(l) && id in l.avisos && i in l.avisos && i != id && l.avisos[id].clave in l.contratos
    requires Asentado(l.contratos[l.avisos[id].clave], d, l.avisos[id])
    ensures AvisoBien(l.contratos[l.avisos[id].clave := d], l.avisos[i]) && i < l.proximo
  {
    assert AvisoBien(l.contratos, l.avisos[i]);
    assert Aparte(l.avisos[i], l.avisos[id]);
  }

  lemma SettledPending(l: Libro, m: Libro, id: nat, b: Aviso, d: Contrato)
    requires PendientesAvisados(l) && id in l.avisos && b.clave == l.avisos[id].clave && b.clave in l.contratos
    requires Asentado(l.contratos[b.clave], d, l.avisos[id])
    requires m.contratos == l.contratos[b.clave := d] && m.avisos == l.avisos[id := b]
    ensures PendientesAvisados(m)
  {
    forall x | x in m.contratos && m.contratos[x].pendientes != {} ensures Abiertos(m, x) != {} {
      StillOpen(l, m, id, b, x);
    }
  }

  lemma StillOpen(l: Libro, m: Libro, id: nat, b: Aviso, x: string)
    requires id in l.avisos && b.clave == l.avisos[id].clave && m.avisos == l.avisos[id := b]
    requires Abiertos(l, x) != {} && (x == b.clave ==> l.avisos[id].estado != Abierto)
    ensures Abiertos(m, x) != {}
  {
    var i :| i in Abiertos(l, x);
    assert i in Abiertos(m, x);
  }

  lemma SettledRegister(l: Libro, m: Libro, id: nat, b: Aviso, d: Contrato)
    requires Tablas(l) && id in l.avisos && b.clave == l.avisos[id].clave && b.clave in l.contratos
    requires Asentado(l.contratos[b.clave], d, l.avisos[id])
    requires m.contratos == l.contratos[b.clave := d] && m.registro == l.registro
    ensures RegistroBien(m)
  {
    assert AvisoBien(l.contratos, l.avisos[id]);
    forall n | 0 <= n < |m.registro| ensures Anunciada(m.contratos, m.registro[n]) {
      assert Anunciada(l.contratos, l.registro[n]);
    }
  }

  lemma CutContract(l: Libro, a: Aviso, c: Contrato, cortadas: set<string>)
    requires ContratoBien(c, a.clave) && EmpresasAcotadas(a.nuevas) && a.estado == Abierto
    requires c.pendientes == a.nuevas.Keys && cortadas <= a.nuevas.Keys
    ensures ContratoBien(ContratoCortado(c, a, cortadas), a.clave) && Asentado(c, ContratoCortado(c, a, cortadas), a)
  {
    var suyas := Entradas(a.nuevas, a.nuevas.Keys - cortadas);
    assert EmpresasAcotadas(suyas) && suyas.Keys == a.nuevas.Keys - cortadas;
    JoinedBounded(c.empresas, suyas);
    assert (c.empresas + suyas).Keys == c.empresas.Keys + suyas.Keys;
  }

  lemma CutKeeps(l: Libro, id: nat, t: int, auto: bool)
    requires Tablas(l) && HayAbierto(l, id)
    ensures Tablas(Cortada(l, id, t, auto))
  {
    var a := l.avisos[id];
    assert AvisoBien(l.contratos, a);
    var c, r := l.contratos[a.clave], Cortada(l, id, t, auto);
    CutContract(l, a, c, Cortables(l, a));
    var m := r.(registro := l.registro);
    SettledKeeps(l, m, id, r.avisos[id], r.contratos[a.clave]);
    RowKeeps(m, t, a.clave, RCortado(id, auto));
  }

  lemma AcceptKeeps(l: Libro, id: nat, t: int)
    requires Tablas(l)
    ensures Tablas(Aceptar(l, id, t))
  {
    if HayAbierto(l, id) {
      var a := l.avisos[id];
      assert AvisoBien(l.contratos, a);
      var c, r := l.contratos[a.clave], Aceptar(l, id, t);
      JoinedBounded(c.empresas, a.nuevas);
      assert (c.empresas + a.nuevas).Keys == c.empresas.Keys + a.nuevas.Keys;
      var m := r.(registro := l.registro);
      SettledKeeps(l, m, id, r.avisos[id], ContratoAceptado(c, a));
      RowKeeps(m, t, a.clave, RAceptado(id));
    }
  }

  lemma UndoKeeps(l: Libro, id: nat, t: int)
    requires Tablas(l)
    ensures Tablas(Deshacer(l, id, t))
  {
    if HayCorte(l, id) {
      var a := l.avisos[id];
      assert AvisoBien(l.contratos, a);
      var c, r := l.contratos[a.clave], Deshacer(l, id, t);
      JoinedBounded(c.empresas, a.nuevas);
      assert (c.empresas + a.nuevas).Keys == c.empresas.Keys + a.nuevas.Keys;
      var m := r.(registro := l.registro);
      SettledKeeps(l, m, id, r.avisos[id], ContratoDeshecho(c, a));
      RowKeeps(m, t, a.clave, RDeshecho(id));
    }
  }

  lemma FixKeeps(l: Libro, clave: string, fijar: bool, t: int)
    requires Tablas(l)
    ensures Tablas(Fijar(l, clave, fijar, t))
  {
    if clave in l.contratos && l.contratos[clave].estado != NoAplica {
      var c := l.contratos[clave];
      var d := ContratoFijado(c, fijar, t);
      assert ContratoBien(c, clave);
      if d.estado != c.estado {
        GoesOn(l, clave, d);
        RowKeeps(l.(contratos := l.contratos[clave := d]), t, clave, if fijar then RFijado else RSoltado);
      }
    }
  }

  lemma CutTouchesOne(l: Libro, id: nat, t: int, auto: bool)
    requires id in l.avisos
    ensures var r := Cortada(l, id, t, auto);
            r.avisos.Keys == l.avisos.Keys && r.avisos[id].estado != Abierto
            && forall i | i in l.avisos && i != id :: r.avisos[i] == l.avisos[i]
  {
  }

  lemma {:induction false} CutsKeep(l: Libro, ids: set<nat>, ahora: int)
    requires Tablas(l) && ids <= l.avisos.Keys && forall i | i in ids :: l.avisos[i].estado == Abierto
    ensures Tablas(CortaTodos(l, ids, ahora))
    ensures forall i | i in l.avisos && i !in ids :: CortaTodos(l, ids, ahora).avisos[i] == l.avisos[i]
    decreases |ids|
  {
    if ids != {} {
      var i := Ultimo(ids);
      CutsKeep(l, ids - {i}, ahora);
      OneMoreCut(l, CortaTodos(l, ids - {i}, ahora), ids, i, ahora);
    }
  }

  lemma OneMoreCut(l: Libro, p: Libro, ids: set<nat>, i: nat, ahora: int)
    requires Tablas(p) && i in ids && ids <= l.avisos.Keys && p.avisos.Keys == l.avisos.Keys
    requires l.avisos[i].estado == Abierto && forall j | j in l.avisos && j !in ids - {i} :: p.avisos[j] == l.avisos[j]
    ensures Tablas(Cortada(p, i, ahora, true))
    ensures forall j | j in l.avisos && j !in ids :: j in Cortada(p, i, ahora, true).avisos
                                                   && Cortada(p, i, ahora, true).avisos[j] == l.avisos[j]
  {
    assert HayAbierto(p, i);
    CutKeeps(p, i, ahora, true);
    OthersStay(l.avisos, p, ids, i, ahora);
  }

  lemma OthersStay(avisos: map<nat, Aviso>, p: Libro, ids: set<nat>, i: nat, ahora: int)
    requires i in ids && i in p.avisos && p.avisos.Keys == avisos.Keys
    requires forall j | j in avisos && j !in ids - {i} :: p.avisos[j] == avisos[j]
    ensures forall j | j in avisos && j !in ids :: j in Cortada(p, i, ahora, true).avisos
                                                && Cortada(p, i, ahora, true).avisos[j] == avisos[j]
  {
    CutTouchesOne(p, i, ahora, true);
  }

  lemma {:induction false} AutoCutsKeep(l: Libro, orden: seq<string>, ahora: int)
    requires Tablas(l)
    ensures Tablas(CortesAuto(l, orden, ahora))
    decreases |orden|
  {
    if orden != [] {
      var k := orden[0];
      if k in l.contratos && l.contratos[k].estado == Fijado {
        CutsKeep(l, Abiertos(l, k), ahora);
        AutoCutsKeep(CortaTodos(l, Abiertos(l, k), ahora), orden[1..], ahora);
      } else {
        AutoCutsKeep(l, orden[1..], ahora);
      }
    }
  }

  // ----- learning again -----

  lemma {:induction false} SeenInNotices(avisos: map<nat, Aviso>, ids: set<nat>)
    requires ids <= avisos.Keys && forall i | i in ids :: EmpresasAcotadas(avisos[i].nuevas)
    ensures EmpresasAcotadas(NuevasDe(avisos, ids))
    ensures forall i | i in ids :: avisos[i].nuevas.Keys <= NuevasDe(avisos, ids).Keys
    decreases |ids|
  {
    if ids != {} {
      var i := Ultimo(ids);
      SeenInNotices(avisos, ids - {i});
      JoinedBounded(avisos[i].nuevas, NuevasDe(avisos, ids - {i}));
    }
  }

  lemma RelearntContract(l: Libro, k: string, propio: bool, ahora: int)
    requires Tablas(l) && k in l.contratos && SeReaprende(l.contratos[k], propio, ahora)
    ensures var c := l.contratos[k];
            var d := ContratoReaprendido(c, propio, NuevasDe(l.avisos, Abiertos(l, k)), ahora);
            ContratoBien(d, k) && d.pendientes == {}
            && (d.estado == NoAplica
                || (c.estado != NoAplica
                    && c.empresas.Keys + c.cortadas + c.pendientes <= d.empresas.Keys + d.cortadas))
  {
    var c, ids := l.contratos[k], Abiertos(l, k);
    assert ContratoBien(c, k);
    forall i | i in ids ensures AvisoBien(l.contratos, l.avisos[i]) {}
    SeenInNotices(l.avisos, ids);
    var nuevas := NuevasDe(l.avisos, ids);
    JoinedBounded(nuevas, c.empresas);
    assert (nuevas + c.empresas).Keys == nuevas.Keys + c.empresas.Keys;
    if c.pendientes != {} {
      var i :| i in ids;
      assert c.pendientes <= nuevas.Keys;
    }
  }

  lemma RelearntTables(l: Libro, m: Libro, k: string, d: Contrato)
    requires Tablas(l) && k in l.contratos && ContratoBien(d, k) && d.pendientes == {}
    requires d.estado == NoAplica
          || (l.contratos[k].estado != NoAplica
              && l.contratos[k].empresas.Keys + l.contratos[k].cortadas + l.contratos[k].pendientes
                 <= d.empresas.Keys + d.cortadas)
    requires m == l.(contratos := l.contratos[k := d], avisos := l.avisos - Abiertos(l, k))
    ensures Tablas(m)
  {
    forall i | i in m.avisos ensures AvisoBien(m.contratos, m.avisos[i]) {
      assert AvisoBien(l.contratos, l.avisos[i]);
      assert i !in Abiertos(l, k);
    }
    FewerApart(l, m);
    forall x | x in m.contratos && m.contratos[x].pendientes != {} ensures Abiertos(m, x) != {} {
      OtherOpen(l, m, k, x);
    }
    forall n | 0 <= n < |m.registro| ensures Anunciada(m.contratos, m.registro[n]) {
      assert Anunciada(l.contratos, l.registro[n]);
    }
  }

  lemma FewerApart(l: Libro, m: Libro)
    requires AvisosBien(l) && m.avisos.Keys <= l.avisos.Keys && forall i | i in m.avisos :: m.avisos[i] == l.avisos[i]
    ensures forall i, j | i in m.avisos && j in m.avisos && i != j :: Aparte(m.avisos[i], m.avisos[j])
  {
    forall i, j | i in m.avisos && j in m.avisos && i != j ensures Aparte(m.avisos[i], m.avisos[j]) {
      assert Aparte(l.avisos[i], l.avisos[j]);
    }
  }

  lemma OtherOpen(l: Libro, m: Libro, k: string, x: string)
    requires m.avisos == l.avisos - Abiertos(l, k) && x != k && Abiertos(l, x) != {}
    ensures Abiertos(m, x) != {}
  {
    var i :| i in Abiertos(l, x);
    assert i in Abiertos(m, x);
  }

  lemma RelearnOneKeeps(l: Libro, k: string, lec: Lector, ahora: int)
    requires Tablas(l) && k in l.contratos
    ensures Tablas(ReaprendeUno(l, k, lec, ahora))
  {
    var c := l.contratos[k];
    var propio := lec.motivo(c.nombre) == Propio;
    assert ContratoBien(c, k);
    if SeReaprende(c, propio, ahora) {
      RelearntContract(l, k, propio, ahora);
      var d := ContratoReaprendido(c, propio, NuevasDe(l.avisos, Abiertos(l, k)), ahora);
      var m := l.(contratos := l.contratos[k := d], avisos := l.avisos - Abiertos(l, k));
      RelearntTables(l, m, k, d);
      RowKeeps(m, ahora, k, if propio then RNoAplica else RReaprende);
    }
  }

  lemma {:induction false} RelearnKeeps(l: Libro, orden: seq<string>, lec: Lector, ahora: int)
    requires Tablas(l)
    ensures Tablas(Reaprende(l, orden, lec, ahora))
    decreases |orden|
  {
    if orden != [] {
      if orden[0] in l.contratos { RelearnOneKeeps(l, orden[0], lec, ahora); }
      RelearnKeeps(if orden[0] in l.contratos then ReaprendeUno(l, orden[0], lec, ahora) else l,
                   orden[1..], lec, ahora);
    }
  }

  // ----- a pass, and any run -----

  lemma PassKeeps(l: Libro, lec: Lector, orden: seq<string>, ahora: int)
    requires Tablas(l)
    ensures Tablas(Pasada(l, lec, orden, ahora))
  {
    var m := ConInicio(l, lec, ahora);
    if l.inicio.None? {
      var r := Reaprende(l, Sorted(l.contratos.Keys), lec, ahora);
      RelearnKeeps(l, Sorted(l.contratos.Keys), lec, ahora);
      SameTables(r, m);
    }
    var n := ConFilas(m, LoteDe(m), lec, m.inicio.value);
    RowsOfPassKeep(m, LoteDe(m), lec, m.inicio.value);
    QuietKeep(n, orden, ahora);
    AutoCutsKeep(Quietos(n, orden, ahora), orden, ahora);
    SameTables(CortesAuto(Quietos(n, orden, ahora), orden, ahora), Pasada(l, lec, orden, ahora));
  }

  lemma StepKeeps(l: Libro, p: Paso)
    requires Tablas(l)
    ensures Tablas(Da(l, p))
  {
    match p
    case Anotada(f) => SameTables(l, Da(l, p));
    case Pasa(lec, orden, ahora) => PassKeeps(l, lec, orden, ahora);
    case Corta(id, t) => if HayAbierto(l, id) { CutKeeps(l, id, t, false); }
    case Acepta(id, t) => AcceptKeeps(l, id, t);
    case Deshace(id, t) => UndoKeeps(l, id, t);
    case Fija(clave, fijar, t) => FixKeeps(l, clave, fijar, t);
  }

  /** Every run of passes, cuts, accepts, undos and fixes keeps the tables. */
  lemma {:induction false} RunKeeps(l: Libro, pasos: seq<Paso>)
    requires Tablas(l)
    ensures Tablas(Corre(l, pasos))
    decreases |pasos|
  {
    if pasos != [] {
      StepKeeps(l, pasos[0]);
      RunKeeps(Da(l, pasos[0]), pasos[1..]);
    }
  }
}
