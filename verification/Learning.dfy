/** The learning over whole runs: what ends it, what never changes back, and since when it counts. */
module Learning {
  import opened Basics
  import Calendar
  import WhoAsked
  import opened Contracts
  import opened Book
  import BookInvariant
  import BookKeeps

  /** The register says the person fixed this contract once. */
  predicate FueFijado(registro: seq<Asiento>, clave: string) {
    exists n | 0 <= n < |registro| :: registro[n].clave == clave && registro[n].tipo.RFijado?
  }

  /** The learning time a contract shows: seven days, or more than one with ten launches. */
  predicate Ganado(c: Contrato) {
    c.aprendido.Some? &&
    (c.aprendido.value - c.desde >= APRENDE_DIAS * Calendar.DAY_MS
     || (c.lanzamientos >= APRENDE_LANZAMIENTOS && c.aprendido.value - c.desde > Calendar.DAY_MS))
  }

  predicate AprendeBien(c: Contrato, fijado: bool, inicio: Option<int>) {
    && (c.estado == Fijado ==> fijado)
    && (c.estado == Vigilando && !fijado ==> Ganado(c))
    && (inicio.Some? && !fijado && (c.estado == Aprendiendo || c.estado == Vigilando) ==> c.desde >= inicio.value)
  }

  predicate Aprende(l: Libro) {
    forall k | k in l.contratos :: AprendeBien(l.contratos[k], FueFijado(l.registro, k), l.inicio)
  }

  /** What one state keeps of an earlier one: the register's rows, the start, and who has no contract. */
  predicate Sucede(l: Libro, m: Libro) {
    && l.registro <= m.registro
    && (l.inicio.Some? ==> m.inicio == l.inicio)
    && forall k | k in l.contratos ::
         k in m.contratos && (l.contratos[k].estado == NoAplica ==> m.contratos[k].estado == NoAplica)
  }

  lemma Transitive(l: Libro, m: Libro, n: Libro)
    requires Sucede(l, m) && Sucede(m, n)
    ensures Sucede(l, n)
  {
  }

  lemma FixedStays(a: seq<Asiento>, b: seq<Asiento>, k: string)
    requires a <= b
    ensures FueFijado(a, k) ==> FueFijado(b, k)
  {
    if FueFijado(a, k) {
      var n :| 0 <= n < |a| && a[n].clave == k && a[n].tipo.RFijado?;
      assert b[n] == a[n];
    }
  }

  /** A contract as any operation but a fix or a new learning leaves it. */
  predicate Madura(c: Contrato, d: Contrato) {
    && d.desde == c.desde && (d.lanzamientos >= c.lanzamientos || d.lanzamientos >= APRENDE_LANZAMIENTOS)
    && (|| (d.estado == c.estado && d.aprendido == c.aprendido)
        || (c.estado == Aprendiendo && d.estado == Vigilando && Ganado(d))
        || (c.estado == Aprendiendo && d.estado == NoAplica))
  }

  lemma MaturedIsWell(c: Contrato, d: Contrato, fijado: bool, inicio: Option<int>)
    requires AprendeBien(c, fijado, inicio) && Madura(c, d)
    ensures AprendeBien(d, fijado, inicio)
  {
  }

  lemma OneMatures(l: Libro, m: Libro, k: string)
    requires Aprende(l) && k in l.contratos && k in m.contratos && Madura(l.contratos[k], m.contratos[k])
    requires m.contratos == l.contratos[k := m.contratos[k]] && m.inicio == l.inicio && l.registro <= m.registro
    ensures Aprende(m) && Sucede(l, m)
  {
    forall x | x in m.contratos ensures AprendeBien(m.contratos[x], FueFijado(m.registro, x), m.inicio) {
      FixedStays(l.registro, m.registro, x);
      assert AprendeBien(l.contratos[x], FueFijado(l.registro, x), l.inicio);
      if x == k { MaturedIsWell(l.contratos[k], m.contratos[k], FueFijado(l.registro, k), l.inicio); }
    }
  }

  /** Nothing about the contracts changed. */
  lemma NothingChanged(l: Libro, m: Libro)
    requires Aprende(l) && m.contratos == l.contratos && m.inicio == l.inicio && l.registro <= m.registro
    ensures Aprende(m) && Sucede(l, m)
  {
    forall x | x in m.contratos ensures AprendeBien(m.contratos[x], FueFijado(m.registro, x), m.inicio) {
      FixedStays(l.registro, m.registro, x);
      assert AprendeBien(l.contratos[x], FueFijado(l.registro, x), l.inicio);
    }
  }

  // ----- one observation -----

  lemma RevisadoMatures(c: Contrato, ts: int)
    ensures Madura(c, Revisado(c, ts))
  {
  }

  lemma ObservedMatures(c: Contrato, o: Observacion, lec: Lector)
    ensures Madura(c, Observa(c, o, lec).0)
  {
    RevisadoMatures(c, o.ts);
    var r := Revisado(c, o.ts);
    ReadMatures(r, o);
    var q := ConProceso(r, o);
    assert ConEmpresa(q, o, lec).0.desde == q.desde && ConEmpresa(q, o, lec).0.lanzamientos == q.lanzamientos
        && ConEmpresa(q, o, lec).0.aprendido == q.aprendido;
    CompaniesMature(q, o, lec);
  }

  lemma ReadMatures(r: Contrato, o: Observacion)
    ensures var q := ConProceso(r, o);
            q.estado == r.estado && q.aprendido == r.aprendido && q.desde == r.desde
            && (q.lanzamientos >= r.lanzamientos || q.lanzamientos >= APRENDE_LANZAMIENTOS)
  {
  }

  lemma CompaniesMature(q: Contrato, o: Observacion, lec: Lector)
    ensures var d := ConEmpresa(q, o, lec).0;
            d.estado == q.estado || (q.estado == Aprendiendo && d.estado == NoAplica)
  {
  }

  lemma EffectTouchesNoContract(l: Libro, c: Contrato, o: Observacion, e: Efecto)
    ensures var m := AplicaEfecto(l, c, o, e);
            m.contratos == l.contratos && m.inicio == l.inicio && l.registro <= m.registro
            && m.extracto == l.extracto && m.cursor == l.cursor
  {
  }

  lemma {:induction false} EffectsTouchNoContract(l: Libro, c: Contrato, o: Observacion, es: seq<Efecto>)
    ensures var m := AplicaEfectos(l, c, o, es);
            m.contratos == l.contratos && m.inicio == l.inicio && l.registro <= m.registro
            && m.extracto == l.extracto && m.cursor == l.cursor
    decreases |es|
  {
    if es != [] {
      EffectTouchesNoContract(l, c, o, es[0]);
      EffectsTouchNoContract(AplicaEfecto(l, c, o, es[0]), c, o, es[1..]);
    }
  }

  lemma RowMatures(l: Libro, f: Fila, lec: Lector)
    requires Aprende(l) && l.inicio.Some?
    ensures Aprende(ConFila(l, f, lec, l.inicio.value)) && Sucede(l, ConFila(l, f, lec, l.inicio.value))
  {
    if f.proceso.Some? && !Blanco(f.proceso.value.nombre) && lec.lee(WhoAsked.Normaliza(f.qname)).Some? {
      var p, r := f.proceso.value, lec.lee(WhoAsked.Normaliza(f.qname)).value;
      var m := ConPrograma(l, p, f.ts, lec, l.inicio.value);
      ProgramMatures(l, p, f.ts, lec);
      if lec.clave(p) in m.contratos {
        ObservedInTable(m, lec.clave(p),
                        Observacion(f.ts, WhoAsked.Normaliza(f.qname), r.empresa, r.sitio, f.esperado, p), lec);
      }
    } else {
      NothingChanged(l, l);
    }
  }

  lemma ProgramMatures(l: Libro, p: Proceso, ts: int, lec: Lector)
    requires Aprende(l) && l.inicio.Some?
    ensures Aprende(ConPrograma(l, p, ts, lec, l.inicio.value)) && Sucede(l, ConPrograma(l, p, ts, lec, l.inicio.value))
  {
    var m := ConPrograma(l, p, ts, lec, l.inicio.value);
    forall x | x in m.contratos ensures AprendeBien(m.contratos[x], FueFijado(m.registro, x), m.inicio) {
      FixedStays(l.registro, m.registro, x);
      if x in l.contratos { assert AprendeBien(l.contratos[x], FueFijado(l.registro, x), l.inicio); }
    }
  }

  lemma ObservedInTable(l: Libro, k: string, o: Observacion, lec: Lector)
    requires Aprende(l) && k in l.contratos
    ensures Aprende(ObservadoEn(l, k, o, lec)) && Sucede(l, ObservadoEn(l, k, o, lec))
  {
    var (c, es) := Observa(l.contratos[k], o, lec);
    ObservedMatures(l.contratos[k], o, lec);
    EffectsTouchNoContract(l.(contratos := l.contratos[k := c]), c, o, es);
    OneMatures(l, ObservadoEn(l, k, o, lec), k);
  }

  lemma {:induction false} RowsMature(l: Libro, fs: seq<Fila>, lec: Lector)
    requires Aprende(l) && l.inicio.Some?
    ensures Aprende(ConFilas(l, fs, lec, l.inicio.value)) && Sucede(l, ConFilas(l, fs, lec, l.inicio.value))
    decreases |fs|
  {
    if fs != [] {
      RowMatures(l, fs[0], lec);
      RowsMature(ConFila(l, fs[0], lec, l.inicio.value), fs[1..], lec);
    }
  }

  lemma {:induction false} QuietMature(l: Libro, orden: seq<string>, ahora: int)
    requires Aprende(l)
    ensures Aprende(Quietos(l, orden, ahora)) && Sucede(l, Quietos(l, orden, ahora))
    decreases |orden|
  {
    if orden != [] {
      var k := orden[0];
      if k in l.contratos && TocaAprender(l.contratos[k], ahora) {
        var m := Registra(l.(contratos := l.contratos[k := Revisado(l.contratos[k], ahora)]), ahora,
                          l.contratos[k].clave, RAprendido);
        RevisadoMatures(l.contratos[k], ahora);
        OneMatures(l, m, k);
        QuietMature(m, orden[1..], ahora);
      } else {
        QuietMature(l, orden[1..], ahora);
      }
    }
  }

  /** Every program there is, with its time come, stops being learnt in the pass. */
  lemma {:induction false} QuietAreLearnt(l: Libro, orden: seq<string>, ahora: int, k: string)
    requires k in l.contratos && (k in orden || !TocaAprender(l.contratos[k], ahora))
    ensures k in Quietos(l, orden, ahora).contratos && !TocaAprender(Quietos(l, orden, ahora).contratos[k], ahora)
    decreases |orden|
  {
    if orden != [] {
      var x := orden[0];
      var m := if x in l.contratos && TocaAprender(l.contratos[x], ahora)
               then Registra(l.(contratos := l.contratos[x := Revisado(l.contratos[x], ahora)]), ahora,
                             l.contratos[x].clave, RAprendido)
               else l;
      assert k in orden && k != x ==> k in orden[1..];
      QuietAreLearnt(m, orden[1..], ahora, k);
    }
  }

  /** Nothing about the learning of any contract is different. */
  predicate MismoAprendizaje(l: Libro, m: Libro) {
    m.contratos.Keys == l.contratos.Keys
    && forall k | k in l.contratos :: m.contratos[k].estado == l.contratos[k].estado
        && m.contratos[k].desde == l.contratos[k].desde
         && m.contratos[k].lanzamientos == l.contratos[k].lanzamientos
  }

  lemma CutLeavesLearning(l: Libro, id: nat, t: int, auto: bool)
    requires id in l.avisos
    ensures MismoAprendizaje(l, Cortada(l, id, t, auto))
  {
  }

  lemma {:induction false} CutsLeaveLearning(l: Libro, ids: set<nat>, ahora: int)
    requires ids <= l.avisos.Keys
    ensures MismoAprendizaje(l, CortaTodos(l, ids, ahora))
    decreases |ids|
  {
    if ids != {} {
      var i := Ultimo(ids);
      CutsLeaveLearning(l, ids - {i}, ahora);
      CutLeavesLearning(CortaTodos(l, ids - {i}, ahora), i, ahora, true);
    }
  }

  lemma {:induction false} AutoCutsLeaveLearning(l: Libro, orden: seq<string>, ahora: int)
    ensures MismoAprendizaje(l, CortesAuto(l, orden, ahora))
    decreases |orden|
  {
    if orden != [] {
      var k := orden[0];
      if k in l.contratos && l.contratos[k].estado == Fijado {
        CutsLeaveLearning(l, Abiertos(l, k), ahora);
        AutoCutsLeaveLearning(CortaTodos(l, Abiertos(l, k), ahora), orden[1..], ahora);
      } else {
        AutoCutsLeaveLearning(l, orden[1..], ahora);
      }
    }
  }

  lemma {:induction false} QuietKeysStay(l: Libro, orden: seq<string>, ahora: int)
    ensures Quietos(l, orden, ahora).contratos.Keys == l.contratos.Keys
    decreases |orden|
  {
    if orden != [] {
      var k := orden[0];
      if k in l.contratos && TocaAprender(l.contratos[k], ahora) {
        var m := Registra(l.(contratos := l.contratos[k := Revisado(l.contratos[k], ahora)]), ahora,
                          l.contratos[k].clave, RAprendido);
        QuietKeysStay(m, orden[1..], ahora);
      } else {
        QuietKeysStay(l, orden[1..], ahora);
      }
    }
  }

  /**
   * After a pass that walks every contract there is, none whose time has come is still being learnt, were its program
   * quiet or not.
   */
  lemma PassEndsLearning(l: Libro, lec: Lector, orden: seq<string>, ahora: int, k: string)
    requires var m := ConInicio(l, lec, ahora);
      forall x | x in ConFilas(m, LoteDe(m), lec, m.inicio.value).contratos :: x in orden
    ensures var r := Pasada(l, lec, orden, ahora); k in r.contratos ==> !TocaAprender(r.contratos[k], ahora)
  {
    var m := ConInicio(l, lec, ahora);
    var n := ConFilas(m, LoteDe(m), lec, m.inicio.value);
    var q := Quietos(n, orden, ahora);
    AutoCutsLeaveLearning(q, orden, ahora);
    QuietKeysStay(n, orden, ahora);
    if k in q.contratos { QuietAreLearnt(n, orden, ahora, k); }
  }

  // ----- cuts -----

  lemma CutMatures(l: Libro, id: nat, t: int, auto: bool)
    requires Aprende(l) && id in l.avisos
    ensures Aprende(Cortada(l, id, t, auto)) && Sucede(l, Cortada(l, id, t, auto))
  {
    var a, r := l.avisos[id], Cortada(l, id, t, auto);
    if a.clave in l.contratos { OneMatures(l, r, a.clave); } else { NothingChanged(l, r); }
  }

  lemma {:induction false} CutsMature(l: Libro, ids: set<nat>, ahora: int)
    requires Aprende(l) && ids <= l.avisos.Keys
    ensures Aprende(CortaTodos(l, ids, ahora)) && Sucede(l, CortaTodos(l, ids, ahora))
    decreases |ids|
  {
    if ids == {} {
      NothingChanged(l, l);
    } else {
      var i := Ultimo(ids);
      CutsMature(l, ids - {i}, ahora);
      CutMatures(CortaTodos(l, ids - {i}, ahora), i, ahora, true);
    }
  }

  lemma {:induction false} AutoCutsMature(l: Libro, orden: seq<string>, ahora: int)
    requires Aprende(l)
    ensures Aprende(CortesAuto(l, orden, ahora)) && Sucede(l, CortesAuto(l, orden, ahora))
    decreases |orden|
  {
    if orden != [] {
      var k := orden[0];
      if k in l.contratos && l.contratos[k].estado == Fijado {
        CutsMature(l, Abiertos(l, k), ahora);
        AutoCutsMature(CortaTodos(l, Abiertos(l, k), ahora), orden[1..], ahora);
      } else {
        AutoCutsMature(l, orden[1..], ahora);
      }
    }
  }

  // ----- learning again, and the start -----

  /** The contracts of `ks` count from `t` at the earliest, but for the ones fixed and the ones without. */
  predicate CuentanDesde(l: Libro, ks: set<string>, t: int) {
    forall k | k in ks && k in l.contratos
        && (l.contratos[k].estado == Aprendiendo || l.contratos[k].estado == Vigilando) ::
      FueFijado(l.registro, k) || l.contratos[k].desde >= t
  }

  lemma RelearntOne(l: Libro, k: string, lec: Lector, ahora: int)
    requires Aprende(l) && l.inicio.None? && k in l.contratos
    ensures var m := ReaprendeUno(l, k, lec, ahora);
      && Aprende(m) && Sucede(l, m) && m.inicio.None? && m.contratos.Keys == l.contratos.Keys
      && CuentanDesde(m, {k}, ahora)
      && (forall x | x in l.contratos && x != k :: m.contratos[x] == l.contratos[x])
  {
    var m := ReaprendeUno(l, k, lec, ahora);
    forall x | x in m.contratos ensures AprendeBien(m.contratos[x], FueFijado(m.registro, x), m.inicio) {
      FixedStays(l.registro, m.registro, x);
      assert AprendeBien(l.contratos[x], FueFijado(l.registro, x), l.inicio);
    }
  }

  lemma {:induction false} RelearntAll(l: Libro, orden: seq<string>, lec: Lector, ahora: int, ks: set<string>)
    requires Aprende(l) && l.inicio.None? && CuentanDesde(l, ks, ahora)
    ensures var m := Reaprende(l, orden, lec, ahora);
      && Aprende(m) && Sucede(l, m) && m.inicio.None? && m.contratos.Keys == l.contratos.Keys
      && CuentanDesde(m, ks + (set x | x in orden), ahora)
    decreases |orden|
  {
    if orden == [] {
      assert ks + (set x | x in orden) == ks;
    } else {
      var k := orden[0];
      assert (set x | x in orden) == {k} + (set x | x in orden[1..]);
      assert ks + (set x | x in orden) == (ks + {k}) + (set x | x in orden[1..]);
      if k in l.contratos {
        var m := ReaprendeUno(l, k, lec, ahora);
        RelearntOne(l, k, lec, ahora);
        forall x | x in ks + {k} && x in m.contratos
            && (m.contratos[x].estado == Aprendiendo || m.contratos[x].estado == Vigilando)
          ensures FueFijado(m.registro, x) || m.contratos[x].desde >= ahora
        {
          FixedStays(l.registro, m.registro, x);
        }
        RelearntAll(m, orden[1..], lec, ahora, ks + {k});
      } else {
        RelearntAll(l, orden[1..], lec, ahora, ks + {k});
      }
    }
  }

  /**
   * What the first pass of 1.0.46 leaves of a contract: ours has none; one settled, or learnt from before, starts
   * learning then with all it had; a fixed one stays.
   */
  predicate VuelveAAprender(c: Contrato, d: Contrato, lec: Lector, ahora: int) {
    if lec.motivo(c.nombre) == Propio then d.estado == NoAplica && d.empresas == map[] && d.pendientes == {}
    else if c.estado == Vigilando || (c.estado == Aprendiendo && c.desde < ahora) then
      && d.estado == Aprendiendo && d.desde == Max(c.desde, ahora) && d.aprendido.None? && d.pendientes == {}
      && (forall e | e in c.empresas :: e in d.empresas && d.empresas[e] == c.empresas[e])
    else d == c
  }

  lemma {:induction false} RelearntEach(l: Libro, orden: seq<string>, lec: Lector, ahora: int, k: string)
    requires k in l.contratos && forall i, j | 0 <= i < j < |orden| :: orden[i] != orden[j]
    ensures var m := Reaprende(l, orden, lec, ahora);
      k in m.contratos && if k in orden then VuelveAAprender(l.contratos[k], m.contratos[k], lec, ahora)
                          else m.contratos[k] == l.contratos[k]
    decreases |orden|
  {
    if orden != [] {
      var x := orden[0];
      var m := if x in l.contratos then ReaprendeUno(l, x, lec, ahora) else l;
      OneRelearnt(l, x, lec, ahora);
      assert k in orden <==> k == x || k in orden[1..];
      RelearntEach(m, orden[1..], lec, ahora, k);
    }
  }

  lemma OneRelearnt(l: Libro, x: string, lec: Lector, ahora: int)
    ensures x in l.contratos ==>
      var m := ReaprendeUno(l, x, lec, ahora);
      && m.contratos.Keys == l.contratos.Keys && VuelveAAprender(l.contratos[x], m.contratos[x], lec, ahora)
      && (forall y | y in l.contratos && y != x :: m.contratos[y] == l.contratos[y])
  {
  }

  /** The first pass puts every contract 1.0.45 settled back to learning. */
  lemma FirstPassRelearns(l: Libro, lec: Lector, ahora: int, k: string)
    requires l.inicio.None? && k in l.contratos
    ensures var m := ConInicio(l, lec, ahora);
      m.inicio == Some(ahora) && k in m.contratos && VuelveAAprender(l.contratos[k], m.contratos[k], lec, ahora)
  {
    RelearntEach(l, Sorted(l.contratos.Keys), lec, ahora, k);
  }

  lemma StartMatures(l: Libro, lec: Lector, ahora: int)
    requires Aprende(l)
    ensures Aprende(ConInicio(l, lec, ahora)) && Sucede(l, ConInicio(l, lec, ahora))
  {
    if l.inicio.None? {
      var orden := Sorted(l.contratos.Keys);
      RelearntAll(l, orden, lec, ahora, {});
      var m, r := Reaprende(l, orden, lec, ahora), ConInicio(l, lec, ahora);
      forall k | k in r.contratos ensures AprendeBien(r.contratos[k], FueFijado(r.registro, k), r.inicio) {
        assert k in orden;
        assert AprendeBien(m.contratos[k], FueFijado(m.registro, k), m.inicio);
      }
    }
  }

  // ----- any run -----

  lemma PassMatures(l: Libro, lec: Lector, orden: seq<string>, ahora: int)
    requires Aprende(l)
    ensures Aprende(Pasada(l, lec, orden, ahora)) && Sucede(l, Pasada(l, lec, orden, ahora))
  {
    var m := ConInicio(l, lec, ahora);
    StartMatures(l, lec, ahora);
    var n := ConFilas(m, LoteDe(m), lec, m.inicio.value);
    RowsMature(m, LoteDe(m), lec);
    var cursor := if LoteDe(m) == [] then m.cursor else LoteDe(m)[|LoteDe(m)| - 1].id;
    RestOfPassMatures(n, orden, ahora, cursor);
    var r := CortesAuto(Quietos(n, orden, ahora), orden, ahora).(cursor := cursor);
    assert Pasada(l, lec, orden, ahora) == r;
    Transitive(l, m, n);
    Transitive(l, n, r);
  }

  lemma RestOfPassMatures(n: Libro, orden: seq<string>, ahora: int, cursor: int)
    requires Aprende(n)
    ensures var r := CortesAuto(Quietos(n, orden, ahora), orden, ahora).(cursor := cursor); Aprende(r) && Sucede(n, r)
  {
    QuietMature(n, orden, ahora);
    var q := Quietos(n, orden, ahora);
    AutoCutsMature(q, orden, ahora);
    var c := CortesAuto(q, orden, ahora);
    CursorMoves(c, cursor);
    Transitive(n, q, c);
    Transitive(n, c, c.(cursor := cursor));
  }

  lemma CursorMoves(l: Libro, cursor: int)
    requires Aprende(l)
    ensures Aprende(l.(cursor := cursor)) && Sucede(l, l.(cursor := cursor))
  {
    NothingChanged(l, l.(cursor := cursor));
  }

  lemma FixMatures(l: Libro, k: string, fijar: bool, t: int)
    requires Aprende(l)
    ensures Aprende(Fijar(l, k, fijar, t)) && Sucede(l, Fijar(l, k, fijar, t))
  {
    var m := Fijar(l, k, fijar, t);
    forall x | x in m.contratos ensures AprendeBien(m.contratos[x], FueFijado(m.registro, x), m.inicio) {
      FixedStays(l.registro, m.registro, x);
      assert AprendeBien(l.contratos[x], FueFijado(l.registro, x), l.inicio);
      if x == k && m != l && fijar { assert m.registro[|m.registro| - 1].tipo.RFijado?; }
    }
  }

  lemma StepMatures(l: Libro, p: Paso)
    requires Aprende(l)
    ensures Aprende(Da(l, p)) && Sucede(l, Da(l, p))
  {
    match p
    case Anotada(f) => NothingChanged(l, Da(l, p));
    case Pasa(lec, orden, ahora) => PassMatures(l, lec, orden, ahora);
    case Corta(id, t) => if HayAbierto(l, id) { CutMatures(l, id, t, false); }
    case Acepta(id, t) =>
      if HayAbierto(l, id) && l.avisos[id].clave in l.contratos { OneMatures(l, Da(l, p), l.avisos[id].clave); }
      else { NothingChanged(l, Da(l, p)); }
    case Deshace(id, t) =>
      if HayCorte(l, id) && l.avisos[id].clave in l.contratos { OneMatures(l, Da(l, p), l.avisos[id].clave); }
      else { NothingChanged(l, Da(l, p)); }
    case Fija(clave, fijar, t) => FixMatures(l, clave, fijar, t);
  }

  /**
   * Over any run: a program without contract stays without; the register only grows; and a contract being
   * watched that was never fixed shows its seven days, or more than one with ten launches, counted from no
   * earlier than the start of the learning.
   */
  lemma {:induction false} LearningIsSound(l: Libro, pasos: seq<Paso>)
    requires Aprende(l)
    ensures Aprende(Corre(l, pasos)) && Sucede(l, Corre(l, pasos))
    decreases |pasos|
  {
    if pasos != [] {
      StepMatures(l, pasos[0]);
      LearningIsSound(Da(l, pasos[0]), pasos[1..]);
      Transitive(l, Da(l, pasos[0]), Corre(l, pasos));
    }
  }

  /**
   * From the start, a contract that is watched or fixed says when it was learnt; and one never fixed had its seven
   * days by then, or over one day and ten launches, none of them before the learning began on this computer.
   */
  lemma LearntFromTheStart(pasos: seq<Paso>, k: string)
    ensures var r := Corre(NUEVO, pasos);
      k in r.contratos && (r.contratos[k].estado == Vigilando || r.contratos[k].estado == Fijado) ==>
        r.contratos[k].aprendido.Some?
    ensures var r := Corre(NUEVO, pasos);
      k in r.contratos && r.contratos[k].estado == Vigilando && !FueFijado(r.registro, k) ==>
        var c := r.contratos[k];
        c.aprendido.Some? && (r.inicio.Some? ==> c.desde >= r.inicio.value)
        && (c.aprendido.value - c.desde >= 604_800_000
            || (c.lanzamientos >= 10 && c.aprendido.value - c.desde > 86_400_000))
  {
    BookKeeps.RunKeeps(NUEVO, pasos);
    LearningIsSound(NUEVO, pasos);
    var r := Corre(NUEVO, pasos);
    if k in r.contratos {
      assert BookInvariant.ContratoBien(r.contratos[k], k);
      assert AprendeBien(r.contratos[k], FueFijado(r.registro, k), r.inicio);
    }
  }
}
