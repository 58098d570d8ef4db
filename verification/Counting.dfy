/** What each company's count counts: queries that a run read for that program and company, none of them twice. */
module Counting {
  import opened Basics
  import opened Contracts
  import opened Book
  import opened BookInvariant
  import BookKeeps
  import Feeding
  import WhoAsked

  /** One row as the contracts read it: of which program, and what. */
  datatype Vista = Vista(clave: string, o: Observacion)

  /** A row that says which program asked, for a name with a company. */
  function Lee(f: Fila, lec: Lector): Option<Vista> {
    if f.proceso.None? || Blanco(f.proceso.value.nombre) then None
    else
      var p, qname := f.proceso.value, WhoAsked.Normaliza(f.qname);
      match lec.lee(qname)
      case None => None
      case Some(r) => Some(Vista(lec.clave(p), Observacion(f.ts, qname, r.empresa, r.sitio, f.esperado, p)))
  }

  function VistasDe(fs: seq<Fila>, lec: Lector): seq<Vista> {
    if fs == [] then []
    else (match Lee(fs[0], lec) case None => [] case Some(v) => [v]) + VistasDe(fs[1..], lec)
  }

  /** What the passes of a run read, one after another. */
  function Vistas(l: Libro, pasos: seq<Paso>): seq<Vista>
    decreases |pasos|
  {
    if pasos == [] then []
    else (if pasos[0].Pasa? then VistasDe(Feeding.LeidasEn(l, pasos[0]), pasos[0].lec) else [])
         + Vistas(Da(l, pasos[0]), pasos[1..])
  }

  /** What was read of one program and one company. */
  function De(vs: seq<Vista>, k: string, e: string): seq<Observacion> {
    if vs == [] then []
    else
      var v := vs[|vs| - 1];
      De(vs[..|vs| - 1], k, e) + (if v.clave == k && v.o.empresa == e then [v.o] else [])
  }

  // ----- entries that fold some of the queries read -----

  /** The entry `x` is `b` with one more query. */
  predicate Suma(b: Empresa, x: Empresa, o: Observacion) { x == Anota(b, o) }

  /** The entry is what some of these queries leave, each folded at most once and in their order. */
  ghost predicate Pliegue(x: Empresa, os: seq<Observacion>)
    decreases |os|, 0
  {
    x == EmpresaVacia(x.version)
    || (os != [] && (Pliegue(x, os[..|os| - 1]) || PliegueCon(x, os[..|os| - 1], os[|os| - 1])))
  }

  /** The same, the query `o` folded last. */
  ghost predicate PliegueCon(x: Empresa, antes: seq<Observacion>, o: Observacion)
    decreases |antes|, 1
  {
    exists b: Empresa :: Suma(b, x, o) && Pliegue(b, antes)
  }

  ghost predicate Bien(m: map<string, Empresa>, k: string, vs: seq<Vista>) {
    forall e | e in m :: Pliegue(m[e], De(vs, k, e))
  }

  /** Every entry of the tables folds some of the queries read of its program and company. */
  ghost predicate Pliegues(contratos: map<string, Contrato>, avisos: map<nat, Aviso>, vs: seq<Vista>) {
    && (forall k | k in contratos :: Bien(contratos[k].empresas, k, vs))
    && AvisosPliegan(avisos, vs)
  }

  lemma OneMoreQuery(x: Empresa, os: seq<Observacion>, o: Observacion)
    requires Pliegue(x, os)
    ensures Pliegue(x, os + [o]) && Pliegue(Anota(x, o), os + [o])
  {
    assert (os + [o])[..|os + [o]| - 1] == os;
    assert Suma(x, Anota(x, o), o);
  }

  lemma OneMoreRead(vs: seq<Vista>, v: Vista, k: string, e: string)
    ensures De(vs + [v], k, e) == De(vs, k, e) + (if v.clave == k && v.o.empresa == e then [v.o] else [])
  {
    assert (vs + [v])[..|vs|] == vs;
  }

  lemma StillGood(m: map<string, Empresa>, k: string, vs: seq<Vista>, v: Vista)
    requires Bien(m, k, vs)
    ensures Bien(m, k, vs + [v])
  {
    forall e | e in m ensures Pliegue(m[e], De(vs + [v], k, e)) {
      OneMoreRead(vs, v, k, e);
      if v.clave == k && v.o.empresa == e { OneMoreQuery(m[e], De(vs, k, e), v.o); }
      else { assert De(vs, k, e) + [] == De(vs, k, e); }
    }
  }

  lemma TablesStillGood(contratos: map<string, Contrato>, avisos: map<nat, Aviso>, vs: seq<Vista>, v: Vista)
    requires Pliegues(contratos, avisos, vs)
    ensures Pliegues(contratos, avisos, vs + [v])
  {
    forall k | k in contratos ensures Bien(contratos[k].empresas, k, vs + [v]) {
      StillGood(contratos[k].empresas, k, vs, v);
    }
    forall i | i in avisos ensures Bien(avisos[i].nuevas, avisos[i].clave, vs + [v]) {
      StillGood(avisos[i].nuevas, avisos[i].clave, vs, v);
    }
  }

  /** The query just read, folded into its entry or into a new one. */
  lemma FoldedIn(m: map<string, Empresa>, k: string, vs: seq<Vista>, o: Observacion, b: Empresa)
    requires Bien(m, k, vs) && (b == EmpresaVacia(b.version) || (o.empresa in m && b == m[o.empresa]))
    ensures Bien(m[o.empresa := Anota(b, o)], k, vs + [Vista(k, o)])
  {
    StillGood(m, k, vs, Vista(k, o));
    OneMoreRead(vs, Vista(k, o), k, o.empresa);
    OneMoreQuery(b, De(vs, k, o.empresa), o);
  }

  lemma Together(m: map<string, Empresa>, n: map<string, Empresa>, k: string, vs: seq<Vista>)
    requires Bien(m, k, vs) && Bien(n, k, vs)
    ensures Bien(m + n, k, vs)
  {
  }

  // ----- one row -----

  lemma ReadContract(c: Contrato, o: Observacion)
    ensures Leido(c, o).empresas == c.empresas && Leido(c, o).clave == c.clave
  {
  }

  function Leido(c: Contrato, o: Observacion): Contrato { BookKeeps.Leido(c, o) }

  /** The companies of a contract after one of its queries. */
  lemma CompaniesRead(q: Contrato, k: string, o: Observacion, lec: Lector, vs: seq<Vista>)
    requires Bien(q.empresas, k, vs)
    ensures var (d, e) := ConEmpresa(q, o, lec);
      && d.clave == q.clave && Bien(d.empresas, k, vs + [Vista(k, o)])
      && (e == [] || e == [SinContrato] || e == [Novedad(o.empresa, o.empresa !in q.pendientes)])
  {
    var vacia := EmpresaVacia(Etiqueta(q));
    FoldedIn(q.empresas, k, vs, o, if o.empresa in q.empresas then q.empresas[o.empresa] else vacia);
    StillGood(q.empresas, k, vs, Vista(k, o));
  }

  ghost predicate AvisosPliegan(avisos: map<nat, Aviso>, vs: seq<Vista>) {
    forall i | i in avisos :: Bien(avisos[i].nuevas, avisos[i].clave, vs)
  }

  lemma NoticesStillFold(avisos: map<nat, Aviso>, vs: seq<Vista>, v: Vista)
    requires AvisosPliegan(avisos, vs)
    ensures AvisosPliegan(avisos, vs + [v])
  {
    forall i | i in avisos ensures Bien(avisos[i].nuevas, avisos[i].clave, vs + [v]) {
      StillGood(avisos[i].nuevas, avisos[i].clave, vs, v);
    }
  }

  /** The notice a new company goes to, with the query folded in. */
  lemma NewsFolded(l: Libro, c: Contrato, o: Observacion, vs: seq<Vista>)
    requires AvisosPliegan(l.avisos, vs)
    ensures var m := ConNovedadEn(l, c, o, o.empresa);
      m.contratos == l.contratos && AvisosPliegan(m.avisos, vs + [Vista(c.clave, o)])
  {
    NoticesStillFold(l.avisos, vs, Vista(c.clave, o));
    if Abiertos(l, c.clave) == {} {
      NoticeFolded(AvisoVacio(c, o.ts), c, o, vs);
      NewStored(l, ConNovedad(AvisoVacio(c, o.ts), c, o, o.empresa), vs + [Vista(c.clave, o)]);
    } else {
      NoticeFolded(l.avisos[Ultimo(Abiertos(l, c.clave))], c, o, vs);
    }
  }

  lemma NewStored(l: Libro, a: Aviso, vs: seq<Vista>)
    requires AvisosPliegan(l.avisos, vs) && Bien(a.nuevas, a.clave, vs)
    ensures ConAvisoNuevo(l, a).contratos == l.contratos && AvisosPliegan(ConAvisoNuevo(l, a).avisos, vs)
  {
  }

  lemma NoticeFolded(a: Aviso, c: Contrato, o: Observacion, vs: seq<Vista>)
    requires a.clave == c.clave && Bien(a.nuevas, a.clave, vs)
    ensures var b := ConNovedad(a, c, o, o.empresa);
            b.clave == a.clave && Bien(b.nuevas, b.clave, vs + [Vista(c.clave, o)])
  {
    FoldedIn(a.nuevas, a.clave, vs, o,
             if o.empresa in a.nuevas then a.nuevas[o.empresa] else EmpresaVacia(Etiqueta(c)));
  }

  lemma EffectsFolded(l: Libro, d: Contrato, o: Observacion, pre: seq<Efecto>, e: seq<Efecto>, vs: seq<Vista>)
    requires AvisosPliegan(l.avisos, vs)
    requires SinNovedad(pre) && (e == [] || e == [SinContrato]
                                 || (|e| == 1 && e[0].Novedad? && e[0].empresa == o.empresa))
    ensures var m := AplicaEfectos(l, d, o, pre + e);
      m.contratos == l.contratos && AvisosPliegan(m.avisos, vs + [Vista(d.clave, o)])
  {
    if e == [] || e == [SinContrato] {
      EffectsAreRows(l, d, o, pre + e);
      NoticesStillFold(l.avisos, vs, Vista(d.clave, o));
    } else {
      var lr := l.(registro := l.registro + FilasDe(pre, o.ts, d.clave));
      assert e == [e[0]];
      BookKeeps.NovelEffects(l, d, o, pre, e[0]);
      NewsFolded(lr, d, o, vs);
    }
  }

  lemma ObservedFolds(l: Libro, k: string, o: Observacion, lec: Lector, vs: seq<Vista>)
    requires Tablas(l) && k in l.contratos && Pliegues(l.contratos, l.avisos, vs)
    ensures var m := ObservadoEn(l, k, o, lec); Pliegues(m.contratos, m.avisos, vs + [Vista(k, o)])
  {
    var c := l.contratos[k];
    assert ContratoBien(c, k);
    var q := Leido(c, o);
    ReadContract(c, o);
    CompaniesRead(q, k, o, lec, vs);
    var (d, e) := ConEmpresa(q, o, lec);
    var pre := BookKeeps.Previos(c, o);
    assert Observa(c, o, lec) == (d, pre + e);
    EffectsFolded(l.(contratos := l.contratos[k := d]), d, o, pre, e, vs);
    OthersStillGood(l.contratos, k, d, vs, Vista(k, o));
  }

  lemma OthersStillGood(contratos: map<string, Contrato>, k: string, d: Contrato, vs: seq<Vista>, v: Vista)
    requires (forall x | x in contratos :: Bien(contratos[x].empresas, x, vs)) && Bien(d.empresas, k, vs + [v])
    ensures var m := contratos[k := d]; forall x | x in m :: Bien(m[x].empresas, x, vs + [v])
  {
    forall x | x in contratos ensures Bien(contratos[x].empresas, x, vs + [v]) {
      StillGood(contratos[x].empresas, x, vs, v);
    }
  }

  lemma ProgramFolds(l: Libro, p: Proceso, ts: int, lec: Lector, inicio: int, vs: seq<Vista>)
    requires Pliegues(l.contratos, l.avisos, vs)
    ensures var m := ConPrograma(l, p, ts, lec, inicio); Pliegues(m.contratos, m.avisos, vs)
  {
  }

  lemma RowFolds(l: Libro, f: Fila, lec: Lector, inicio: int, vs: seq<Vista>)
    requires Tablas(l) && Pliegues(l.contratos, l.avisos, vs)
    ensures var m := ConFila(l, f, lec, inicio);
      Pliegues(m.contratos, m.avisos, match Lee(f, lec) case None => vs case Some(v) => vs + [v])
  {
    if Lee(f, lec).Some? {
      var p, v := f.proceso.value, Lee(f, lec).value;
      var m := ConPrograma(l, p, f.ts, lec, inicio);
      BookKeeps.ProgramKeeps(l, p, f.ts, lec, inicio);
      ProgramFolds(l, p, f.ts, lec, inicio, vs);
      if v.clave in m.contratos { ObservedFolds(m, v.clave, v.o, lec, vs); }
      else { TablesStillGood(m.contratos, m.avisos, vs, v); }
    }
  }

  lemma {:induction false} RowsFold(l: Libro, fs: seq<Fila>, lec: Lector, inicio: int, vs: seq<Vista>)
    requires Tablas(l) && Pliegues(l.contratos, l.avisos, vs)
    ensures var m := ConFilas(l, fs, lec, inicio); Pliegues(m.contratos, m.avisos, vs + VistasDe(fs, lec))
    decreases |fs|
  {
    assert vs + [] == vs;
    if fs != [] {
      var una := match Lee(fs[0], lec) case None => [] case Some(v) => [v];
      RowFolds(l, fs[0], lec, inicio, vs);
      BookKeeps.RowOfPassKeeps(l, fs[0], lec, inicio);
      RowsFold(ConFila(l, fs[0], lec, inicio), fs[1..], lec, inicio, vs + una);
      Joined(vs, una, VistasDe(fs[1..], lec));
    }
  }

  lemma Joined(a: seq<Vista>, b: seq<Vista>, c: seq<Vista>)
    ensures a + (b + c) == (a + b) + c
  {
  }

  // ----- everything else folds nothing -----

  lemma {:induction false} QuietFold(l: Libro, orden: seq<string>, ahora: int, vs: seq<Vista>)
    requires Pliegues(l.contratos, l.avisos, vs)
    ensures var m := Quietos(l, orden, ahora); Pliegues(m.contratos, m.avisos, vs)
    decreases |orden|
  {
    if orden != [] {
      var k := orden[0];
      if k in l.contratos && TocaAprender(l.contratos[k], ahora) {
        var m := Registra(l.(contratos := l.contratos[k := Revisado(l.contratos[k], ahora)]), ahora,
                          l.contratos[k].clave, RAprendido);
        assert m.contratos[k].empresas == l.contratos[k].empresas;
        QuietFold(m, orden[1..], ahora, vs);
      } else {
        QuietFold(l, orden[1..], ahora, vs);
      }
    }
  }

  lemma CutFolds(l: Libro, id: nat, t: int, auto: bool, vs: seq<Vista>)
    requires id in l.avisos && Pliegues(l.contratos, l.avisos, vs)
    ensures var m := Cortada(l, id, t, auto); Pliegues(m.contratos, m.avisos, vs)
  {
    var a := l.avisos[id];
    if a.clave in l.contratos {
      var suyas := Entradas(a.nuevas, a.nuevas.Keys - Cortables(l, a));
      assert Bien(suyas, a.clave, vs);
      Together(l.contratos[a.clave].empresas, suyas, a.clave, vs);
    }
  }

  lemma {:induction false} CutsFold(l: Libro, ids: set<nat>, ahora: int, vs: seq<Vista>)
    requires ids <= l.avisos.Keys && Pliegues(l.contratos, l.avisos, vs)
    ensures var m := CortaTodos(l, ids, ahora); Pliegues(m.contratos, m.avisos, vs)
    decreases |ids|
  {
    if ids != {} {
      var i := Ultimo(ids);
      CutsFold(l, ids - {i}, ahora, vs);
      CutFolds(CortaTodos(l, ids - {i}, ahora), i, ahora, true, vs);
    }
  }

  lemma {:induction false} AutoCutsFold(l: Libro, orden: seq<string>, ahora: int, vs: seq<Vista>)
    requires Pliegues(l.contratos, l.avisos, vs)
    ensures var m := CortesAuto(l, orden, ahora); Pliegues(m.contratos, m.avisos, vs)
    decreases |orden|
  {
    if orden != [] {
      var k := orden[0];
      if k in l.contratos && l.contratos[k].estado == Fijado {
        CutsFold(l, Abiertos(l, k), ahora, vs);
        AutoCutsFold(CortaTodos(l, Abiertos(l, k), ahora), orden[1..], ahora, vs);
      } else {
        AutoCutsFold(l, orden[1..], ahora, vs);
      }
    }
  }

  lemma {:induction false} NoticesTogether(avisos: map<nat, Aviso>, ids: set<nat>, k: string, vs: seq<Vista>)
    requires ids <= avisos.Keys && forall i | i in ids :: avisos[i].clave == k && Bien(avisos[i].nuevas, k, vs)
    ensures Bien(NuevasDe(avisos, ids), k, vs)
    decreases |ids|
  {
    if ids != {} {
      var i := Ultimo(ids);
      NoticesTogether(avisos, ids - {i}, k, vs);
      Together(avisos[i].nuevas, NuevasDe(avisos, ids - {i}), k, vs);
    }
  }

  lemma RelearnOneFolds(l: Libro, k: string, lec: Lector, ahora: int, vs: seq<Vista>)
    requires k in l.contratos && l.contratos[k].clave == k && Pliegues(l.contratos, l.avisos, vs)
    ensures var m := ReaprendeUno(l, k, lec, ahora); Pliegues(m.contratos, m.avisos, vs)
  {
    var c, ids := l.contratos[k], Abiertos(l, k);
    NoticesTogether(l.avisos, ids, k, vs);
    Together(NuevasDe(l.avisos, ids), c.empresas, k, vs);
    var m := ReaprendeUno(l, k, lec, ahora);
    if m != l {
      var d := ContratoReaprendido(c, lec.motivo(c.nombre) == Propio, NuevasDe(l.avisos, ids), ahora);
      assert m.contratos == l.contratos[k := d] && m.avisos == l.avisos - ids;
      assert Bien(d.empresas, k, vs);
    }
  }

  lemma {:induction false} RelearnFolds(l: Libro, orden: seq<string>, lec: Lector, ahora: int, vs: seq<Vista>)
    requires Tablas(l) && Pliegues(l.contratos, l.avisos, vs)
    ensures var m := Reaprende(l, orden, lec, ahora); Pliegues(m.contratos, m.avisos, vs)
    decreases |orden|
  {
    if orden != [] {
      if orden[0] in l.contratos {
        assert ContratoBien(l.contratos[orden[0]], orden[0]);
        RelearnOneFolds(l, orden[0], lec, ahora, vs);
        BookKeeps.RelearnOneKeeps(l, orden[0], lec, ahora);
        RelearnFolds(ReaprendeUno(l, orden[0], lec, ahora), orden[1..], lec, ahora, vs);
      } else {
        RelearnFolds(l, orden[1..], lec, ahora, vs);
      }
    }
  }

  lemma ResolvedFolds(l: Libro, id: nat, t: int, vs: seq<Vista>)
    requires Pliegues(l.contratos, l.avisos, vs)
    ensures Pliegues(Aceptar(l, id, t).contratos, Aceptar(l, id, t).avisos, vs)
    ensures Pliegues(Deshacer(l, id, t).contratos, Deshacer(l, id, t).avisos, vs)
  {
    if id in l.avisos && l.avisos[id].clave in l.contratos {
      Together(l.contratos[l.avisos[id].clave].empresas, l.avisos[id].nuevas, l.avisos[id].clave, vs);
    }
  }

  lemma StartFolds(l: Libro, lec: Lector, ahora: int, vs: seq<Vista>)
    requires Tablas(l) && Pliegues(l.contratos, l.avisos, vs)
    ensures var m := ConInicio(l, lec, ahora); Tablas(m) && Pliegues(m.contratos, m.avisos, vs)
  {
    if l.inicio.None? {
      RelearnFolds(l, Sorted(l.contratos.Keys), lec, ahora, vs);
      BookKeeps.RelearnKeeps(l, Sorted(l.contratos.Keys), lec, ahora);
      BookKeeps.SameTables(Reaprende(l, Sorted(l.contratos.Keys), lec, ahora), ConInicio(l, lec, ahora));
    }
  }

  lemma PassFolds(l: Libro, lec: Lector, orden: seq<string>, ahora: int, vs: seq<Vista>)
    requires Tablas(l) && Pliegues(l.contratos, l.avisos, vs)
    ensures var m, r := ConInicio(l, lec, ahora), Pasada(l, lec, orden, ahora);
      Pliegues(r.contratos, r.avisos, vs + VistasDe(LoteDe(m), lec))
  {
    var m := ConInicio(l, lec, ahora);
    StartFolds(l, lec, ahora, vs);
    var n := ConFilas(m, LoteDe(m), lec, m.inicio.value);
    RowsFold(m, LoteDe(m), lec, m.inicio.value, vs);
    QuietFold(n, orden, ahora, vs + VistasDe(LoteDe(m), lec));
    AutoCutsFold(Quietos(n, orden, ahora), orden, ahora, vs + VistasDe(LoteDe(m), lec));
  }

  lemma StepFolds(l: Libro, p: Paso, vs: seq<Vista>)
    requires Tablas(l) && Pliegues(l.contratos, l.avisos, vs)
    ensures var m := Da(l, p);
      Pliegues(m.contratos, m.avisos, vs + (if p.Pasa? then VistasDe(Feeding.LeidasEn(l, p), p.lec) else []))
  {
    if p.Pasa? {
      PassFolds(l, p.lec, p.orden, p.ahora, vs);
    } else {
      PersonFolds(l, p, vs);
      assert vs + [] == vs;
    }
  }

  /** What is not a pass reads nothing. */
  lemma PersonFolds(l: Libro, p: Paso, vs: seq<Vista>)
    requires Pliegues(l.contratos, l.avisos, vs) && !p.Pasa?
    ensures Pliegues(Da(l, p).contratos, Da(l, p).avisos, vs)
  {
    match p
    case Anotada(f) =>
    case Corta(id, t) => if HayAbierto(l, id) { CutFolds(l, id, t, false, vs); }
    case Acepta(id, t) => ResolvedFolds(l, id, t, vs);
    case Deshace(id, t) => ResolvedFolds(l, id, t, vs);
    case Fija(clave, fijar, t) =>
  }

  lemma {:induction false} RunFolds(l: Libro, pasos: seq<Paso>, vs: seq<Vista>)
    requires Tablas(l) && Pliegues(l.contratos, l.avisos, vs)
    ensures var r := Corre(l, pasos); Pliegues(r.contratos, r.avisos, vs + Vistas(l, pasos))
    decreases |pasos|
  {
    if pasos == [] {
      assert vs + [] == vs;
    } else {
      var p := pasos[0];
      var suyas := if p.Pasa? then VistasDe(Feeding.LeidasEn(l, p), p.lec) else [];
      StepFolds(l, p, vs);
      BookKeeps.StepKeeps(l, p);
      RunFolds(Da(l, p), pasos[1..], vs + suyas);
      Joined(vs, suyas, Vistas(Da(l, p), pasos[1..]));
    }
  }

  // ----- what that says of a count -----

  predicate EnOrden(indices: seq<nat>, n: nat) {
    (forall i | 0 <= i < |indices| :: indices[i] < n)
        && (forall i, j | 0 <= i < j < |indices| :: indices[i] < indices[j])
  }

  /** The queries at some places. */
  function Elegidas(os: seq<Observacion>, indices: seq<nat>): (r: seq<Observacion>)
    requires forall i | 0 <= i < |indices| :: indices[i] < |os|
    ensures |r| == |indices|
  {
    seq(|indices|, i requires 0 <= i < |indices| => os[indices[i]])
  }

  lemma FoldedLast(b: Empresa, x: Empresa, os: seq<Observacion>, antes: seq<nat>)
    requires os != [] && Suma(b, x, os[|os| - 1]) && EnOrden(antes, |os| - 1)
    requires b == Plegada(EmpresaVacia(b.version), Elegidas(os[..|os| - 1], antes))
    ensures x == Plegada(EmpresaVacia(x.version), Elegidas(os, antes + [|os| - 1]))
  {
    var elegidas := Elegidas(os, antes + [|os| - 1]);
    assert elegidas[..|antes|] == Elegidas(os[..|os| - 1], antes);
    assert elegidas[|antes|] == os[|os| - 1];
  }

  /** An entry that folds some of the queries is the fold of those at some places, in order and each once. */
  lemma {:induction false} FoldOfSome(x: Empresa, os: seq<Observacion>) returns (indices: seq<nat>)
    requires Pliegue(x, os)
    ensures EnOrden(indices, |os|) && x == Plegada(EmpresaVacia(x.version), Elegidas(os, indices))
    decreases |os|
  {
    if x == EmpresaVacia(x.version) {
      indices := [];
    } else {
      var n := |os| - 1;
      if Pliegue(x, os[..n]) {
        indices := FoldOfSome(x, os[..n]);
        assert Elegidas(os, indices) == Elegidas(os[..n], indices);
      } else {
        var b: Empresa :| Suma(b, x, os[n]) && Pliegue(b, os[..n]);
        var antes := FoldOfSome(b, os[..n]);
        indices := antes + [n];
        FoldedLast(b, x, os, antes);
      }
    }
  }

  /**
   * From the start, whatever the passes and the person do: what a contract or a notice holds of a company is the fold
   * of some of the queries read of that program and company, in the order they were read and none twice; so it never
   * counts more than there were, and its names and sites are theirs.
   */
  lemma EntriesFoldTheRun(pasos: seq<Paso>, k: string, e: string, i: nat)
    ensures var r, vs := Corre(NUEVO, pasos), Vistas(NUEVO, pasos);
      k in r.contratos && e in r.contratos[k].empresas ==> EsDe(r.contratos[k].empresas[e], De(vs, k, e))
    ensures var r, vs := Corre(NUEVO, pasos), Vistas(NUEVO, pasos);
      i in r.avisos && e in r.avisos[i].nuevas ==> EsDe(r.avisos[i].nuevas[e], De(vs, r.avisos[i].clave, e))
  {
    RunFolds(NUEVO, pasos, []);
    var r, vs := Corre(NUEVO, pasos), Vistas(NUEVO, pasos);
    assert [] + vs == vs;
    if k in r.contratos && e in r.contratos[k].empresas {
      assert Bien(r.contratos[k].empresas, k, vs);
      EntryIsOf(r.contratos[k].empresas[e], De(vs, k, e));
    }
    if i in r.avisos && e in r.avisos[i].nuevas {
      assert Bien(r.avisos[i].nuevas, r.avisos[i].clave, vs);
      EntryIsOf(r.avisos[i].nuevas[e], De(vs, r.avisos[i].clave, e));
    }
  }

  /** The entry is the fold of some of these queries: no more than there are, bounded, its names and sites theirs. */
  ghost predicate EsDe(x: Empresa, os: seq<Observacion>) {
    && (exists indices :: EnOrden(indices, |os|) && x == Plegada(EmpresaVacia(x.version), Elegidas(os, indices)))
    && x.veces <= |os| && |x.nombres| <= MAX_NOMBRES && |x.sitios| <= MAX_SITIOS
    && (forall n | n in x.nombres :: exists o | o in os :: o.qname == n)
    && (forall s | s in x.sitios :: exists o | o in os :: o.sitio == s)
  }

  lemma EntryIsOf(x: Empresa, os: seq<Observacion>)
    requires Pliegue(x, os)
    ensures EsDe(x, os)
  {
    var indices := FoldOfSome(x, os);
    FoldedCompany(x.version, Elegidas(os, indices));
    NoMoreThan(indices, |os|);
    ChosenNames(x, os, indices);
    ChosenSites(x, os, indices);
  }

  lemma ChosenNames(x: Empresa, os: seq<Observacion>, indices: seq<nat>)
    requires EnOrden(indices, |os|) && NombresDe(x, Elegidas(os, indices))
    ensures forall n | n in x.nombres :: exists o | o in os :: o.qname == n
  {
    var elegidas := Elegidas(os, indices);
    forall n | n in x.nombres ensures exists o | o in os :: o.qname == n {
      var i :| 0 <= i < |elegidas| && elegidas[i].qname == n;
      assert elegidas[i] == os[indices[i]] && os[indices[i]] in os;
    }
  }

  lemma ChosenSites(x: Empresa, os: seq<Observacion>, indices: seq<nat>)
    requires EnOrden(indices, |os|) && SitiosSuyos(x, Elegidas(os, indices))
    ensures forall s | s in x.sitios :: exists o | o in os :: o.sitio == s
  {
    var elegidas := Elegidas(os, indices);
    forall s | s in x.sitios ensures exists o | o in os :: o.sitio == s {
      var i :| 0 <= i < |elegidas| && elegidas[i].sitio == s && s != "";
      assert elegidas[i] == os[indices[i]] && os[indices[i]] in os;
    }
  }

  lemma {:induction false} NoMoreThan(indices: seq<nat>, n: nat)
    requires EnOrden(indices, n)
    ensures |indices| <= n
    decreases |indices|
  {
    if indices != [] {
      var k := |indices| - 1;
      NoMoreThan(indices[..k], indices[k]);
    }
  }

  // ----- counts that go down -----

  /** No company of any contract counts less than before. */
  predicate NingunoBaja(l: Libro, m: Libro) {
    forall k, x | k in l.contratos && x in l.contratos[k].empresas ::
      Cuenta(m, k, x) >= l.contratos[k].empresas[x].veces
  }

  function Cuenta(l: Libro, k: string, x: string): nat {
    if k in l.contratos && x in l.contratos[k].empresas then l.contratos[k].empresas[x].veces else 0
  }

  /** What the contract counts of a company of the notice is no more than what the notice does. */
  predicate NoCuentaMas(c: Contrato, a: Aviso, es: set<string>) {
    forall e | e in es && e in a.nuevas && e in c.empresas :: c.empresas[e].veces <= a.nuevas[e].veces
  }

  /** Joining some companies of a notice lowers no count exactly when the contract has none of them counted higher. */
  lemma JoiningLowers(l: Libro, m: Libro, a: Aviso, es: set<string>, d: Contrato)
    requires a.clave in l.contratos && es <= a.nuevas.Keys && m.contratos == l.contratos[a.clave := d]
    requires d.empresas == l.contratos[a.clave].empresas + Entradas(a.nuevas, es)
    ensures NingunoBaja(l, m) <==> NoCuentaMas(l.contratos[a.clave], a, es)
  {
    var c := l.contratos[a.clave];
    forall e | e in c.empresas
      ensures Cuenta(m, a.clave, e) == if e in es then a.nuevas[e].veces else c.empresas[e].veces
    {
    }
    forall k, x | k in l.contratos && x in l.contratos[k].empresas && k != a.clave
      ensures Cuenta(m, k, x) == l.contratos[k].empresas[x].veces
    {
    }
  }

  /** Accepting a notice lowers no count exactly when none of its companies has a higher one in the contract already. */
  lemma AcceptLowersNone(l: Libro, id: nat, t: int)
    requires HayAbierto(l, id) && l.avisos[id].clave in l.contratos
    ensures var a := l.avisos[id];
            NingunoBaja(l, Aceptar(l, id, t)) <==> NoCuentaMas(l.contratos[a.clave], a, a.nuevas.Keys)
  {
    var a := l.avisos[id];
    assert Entradas(a.nuevas, a.nuevas.Keys) == a.nuevas;
    JoiningLowers(l, Aceptar(l, id, t), a, a.nuevas.Keys, ContratoAceptado(l.contratos[a.clave], a));
  }

  /** Undoing a cut, the same: a company left uncut has been in the contract, and counting, since the cut. */
  lemma UndoLowersNone(l: Libro, id: nat, t: int)
    requires HayCorte(l, id) && l.avisos[id].clave in l.contratos
    ensures var a := l.avisos[id];
            NingunoBaja(l, Deshacer(l, id, t)) <==> NoCuentaMas(l.contratos[a.clave], a, a.nuevas.Keys)
  {
    var a := l.avisos[id];
    assert Entradas(a.nuevas, a.nuevas.Keys) == a.nuevas;
    JoiningLowers(l, Deshacer(l, id, t), a, a.nuevas.Keys, ContratoDeshecho(l.contratos[a.clave], a));
  }

  /** And cutting, for the companies it leaves uncut. */
  lemma CutLowersNone(l: Libro, id: nat, t: int, auto: bool)
    requires id in l.avisos && l.avisos[id].clave in l.contratos
    ensures var a := l.avisos[id];
      NingunoBaja(l, Cortada(l, id, t, auto)) <==> NoCuentaMas(l.contratos[a.clave], a, a.nuevas.Keys - Cortables(l, a))
  {
    var a := l.avisos[id];
    JoiningLowers(l, Cortada(l, id, t, auto), a, a.nuevas.Keys - Cortables(l, a),
                  ContratoCortado(l.contratos[a.clave], a, Cortables(l, a)));
  }

  /** A contract with one company, and a notice of that company with one query. */
  function UnContrato(veces: nat, pendientes: set<string>): Contrato {
    Contrato("p", "p", "", "", "", "", "", 0, 0, 0, [], Vigilando, SinMotivo, Some(0),
             map["a" := Empresa({}, {}, 0, 0, veces, "", true)], pendientes, {}, [])
  }

  function UnAviso(estado: EstadoAviso): Aviso {
    Aviso("p", "p", "", "", 0, 0, {}, map["a" := Empresa({}, {}, 0, 0, 1, "", true)], estado,
          if estado == Abierto then None else Some(0), [], if estado == Abierto then map[] else map["a" := Esperado])
  }

  function UnLibro(veces: nat, estado: EstadoAviso): Libro {
    Libro(map["p" := UnContrato(veces, if estado == Abierto then {"a"} else {})], map[1 := UnAviso(estado)], 2, [], [],
          0, None, [])
  }

  lemma OneTable(veces: nat, estado: EstadoAviso)
    requires estado == Abierto || estado == Cortado
    ensures Tablas(UnLibro(veces, estado))
  {
    var l := UnLibro(veces, estado);
    assert Abiertos(l, "p") == if estado == Abierto then {1} else {};
    assert ContratosBien(l) by { assert ContratoBien(l.contratos["p"], "p"); }
    assert AvisosBien(l) by {
      assert "a" in l.avisos[1].nuevas;
      assert AvisoBien(l.contratos, l.avisos[1]);
    }
  }

  /** Accepting or undoing a notice leaves its own count of its companies. */
  lemma NoticeCounts(l: Libro, e: string, t: int)
    requires 1 in l.avisos && l.avisos[1].clave in l.contratos && e in l.avisos[1].nuevas
    ensures var a := l.avisos[1];
      && (HayAbierto(l, 1) ==> Cuenta(Aceptar(l, 1, t), a.clave, e) == a.nuevas[e].veces)
      && (HayCorte(l, 1) ==> Cuenta(Deshacer(l, 1, t), a.clave, e) == a.nuevas[e].veces)
  {
  }

  /** The tables of a company left uncut that has been asked `veces` times since: undoing the cut counts one again. */
  lemma UndoForgetsTheCount(veces: nat, t: int)
    requires veces > 1
    ensures var l := UnLibro(veces, Cortado);
      Tablas(l) && Cuenta(l, "p", "a") == veces && Cuenta(Deshacer(l, 1, t), "p", "a") == 1
  {
    OneTable(veces, Cortado);
    NoticeCounts(UnLibro(veces, Cortado), "a", t);
  }

  /** The same for a company that joined quietly while its notice was open, when the notice is accepted. */
  lemma AcceptForgetsTheCount(veces: nat, t: int)
    requires veces > 1
    ensures var l := UnLibro(veces, Abierto);
      Tablas(l) && Cuenta(l, "p", "a") == veces && Cuenta(Aceptar(l, 1, t), "p", "a") == 1
  {
    OneTable(veces, Abierto);
    NoticeCounts(UnLibro(veces, Abierto), "a", t);
  }
}
