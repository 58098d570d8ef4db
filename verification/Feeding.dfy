/** Every row of the extract reaches the contracts once, in order, whatever the passes. */
module Feeding {
  import opened Basics
  import WhoAsked
  import opened Contracts
  import opened Book

  /** The rows' numbers grow, as the extract gives them. */
  predicate Creciente(fs: seq<Fila>) { forall i, j | 0 <= i < j < |fs| :: fs[i].id < fs[j].id }

  predicate Elegible(f: Fila, desde: int) { f.id > desde && f.deEsteEquipo && f.conPrograma }

  // ----- the rows to read -----

  /** The rows a pass may read are this computer's with a program past the cursor, all of them, in order. */
  lemma {:induction false} EligibleRows(ex: seq<Fila>, desde: int)
    requires Creciente(ex)
    ensures Creciente(Elegibles(ex, desde))
    ensures forall f :: f in Elegibles(ex, desde) <==> f in ex && Elegible(f, desde)
    decreases |ex|
  {
    if ex != [] {
      var n := |ex| - 1;
      EligibleRows(ex[..n], desde);
      assert ex == ex[..n] + [ex[n]];
      forall f | f in Elegibles(ex[..n], desde) ensures f.id < ex[n].id {}
    }
  }

  lemma NoneLeft(ex: seq<Fila>, desde: int)
    requires Creciente(ex) && forall f | f in ex :: f.id <= desde
    ensures Elegibles(ex, desde) == []
  {
    EligibleRows(ex, desde);
    assert Elegibles(ex, desde) != [] ==> Elegibles(ex, desde)[0] in Elegibles(ex, desde);
  }

  function Solo(f: Fila, desde: int): seq<Fila> { if Elegible(f, desde) then [f] else [] }

  lemma OneMoreRow(ex: seq<Fila>, f: Fila, desde: int)
    ensures Elegibles(ex + [f], desde) == Elegibles(ex, desde) + Solo(f, desde)
  {
    assert (ex + [f])[..|ex|] == ex;
  }

  /** Past row `k - 1` of those, the rest is left. */
  lemma {:induction false} RestOfRows(ex: seq<Fila>, desde: int, k: nat)
    requires Creciente(ex) && 0 < k <= |Elegibles(ex, desde)|
    ensures Elegibles(ex, Elegibles(ex, desde)[k - 1].id) == Elegibles(ex, desde)[k..]
    decreases |ex|, 1
  {
    var pre, f := ex[..|ex| - 1], ex[|ex| - 1];
    var todas := Elegibles(ex, desde);
    assert ex == pre + [f];
    OneMoreRow(pre, f, desde);
    OneMoreRow(pre, f, todas[k - 1].id);
    RestOfOneMore(pre, f, desde, todas, k);
  }

  lemma {:induction false} RestOfOneMore(pre: seq<Fila>, f: Fila, desde: int, todas: seq<Fila>, k: nat)
    requires Creciente(pre) && (forall i | 0 <= i < |pre| :: pre[i].id < f.id)
    requires todas == Elegibles(pre, desde) + Solo(f, desde) && 0 < k <= |todas|
    ensures Elegibles(pre, todas[k - 1].id) + Solo(f, todas[k - 1].id) == todas[k..]
    decreases |pre|, 2
  {
    var antes := Elegibles(pre, desde);
    if k <= |antes| {
      EligibleRows(pre, desde);
      assert antes[k - 1] in antes;
      RestOfRows(pre, desde, k);
    } else {
      NoneLeft(pre, f.id);
    }
  }

  function Hasta(lote: seq<Fila>, desde: int): int { if lote == [] then desde else lote[|lote| - 1].id }

  /** What was read from the extract as it was and what is left of it as it grew are all there is. */
  lemma {:induction false} ReadAndLeft(ex: seq<Fila>, grown: seq<Fila>, desde: int, k: nat)
    requires Creciente(grown) && ex <= grown && k <= |Elegibles(ex, desde)|
    ensures var lote := Elegibles(ex, desde)[..k];
      lote + Elegibles(grown, Hasta(lote, desde)) == Elegibles(grown, desde)
    decreases |grown|
  {
    var lote := Elegibles(ex, desde)[..k];
    if k > 0 {
      EligibleRows(ex, desde);
      assert lote[k - 1] in Elegibles(ex, desde);
      if |grown| == |ex| {
        RestOfRows(ex, desde, k);
        assert ex == grown;
      } else {
        var n := |grown| - 1;
        ReadAndLeft(ex, grown[..n], desde, k);
        assert lote[k - 1].id < grown[n].id;
      }
    }
  }

  // ----- what nothing but a new row or a pass changes -----

  predicate Mismas(l: Libro, m: Libro) { m.extracto == l.extracto && m.cursor == l.cursor && m.inicio == l.inicio }

  lemma {:induction false} EffectsKeepRows(l: Libro, c: Contrato, o: Observacion, es: seq<Efecto>)
    ensures Mismas(l, AplicaEfectos(l, c, o, es))
    decreases |es|
  {
    if es != [] { EffectsKeepRows(AplicaEfecto(l, c, o, es[0]), c, o, es[1..]); }
  }

  lemma RowKeepsRows(l: Libro, f: Fila, lec: Lector, inicio: int)
    ensures Mismas(l, ConFila(l, f, lec, inicio))
  {
    if f.proceso.Some? && !Blanco(f.proceso.value.nombre) {
      var p, qname := f.proceso.value, WhoAsked.Normaliza(f.qname);
      if lec.lee(qname).Some? {
        var r, m := lec.lee(qname).value, ConPrograma(l, p, f.ts, lec, inicio);
        if lec.clave(p) in m.contratos {
          var o := Observacion(f.ts, qname, r.empresa, r.sitio, f.esperado, p);
          var (c, es) := Observa(m.contratos[lec.clave(p)], o, lec);
          EffectsKeepRows(m.(contratos := m.contratos[lec.clave(p) := c]), c, o, es);
        }
      }
    }
  }

  lemma {:induction false} RowsKeepRows(l: Libro, fs: seq<Fila>, lec: Lector, inicio: int)
    ensures Mismas(l, ConFilas(l, fs, lec, inicio))
    decreases |fs|
  {
    if fs != [] {
      RowKeepsRows(l, fs[0], lec, inicio);
      RowsKeepRows(ConFila(l, fs[0], lec, inicio), fs[1..], lec, inicio);
    }
  }

  lemma {:induction false} QuietKeepRows(l: Libro, orden: seq<string>, ahora: int)
    ensures Mismas(l, Quietos(l, orden, ahora))
    decreases |orden|
  {
    if orden != [] {
      var k := orden[0];
      QuietKeepRows(if k in l.contratos && TocaAprender(l.contratos[k], ahora)
        then Registra(l.(contratos := l.contratos[k := Revisado(l.contratos[k], ahora)]), ahora, l.contratos[k].clave,
                      RAprendido)
        else l, orden[1..], ahora);
    }
  }

  lemma {:induction false} CutsKeepRows(l: Libro, ids: set<nat>, ahora: int)
    requires ids <= l.avisos.Keys
    ensures Mismas(l, CortaTodos(l, ids, ahora))
    decreases |ids|
  {
    if ids != {} { CutsKeepRows(l, ids - {Ultimo(ids)}, ahora); }
  }

  lemma {:induction false} AutoCutsKeepRows(l: Libro, orden: seq<string>, ahora: int)
    ensures Mismas(l, CortesAuto(l, orden, ahora))
    decreases |orden|
  {
    if orden != [] {
      var k := orden[0];
      if k in l.contratos && l.contratos[k].estado == Fijado {
        CutsKeepRows(l, Abiertos(l, k), ahora);
        AutoCutsKeepRows(CortaTodos(l, Abiertos(l, k), ahora), orden[1..], ahora);
      } else {
        AutoCutsKeepRows(l, orden[1..], ahora);
      }
    }
  }

  lemma {:induction false} LearningAgainKeepsRows(l: Libro, orden: seq<string>, lec: Lector, ahora: int)
    ensures Mismas(l, Reaprende(l, orden, lec, ahora))
    decreases |orden|
  {
    if orden != [] {
      LearningAgainKeepsRows(if orden[0] in l.contratos then ReaprendeUno(l, orden[0], lec, ahora) else l,
                             orden[1..], lec, ahora);
    }
  }

  /** A pass reads its batch from the cursor on and leaves the cursor at its last row. */
  lemma PassReads(l: Libro, lec: Lector, orden: seq<string>, ahora: int)
    ensures var m, r := ConInicio(l, lec, ahora), Pasada(l, lec, orden, ahora);
      LoteDe(m) == LoteDe(l) && r.extracto == l.extracto && r.cursor == Hasta(LoteDe(l), l.cursor)
  {
    LearningAgainKeepsRows(l, Sorted(l.contratos.Keys), lec, ahora);
    var m := ConInicio(l, lec, ahora);
    var fs := LoteDe(m);
    var n := ConFilas(m, fs, lec, m.inicio.value);
    RowsKeepRows(m, fs, lec, m.inicio.value);
    QuietKeepRows(n, orden, ahora);
    AutoCutsKeepRows(Quietos(n, orden, ahora), orden, ahora);
  }

  // ----- runs -----

  function LeidasEn(l: Libro, p: Paso): seq<Fila> {
    if p.Pasa? then LoteDe(ConInicio(l, p.lec, p.ahora)) else []
  }

  /** The rows the passes of a run read, in the order they were read. */
  function Leidas(l: Libro, pasos: seq<Paso>): seq<Fila>
    decreases |pasos|
  {
    if pasos == [] then []
    else LeidasEn(l, pasos[0]) + Leidas(Da(l, pasos[0]), pasos[1..])
  }

  lemma StepGrows(l: Libro, p: Paso)
    requires Creciente(l.extracto)
    ensures var r := Da(l, p); Creciente(r.extracto) && l.extracto <= r.extracto && (p.Pasa? || r.cursor == l.cursor)
  {
    if p.Pasa? { PassReads(l, p.lec, p.orden, p.ahora); }
  }

  lemma {:induction false} RunGrows(l: Libro, pasos: seq<Paso>)
    requires Creciente(l.extracto)
    ensures Creciente(Corre(l, pasos).extracto) && l.extracto <= Corre(l, pasos).extracto
    decreases |pasos|
  {
    if pasos != [] {
      StepGrows(l, pasos[0]);
      RunGrows(Da(l, pasos[0]), pasos[1..]);
    }
  }

  /** What one step reads, and the cursor after it, against the extract as it grows later. */
  lemma StepReads(l: Libro, p: Paso, grown: seq<Fila>)
    requires Creciente(grown) && Da(l, p).extracto <= grown && Creciente(l.extracto)
    ensures LeidasEn(l, p) + Elegibles(grown, Da(l, p).cursor) == Elegibles(grown, l.cursor)
  {
    StepGrows(l, p);
    if p.Pasa? {
      PassReads(l, p.lec, p.orden, p.ahora);
      var k := |LoteDe(l)|;
      assert LoteDe(l) == Elegibles(l.extracto, l.cursor)[..k];
      ReadAndLeft(l.extracto, grown, l.cursor, k);
    }
  }

  /**
   * In any run, what the passes read and what is still to be read are, in order, all the rows of this computer
   * with a program since the cursor was where it began: each is read once, none is skipped.
   */
  lemma {:induction false} EachRowOnce(l: Libro, pasos: seq<Paso>)
    requires Creciente(l.extracto)
    ensures var r := Corre(l, pasos);
      Leidas(l, pasos) + Elegibles(r.extracto, r.cursor) == Elegibles(r.extracto, l.cursor)
    decreases |pasos|
  {
    if pasos != [] {
      var p, m, r := pasos[0], Da(l, pasos[0]), Corre(l, pasos);
      StepGrows(l, p);
      RunGrows(m, pasos[1..]);
      EachRowOnce(m, pasos[1..]);
      StepReads(l, p, r.extracto);
      Joined(LeidasEn(l, p), Leidas(m, pasos[1..]), Elegibles(r.extracto, r.cursor));
    }
  }

  lemma Joined(a: seq<Fila>, b: seq<Fila>, c: seq<Fila>)
    ensures a + (b + c) == (a + b) + c
  {
  }

  /** A pass that finds fewer rows than its batch leaves none to read. */
  lemma LastPassLeavesNone(l: Libro, lec: Lector, orden: seq<string>, ahora: int)
    requires Creciente(l.extracto)
    ensures var r := Pasada(l, lec, orden, ahora);
      Elegibles(r.extracto, r.cursor) == [] <==> |Elegibles(l.extracto, l.cursor)| <= LOTE
  {
    PassReads(l, lec, orden, ahora);
    var e := Elegibles(l.extracto, l.cursor);
    ReadAndLeft(l.extracto, l.extracto, l.cursor, |LoteDe(l)|);
    assert LoteDe(l) == e[..|LoteDe(l)|];
    assert |e| == |LoteDe(l)| + |Elegibles(l.extracto, Hasta(LoteDe(l), l.cursor))|;
  }
}
