/** The contracts' tables as the program changes them, step by step (crates/core/src/contratos.rs). */
module Ledger {
  import opened Basics
  import opened Contracts
  import opened Book
  import WhoAsked

  // ----- how a cut grows, one site at a time -----

  /** The rules `ahora` are `antes` and one for each of the sites `hechos`, numbered `ids`. */
  predicate Hecho(antes: seq<Regla>, ahora: seq<Regla>, ids: seq<nat>, hechos: seq<string>, t: int) {
    ahora == antes + Reglas(hechos, t) && ids == Numeros(|antes| + 1, |hechos|)
  }

  lemma OneRuleMore(antes: seq<Regla>, ahora: seq<Regla>, ids: seq<nat>, hechos: seq<string>, s: string, t: int)
    requires Hecho(antes, ahora, ids, hechos, t)
    ensures Hecho(antes, ahora + [ReglaCorte(s, t)], ids + [|ahora| + 1], hechos + [s], t)
  {
  }

  lemma TwoCuts(antes: seq<Regla>, medio: seq<Regla>, ahora: seq<Regla>, ids: seq<nat>, masIds: seq<nat>,
                hechos: seq<string>, mas: seq<string>, t: int)
    requires Hecho(antes, medio, ids, hechos, t) && Hecho(medio, ahora, masIds, mas, t)
    ensures Hecho(antes, ahora, ids + masIds, hechos + mas, t)
  {
    assert Reglas(hechos + mas, t) == Reglas(hechos, t) + Reglas(mas, t);
    assert (antes + Reglas(hechos, t)) + Reglas(mas, t) == antes + (Reglas(hechos, t) + Reglas(mas, t));
  }

  /** What the sites done and the ones to do come to. */
  predicate VanSitios(hechos: seq<string>, faltan: seq<string>, activas: seq<Regla>, t: int, p: seq<string>) {
    hechos + SitiosDe(faltan, activas, t) == p
  }

  lemma SiteDone(hechos: seq<string>, faltan: seq<string>, activas: seq<Regla>, t: int, p: seq<string>)
    requires faltan != [] && VanSitios(hechos, faltan, activas, t, p)
    ensures VanSitios(if YaCortado(activas, faltan[0], t) then hechos else hechos + [faltan[0]],
                      faltan[1..], activas, t, p)
  {
    var resto := SitiosDe(faltan[1..], activas, t);
    if YaCortado(activas, faltan[0], t) {
      assert [] + resto == resto;
    } else {
      assert hechos + ([faltan[0]] + resto) == (hechos + [faltan[0]]) + resto;
    }
  }

  /** What the companies of a notice done and the ones to do come to. */
  predicate VanEmpresas(l: Libro, a: Aviso, hechos: seq<string>, faltan: seq<string>, t: int, p: seq<string>) {
    (forall e | e in faltan :: e in a.nuevas) && hechos + PatronesDe(l, a, faltan, t) == p
  }

  function PatronesUno(l: Libro, a: Aviso, e: string, t: int): seq<string>
    requires e in a.nuevas
  {
    if SeCorta(l, a, e) then SitiosDe(Sorted(a.nuevas[e].sitios), l.reglas, t) else []
  }

  lemma CompanyDone(l: Libro, a: Aviso, hechos: seq<string>, faltan: seq<string>, t: int, p: seq<string>)
    requires faltan != [] && VanEmpresas(l, a, hechos, faltan, t, p)
    ensures VanEmpresas(l, a, hechos + PatronesUno(l, a, faltan[0], t), faltan[1..], t, p)
  {
    var uno, resto := PatronesUno(l, a, faltan[0], t), PatronesDe(l, a, faltan[1..], t);
    assert hechos + (uno + resto) == (hechos + uno) + resto;
  }

  /** The companies sorted out so far: `vistas` are cut, or left uncut for a reason. */
  predicate Repartidas(l: Libro, a: Aviso, vistas: set<string>, sin: map<string, PorQue>, cortadas: set<string>) {
    && vistas <= a.nuevas.Keys && sin.Keys + cortadas == vistas && sin.Keys !! cortadas
    && (forall e | e in cortadas :: SeCorta(l, a, e))
    && (forall e | e in sin :: !SeCorta(l, a, e) && sin[e] == if a.nuevas[e].esperado then Esperado else Compartida)
  }

  lemma OneSorted(l: Libro, a: Aviso, vistas: set<string>, sin: map<string, PorQue>, cortadas: set<string>, e: string,
                  porque: Option<PorQue>)
    requires Repartidas(l, a, vistas, sin, cortadas) && e in a.nuevas && PorQueNo(l, a, e, porque)
    ensures Repartidas(l, a, vistas + {e}, if porque.Some? then sin[e := porque.value] else sin,
                       if porque.Some? then cortadas else cortadas + {e})
  {
  }

  /** The companies are walked in some order that has each of them. */
  predicate EsOrden(orden: seq<string>, a: Aviso) {
    (forall e | e in orden :: e in a.nuevas) && (forall e | e in a.nuevas :: e in orden)
  }

  /** The first `i` companies of the walk, sorted out. */
  predicate Reparto(l: Libro, a: Aviso, orden: seq<string>, i: nat, vistas: set<string>, sin: map<string, PorQue>,
                    cortadas: set<string>)
  {
    i <= |orden| && Repartidas(l, a, vistas, sin, cortadas) && forall j | 0 <= j < i :: orden[j] in vistas
  }

  lemma SortedNext(l: Libro, a: Aviso, orden: seq<string>, i: nat, vistas: set<string>, sin: map<string, PorQue>,
                   cortadas: set<string>, porque: Option<PorQue>)
    requires Reparto(l, a, orden, i, vistas, sin, cortadas) && i < |orden|
    requires orden[i] in a.nuevas && PorQueNo(l, a, orden[i], porque)
    ensures Reparto(l, a, orden, i + 1, vistas + {orden[i]},
                    if porque.Some? then sin[orden[i] := porque.value] else sin,
                    if porque.Some? then cortadas else cortadas + {orden[i]})
  {
    OneSorted(l, a, vistas, sin, cortadas, orden[i], porque);
  }

  /** Why the company is left uncut, or none when it is cut. */
  predicate PorQueNo(l: Libro, a: Aviso, e: string, porque: Option<PorQue>)
    requires e in a.nuevas
  {
    porque == if SeCorta(l, a, e) then None else if a.nuevas[e].esperado then Some(Esperado) else Some(Compartida)
  }

  lemma AllSorted(l: Libro, a: Aviso, orden: seq<string>, vistas: set<string>, sin: map<string, PorQue>,
                  cortadas: set<string>)
    requires Reparto(l, a, orden, |orden|, vistas, sin, cortadas) && EsOrden(orden, a)
    ensures sin == SinCortarDe(l, a) && cortadas == Cortables(l, a)
  {
    assert vistas == a.nuevas.Keys;
  }

  lemma CutContract(l: Libro, a: Aviso, c: Contrato)
    ensures ContratoCortado(c, a, Cortables(l, a))
      == c.(pendientes := c.pendientes - a.nuevas.Keys,
            empresas := c.empresas + Entradas(a.nuevas, SinCortarDe(l, a).Keys),
            cortadas := c.cortadas + Cortables(l, a))
  {
    assert a.nuevas.Keys - Cortables(l, a) == SinCortarDe(l, a).Keys;
  }

  lemma CutIs(l: Libro, id: nat, t: int, auto: bool, reglas: seq<Regla>, ids: seq<nat>)
    requires id in l.avisos && Hecho(l.reglas, reglas, ids, PatronesCorte(l, l.avisos[id], t), t)
    ensures var a := l.avisos[id];
      Cortada(l, id, t, auto)
        == l.(avisos := l.avisos[id := a.(estado := if auto then CortadoAuto else Cortado, resuelto := Some(t),
                                          reglas := a.reglas + ids, sinCortar := SinCortarDe(l, a))],
              reglas := reglas, contratos := ContratosCortados(l, a),
              registro := l.registro + [Asiento(t, a.clave, RCortado(id, auto))])
  {
  }

  lemma RelearnNext(l: Libro, orden: seq<string>, i: nat, lec: Lector, ahora: int)
    requires i < |orden|
    ensures Reaprende(l, orden[i..], lec, ahora)
         == Reaprende(if orden[i] in l.contratos then ReaprendeUno(l, orden[i], lec, ahora) else l, orden[i + 1..], lec,
                      ahora)
  {
    assert orden[i..][0] == orden[i] && orden[i..][1..] == orden[i + 1..];
  }

  // ----- what a pass needs of its parts -----

  lemma EffectApart(l: Libro, cs: map<string, Contrato>, c: Contrato, o: Observacion, e: Efecto)
    ensures AplicaEfecto(l.(contratos := cs), c, o, e) == AplicaEfecto(l, c, o, e).(contratos := cs)
  {
    if e.Novedad? {
      OpenAnywhere(l, cs, c.clave);
      StoredAnywhere(l, cs, c, o, e.empresa);
    }
  }

  /** Effects neither read nor change the contracts. */
  lemma {:induction false} EffectsApart(l: Libro, cs: map<string, Contrato>, c: Contrato, o: Observacion,
                                        es: seq<Efecto>)
    ensures AplicaEfectos(l.(contratos := cs), c, o, es) == AplicaEfectos(l, c, o, es).(contratos := cs)
    decreases |es|
  {
    if es != [] {
      EffectApart(l, cs, c, o, es[0]);
      EffectsApart(AplicaEfecto(l, c, o, es[0]), cs, c, o, es[1..]);
    }
  }

  method Primero(s: set<nat>) returns (i: nat)
    requires s != {}
    ensures i in s && forall x | x in s :: i <= x
  {
    i :| i in s;
    var quedan := s - {i};
    while quedan != {}
      invariant i in s && quedan <= s && forall x | x in s :: x in quedan || i <= x
    {
      var x :| x in quedan;
      if x < i { i := x; }
      quedan := quedan - {x};
    }
  }

  /** The last of some numbers is the one past all the others. */
  lemma LastAdded(s: set<nat>, i: nat)
    requires forall x | x in s :: x < i
    ensures Ultimo(s + {i}) == i && (s + {i}) - {i} == s
  {
    LastExists(s + {i});
    assert EsUltimo(i, s + {i});
    assert forall m | EsUltimo(m, s + {i}) :: m == i;
  }

  lemma JoinedNext(avisos: map<nat, Aviso>, hechos: set<nat>, i: nat, suyas: map<string, Empresa>)
    requires hechos + {i} <= avisos.Keys && forall x | x in hechos :: x < i
    ensures NuevasDe(avisos, hechos + {i}) + suyas == avisos[i].nuevas + (NuevasDe(avisos, hechos) + suyas)
  {
    LastAdded(hechos, i);
  }

  predicate MismosEstados(cs: map<string, Contrato>, ds: map<string, Contrato>) {
    cs.Keys == ds.Keys && forall k | k in cs :: cs[k].estado == ds[k].estado
  }

  lemma {:induction false} CutsKeepStates(l: Libro, ids: set<nat>, ahora: int)
    requires ids <= l.avisos.Keys
    ensures MismosEstados(l.contratos, CortaTodos(l, ids, ahora).contratos)
    decreases |ids|
  {
    if ids != {} { CutsKeepStates(l, ids - {Ultimo(ids)}, ahora); }
  }

  function Fijados(cs: map<string, Contrato>, orden: seq<string>): seq<string> {
    if orden == [] then []
    else (if orden[0] in cs && cs[orden[0]].estado == Fijado then [orden[0]] else []) + Fijados(cs, orden[1..])
  }

  lemma {:induction false} FixedSame(cs: map<string, Contrato>, ds: map<string, Contrato>, orden: seq<string>)
    requires MismosEstados(cs, ds)
    ensures Fijados(cs, orden) == Fijados(ds, orden)
  {
    if orden != [] { FixedSame(cs, ds, orden[1..]); }
  }

  lemma {:induction false} FixedOnly(l: Libro, orden: seq<string>, ahora: int)
    ensures CortesAuto(l, orden, ahora) == CortesAuto(l, Fijados(l.contratos, orden), ahora)
    decreases |orden|
  {
    if orden != [] {
      var k := orden[0];
      if k in l.contratos && l.contratos[k].estado == Fijado {
        var m := CortaTodos(l, Abiertos(l, k), ahora);
        CutsKeepStates(l, Abiertos(l, k), ahora);
        FixedSame(l.contratos, m.contratos, orden[1..]);
        FixedOnly(m, orden[1..], ahora);
        assert ([k] + Fijados(l.contratos, orden[1..]))[1..] == Fijados(l.contratos, orden[1..]);
      } else {
        FixedOnly(l, orden[1..], ahora);
        assert [] + Fijados(l.contratos, orden[1..]) == Fijados(l.contratos, orden[1..]);
      }
    }
  }

  lemma {:induction false} FixedAre(cs: map<string, Contrato>, orden: seq<string>)
    ensures TodosFijados(cs, Fijados(cs, orden))
  {
    if orden != [] { FixedAre(cs, orden[1..]); }
  }

  lemma FixedNext(l: Libro, ks: seq<string>, i: nat, ahora: int)
    requires i < |ks| && TodosFijados(l.contratos, ks)
    ensures CortesAuto(l, ks[i..], ahora) == CortesAuto(CortaTodos(l, Abiertos(l, ks[i]), ahora), ks[i + 1..], ahora)
  {
    assert ks[i..][0] == ks[i] && ks[i..][1..] == ks[i + 1..];
  }

  predicate TodosFijados(cs: map<string, Contrato>, ks: seq<string>) {
    forall x | x in ks :: x in cs && cs[x].estado == Fijado
  }

  lemma OneMoreCut(l: Libro, hechos: set<nat>, i: nat, ahora: int)
    requires hechos <= l.avisos.Keys && i in l.avisos && forall x | x in hechos :: x < i
    ensures CortaTodos(l, hechos + {i}, ahora) == Cortada(CortaTodos(l, hechos, ahora), i, ahora, true)
  {
    LastAdded(hechos, i);
  }

  predicate Precede(a: set<nat>, b: set<nat>) { forall x, y | x in a && y in b :: x < y }

  lemma FirstMoved(ids: set<nat>, quedan: set<nat>, i: nat)
    requires quedan <= ids && Precede(ids - quedan, quedan) && i in quedan && forall x | x in quedan :: i <= x
    ensures ids - (quedan - {i}) == (ids - quedan) + {i} && Precede(ids - (quedan - {i}), quedan - {i})
  {
  }

  /** The first notices of `ids` are cut: `van` are the tables now. */
  predicate VanCortes(l: Libro, ids: set<nat>, quedan: set<nat>, ahora: int, van: Libro) {
    && quedan <= ids <= l.avisos.Keys && Precede(ids - quedan, quedan)
    && van == CortaTodos(l, ids - quedan, ahora)
  }

  lemma NextCut(l: Libro, ids: set<nat>, quedan: set<nat>, ahora: int, van: Libro, i: nat)
    requires quedan <= ids <= l.avisos.Keys && Precede(ids - quedan, quedan)
    requires i in quedan && forall x | x in quedan :: i <= x
    requires van == CortaTodos(l, (ids - quedan) + {i}, ahora)
    ensures VanCortes(l, ids, quedan - {i}, ahora, van)
  {
    FirstMoved(ids, quedan, i);
  }

  /** Only the contract `k` differs, and the notices are of the same programs. */
  /** The contracts as held are as stored, but for those marked. */
  predicate Coinciden(guardados: map<string, Contrato>, cs: map<string, Contrato>, tocados: set<string>) {
    && guardados.Keys <= cs.Keys && tocados <= cs.Keys
    && (forall k | k in cs && k !in tocados :: k in guardados && guardados[k] == cs[k])
  }

  lemma OneMarked(guardados: map<string, Contrato>, tocados: set<string>, l: Libro, m: Libro, k: string)
    requires Coinciden(guardados, l.contratos, tocados) && SoloCambia(l, m, k) && k in l.contratos
    ensures Coinciden(guardados, m.contratos, tocados + {k})
  {
  }

  /** A pass once it has started. */
  function TrasInicio(m: Libro, lec: Lector, orden: seq<string>, ahora: int): Libro
    requires m.inicio.Some?
  {
    var fs := LoteDe(m);
    var q := Quietos(ConFilas(m, fs, lec, m.inicio.value), orden, ahora);
    CortesAuto(q, orden, ahora).(cursor := if fs == [] then m.cursor else fs[|fs| - 1].id)
  }

  lemma PassInTwo(l: Libro, lec: Lector, orden: seq<string>, ahora: int)
    ensures Pasada(l, lec, orden, ahora) == TrasInicio(ConInicio(l, lec, ahora), lec, orden, ahora)
  {
  }

  predicate SoloCambia(l: Libro, m: Libro, k: string) {
    && m.contratos.Keys == l.contratos.Keys && m.avisos.Keys == l.avisos.Keys
    && (forall x | x in l.contratos && x != k :: m.contratos[x] == l.contratos[x])
    && (forall i | i in l.avisos :: m.avisos[i].clave == l.avisos[i].clave)
  }

  lemma CutTouchesOne(l: Libro, id: nat, ahora: int)
    requires id in l.avisos
    ensures SoloCambia(l, Cortada(l, id, ahora, true), l.avisos[id].clave)
  {
  }

  lemma {:induction false} CutsTouchOne(l: Libro, ids: set<nat>, k: string, ahora: int)
    requires ids <= l.avisos.Keys && forall i | i in ids :: l.avisos[i].clave == k
    ensures SoloCambia(l, CortaTodos(l, ids, ahora), k)
    decreases |ids|
  {
    if ids != {} {
      var i := Ultimo(ids);
      CutsTouchOne(l, ids - {i}, k, ahora);
      CutTouchesOne(CortaTodos(l, ids - {i}, ahora), i, ahora);
    }
  }

  class LibroVivo {
    var contratos: map<string, Contrato>
    var avisos: map<nat, Aviso>
    var proximo: nat
    var reglas: seq<Regla>
    var registro: seq<Asiento>
    var cursor: int
    var inicio: Option<int>
    var extracto: seq<Fila>

    function Estado(): Libro
      reads this
    {
      Libro(contratos, avisos, proximo, reglas, registro, cursor, inicio, extracto)
    }

    constructor ()
      ensures Estado() == NUEVO
    {
      contratos, avisos, proximo, reglas := map[], map[], 1, [];
      registro, cursor, inicio, extracto := [], 0, None, [];
    }

    method RegistraContrato(ts: int, clave: string, tipo: Tipo)
      modifies `registro
      ensures Estado() == Registra(old(Estado()), ts, clave, tipo)
    {
      registro := registro + [Asiento(ts, clave, tipo)];
    }

    /** Stores a new notice under the next number; the oldest resolved ones go when there are too many. */
    method GuardaAvisoNuevo(a: Aviso) returns (id: nat)
      modifies `avisos, `proximo
      ensures id == old(proximo) && Estado() == ConAvisoNuevo(old(Estado()), a)
    {
      id := proximo;
      avisos := avisos[id := a];
      proximo := proximo + 1;
      avisos := Podados(avisos, Max(0, |avisos| - MAX_AVISOS));
    }

    /** The new company goes to the program's last open notice, or opens one. */
    method ApuntaNovedad(c: Contrato, o: Observacion, empresa: string) returns (id: nat)
      modifies `avisos, `proximo
      ensures id == AvisoPara(old(Estado()), c.clave)
      ensures Estado() == ConNovedadEn(old(Estado()), c, o, empresa)
    {
      var abiertos := Abiertos(Estado(), c.clave);
      var aviso := if abiertos == {} then AvisoVacio(c, o.ts) else avisos[Ultimo(abiertos)];
      aviso := aviso.(ultimo := Max(aviso.ultimo, o.ts));
      if Etiqueta(c) != "" { aviso := aviso.(versionAhora := Etiqueta(c)); }
      var ev := if empresa in aviso.nuevas then aviso.nuevas[empresa] else EmpresaVacia(Etiqueta(c));
      aviso := aviso.(nuevas := aviso.nuevas[empresa := Anota(ev, o)]);
      if abiertos == {} {
        id := GuardaAvisoNuevo(aviso);
      } else {
        id := Ultimo(abiertos);
        avisos := avisos[id := aviso];
      }
    }

    method AplicaUnEfecto(c: Contrato, o: Observacion, e: Efecto)
      modifies `avisos, `proximo, `registro
      ensures Estado() == AplicaEfecto(old(Estado()), c, o, e)
    {
      match e {
        case CambioVersion(_, _) => RegistraContrato(o.ts, c.clave, RVersion);
        case SeAprendio => RegistraContrato(o.ts, c.clave, RAprendido);
        case SinContrato => RegistraContrato(o.ts, c.clave, RNoAplica);
        case Novedad(empresa, primera) =>
          var id := ApuntaNovedad(c, o, empresa);
          if primera { RegistraContrato(o.ts, c.clave, RNovedad(id, empresa)); }
      }
    }

    method AplicaLosEfectos(c: Contrato, o: Observacion, efectos: seq<Efecto>)
      modifies `avisos, `proximo, `registro
      ensures Estado() == AplicaEfectos(old(Estado()), c, o, efectos)
    {
      var i := 0;
      while i < |efectos|
        invariant 0 <= i <= |efectos|
        invariant AplicaEfectos(Estado(), c, o, efectos[i..]) == AplicaEfectos(old(Estado()), c, o, efectos)
      {
        assert efectos[i..][0] == efectos[i] && efectos[i..][1..] == efectos[i + 1..];
        AplicaUnEfecto(c, o, efectos[i]);
        i := i + 1;
      }
    }

    // ----- cutting -----

    /** One rule for each site without an active cut; gives their numbers. */
    method CortaSitios(sitios: seq<string>, activas: seq<Regla>, t: int) returns (ids: seq<nat>)
      modifies `reglas
      ensures Hecho(old(reglas), reglas, ids, SitiosDe(sitios, activas, t), t)
    {
      ghost var hechos: seq<string> := [];
      ids := [];
      var i := 0;
      while i < |sitios|
        invariant 0 <= i <= |sitios|
        invariant VanSitios(hechos, sitios[i..], activas, t, SitiosDe(sitios, activas, t))
        invariant Hecho(old(reglas), reglas, ids, hechos, t)
      {
        SiteDone(hechos, sitios[i..], activas, t, SitiosDe(sitios, activas, t));
        assert sitios[i..][1..] == sitios[i + 1..];
        if !YaCortado(activas, sitios[i], t) {
          OneRuleMore(old(reglas), reglas, ids, hechos, sitios[i], t);
          reglas := reglas + [ReglaCorte(sitios[i], t)];
          ids := ids + [|reglas|];
          hechos := hechos + [sitios[i]];
        }
        i := i + 1;
      }
      assert hechos + [] == hechos;
    }

    /** Cuts one company of a notice, unless the computer needs it or another contract has it. */
    method CortaUna(ghost l: Libro, a: Aviso, e: string, cs: map<string, Contrato>, activas: seq<Regla>, t: int)
      returns (ids: seq<nat>, porque: Option<PorQue>)
      requires e in a.nuevas && l.contratos == cs && l.reglas == activas
      modifies `reglas
      ensures Hecho(old(reglas), reglas, ids, PatronesUno(l, a, e, t), t) && PorQueNo(l, a, e, porque)
    {
      ids := [];
      if a.nuevas[e].esperado {
        porque := Some(Esperado);
      } else if EsCompartida(cs, a.clave, a.nuevas[e].sitios) {
        porque := Some(Compartida);
      } else {
        ids := CortaSitios(Sorted(a.nuevas[e].sitios), activas, t);
        porque := None;
      }
    }

    /** Cuts the companies of a notice one by one; gives the rules made and what was left uncut. */
    method CortaEmpresas(ghost l: Libro, a: Aviso, orden: seq<string>, cs: map<string, Contrato>, t: int)
      returns (ids: seq<nat>, sin: map<string, PorQue>, cortadas: set<string>)
      requires l.contratos == cs && l.reglas == reglas && EsOrden(orden, a)
      modifies `reglas
      ensures Hecho(old(reglas), reglas, ids, PatronesDe(l, a, orden, t), t)
      ensures sin == SinCortarDe(l, a) && cortadas == Cortables(l, a)
    {
      var activas := reglas;
      ghost var hechos: seq<string> := [];
      ids, sin, cortadas := [], map[], {};
      ghost var vistas := {};
      var i := 0;
      while i < |orden|
        invariant 0 <= i <= |orden|
        invariant VanEmpresas(l, a, hechos, orden[i..], t, PatronesDe(l, a, orden, t))
        invariant Hecho(old(reglas), reglas, ids, hechos, t)
        invariant Reparto(l, a, orden, i, vistas, sin, cortadas)
      {
        var e := orden[i];
        CompanyDone(l, a, hechos, orden[i..], t, PatronesDe(l, a, orden, t));
        assert orden[i..][1..] == orden[i + 1..];
        ghost var medio, uno := reglas, PatronesUno(l, a, e, t);
        var nuevas, porque := CortaUna(l, a, e, cs, activas, t);
        TwoCuts(old(reglas), medio, reglas, ids, nuevas, hechos, uno, t);
        SortedNext(l, a, orden, i, vistas, sin, cortadas, porque);
        ids := ids + nuevas;
        if porque.Some? { sin := sin[e := porque.value]; } else { cortadas := cortadas + {e}; }
        hechos := hechos + uno;
        vistas := vistas + {e};
        i := i + 1;
      }
      assert hechos + [] == hechos;
      AllSorted(l, a, orden, vistas, sin, cortadas);
    }

    /** The tables, with the contracts as a pass holds them before it stores them. */
    function Con(cs: map<string, Contrato>): Libro
      reads this
    {
      Estado().(contratos := cs)
    }

    /** Cuts the new companies of a notice; `cs` are the contracts as the caller holds them. */
    method CortaAviso(id: nat, cs: map<string, Contrato>, t: int, auto: bool)
      returns (ds: map<string, Contrato>, hechas: nat)
      requires id in avisos
      modifies `reglas, `avisos, `registro
      ensures Con(ds) == Cortada(old(Con(cs)), id, t, auto)
      ensures hechas == |reglas| - |old(reglas)|
    {
      ghost var l := Con(cs);
      var a := avisos[id];
      var ids, sin, cortadas := CortaEmpresas(l, a, Sorted(a.nuevas.Keys), cs, t);
      hechas := |ids|;
      CutIs(l, id, t, auto, reglas, ids);
      avisos := avisos[id := a.(estado := if auto then CortadoAuto else Cortado, resuelto := Some(t),
                                reglas := a.reglas + ids, sinCortar := sin)];
      ds := cs;
      if a.clave in cs {
        var c := cs[a.clave];
        CutContract(l, a, c);
        ds := cs[a.clave := c.(pendientes := c.pendientes - a.nuevas.Keys,
                               empresas := c.empresas + Entradas(a.nuevas, sin.Keys),
                               cortadas := c.cortadas + cortadas)];
      }
      RegistraContrato(t, a.clave, RCortado(id, auto));
    }

    /** «Cortar solo lo nuevo». */
    method ContratoCortar(id: nat, t: int) returns (hecho: bool)
      modifies this
      ensures hecho == old(HayAbierto(Estado(), id)) && Estado() == Cortar(old(Estado()), id, t)
    {
      hecho := id in avisos && avisos[id].estado == Abierto;
      if hecho {
        var ds, hechas := CortaAviso(id, contratos, t, false);
        contratos := ds;
      }
    }

    /** «Aceptar como normal». */
    method ContratoAceptar(id: nat, t: int) returns (hecho: bool)
      modifies this
      ensures hecho == old(HayAbierto(Estado(), id)) && Estado() == Aceptar(old(Estado()), id, t)
    {
      hecho := id in avisos && avisos[id].estado == Abierto;
      if !hecho { return; }
      var a := avisos[id];
      if a.clave in contratos {
        var c := contratos[a.clave];
        c := c.(pendientes := c.pendientes - a.nuevas.Keys, empresas := c.empresas + a.nuevas);
        contratos := contratos[a.clave := c.(versionContrato := Etiqueta(c))];
      }
      avisos := avisos[id := a.(estado := Aceptado, resuelto := Some(t))];
      RegistraContrato(t, a.clave, RAceptado(id));
    }

    method DeshaceReglas(ids: seq<nat>, t: int)
      modifies `reglas
      ensures reglas == ReglasDeshechas(old(reglas), ids, t)
    {
      var i := 0;
      while i < |ids|
        invariant 0 <= i <= |ids|
        invariant ReglasDeshechas(reglas, ids[i..], t) == ReglasDeshechas(old(reglas), ids, t)
      {
        assert ids[i..][0] == ids[i] && ids[i..][1..] == ids[i + 1..];
        var r := ids[i];
        if 1 <= r <= |reglas| && reglas[r - 1].deshecha.None? {
          reglas := reglas[r - 1 := reglas[r - 1].(deshecha := Some(t))];
        }
        i := i + 1;
      }
    }

    /** Undoes a cut. */
    method ContratoDeshacer(id: nat, t: int) returns (hecho: bool)
      modifies this
      ensures hecho == old(HayCorte(Estado(), id)) && Estado() == Deshacer(old(Estado()), id, t)
    {
      hecho := id in avisos && (avisos[id].estado == Cortado || avisos[id].estado == CortadoAuto);
      if !hecho { return; }
      var a := avisos[id];
      DeshaceReglas(a.reglas, t);
      if a.clave in contratos {
        var c := contratos[a.clave];
        contratos := contratos[a.clave :=
          c.(cortadas := c.cortadas - a.nuevas.Keys, empresas := c.empresas + a.nuevas)];
      }
      avisos := avisos[id := a.(estado := Deshecho, resuelto := Some(t))];
      RegistraContrato(t, a.clave, RDeshecho(id));
    }

    /** «Fijar» or let go of a contract. */
    method ContratoFijar(clave: string, fijar: bool, t: int)
      modifies this
      ensures Estado() == Fijar(old(Estado()), clave, fijar, t)
    {
      if clave !in contratos || contratos[clave].estado == NoAplica { return; }
      var c := contratos[clave];
      var antes := c.estado;
      if fijar {
        c := c.(estado := Fijado);
      } else if antes == Fijado {
        c := c.(estado := Vigilando);
      }
      if fijar && c.aprendido.None? { c := c.(aprendido := Some(t), versionContrato := Etiqueta(c)); }
      if c.estado != antes {
        contratos := contratos[clave := c];
        RegistraContrato(t, clave, if fijar then RFijado else RSoltado);
      }
    }

    // ----- learning again -----

    /** A contract 1.0.45 settled is learnt again, with its open notices' companies. */
    method ReaprendeContrato(clave: string, lec: Lector, ahora: int)
      requires clave in contratos
      modifies `contratos, `avisos, `registro
      ensures Estado() == ReaprendeUno(old(Estado()), clave, lec, ahora)
    {
      var c := contratos[clave];
      var propio := lec.motivo(c.nombre) == Propio;
      var vigilaba := c.estado == Vigilando;
      if !propio && !vigilaba && !(c.estado == Aprendiendo && c.desde < ahora) { return; }
      var abiertos := Abiertos(Estado(), c.clave);
      var empresas := BorraAvisos(abiertos, c.empresas);
      c := c.(pendientes := {}, aprendido := None);
      if propio {
        c := c.(estado := NoAplica, motivo := Motivo.Propio, empresas := map[]);
      } else {
        c := c.(estado := Aprendiendo, desde := Max(c.desde, ahora), versionContrato := Etiqueta(c),
                empresas := empresas);
      }
      if propio || vigilaba || abiertos != {} {
        RegistraContrato(ahora, c.clave, if propio then RNoAplica else RReaprende);
      }
      contratos := contratos[clave := c];
    }

    /** Deletes some notices; their companies join the given ones where these have none. */
    method BorraAvisos(ids: set<nat>, suyas: map<string, Empresa>) returns (empresas: map<string, Empresa>)
      requires ids <= avisos.Keys
      modifies `avisos
      ensures avisos == old(avisos) - ids
      ensures empresas == NuevasDe(old(avisos), ids) + suyas
    {
      var quedan := ids;
      ghost var hechos: set<nat> := {};
      empresas := suyas;
      while quedan != {}
        invariant hechos + quedan == ids && quedan !! hechos
        invariant forall x, y | x in hechos && y in quedan :: x < y
        invariant avisos == old(avisos) - hechos
        invariant empresas == NuevasDe(old(avisos), hechos) + suyas
      {
        var i := Primero(quedan);
        JoinedNext(old(avisos), hechos, i, suyas);
        empresas := avisos[i].nuevas + empresas;
        avisos := avisos - {i};
        quedan := quedan - {i};
        hechos := hechos + {i};
      }
      assert hechos == ids;
    }

    method ReaprendeTodo(lec: Lector, ahora: int)
      modifies `contratos, `avisos, `registro
      ensures Estado() == Reaprende(old(Estado()), Sorted(old(contratos).Keys), lec, ahora)
    {
      var orden := Sorted(contratos.Keys);
      var i := 0;
      while i < |orden|
        invariant 0 <= i <= |orden|
        invariant Reaprende(Estado(), orden[i..], lec, ahora) == Reaprende(old(Estado()), orden, lec, ahora)
      {
        RelearnNext(Estado(), orden, i, lec, ahora);
        if orden[i] in contratos { ReaprendeContrato(orden[i], lec, ahora); }
        i := i + 1;
      }
    }

    // ----- one pass -----

    method AplicaSobre(cs: map<string, Contrato>, c: Contrato, o: Observacion, efectos: seq<Efecto>)
      modifies `avisos, `proximo, `registro
      ensures Con(cs) == AplicaEfectos(old(Con(cs)), c, o, efectos)
    {
      EffectsApart(Estado(), cs, c, o, efectos);
      AplicaLosEfectos(c, o, efectos);
    }

    /** The contracts a pass did not touch are as stored. */
    predicate Guardado(cs: map<string, Contrato>, tocados: set<string>)
      reads `contratos
    {
      Coinciden(contratos, cs, tocados)
    }

    /** The contract of a program, seen now or before; none when there are too many. */
    method Asegura(cs: map<string, Contrato>, p: Proceso, ts: int, lec: Lector, desde: int)
      returns (ds: map<string, Contrato>)
      modifies `registro
      ensures Con(ds) == ConPrograma(old(Con(cs)), p, ts, lec, desde)
      ensures cs.Keys <= ds.Keys <= cs.Keys + {lec.clave(p)} && forall k | k in cs :: ds[k] == cs[k]
    {
      ds := cs;
      var clave := lec.clave(p);
      if clave in cs || |cs| >= MAX_CONTRATOS { return; }
      var c := Nuevo(lec, p, Max(ts, desde));
      RegistraContrato(ts, clave, if c.estado == NoAplica then RNoAplica else RAprendiendo);
      ds := cs[clave := c];
    }

    method LeeFila(f: Fila, cs: map<string, Contrato>, tocados: set<string>, lec: Lector, desde: int)
      returns (ds: map<string, Contrato>, vistos: set<string>)
      requires Guardado(cs, tocados)
      modifies `avisos, `proximo, `registro
      ensures Con(ds) == ConFila(old(Con(cs)), f, lec, desde) && Guardado(ds, vistos)
    {
      ds, vistos := cs, tocados;
      if f.proceso.None? || Blanco(f.proceso.value.nombre) { return; }
      var p, qname := f.proceso.value, WhoAsked.Normaliza(f.qname);
      var lectura := lec.lee(qname);
      if lectura.None? { return; }
      var clave := lec.clave(p);
      ds := Asegura(cs, p, f.ts, lec, desde);
      if clave !in ds { return; }
      vistos := tocados + {clave};
      var o := Observacion(f.ts, qname, lectura.value.empresa, lectura.value.sitio, f.esperado, p);
      var vivo := new ContratoVivo(ds[clave]);
      var efectos := vivo.ObservaConsulta(o, lec);
      var c := vivo.Valor();
      ds := ds[clave := c];
      AplicaSobre(ds, c, o, efectos);
    }

    method LeeFilas(fs: seq<Fila>, lec: Lector, desde: int) returns (cs: map<string, Contrato>, tocados: set<string>)
      modifies `avisos, `proximo, `registro
      ensures Con(cs) == ConFilas(old(Estado()), fs, lec, desde) && Guardado(cs, tocados)
    {
      cs, tocados := contratos, {};
      var i := 0;
      while i < |fs|
        invariant 0 <= i <= |fs| && Guardado(cs, tocados)
        invariant ConFilas(Con(cs), fs[i..], lec, desde) == ConFilas(old(Estado()), fs, lec, desde)
      {
        assert fs[i..][0] == fs[i] && fs[i..][1..] == fs[i + 1..];
        cs, tocados := LeeFila(fs[i], cs, tocados, lec, desde);
        i := i + 1;
      }
    }

    /** Programs that went quiet finish their learning too. */
    method TerminaAprendizajes(cs: map<string, Contrato>, tocados: set<string>, orden: seq<string>, ahora: int)
      returns (ds: map<string, Contrato>, vistos: set<string>)
      requires Guardado(cs, tocados)
      modifies `registro
      ensures Con(ds) == Quietos(old(Con(cs)), orden, ahora) && Guardado(ds, vistos)
    {
      ds, vistos := cs, tocados;
      var i := 0;
      while i < |orden|
        invariant 0 <= i <= |orden| && Guardado(ds, vistos)
        invariant Quietos(Con(ds), orden[i..], ahora) == Quietos(old(Con(cs)), orden, ahora)
      {
        assert orden[i..][0] == orden[i] && orden[i..][1..] == orden[i + 1..];
        var k := orden[i];
        if k in ds {
          var vivo := new ContratoVivo(ds[k]);
          var e := vivo.RevisaAprendizaje(ahora);
          if e != [] {
            ds := ds[k := vivo.Valor()];
            vistos := vistos + {k};
            RegistraContrato(ahora, ds[k].clave, RAprendido);
          }
        }
        i := i + 1;
      }
    }

    /** Cuts some notices, the earlier first. */
    method CortaAbiertos(ids: set<nat>, cs: map<string, Contrato>, ahora: int) returns (ds: map<string, Contrato>)
      requires ids <= avisos.Keys
      modifies `reglas, `avisos, `registro
      ensures Con(ds) == CortaTodos(old(Con(cs)), ids, ahora)
    {
      ghost var l := Con(cs);
      var quedan := ids;
      ds := cs;
      assert ids - quedan == {};
      while quedan != {}
        invariant VanCortes(l, ids, quedan, ahora, Con(ds))
      {
        var i := Primero(quedan);
        OneMoreCut(l, ids - quedan, i, ahora);
        var hechas;
        ds, hechas := CortaAviso(i, ds, ahora, true);
        NextCut(l, ids, quedan, ahora, Con(ds), i);
        quedan := quedan - {i};
      }
      assert ids - quedan == ids;
    }

    /** Fixed contracts cut what is new. */
    method CortaFijados(cs: map<string, Contrato>, tocados: set<string>, orden: seq<string>, ahora: int)
      returns (ds: map<string, Contrato>, vistos: set<string>)
      requires Guardado(cs, tocados)
      modifies `reglas, `avisos, `registro
      ensures Con(ds) == CortesAuto(old(Con(cs)), orden, ahora) && Guardado(ds, vistos)
    {
      ds, vistos := cs, tocados;
      FixedOnly(Con(cs), orden, ahora);
      FixedAre(cs, orden);
      var fijados := Fijados(cs, orden);
      var i := 0;
      while i < |fijados|
        invariant 0 <= i <= |fijados| && TodosFijados(ds, fijados) && Guardado(ds, vistos)
        invariant CortesAuto(Con(ds), fijados[i..], ahora) == CortesAuto(old(Con(cs)), orden, ahora)
      {
        FixedNext(Con(ds), fijados, i, ahora);
        ds, vistos := CortaFijado(fijados[i], ds, vistos, ahora);
        i := i + 1;
      }
    }

    /** One fixed contract's open notices cut, and the contract marked. */
    method CortaFijado(k: string, cs: map<string, Contrato>, tocados: set<string>, ahora: int)
      returns (ds: map<string, Contrato>, vistos: set<string>)
      requires Guardado(cs, tocados) && k in cs
      modifies `reglas, `avisos, `registro
      ensures Con(ds) == CortaTodos(old(Con(cs)), Abiertos(old(Con(cs)), k), ahora)
      ensures Guardado(ds, vistos) && MismosEstados(cs, ds)
    {
      var abiertos := Abiertos(Con(cs), k);
      CutsKeepStates(Con(cs), abiertos, ahora);
      CutsTouchOne(Con(cs), abiertos, k, ahora);
      OneMarked(contratos, tocados, Con(cs), CortaTodos(Con(cs), abiertos, ahora), k);
      ds := CortaAbiertos(abiertos, cs, ahora);
      vistos := tocados + {k};
    }

    /** Stores the contracts a pass touched. */
    method GuardaTocados(cs: map<string, Contrato>, tocados: set<string>)
      requires Guardado(cs, tocados)
      modifies `contratos
      ensures contratos == cs
    {
      var quedan := tocados;
      while quedan != {}
        invariant Guardado(cs, quedan)
      {
        var k :| k in quedan;
        contratos := contratos[k := cs[k]];
        quedan := quedan - {k};
      }
    }

    /** One pass over the extract; `orden` is the order in which a hash table of contracts is walked. */
    method ContratosPasada(lec: Lector, orden: seq<string>, ahora: int)
      modifies this
      ensures Estado() == Pasada(old(Estado()), lec, orden, ahora)
    {
      PassInTwo(Estado(), lec, orden, ahora);
      Empieza(lec, ahora);
      LeeYCorta(lec, orden, ahora);
    }

    /** The first pass of 1.0.46 learns everything again. */
    method Empieza(lec: Lector, ahora: int)
      modifies `contratos, `avisos, `registro, `inicio
      ensures Estado() == ConInicio(old(Estado()), lec, ahora)
    {
      if inicio.None? {
        ReaprendeTodo(lec, ahora);
        inicio := Some(ahora);
      }
    }

    method LeeYCorta(lec: Lector, orden: seq<string>, ahora: int)
      requires inicio.Some?
      modifies this
      ensures Estado() == TrasInicio(old(Estado()), lec, orden, ahora)
    {
      var fs := LoteDe(Estado());
      var cs, tocados := LeeFilas(fs, lec, inicio.value);
      cs, tocados := TerminaAprendizajes(cs, tocados, orden, ahora);
      cs, tocados := CortaFijados(cs, tocados, orden, ahora);
      GuardaTocados(cs, tocados);
      if fs != [] { cursor := fs[|fs| - 1].id; }
    }
  }
}
