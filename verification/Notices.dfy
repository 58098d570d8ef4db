/** Which notices the watch gives (crates/apps/src/vigilancia.rs): the pruned table against the full log. */
module Notices {
  import opened Basics

  const MINUTO: int := 60_000
  const HORA: int := 60 * MINUTO
  const DIA: int := 24 * HORA
  const VENTANA_USO: int := 30 * MINUTO
  const VENTANA_AVISO: int := HORA

  type Tabla = map<string, int>

  /** The table keeps a week. */
  function Podada(avisados: Tabla, ahora: int): Tabla {
    map k | k in avisados && ahora - avisados[k] < 7 * DIA :: avisados[k]
  }

  predicate Repetido(avisados: Tabla, clave: string, ahora: int, ventana: int) {
    clave in Podada(avisados, ahora) && ahora - avisados[clave] < ventana
  }

  /** Whether a notice with this key may be given now; if so, it is remembered. */
  function Avisa(avisados: Tabla, clave: string, ahora: int, ventana: int): (bool, Tabla) {
    if Repetido(avisados, clave, ahora, ventana) then (false, Podada(avisados, ahora))
    else (true, Podada(avisados, ahora)[clave := ahora])
  }

  // ----- the full log -----

  datatype Llamada = Llamada(clave: string, ahora: int, ventana: int)

  datatype Dado = Dado(clave: string, t: int)

  /** The definition: nothing with this key was given within the window. */
  predicate Permitido(dados: seq<Dado>, l: Llamada) {
    forall i | 0 <= i < |dados| && dados[i].clave == l.clave :: l.ahora - dados[i].t >= l.ventana
  }

  function TablaTras(ls: seq<Llamada>): Tabla {
    if ls == [] then map[] else var l := ls[|ls| - 1]; Avisa(TablaTras(ls[..|ls| - 1]), l.clave, l.ahora, l.ventana).1
  }

  /** Every notice given by a run of calls. */
  function Dados(ls: seq<Llamada>): seq<Dado> {
    if ls == [] then []
    else
      var before, l := ls[..|ls| - 1], ls[|ls| - 1];
      Dados(before)
      + (if Avisa(TablaTras(before), l.clave, l.ahora, l.ventana).0 then [Dado(l.clave, l.ahora)] else [])
  }

  predicate EnOrden(ls: seq<Llamada>) {
    forall i, j | 0 <= i < j < |ls| :: ls[i].ahora <= ls[j].ahora
  }

  predicate HastaUnaSemana(ls: seq<Llamada>) {
    forall i | 0 <= i < |ls| :: ls[i].ventana <= 7 * DIA
  }

  /** The table against the log at time `t`: what it forgot is a week old. */
  predicate Resume(tabla: Tabla, dados: seq<Dado>, t: int) {
    && (forall i | 0 <= i < |dados| :: dados[i].t <= t)
    && (forall i | 0 <= i < |dados| ::
          (dados[i].clave in tabla && dados[i].t <= tabla[dados[i].clave]) || t - dados[i].t >= 7 * DIA)
    && (forall k | k in tabla :: Dado(k, tabla[k]) in dados)
  }

  lemma OneCall(tabla: Tabla, dados: seq<Dado>, t: int, l: Llamada)
    requires Resume(tabla, dados, t) && t <= l.ahora && l.ventana <= 7 * DIA
    ensures Avisa(tabla, l.clave, l.ahora, l.ventana).0 <==> Permitido(dados, l)
    ensures var (da, nueva) := Avisa(tabla, l.clave, l.ahora, l.ventana);
            Resume(nueva, dados + (if da then [Dado(l.clave, l.ahora)] else []), l.ahora)
  {
    if Repetido(tabla, l.clave, l.ahora, l.ventana) {
      var i :| 0 <= i < |dados| && dados[i] == Dado(l.clave, tabla[l.clave]);
    }
    var (da, nueva) := Avisa(tabla, l.clave, l.ahora, l.ventana);
    var log := dados + (if da then [Dado(l.clave, l.ahora)] else []);
    forall k | k in nueva ensures Dado(k, nueva[k]) in log {
      if !(da && k == l.clave) { assert Dado(k, tabla[k]) in dados; } else { assert log[|dados|] == Dado(k, l.ahora); }
    }
  }

  lemma {:induction false} TableSummarises(ls: seq<Llamada>)
    requires EnOrden(ls) && HastaUnaSemana(ls) && ls != []
    ensures Resume(TablaTras(ls), Dados(ls), ls[|ls| - 1].ahora)
  {
    var before, l := ls[..|ls| - 1], ls[|ls| - 1];
    if before == [] {
      assert Resume(map[], [], l.ahora);
      OneCall(map[], [], l.ahora, l);
    } else {
      TableSummarises(before);
      OneCall(TablaTras(before), Dados(before), before[|before| - 1].ahora, l);
    }
  }

  /** The pruned table decides exactly as the full log of notices, for any run of calls. */
  lemma PrunedDecidesAsTheLog(ls: seq<Llamada>, l: Llamada)
    requires EnOrden(ls + [l]) && HastaUnaSemana(ls + [l])
    ensures Avisa(TablaTras(ls), l.clave, l.ahora, l.ventana).0 <==> Permitido(Dados(ls), l)
  {
    var all := ls + [l];
    assert all[|ls|] == l && (forall i | 0 <= i < |ls| :: all[i] == ls[i]);
    if ls == [] {
      OneCall(map[], [], l.ahora, l);
    } else {
      TableSummarises(ls);
      assert all[|ls| - 1].ahora <= all[|ls|].ahora;
      OneCall(TablaTras(ls), Dados(ls), ls[|ls| - 1].ahora, l);
    }
  }

  /** Two notices with one key are at least the window of the later one apart. */
  lemma {:induction false} NoticesKeepApart(ls: seq<Llamada>, l: Llamada, i: nat)
    requires EnOrden(ls + [l]) && HastaUnaSemana(ls + [l])
    requires Avisa(TablaTras(ls), l.clave, l.ahora, l.ventana).0
    requires i < |Dados(ls)| && Dados(ls)[i].clave == l.clave
    ensures Dados(ls)[i].t + l.ventana <= l.ahora
  {
    PrunedDecidesAsTheLog(ls, l);
  }

  /** A week is the most: with any longer window the pruned table forgets too soon. */
  lemma LongerWindowsForget(clave: string, ventana: int)
    requires ventana > 7 * DIA
    ensures var ls := [Llamada(clave, 0, ventana)];
            var l := Llamada(clave, 7 * DIA, ventana);
            Avisa(TablaTras(ls), clave, l.ahora, ventana).0 && !Permitido(Dados(ls), l)
  {
    var l0 := Llamada(clave, 0, ventana);
    assert [l0][..0] == [];
    assert Dados([l0]) == [Dado(clave, 0)];
    assert Dados([l0])[0].clave == clave;
  }
}
