/** What the watch remembers between looks (crates/apps/src/vigilancia.rs). */
module Watch {
  import opened Basics
  import opened Notices
  import opened Findings

  const MAX_RECORDADOS: nat := 6000
  const MAX_AVISOS_ARRANQUE: nat := 3

  datatype Recordado = Recordado(visto: int, titulo: string, tipo: string, presente: bool, sistema: bool)

  /** Something that starts on its own; `sistema` when it is part of the system itself. */
  datatype Arranque = Arranque(tipo: string, donde: string, nombre: string, titulo: string, sistema: bool)

  function ClaveArranque(a: Arranque): string {
    if a.tipo == "servicio" then "servicio|" + Minusculas(a.nombre)
    else a.tipo + "|" + Minusculas(a.donde) + "|" + Minusculas(a.nombre)
  }

  predicate EsPropio(programa: string) {
    var p := Minusculas(programa); p == "guardiana-zero.exe" || p == "guardiana.exe"
  }

  /** Only a program with a path can be matched to a running one. */
  predicate SigueAbierto(u: Uso, enMarcha: Option<set<string>>) {
    enMarcha.Some? && u.conRuta && enMarcha.value != {} ==> Minusculas(u.programa) in enMarcha.value
  }

  predicate Vigente(u: Uso, enMarcha: Option<set<string>>) { u.hasta.None? && SigueAbierto(u, enMarcha) }

  /** The uses going on at this look, the last record of each key. */
  function Vigentes(usos: seq<Uso>, enMarcha: Option<set<string>>): Usos {
    if usos == [] then map[]
    else
      var u := usos[|usos| - 1];
      var before := Vigentes(usos[..|usos| - 1], enMarcha);
      if Vigente(u, enMarcha) then before[ClaveDe(u) := UsoActivo(u.programa, u.recurso, u.desde)] else before
  }

  lemma {:induction false} VigentesClavados(usos: seq<Uso>, enMarcha: Option<set<string>>)
    ensures BienClavados(Vigentes(usos, enMarcha))
  {
    if usos != [] { VigentesClavados(usos[..|usos| - 1], enMarcha); }
  }

  /** Started and ended between two looks. */
  predicate BreveNuevo(u: Uso, primera: bool, anterior: int) {
    u.hasta.Some? && !primera && u.desde > anterior && u.hasta.value >= u.desde
  }

  /** The short uses of this look: their keys and when they ended, in the order Windows gave them. */
  function Breves(usos: seq<Uso>, primera: bool, anterior: int, activos: set<string>): seq<(string, int)> {
    if usos == [] then []
    else
      var u := usos[|usos| - 1];
      Breves(usos[..|usos| - 1], primera, anterior, activos)
      + (if BreveNuevo(u, primera, anterior) && ClaveDe(u) !in activos then [(ClaveDe(u), u.hasta.value)] else [])
  }

  /** What one more record adds. */
  lemma LookNext(usos: seq<Uso>, n: nat, enMarcha: Option<set<string>>, primera: bool, anterior: int,
                 activos: set<string>)
    requires n < |usos|
    ensures var u, antes := usos[n], Vigentes(usos[..n], enMarcha);
      Vigentes(usos[..n + 1], enMarcha)
        == if Vigente(u, enMarcha) then antes[ClaveDe(u) := UsoActivo(u.programa, u.recurso, u.desde)] else antes
    ensures var u, antes := usos[n], Breves(usos[..n], primera, anterior, activos);
      Breves(usos[..n + 1], primera, anterior, activos)
        == antes + (if BreveNuevo(u, primera, anterior) && ClaveDe(u) !in activos
                    then [(ClaveDe(u), u.hasta.value)] else [])
  {
    assert usos[..n + 1][..n] == usos[..n];
  }

  predicate SonBreves(out: seq<Hallazgo>, breves: seq<(string, int)>) {
    |out| == |breves| && forall i | 0 <= i < |out| :: out[i].UsoBreve? && (out[i].clave, out[i].hasta) == breves[i]
  }

  /** The findings of a look: the short uses, a start for each use that is new and an end for each that is gone. */
  predicate Relata(out: seq<Hallazgo>, breves: seq<(string, int)>, nuevos: set<string>, idos: set<string>) {
    var b, e := |breves|, |breves| + |nuevos|;
    && |out| == e + |idos| && SonBreves(out[..b], breves)
    && (forall i | b <= i < e :: out[i].UsoEmpieza?) && (forall i | e <= i < |out| :: out[i].UsoTermina?)
  }

  /** The findings of a look: its short uses, a start for each use not going on before, an end for each not now. */
  predicate RelataUsos(out: seq<Hallazgo>, usos: seq<Uso>, desde: Option<int>, ultima: int, antes: Usos, ahora: Usos) {
    Relata(out, Breves(usos, desde.None?, ultima, antes.Keys), ahora.Keys - antes.Keys, antes.Keys - ahora.Keys)
  }

  /** Each use that goes on is written as it was. */
  predicate MismaLetra(antes: Usos, ahora: Usos) {
    forall k | k in antes && k in ahora :: ahora[k].programa == antes[k].programa
  }

  /** Starts are as many as the uses they add, and ends as many as they take. */
  lemma {:induction false} StartsAdd(a: Usos, out: seq<Hallazgo>)
    requires RepiteUsos(a, out).Some? && forall i | 0 <= i < |out| :: out[i].UsoEmpieza?
    ensures |RepiteUsos(a, out).value.Keys| == |a.Keys| + |out|
  {
    if out != [] {
      var b, h := RepiteUsos(a, out[..|out| - 1]).value, out[|out| - 1];
      StartsAdd(a, out[..|out| - 1]);
      assert b[h.clave := h.uso].Keys == b.Keys + {h.clave};
    }
  }

  lemma {:induction false} EndsTake(a: Usos, out: seq<Hallazgo>)
    requires RepiteUsos(a, out).Some? && forall i | 0 <= i < |out| :: out[i].UsoTermina?
    ensures |RepiteUsos(a, out).value.Keys| == |a.Keys| - |out|
  {
    if out != [] {
      var b, h := RepiteUsos(a, out[..|out| - 1]).value, out[|out| - 1];
      EndsTake(a, out[..|out| - 1]);
      assert (b - {h.clave}).Keys == b.Keys - {h.clave};
    }
  }

  lemma LookTold(activos: Usos, todos: Usos, fin: Usos, vigentes: Usos,
                 breves: seq<Hallazgo>, empiezan: seq<Hallazgo>, terminan: seq<Hallazgo>, b: seq<(string, int)>)
    requires SonBreves(breves, b)
    requires todos == activos + (vigentes - activos.Keys) && fin == todos - (activos.Keys - vigentes.Keys)
    requires RepiteUsos(activos, empiezan) == Some(todos) && forall i | 0 <= i < |empiezan| :: empiezan[i].UsoEmpieza?
    requires RepiteUsos(todos, terminan) == Some(fin) && forall i | 0 <= i < |terminan| :: terminan[i].UsoTermina?
    ensures Relata(breves + empiezan + terminan, b, vigentes.Keys - activos.Keys, activos.Keys - vigentes.Keys)
  {
    StartsAdd(activos, empiezan);
    EndsTake(todos, terminan);
    HowMany(activos, todos, fin, vigentes);
    ToldInOrder(breves, empiezan, terminan, b, vigentes.Keys - activos.Keys, activos.Keys - vigentes.Keys);
  }

  lemma ToldInOrder(breves: seq<Hallazgo>, empiezan: seq<Hallazgo>, terminan: seq<Hallazgo>, b: seq<(string, int)>,
                    nuevos: set<string>, idos: set<string>)
    requires SonBreves(breves, b) && |empiezan| == |nuevos| && |terminan| == |idos|
    requires (forall i | 0 <= i < |empiezan| :: empiezan[i].UsoEmpieza?)
        && (forall i | 0 <= i < |terminan| :: terminan[i].UsoTermina?)
    ensures Relata(breves + empiezan + terminan, b, nuevos, idos)
  {
    ThreeStretches(breves, empiezan, terminan);
  }

  lemma SetSizes(a: set<string>, v: set<string>, t: set<string>, f: set<string>)
    requires t == a + (v - a) && f == t - (a - v)
    ensures |t| == |a| + |v - a| && |f| == |t| - |a - v|
  {
    var fuera, idos := v - a, a - v;
    assert a !! fuera && t == a + fuera;
    assert f !! idos && t == f + idos;
  }

  lemma HowMany(activos: Usos, todos: Usos, fin: Usos, vigentes: Usos)
    requires todos == activos + (vigentes - activos.Keys) && fin == todos - (activos.Keys - vigentes.Keys)
    ensures |todos.Keys| == |activos.Keys| + |vigentes.Keys - activos.Keys|
    ensures |fin.Keys| == |todos.Keys| - |activos.Keys - vigentes.Keys|
  {
    assert todos.Keys == activos.Keys + (vigentes.Keys - activos.Keys);
    assert fin.Keys == todos.Keys - (activos.Keys - vigentes.Keys);
    SetSizes(activos.Keys, vigentes.Keys, todos.Keys, fin.Keys);
  }

  /** Replaying the findings gives the uses remembered. */
  predicate Valen(historia: seq<Hallazgo>, activos: Usos) {
    && BienClavados(activos)
    && RepiteUsos(map[], historia).Some?
    && BienClavados(RepiteUsos(map[], historia).value)
    && MismosUsos(RepiteUsos(map[], historia).value, activos)
  }

  /** And to the letter. */
  predicate Exactos(historia: seq<Hallazgo>, activos: Usos) { RepiteUsos(map[], historia) == Some(activos) }

  /** The findings take the uses there were to the ones going on, each still as it was written. */
  predicate Lleva(activos: Usos, vigentes: Usos, out: seq<Hallazgo>) {
    BienFechados(out)
    && RepiteUsos(activos, out) == Some((activos + (vigentes - activos.Keys)) - (activos.Keys - vigentes.Keys))
  }

  lemma LookLeads(activos: Usos, vigentes: Usos, breves: seq<Hallazgo>, empiezan: seq<Hallazgo>,
                  terminan: seq<Hallazgo>)
    requires BienFechados(empiezan) && BienFechados(terminan) && forall i | 0 <= i < |breves| :: breves[i].UsoBreve?
    requires var todos := activos + (vigentes - activos.Keys);
      RepiteUsos(activos, empiezan) == Some(todos)
      && RepiteUsos(todos, terminan) == Some(todos - (activos.Keys - vigentes.Keys))
    ensures Lleva(activos, vigentes, breves + empiezan + terminan)
  {
    BriefUsesChangeNothing(activos, breves);
    ReplayConcat(activos, breves, empiezan);
    ReplayConcat(activos, breves + empiezan, terminan);
    ThreeStretches(breves, empiezan, terminan);
    forall i | 0 <= i < |breves + empiezan + terminan|
      ensures Fechado((breves + empiezan + terminan)[i])
    {
      var h := (breves + empiezan + terminan)[i];
      if i < |breves| { assert h == breves[i]; }
      if |breves| <= i < |breves| + |empiezan| { assert h == empiezan[i - |breves|]; }
      if |breves| + |empiezan| <= i { assert h == terminan[i - |breves| - |empiezan|]; }
    }
  }

  /** A look's findings replay, from what the ones before rebuilt, to the uses now remembered. */
  lemma LookReplays(historia: seq<Hallazgo>, activos: Usos, vigentes: Usos, out: seq<Hallazgo>)
    requires Valen(historia, activos) && BienClavados(vigentes) && Lleva(activos, vigentes, out)
    ensures Valen(historia + out, vigentes)
    ensures Exactos(historia, activos) ==> (Exactos(historia + out, vigentes) <==> MismaLetra(activos, vigentes))
  {
    var r, fin := RepiteUsos(map[], historia).value, RepiteUsos(activos, out).value;
    assert fin.Keys == vigentes.Keys;
    ReplayFromSame(r, activos, out);
    ReplayConcat(map[], historia, out);
    SameKeysSameUses(RepiteUsos(r, out).value, vigentes);
    SpellingKept(activos, vigentes, fin);
  }

  lemma ThreeStretches(a: seq<Hallazgo>, b: seq<Hallazgo>, c: seq<Hallazgo>)
    ensures var out := a + b + c;
      && |out| == |a| + |b| + |c| && out[..|a|] == a
      && (forall i | |a| <= i < |a| + |b| :: out[i] == b[i - |a|])
      && (forall i | |a| + |b| <= i < |out| :: out[i] == c[i - |a| - |b|])
  {
  }

  /** What replays from the uses there were is what is remembered exactly when none that goes on changed its letters. */
  lemma SpellingKept(activos: Usos, vigentes: Usos, fin: Usos)
    requires BienClavados(activos) && BienClavados(vigentes)
    requires fin == (activos + (vigentes - activos.Keys)) - (activos.Keys - vigentes.Keys)
    ensures fin == vigentes <==> MismaLetra(activos, vigentes)
  {
    forall k | k in activos && k in vigentes
      ensures fin[k] == activos[k] && (vigentes[k] == activos[k] <==> vigentes[k].programa == activos[k].programa)
    {
      ClaveInjective(activos[k].programa, activos[k].recurso, activos[k].desde,
                     vigentes[k].programa, vigentes[k].recurso, vigentes[k].desde);
    }
    if MismaLetra(activos, vigentes) {
      assert fin.Keys == vigentes.Keys;
      assert forall k | k in fin :: fin[k] == vigentes[k];
    }
  }

  lemma OneUse(u: Uso)
    requires u.hasta.None? && !u.conRuta
    ensures Vigentes([u], None) == map[ClaveDe(u) := UsoActivo(u.programa, u.recurso, u.desde)]
    ensures forall activos, ultima :: Breves([u], false, ultima, activos) == []
  {
    assert [u][..0] == [];
  }

  /**
   * A program that Windows writes `Zoom.exe` at one look and `zoom.exe` at the next is one use and gives no finding,
   * so no replay of the findings tells the letters now remembered.
   */
  lemma TwoSpellings(historia: seq<Hallazgo>, out: seq<Hallazgo>, desde: int, ultima: int)
    ensures var antes := Vigentes([Uso("Zoom.exe", false, Camara, desde, None)], None);
            var usos := [Uso("zoom.exe", false, Camara, desde, None)];
            var ahora := Vigentes(usos, None);
      && antes.Keys == ahora.Keys && antes != ahora
      && (Relata(out, Breves(usos, false, ultima, antes.Keys), ahora.Keys - antes.Keys, antes.Keys - ahora.Keys)
          ==> out == [])
      && (RepiteUsos(map[], historia) == Some(antes) ==> RepiteUsos(map[], historia + []) != Some(ahora))
  {
    var u, v := Uso("Zoom.exe", false, Camara, desde, None), Uso("zoom.exe", false, Camara, desde, None);
    assert Minusculas("Zoom.exe") == "zoom.exe" == Minusculas("zoom.exe");
    var antes, ahora := Vigentes([u], None), Vigentes([v], None);
    var k := ClaveDe(u);
    assert ClaveDe(v) == k;
    OneUse(u);
    OneUse(v);
    assert antes == map[k := UsoActivo("Zoom.exe", Camara, desde)]
        && ahora == map[k := UsoActivo("zoom.exe", Camara, desde)];
    assert antes[k].programa[0] != ahora[k].programa[0];
    assert ahora.Keys - antes.Keys == {} && antes.Keys - ahora.Keys == {};
    assert historia + [] == historia;
  }

  /** Every start is filed under its own key. */
  predicate BienFechados(out: seq<Hallazgo>) { forall i | 0 <= i < |out| :: Fechado(out[i]) }

  predicate Fechado(h: Hallazgo) { h.UsoEmpieza? ==> h.clave == Clave(h.uso.programa, h.uso.recurso, h.uso.desde) }

  /** The entries of some keys. */
  function Solo<V>(m: map<string, V>, ks: set<string>): map<string, V> { map k | k in m && k in ks :: m[k] }

  function ClaveAviso(u: UsoActivo): string { "uso|" + Minusculas(u.programa) + "|" + ComoTexto(u.recurso) }

  /** The stop of the first record with this key, when Windows gave one. */
  function HastaDe(usos: seq<Uso>, clave: string, ahora: int): int {
    if usos == [] then ahora
    else if ClaveDe(usos[0]) == clave then (match usos[0].hasta case Some(h) => h case None => ahora)
    else HastaDe(usos[1..], clave, ahora)
  }

  function Minutos(desde: int, hasta: int): int { Max(hasta - desde, 0) / MINUTO }

  lemma ReplaySnoc(activos: Usos, log: seq<Hallazgo>, h: Hallazgo)
    ensures RepiteUsos(activos, log + [h])
         == match RepiteUsos(activos, log) case None => None case Some(m) => SigueUsos(m, h)
  {
    assert (log + [h])[..|log|] == log;
  }

  lemma AttentionSnoc(a: set<string>, log: seq<Hallazgo>, h: Hallazgo)
    ensures RepiteAtencion(a, log + [h])
         == match RepiteAtencion(a, log) case None => None case Some(b) => SigueAtencion(b, h)
  {
    assert (log + [h])[..|log|] == log;
  }

  lemma SoloNext<V>(m: map<string, V>, n: map<string, V>, ks: set<string>, k: string)
    ensures k in n ==> (m + Solo(n, ks))[k := n[k]] == m + Solo(n, ks + {k})
    ensures k !in n ==> Solo(n, ks + {k}) == Solo(n, ks)
    ensures m + Solo(n, {}) == m
  {
  }

  lemma SoloAll<V>(m: map<string, V>)
    ensures Solo(m, m.Keys - {}) == m
  {
  }

  lemma LogNext(a: seq<Hallazgo>, b: seq<Hallazgo>, c: seq<Hallazgo>)
    ensures (a + b) + c == a + (b + c)
  {
  }

  lemma WalkNext(all: set<string>, quedan: set<string>, fuera: set<string>, k: string)
    requires k in quedan && quedan <= all
    ensures (all - quedan) + {k} == all - (quedan - {k})
    ensures k !in fuera ==> ((all - quedan) - fuera) + {k} == (all - (quedan - {k})) - fuera
    ensures k in fuera ==> (all - quedan) - fuera == (all - (quedan - {k})) - fuera
  {
  }

  lemma FiledNext(out: seq<Hallazgo>, h: Hallazgo)
    requires BienFechados(out)
    requires h.UsoEmpieza? ==> h.clave == Clave(h.uso.programa, h.uso.recurso, h.uso.desde)
    ensures BienFechados(out + [h])
  {
  }

  /** Starts, filed under their own keys. */
  predicate SoloEmpiezos(out: seq<Hallazgo>) {
    BienFechados(out) && forall i | 0 <= i < |out| :: out[i].UsoEmpieza?
  }

  /** One more start of the walk. */
  lemma StartNext(activos: Usos, nuevos: Usos, ks: set<string>, out: seq<Hallazgo>, h: Hallazgo)
    requires nuevos.Keys !! activos.Keys
    requires RepiteUsos(activos, out) == Some(activos + Solo(nuevos, ks))
    requires h.UsoEmpieza? && h.clave in nuevos && h.clave !in ks && h.uso == nuevos[h.clave]
    requires SoloEmpiezos(out) && h.clave == Clave(h.uso.programa, h.uso.recurso, h.uso.desde)
    ensures RepiteUsos(activos, out + [h]) == Some(activos + Solo(nuevos, ks + {h.clave}))
    ensures SoloEmpiezos(out + [h])
  {
    FiledNext(out, h);
    ReplaySnoc(activos, out, h);
    SoloNext(activos, nuevos, ks, h.clave);
  }

  /** The findings end the uses `idos`, and no other. */
  predicate Acaban(todos: Usos, idos: set<string>, out: seq<Hallazgo>) {
    RepiteUsos(todos, out) == Some(todos - idos) && BienFechados(out) && forall i | 0 <= i < |out| :: out[i].UsoTermina?
  }

  /** One more end of the walk. */
  lemma EndNext(todos: Usos, idos: set<string>, out: seq<Hallazgo>, h: Hallazgo)
    requires Acaban(todos, idos, out)
    requires h.UsoTermina? && h.clave in todos && h.clave !in idos
    ensures Acaban(todos, idos + {h.clave}, out + [h])
  {
    ReplaySnoc(todos, out, h);
    FiledNext(out, h);
    assert todos - idos - {h.clave} == todos - (idos + {h.clave});
  }

  /** Of the keys `claves` the walk has `quedan` to go; the ones it saw outside `vigentes` are `idos`. */
  predicate Faltan(claves: set<string>, vigentes: set<string>, idos: set<string>, quedan: set<string>) {
    quedan <= claves && idos !! quedan && idos + (quedan - vigentes) == claves - vigentes
  }

  lemma OneLess(claves: set<string>, vigentes: set<string>, idos: set<string>, quedan: set<string>, k: string)
    requires Faltan(claves, vigentes, idos, quedan) && k in quedan
    ensures k in claves && k !in idos
    ensures Faltan(claves, vigentes, if k in vigentes then idos else idos + {k}, quedan - {k})
  {
  }

  /** The next key a B-tree walk gives. */
  method Siguiente(quedan: set<string>) returns (k: string)
    requires quedan != {}
    ensures k in quedan
  {
    k := First(quedan);
  }

  /** An end for every use that was going on and is not. */
  method Terminan(activos: Usos, usos: seq<Uso>, vigentes: Usos, todos: Usos, ahora: int) returns (out: seq<Hallazgo>)
    requires activos.Keys <= todos.Keys
    ensures RepiteUsos(todos, out) == Some(todos - (activos.Keys - vigentes.Keys))
    ensures BienFechados(out) && forall i | 0 <= i < |out| :: out[i].UsoTermina?
  {
    out := [];
    var quedan := activos.Keys;
    ghost var idos: set<string> := {};
    assert todos - idos == todos;
    while quedan != {}
      invariant Faltan(activos.Keys, vigentes.Keys, idos, quedan) && Acaban(todos, idos, out)
      decreases quedan
    {
      var k := Siguiente(quedan);
      OneLess(activos.Keys, vigentes.Keys, idos, quedan, k);
      if k !in vigentes {
        var a := activos[k];
        var hasta := HastaDe(usos, k, ahora);
        var h := UsoTermina(k, a, hasta, Minutos(a.desde, hasta));
        EndNext(todos, idos, out, h);
        out := out + [h];
        idos := idos + {k};
      }
      quedan := quedan - {k};
    }
    assert idos == activos.Keys - vigentes.Keys;
  }

  // ----- the protection's findings -----

  predicate SoloHechos(out: seq<Hallazgo>) { forall i | 0 <= i < |out| :: out[i].HechoCambio? || out[i].HechoNuevo? }

  predicate SoloAtencion(out: seq<Hallazgo>) {
    forall i | 0 <= i < |out| :: out[i].AtencionEmpieza? || out[i].AtencionVuelve?
  }

  predicate Cambia(antes: map<string, bool>, hechos: map<string, bool>, k: string) {
    k in hechos && (k !in antes || antes[k] != hechos[k])
  }

  lemma {:induction false} FactsLeaveAttention(a: set<string>, out: seq<Hallazgo>)
    requires SoloHechos(out)
    ensures RepiteAtencion(a, out) == Some(a)
  {
    if out != [] { FactsLeaveAttention(a, out[..|out| - 1]); }
  }

  lemma {:induction false} AttentionLeavesFacts(out: seq<Hallazgo>, k: string)
    requires SoloAtencion(out)
    ensures UltimoHecho(out, k) == None
  {
    if out != [] { AttentionLeavesFacts(out[..|out| - 1], k); }
  }

  lemma {:induction false} FactConcat(a: seq<Hallazgo>, b: seq<Hallazgo>, k: string)
    ensures UltimoHecho(a + b, k) == if UltimoHecho(b, k).Some? then UltimoHecho(b, k) else UltimoHecho(a, k)
  {
    if b == [] {
      assert a + b == a;
    } else {
      assert (a + b)[..|a + b| - 1] == a + b[..|b| - 1];
      FactConcat(a, b[..|b| - 1], k);
    }
  }

  lemma {:induction false} AttentionConcat(s: set<string>, a: seq<Hallazgo>, b: seq<Hallazgo>)
    ensures RepiteAtencion(s, a + b)
         == match RepiteAtencion(s, a) case None => None case Some(m) => RepiteAtencion(m, b)
  {
    if b == [] {
      assert a + b == a;
    } else {
      assert (a + b)[..|a + b| - 1] == a + b[..|b| - 1];
      AttentionConcat(s, a, b[..|b| - 1]);
    }
  }

  lemma FactNext(out: seq<Hallazgo>, h: Hallazgo, k: string)
    ensures UltimoHecho(out + [h], k)
         == if (h.HechoCambio? || h.HechoNuevo?) && h.hecho == k then Some(h.activo) else UltimoHecho(out, k)
  {
    assert (out + [h])[..|out|] == out;
  }

  /** The plain on and off of each product or profile, as history. */
  method HechosNuevos(antes: map<string, bool>, hechos: map<string, bool>) returns (out: seq<Hallazgo>)
    ensures SoloHechos(out)
    ensures forall k :: UltimoHecho(out, k) == if Cambia(antes, hechos, k) then Some(hechos[k]) else None
  {
    out := [];
    var quedan := hechos.Keys;
    while quedan != {}
      invariant quedan <= hechos.Keys && SoloHechos(out)
      invariant forall k ::
          UltimoHecho(out, k) == if Cambia(antes, hechos, k) && k !in quedan then Some(hechos[k]) else None
      decreases quedan
    {
      var k := Siguiente(quedan);
      ghost var dichos := out;
      if k !in antes {
        out := out + [HechoNuevo(k, hechos[k])];
      } else if antes[k] != hechos[k] {
        out := out + [HechoCambio(k, hechos[k])];
      }
      if out != dichos {
        forall x ensures UltimoHecho(out, x) == if x == k then Some(hechos[k]) else UltimoHecho(dichos, x) {
          FactNext(dichos, out[|dichos|], x);
        }
      }
      quedan := quedan - {k};
    }
  }

  /** An end for every condition of attention that is no longer there. */
  method Vuelven(habia: set<string>, hay: set<string>) returns (out: seq<Hallazgo>)
    ensures SoloAtencion(out) && RepiteAtencion(habia + hay, out) == Some(hay)
  {
    out := [];
    var quedan := habia;
    ghost var idas: set<string> := {};
    assert habia + hay - idas == habia + hay;
    while quedan != {}
      invariant Faltan(habia, hay, idas, quedan) && AcabanAvisos(habia + hay, idas, out)
      decreases quedan
    {
      var c := Siguiente(quedan);
      OneLess(habia, hay, idas, quedan, c);
      if c !in hay {
        BackNext(habia + hay, idas, out, c);
        out := out + [AtencionVuelve(c)];
        idas := idas + {c};
      }
      quedan := quedan - {c};
    }
    assert habia + hay - idas == hay;
  }

  /** The findings end the conditions `idas`, and no other. */
  predicate AcabanAvisos(todas: set<string>, idas: set<string>, out: seq<Hallazgo>) {
    SoloAtencion(out) && RepiteAtencion(todas, out) == Some(todas - idas)
  }

  lemma BackNext(todas: set<string>, idas: set<string>, out: seq<Hallazgo>, c: string)
    requires AcabanAvisos(todas, idas, out) && c in todas && c !in idas
    ensures AcabanAvisos(todas, idas + {c}, out + [AtencionVuelve(c)])
  {
    AttentionSnoc(todas, out, AtencionVuelve(c));
    assert todas - idas - {c} == todas - (idas + {c});
  }

  /** One more start of the walk over the conditions there are. */
  lemma AlertNext(habia: set<string>, vistas: set<string>, out: seq<Hallazgo>, h: Hallazgo, c: string)
    requires RepiteAtencion(habia, out) == Some(habia + vistas) && SoloAtencion(out) && c !in vistas
    requires c !in habia ==> h.AtencionEmpieza? && h.condicion == c
    ensures c !in habia ==> RepiteAtencion(habia, out + [h]) == Some(habia + (vistas + {c})) && SoloAtencion(out + [h])
    ensures c in habia ==> habia + (vistas + {c}) == habia + vistas
  {
    if c !in habia {
      AttentionSnoc(habia, out, h);
      OneMoreAlert(habia, vistas, c);
    }
  }

  lemma OneMoreAlert(habia: set<string>, vistas: set<string>, c: string)
    ensures habia + vistas + {c} == habia + (vistas + {c})
  {
  }

  // ----- the startup watch -----

  /** One finding for each new entry. */
  predicate DeNuevos(out: seq<Hallazgo>, nuevos: seq<Arranque>) {
    |out| == |nuevos| && forall i | 0 <= i < |out| :: out[i].ArranqueNuevo? && out[i].clave == ClaveArranque(nuevos[i])
  }

  lemma AvisablesNext(nuevos: seq<Arranque>, n: nat)
    requires n < |nuevos|
    ensures Avisables(nuevos[..n + 1]) == Avisables(nuevos[..n]) + (if nuevos[n].sistema then 0 else 1)
  {
    assert nuevos[..n + 1][..n] == nuevos[..n];
  }

  lemma NewNext(out: seq<Hallazgo>, nuevos: seq<Arranque>, n: nat, h: Hallazgo)
    requires n < |nuevos| && DeNuevos(out, nuevos[..n]) && h.ArranqueNuevo? && h.clave == ClaveArranque(nuevos[n])
    ensures DeNuevos(out + [h], nuevos[..n + 1])
  {
    var m := nuevos[..n + 1];
    forall i | 0 <= i < n + 1
      ensures (out + [h])[i].ArranqueNuevo? && (out + [h])[i].clave == ClaveArranque(m[i])
    {
      if i < n { assert m[i] == nuevos[..n][i]; }
    }
  }

  /** The entry was there, is not, could be read, and does not go away by design. */
  predicate SeFue(r: Recordado, k: string, presentes: set<string>, legible: string -> bool) {
    r.presente && k !in presentes && legible(k) && r.tipo != "runonce"
  }

  /** A finding for each of the entries `vistas` that went away, and no other. */
  predicate SonIdos(idos: seq<Hallazgo>, antes: map<string, Recordado>, vistas: set<string>, presentes: set<string>,
                    legible: string -> bool)
    requires vistas <= antes.Keys
  {
    && (forall i | 0 <= i < |idos| :: idos[i].ArranqueIdo? && idos[i].clave in vistas)
    && (forall k | k in vistas :: ArranqueIdo(k) in idos <==> SeFue(antes[k], k, presentes, legible))
  }

  /** Looking at one more entry. */
  lemma GoneNext(idos: seq<Hallazgo>, antes: map<string, Recordado>, vistas: set<string>, presentes: set<string>,
                 legible: string -> bool, k: string)
    requires vistas <= antes.Keys && k in antes && k !in vistas && SonIdos(idos, antes, vistas, presentes, legible)
    ensures SonIdos(if SeFue(antes[k], k, presentes, legible) then idos + [ArranqueIdo(k)] else idos,
                    antes, vistas + {k}, presentes, legible)
  {
    var mas := idos + [ArranqueIdo(k)];
    assert ArranqueIdo(k) in mas && ArranqueIdo(k) !in idos;
    assert forall x | x in vistas :: ArranqueIdo(x) in mas <==> ArranqueIdo(x) in idos;
  }

  /** An entry as the look leaves it. */
  function Visto(r: Recordado, k: string, presentes: set<string>, legible: string -> bool): Recordado {
    if r.presente && k !in presentes && legible(k) then r.(presente := false) else r
  }

  /** The entries as the look leaves them, but for those still to look at. */
  predicate Vistos(ahora: map<string, Recordado>, antes: map<string, Recordado>, quedan: set<string>,
                   presentes: set<string>, legible: string -> bool)
  {
    ahora.Keys == antes.Keys
    && forall k | k in antes :: ahora[k] == if k in quedan then antes[k] else Visto(antes[k], k, presentes, legible)
  }

  lemma SeenNext(ahora: map<string, Recordado>, antes: map<string, Recordado>, quedan: set<string>,
                 presentes: set<string>, legible: string -> bool, k: string)
    requires Vistos(ahora, antes, quedan, presentes, legible) && k in quedan && k in antes
    ensures ahora[k] == antes[k]
    ensures Vistos(ahora[k := Visto(antes[k], k, presentes, legible)], antes, quedan - {k}, presentes, legible)
    ensures (antes.Keys - quedan) + {k} == antes.Keys - (quedan - {k})
  {
  }

  /** The findings for entries gone, one more or none. */
  lemma GoneTold(idos: seq<Hallazgo>, h: seq<Hallazgo>, antes: map<string, Recordado>, vistas: set<string>,
                 presentes: set<string>, legible: string -> bool, k: string)
    requires vistas <= antes.Keys && k in antes && k !in vistas && SonIdos(idos, antes, vistas, presentes, legible)
    requires h == if SeFue(antes[k], k, presentes, legible) then [ArranqueIdo(k)] else []
    ensures SonIdos(idos + h, antes, vistas + {k}, presentes, legible) && Avisos(idos + h) == Avisos(idos)
  {
    GoneNext(idos, antes, vistas, presentes, legible, k);
    if h == [] {
      assert idos + h == idos;
    } else {
      NoticesNext(idos, ArranqueIdo(k));
    }
  }

  lemma NoticesNext(out: seq<Hallazgo>, h: Hallazgo)
    ensures Avisos(out + [h]) == Avisos(out) + (if EsAviso(h) then 1 else 0)
  {
    assert (out + [h])[..|out|] == out;
  }

  lemma {:induction false} NoticesConcat(a: seq<Hallazgo>, b: seq<Hallazgo>)
    ensures Avisos(a + b) == Avisos(a) + Avisos(b)
  {
    if b == [] {
      assert a + b == a;
    } else {
      assert (a + b)[..|a + b| - 1] == a + b[..|b| - 1];
      NoticesConcat(a, b[..|b| - 1]);
    }
  }

  /** The new entries that are not part of the system. */
  function Avisables(nuevos: seq<Arranque>): nat {
    if nuevos == [] then 0
    else Avisables(nuevos[..|nuevos| - 1]) + (if nuevos[|nuevos| - 1].sistema then 0 else 1)
  }

  /** The absent entries. */
  function Ausentes(arranque: map<string, Recordado>): set<string> { set k | k in arranque && !arranque[k].presente }

  /** Forgets the oldest absent entries while there are too many. */
  method Olvida(arranque: map<string, Recordado>) returns (r: map<string, Recordado>)
    ensures r.Keys <= arranque.Keys && forall k | k in r :: r[k] == arranque[k]
    ensures forall k | k in arranque && k !in r :: !arranque[k].presente
    ensures |r| <= MAX_RECORDADOS || Ausentes(r) == {}
    ensures |arranque| <= MAX_RECORDADOS ==> r == arranque
    ensures |arranque| > MAX_RECORDADOS ==> |r| >= MAX_RECORDADOS
    ensures forall k, o | k in arranque && k !in r && o in Ausentes(r) :: arranque[k].visto <= arranque[o].visto
  {
    r := arranque;
    while |r| > MAX_RECORDADOS && Ausentes(r) != {}
      invariant r.Keys <= arranque.Keys && forall k | k in r :: r[k] == arranque[k]
      invariant forall k | k in arranque && k !in r :: !arranque[k].presente
      invariant forall k, o | k in arranque && k !in r && o in Ausentes(r) :: arranque[k].visto <= arranque[o].visto
      invariant |arranque| <= MAX_RECORDADOS ==> r == arranque
      invariant |arranque| > MAX_RECORDADOS ==> |r| >= MAX_RECORDADOS
      decreases |r|
    {
      var viejo := MasViejo(r);
      assert (r - {viejo}).Keys == r.Keys - {viejo} && |r - {viejo}| == |(r - {viejo}).Keys|;
      r := r - {viejo};
    }
  }

  /** The absent entry seen first, the first key among equals. */
  method MasViejo(arranque: map<string, Recordado>) returns (v: string)
    requires Ausentes(arranque) != {}
    ensures v in Ausentes(arranque)
    ensures forall o | o in Ausentes(arranque) :: arranque[v].visto <= arranque[o].visto
  {
    var quedan := Ausentes(arranque);
    v := Siguiente(quedan);
    quedan := quedan - {v};
    while quedan != {}
      invariant quedan <= Ausentes(arranque) && v in Ausentes(arranque)
      invariant forall o | o in Ausentes(arranque) && o !in quedan :: arranque[v].visto <= arranque[o].visto
      decreases quedan
    {
      var k := Siguiente(quedan);
      if arranque[k].visto < arranque[v].visto { v := k; }
      quedan := quedan - {k};
    }
  }

  /** The key of every entry of a list. */
  function Claves(lista: seq<Arranque>): set<string> { set a | a in lista :: ClaveArranque(a) }

  /** The setting was known and is another now. */
  predicate Cambiado(antes: map<string, string>, actual: map<string, string>, k: string) {
    k in antes && k in actual && antes[k] != actual[k]
  }

  /** The changes found link each setting's last «after» to the next «before», and end at the value stored. */
  ghost predicate AlDia(historia: seq<Hallazgo>, privacidad: map<string, string>) {
    && Enlazados(historia)
    && forall k :: UltimoValor(historia, k).Some? ==>
         k in privacidad && UltimoValor(historia, k).value == privacidad[k]
  }

  /** One setting stored, with its finding when it changed. */
  lemma SettingStored(historia: seq<Hallazgo>, privacidad: map<string, string>, k: string, v: string, h: seq<Hallazgo>)
    requires AlDia(historia, privacidad)
    requires if k in privacidad && privacidad[k] != v
             then |h| == 1 && h[0].PrivacidadCambio? && h[0].ajuste == k && h[0].antes == privacidad[k]
                  && h[0].despues == v
             else h == []
    ensures AlDia(historia + h, privacidad[k := v])
  {
    if h == [] {
      assert historia + h == historia;
    } else {
      assert (historia + h)[..|historia|] == historia;
    }
  }

  /** A finding for each of the settings `vistos` that changed, from its value before to its value now, and no other. */
  predicate SonCambios(out: seq<Hallazgo>, antes: map<string, string>, actual: map<string, string>,
                       vistos: set<string>) {
    && (forall i | 0 <= i < |out| :: out[i].PrivacidadCambio? && out[i].ajuste in vistos
          && Cambiado(antes, actual, out[i].ajuste)
          && out[i].antes == antes[out[i].ajuste] && out[i].despues == actual[out[i].ajuste])
    && (forall k | k in vistos && Cambiado(antes, actual, k) :: exists i | 0 <= i < |out| :: out[i].ajuste == k)
  }

  lemma ChangeNext(out: seq<Hallazgo>, antes: map<string, string>, actual: map<string, string>, vistos: set<string>,
                   k: string, h: seq<Hallazgo>)
    requires SonCambios(out, antes, actual, vistos) && k !in vistos && k in actual
    requires if Cambiado(antes, actual, k)
             then |h| == 1 && h[0].PrivacidadCambio? && h[0].ajuste == k && h[0].antes == antes[k]
                 && h[0].despues == actual[k]
             else h == []
    ensures SonCambios(out + h, antes, actual, vistos + {k})
  {
    forall x | x in vistos + {k} && Cambiado(antes, actual, x)
      ensures exists i | 0 <= i < |out + h| :: (out + h)[i].ajuste == x
    {
      if x == k {
        assert (out + h)[|out|] == h[0];
      } else {
        var i :| 0 <= i < |out| && out[i].ajuste == x;
        assert (out + h)[i] == out[i];
      }
    }
  }

  /** What is remembered once the entries `presentes` were read: those as there, the others as they were. */
  predicate Leidas(ahora: map<string, Recordado>, antes: map<string, Recordado>, presentes: set<string>) {
    && ahora.Keys == antes.Keys + presentes && (forall k | k in presentes :: ahora[k].presente)
    && (forall k | k in ahora && k !in presentes :: ahora[k] == antes[k])
  }

  /** The entries of the list not remembered before, each once. */
  predicate SonNuevos(nuevos: seq<Arranque>, antes: map<string, Recordado>, lista: seq<Arranque>,
                      presentes: set<string>)
  {
    && (forall i | 0 <= i < |nuevos| :: nuevos[i] in lista) && Claves(nuevos) == presentes - antes.Keys
    && (forall i, j | 0 <= i < j < |nuevos| :: ClaveArranque(nuevos[i]) != ClaveArranque(nuevos[j]))
  }

  /** An entry as reading it leaves it remembered. */
  function ConEntrada(m: map<string, Recordado>, a: Arranque, t: int): map<string, Recordado> {
    var k := ClaveArranque(a);
    if k in m then m[k := m[k].(presente := true)] else m[k := Recordado(t, a.titulo, a.tipo, true, a.sistema)]
  }

  lemma EntryRead(m: map<string, Recordado>, antes: map<string, Recordado>, presentes: set<string>, a: Arranque, t: int)
    requires Leidas(m, antes, presentes)
    ensures Leidas(ConEntrada(m, a, t), antes, presentes + {ClaveArranque(a)})
  {
  }

  lemma EntryNew(nuevos: seq<Arranque>, m: map<string, Recordado>, antes: map<string, Recordado>, lista: seq<Arranque>,
                 presentes: set<string>, a: Arranque)
    requires Leidas(m, antes, presentes) && SonNuevos(nuevos, antes, lista, presentes)
    requires a in lista && ClaveArranque(a) !in presentes
    ensures SonNuevos(if ClaveArranque(a) in m then nuevos else nuevos + [a], antes, lista,
                      presentes + {ClaveArranque(a)})
  {
    OneMoreKey(nuevos, a);
  }

  /** A finding for each of these new entries, and for no other. */
  predicate DichoNuevo(out: seq<Hallazgo>, claves: set<string>) {
    && (forall i | 0 <= i < |out| && out[i].ArranqueNuevo? :: out[i].clave in claves)
    && (forall k | k in claves :: exists i | 0 <= i < |out| :: out[i].ArranqueNuevo? && out[i].clave == k)
  }

  /** The findings of a look on startup, put together: each new and each gone entry has its own. */
  lemma StartupTold(avisos: seq<Hallazgo>, resumenes: seq<Hallazgo>, idos: seq<Hallazgo>, nuevos: seq<Arranque>,
                    antes: set<string>)
    requires DeNuevos(avisos, nuevos) && (forall i | 0 <= i < |resumenes| :: resumenes[i].ArranqueVarios?)
    requires forall i | 0 <= i < |idos| :: idos[i].ArranqueIdo?
    ensures DichoNuevo(avisos + resumenes + idos, Claves(nuevos))
    ensures forall k :: ArranqueIdo(k) in avisos + resumenes + idos <==> ArranqueIdo(k) in idos
  {
    ThreeStretches(avisos, resumenes, idos);
    NewTold(avisos, resumenes, idos, nuevos);
  }

  lemma NewTold(avisos: seq<Hallazgo>, resumenes: seq<Hallazgo>, idos: seq<Hallazgo>, nuevos: seq<Arranque>)
    requires DeNuevos(avisos, nuevos) && (forall i | 0 <= i < |resumenes| :: resumenes[i].ArranqueVarios?)
    requires forall i | 0 <= i < |idos| :: idos[i].ArranqueIdo?
    ensures DichoNuevo(avisos + resumenes + idos, Claves(nuevos))
  {
    ThreeStretches(avisos, resumenes, idos);
    var out := avisos + resumenes + idos;
    forall i | 0 <= i < |out| && out[i].ArranqueNuevo? ensures out[i].clave in Claves(nuevos) {
      assert i < |avisos| && out[i] == avisos[i] && nuevos[i] in nuevos;
    }
    forall k | k in Claves(nuevos) ensures exists i | 0 <= i < |out| :: out[i].ArranqueNuevo? && out[i].clave == k {
      var a :| a in nuevos && ClaveArranque(a) == k;
      var i :| 0 <= i < |nuevos| && nuevos[i] == a;
      assert out[i] == avisos[i];
    }
  }

  lemma OneMoreKey(lista: seq<Arranque>, a: Arranque)
    ensures Claves(lista + [a]) == Claves(lista) + {ClaveArranque(a)}
    ensures forall i | 0 <= i < |lista| :: ClaveArranque(lista[i]) in Claves(lista)
  {
    assert forall x | x in lista :: x in lista + [a];
    assert a in lista + [a];
  }

  class Base {
    var usosDesde: Option<int>
    var usosUltima: int
    var usosActivos: Usos
    var arranqueDesde: Option<int>
    var arranque: map<string, Recordado>
    var privacidadDesde: Option<int>
    var privacidad: map<string, string>
    var proteccionDesde: Option<int>
    var proteccion: map<string, bool>
    var atencion: set<string>
    var avisados: Tabla
    /** The findings written since the start, watch by watch. */
    ghost var historiaUsos: seq<Hallazgo>
    ghost var historiaPrivacidad: seq<Hallazgo>
    ghost var historiaProteccion: seq<Hallazgo>

    /** Replaying the findings gives what is remembered. */
    ghost predicate UsosValen()
      reads `historiaUsos, `usosActivos
    {
      Valen(historiaUsos, usosActivos)
    }

    ghost predicate PrivacidadVale()
      reads `historiaPrivacidad, `privacidad, `privacidadDesde
    {
      AlDia(historiaPrivacidad, privacidad) && (privacidadDesde.None? ==> historiaPrivacidad == [])
    }

    ghost predicate ProteccionVale()
      reads this
    {
      && RepiteAtencion({}, historiaProteccion) == Some(atencion)
      && (proteccionDesde.None? ==> historiaProteccion == [])
      && forall k | k in proteccion && UltimoHecho(historiaProteccion, k).Some? ::
           UltimoHecho(historiaProteccion, k).value == proteccion[k]
    }

    constructor ()
      ensures UsosValen() && PrivacidadVale() && ProteccionVale()
      ensures usosDesde == None && usosActivos == map[] && atencion == {} && privacidad == map[] && avisados == map[]
      ensures historiaUsos == [] && historiaPrivacidad == [] && historiaProteccion == []
    {
      usosDesde, usosUltima, usosActivos := None, 0, map[];
      arranqueDesde, arranque := None, map[];
      privacidadDesde, privacidad := None, map[];
      proteccionDesde, proteccion, atencion, avisados := None, map[], {}, map[];
      historiaUsos, historiaPrivacidad, historiaProteccion := [], [], [];
    }

    /** Whether a notice with this key may be given now; if so, it is remembered. */
    method Avisa(clave: string, ahora: int, ventana: int) returns (si: bool)
      modifies `avisados
      ensures (si, avisados) == Notices.Avisa(old(avisados), clave, ahora, ventana)
    {
      avisados := map k | k in avisados && ahora - avisados[k] < 7 * DIA :: avisados[k];
      if clave in avisados && ahora - avisados[clave] < ventana {
        return false;
      }
      avisados := avisados[clave := ahora];
      si := true;
    }

    /** A use that started and ended since the last look. */
    method LeeBreve(u: Uso, ahora: int) returns (out: seq<Hallazgo>)
      modifies `avisados
      ensures SonBreves(out, if BreveNuevo(u, usosDesde.None?, usosUltima) && ClaveDe(u) !in usosActivos.Keys
                             then [(ClaveDe(u), u.hasta.value)] else [])
    {
      out := [];
      var clave := ClaveDe(u);
      var uso := UsoActivo(u.programa, u.recurso, u.desde);
      if u.hasta.Some? && usosDesde.Some? && u.desde > usosUltima && u.hasta.value >= u.desde && clave !in usosActivos {
        var aviso := false;
        if !EsPropio(u.programa) { aviso := Avisa(ClaveAviso(uso), ahora, VENTANA_USO); }
        out := [UsoBreve(clave, uso, u.hasta.value, aviso)];
      }
    }

    /** The uses going on, and the ones that started and ended between two looks. */
    method LeeUsos(usos: seq<Uso>, enMarcha: Option<set<string>>, ahora: int)
      returns (vigentes: Usos, out: seq<Hallazgo>)
      modifies `avisados
      ensures vigentes == Vigentes(usos, enMarcha)
      ensures SonBreves(out, Breves(usos, usosDesde.None?, usosUltima, usosActivos.Keys))
    {
      vigentes, out := map[], [];
      for n := 0 to |usos|
        invariant vigentes == Vigentes(usos[..n], enMarcha)
        invariant SonBreves(out, Breves(usos[..n], usosDesde.None?, usosUltima, usosActivos.Keys))
      {
        var u := usos[n];
        LookNext(usos, n, enMarcha, usosDesde.None?, usosUltima, usosActivos.Keys);
        if u.hasta.None? {
          if SigueAbierto(u, enMarcha) {
            vigentes := vigentes[ClaveDe(u) := UsoActivo(u.programa, u.recurso, u.desde)];
          }
        } else {
          var breve := LeeBreve(u, ahora);
          out := out + breve;
        }
      }
      assert usos[..|usos|] == usos;
    }

    /** A start for every use going on that was not. */
    method Empiezan(vigentes: Usos, ahora: int) returns (out: seq<Hallazgo>)
      requires BienClavados(vigentes)
      modifies `avisados
      ensures RepiteUsos(usosActivos, out) == Some(usosActivos + (vigentes - usosActivos.Keys))
      ensures SoloEmpiezos(out)
    {
      out := [];
      ghost var nuevos := vigentes - usosActivos.Keys;
      var quedan := vigentes.Keys;
      SoloNext(usosActivos, nuevos, {}, "");
      while quedan != {}
        invariant quedan <= vigentes.Keys && SoloEmpiezos(out)
        invariant RepiteUsos(usosActivos, out) == Some(usosActivos + Solo(nuevos, vigentes.Keys - quedan))
        decreases quedan
      {
        var k := Siguiente(quedan);
        ghost var ks := vigentes.Keys - quedan;
        SoloNext(usosActivos, nuevos, ks, k);
        if k !in usosActivos {
          var aviso := false;
          if usosDesde.Some? && !EsPropio(vigentes[k].programa) {
            aviso := Avisa(ClaveAviso(vigentes[k]), ahora, VENTANA_USO);
          }
          var h := UsoEmpieza(k, vigentes[k], aviso, usosDesde.None?);
          StartNext(usosActivos, nuevos, ks, out, h);
          out := out + [h];
        }
        quedan := quedan - {k};
        assert vigentes.Keys - quedan == ks + {k};
      }
      assert Solo(nuevos, vigentes.Keys - {}) == nuevos;
    }

    /** Replaying the findings gives what is remembered, to the letter. */
    ghost predicate UsosExactos()
      reads `historiaUsos, `usosActivos
    {
      Exactos(historiaUsos, usosActivos)
    }

    /**
     * Looks at the camera and microphone uses: what it finds replays to what it now remembers, to the letter exactly
     * when no use going on is given another spelling.
     */
    method MiraUsos(usos: seq<Uso>, enMarcha: Option<set<string>>, ahora: int) returns (out: seq<Hallazgo>)
      requires UsosValen()
      modifies `usosDesde, `usosUltima, `usosActivos, `avisados, `historiaUsos
      ensures UsosValen()
      ensures usosActivos == Vigentes(usos, enMarcha) && usosUltima == ahora && usosDesde.Some?
      ensures historiaUsos == old(historiaUsos) + out
      ensures RelataUsos(out, usos, old(usosDesde), old(usosUltima), old(usosActivos), Vigentes(usos, enMarcha))
      ensures old(UsosExactos()) ==> (UsosExactos() <==> MismaLetra(old(usosActivos), usosActivos))
    {
      var vigentes;
      vigentes, out := CuentaUsos(usos, enMarcha, ahora);
      GuardaUsos(vigentes, out, ahora);
    }

    /** Remembers the uses going on and what was found. */
    method GuardaUsos(vigentes: Usos, ghost out: seq<Hallazgo>, ahora: int)
      requires UsosValen() && BienClavados(vigentes) && Lleva(usosActivos, vigentes, out)
      modifies `usosDesde, `usosUltima, `usosActivos, `historiaUsos
      ensures UsosValen() && usosActivos == vigentes && usosUltima == ahora && usosDesde.Some?
      ensures historiaUsos == old(historiaUsos) + out
      ensures old(UsosExactos()) ==> (UsosExactos() <==> MismaLetra(old(usosActivos), vigentes))
    {
      LookReplays(historiaUsos, usosActivos, vigentes, out);
      historiaUsos := historiaUsos + out;
      usosActivos := vigentes;
      usosUltima := ahora;
      if usosDesde.None? { usosDesde := Some(ahora); }
    }

    /** The uses going on and the findings of one look. */
    method CuentaUsos(usos: seq<Uso>, enMarcha: Option<set<string>>, ahora: int)
      returns (vigentes: Usos, out: seq<Hallazgo>)
      modifies `avisados
      ensures vigentes == Vigentes(usos, enMarcha) && BienClavados(vigentes) && Lleva(usosActivos, vigentes, out)
      ensures RelataUsos(out, usos, usosDesde, usosUltima, usosActivos, Vigentes(usos, enMarcha))
    {
      var breves;
      vigentes, breves := LeeUsos(usos, enMarcha, ahora);
      VigentesClavados(usos, enMarcha);
      var empiezan := Empiezan(vigentes, ahora);
      var todos := usosActivos + (vigentes - usosActivos.Keys);
      var terminan := Terminan(usosActivos, usos, vigentes, todos, ahora);
      out := breves + empiezan + terminan;
      LookLeads(usosActivos, vigentes, breves, empiezan, terminan);
      LookTold(usosActivos, todos, todos - (usosActivos.Keys - vigentes.Keys), vigentes, breves, empiezan, terminan,
               Breves(usos, usosDesde.None?, usosUltima, usosActivos.Keys));
    }

    /** One setting as read now: a finding when it changed. */
    method LeeAjuste(k: string, v: string, ahora: int) returns (out: seq<Hallazgo>)
      requires PrivacidadVale() && privacidadDesde.Some?
      modifies `privacidad, `avisados, `historiaPrivacidad
      ensures PrivacidadVale() && privacidad == old(privacidad)[k := v]
      ensures historiaPrivacidad == old(historiaPrivacidad) + out
      ensures k in old(privacidad) && old(privacidad)[k] != v ==>
        |out| == 1 && out[0].PrivacidadCambio? && out[0].ajuste == k && out[0].antes == old(privacidad)[k]
            && out[0].despues == v
      ensures k !in old(privacidad) || old(privacidad)[k] == v ==> out == []
    {
      out := [];
      var antes := if k in privacidad then Some(privacidad[k]) else None;
      privacidad := privacidad[k := v];
      if antes.Some? && antes.value != v {
        var aviso := Avisa("privacidad|" + k + "|" + v, ahora, VENTANA_AVISO);
        var h := PrivacidadCambio(k, antes.value, v, aviso);
        out := [h];
        historiaPrivacidad := historiaPrivacidad + [h];
      }
      SettingStored(old(historiaPrivacidad), old(privacidad), k, v, out);
    }

    /** Looks at the privacy settings; one not given this time is left as it was. */
    method MiraPrivacidad(actual: map<string, string>, ahora: int) returns (out: seq<Hallazgo>)
      requires PrivacidadVale()
      modifies `privacidadDesde, `privacidad, `avisados, `historiaPrivacidad
      ensures PrivacidadVale() && historiaPrivacidad == old(historiaPrivacidad) + out && privacidadDesde.Some?
      ensures privacidad == if old(privacidadDesde).None? then actual else old(privacidad) + actual
      ensures old(privacidadDesde).Some? ==> SonCambios(out, old(privacidad), actual, actual.Keys)
    {
      out := [];
      if privacidadDesde.None? {
        privacidadDesde := Some(ahora);
        privacidad := actual;
        out := [PrivacidadBase(|actual|)];
        assert [PrivacidadBase(|actual|)][..0] == [];
        historiaPrivacidad := historiaPrivacidad + out;
        return;
      }
      out := LeeAjustes(actual, ahora);
    }

    /** Every setting given now, in order. */
    method LeeAjustes(actual: map<string, string>, ahora: int) returns (out: seq<Hallazgo>)
      requires PrivacidadVale() && privacidadDesde.Some?
      modifies `privacidad, `avisados, `historiaPrivacidad
      ensures PrivacidadVale() && historiaPrivacidad == old(historiaPrivacidad) + out
      ensures privacidad == old(privacidad) + actual
      ensures SonCambios(out, old(privacidad), actual, actual.Keys)
    {
      out := [];
      var quedan := actual.Keys;
      ghost var antes := privacidad;
      SoloNext(antes, actual, {}, "");
      assert actual.Keys - quedan == {};
      while quedan != {}
        invariant quedan <= actual.Keys && PrivacidadVale() && historiaPrivacidad == old(historiaPrivacidad) + out
        invariant privacidadDesde == old(privacidadDesde)
        invariant privacidad == antes + Solo(actual, actual.Keys - quedan)
        invariant SonCambios(out, antes, actual, actual.Keys - quedan)
        decreases quedan
      {
        var k := Siguiente(quedan);
        SoloNext(antes, actual, actual.Keys - quedan, k);
        WalkNext(actual.Keys, quedan, {}, k);
        quedan := quedan - {k};
        var h := LeeAjuste(k, actual[k], ahora);
        ChangeNext(out, antes, actual, actual.Keys - quedan - {k}, k, h);
        LogNext(old(historiaPrivacidad), out, h);
        out := out + h;
      }
      SoloAll(actual);
      assert actual.Keys - {} == actual.Keys;
    }

    /** A start for every condition of attention that was not there. */
    method Alertas(hay: set<string>, ahora: int) returns (out: seq<Hallazgo>)
      modifies `avisados
      ensures SoloAtencion(out) && RepiteAtencion(atencion, out) == Some(atencion + hay)
    {
      out := [];
      var quedan := hay;
      assert atencion + (hay - quedan) == atencion;
      while quedan != {}
        invariant quedan <= hay && SoloAtencion(out)
        invariant RepiteAtencion(atencion, out) == Some(atencion + (hay - quedan))
        decreases quedan
      {
        var c := Siguiente(quedan);
        WalkNext(hay, quedan, {}, c);
        if c !in atencion {
          var aviso := Avisa("proteccion|" + c, ahora, VENTANA_AVISO);
          var h := AtencionEmpieza(c, proteccionDesde.None?, aviso);
          AlertNext(atencion, hay - quedan, out, h, c);
          out := out + [h];
        } else {
          AlertNext(atencion, hay - quedan, out, AtencionVuelve(c), c);
        }
        quedan := quedan - {c};
      }
      assert hay - {} == hay;
    }

    /** Looks at the antivirus and the firewall: what it finds replays to the conditions it now remembers. */
    method MiraProteccion(p: Proteccion, ahora: int) returns (out: seq<Hallazgo>)
      requires ProteccionVale()
      modifies `proteccionDesde, `proteccion, `atencion, `avisados, `historiaProteccion
      ensures ProteccionVale() && historiaProteccion == old(historiaProteccion) + out && proteccionDesde.Some?
      ensures atencion == AtencionProteccion(p) && proteccion == HechosProteccion(p)
    {
      var hechos := HechosProteccion(p);
      var hay := AtencionProteccion(p);
      var cambios: seq<Hallazgo> := [];
      if proteccionDesde.Some? { cambios := HechosNuevos(proteccion, hechos); }
      var alertas := Alertas(hay, ahora);
      var vueltas := Vuelven(atencion, hay);
      out := cambios + (alertas + vueltas);
      FactsLeaveAttention(atencion, cambios);
      AttentionConcat(atencion, alertas, vueltas);
      AttentionConcat(atencion, cambios, alertas + vueltas);
      AttentionConcat({}, historiaProteccion, out);
      FactsStayTrue(historiaProteccion, cambios, alertas + vueltas, proteccion, hechos);
      historiaProteccion := historiaProteccion + out;
      proteccion := hechos;
      atencion := hay;
      if proteccionDesde.None? { proteccionDesde := Some(ahora); }
    }

    /** The entries of this look: the ones known are there, the others are remembered. */
    method LeeArranque(lista: seq<Arranque>, ahora: int) returns (nuevos: seq<Arranque>)
      modifies `arranque
      ensures forall k | k in arranque ::
        (k in Claves(lista) && arranque[k].presente) || (k in old(arranque) && arranque[k] == old(arranque)[k])
      ensures forall k | k in old(arranque) || k in Claves(lista) :: k in arranque
      ensures forall k | k in Claves(lista) :: arranque[k].presente
      ensures forall i | 0 <= i < |nuevos| :: nuevos[i] in lista
      ensures Claves(nuevos) == Claves(lista) - old(arranque).Keys
      ensures forall i, j | 0 <= i < j < |nuevos| :: ClaveArranque(nuevos[i]) != ClaveArranque(nuevos[j])
    {
      nuevos := [];
      var presentes: set<string> := {};
      for n := 0 to |lista|
        invariant presentes == Claves(lista[..n])
        invariant Leidas(arranque, old(arranque), presentes) && SonNuevos(nuevos, old(arranque), lista, presentes)
      {
        var a := lista[n];
        assert lista[..n + 1] == lista[..n] + [a];
        var clave := ClaveArranque(a);
        OneMoreKey(lista[..n], a);
        if clave !in presentes {
          EntryRead(arranque, old(arranque), presentes, a, ahora);
          EntryNew(nuevos, arranque, old(arranque), lista, presentes, a);
          if clave in arranque {
            arranque := arranque[clave := arranque[clave].(presente := true)];
          } else {
            arranque := arranque[clave := Recordado(ahora, a.titulo, a.tipo, true, a.sistema)];
            nuevos := nuevos + [a];
          }
          presentes := presentes + {clave};
        }
      }
      assert lista[..|lista|] == lista;
    }

    /** The findings of the new entries: one notice for many, otherwise at most one each. */
    method AvisaNuevos(nuevos: seq<Arranque>, ahora: int) returns (out: seq<Hallazgo>, resumenes: seq<Hallazgo>)
      modifies `avisados
      ensures DeNuevos(out, nuevos) && |resumenes| <= 1
          && (forall i | 0 <= i < |resumenes| :: resumenes[i].ArranqueVarios?)
      ensures Avisos(out + resumenes) <= MAX_AVISOS_ARRANQUE
      ensures Avisables(nuevos) > MAX_AVISOS_ARRANQUE ==> Avisos(out) == 0 && Avisos(out + resumenes) <= 1
    {
      out, resumenes := [], [];
      var avisables := Avisables(nuevos);
      var resumen := avisables > MAX_AVISOS_ARRANQUE;
      for i := 0 to |nuevos|
        invariant DeNuevos(out, nuevos[..i]) && Avisos(out) <= (if resumen then 0 else Avisables(nuevos[..i]))
      {
        var clave := ClaveArranque(nuevos[i]);
        var aviso := false;
        if !nuevos[i].sistema && !resumen { aviso := Avisa(clave, ahora, VENTANA_AVISO); }
        var h := ArranqueNuevo(clave, aviso);
        NewNext(out, nuevos, i, h);
        NoticesNext(out, h);
        AvisablesNext(nuevos, i);
        out := out + [h];
      }
      assert nuevos[..|nuevos|] == nuevos && out + [] == out;
      if resumen {
        var si := Avisa("arranque|varios", ahora, VENTANA_AVISO);
        if si {
          NoticesNext(out, ArranqueVarios(avisables));
          resumenes := [ArranqueVarios(avisables)];
        }
      }
    }

    /** One entry, gone or not: marked, and told unless it goes away by design. */
    method MarcaIdo(k: string, presentes: set<string>, legible: string -> bool) returns (h: seq<Hallazgo>)
      requires k in arranque
      modifies `arranque
      ensures arranque == old(arranque)[k := Visto(old(arranque)[k], k, presentes, legible)]
      ensures h == if SeFue(old(arranque)[k], k, presentes, legible) then [ArranqueIdo(k)] else []
    {
      h := [];
      if arranque[k].presente && k !in presentes && legible(k) {
        arranque := arranque[k := arranque[k].(presente := false)];
        if arranque[k].tipo != "runonce" { h := [ArranqueIdo(k)]; }
      }
    }

    /** What is gone, where it could be read; entries that run once go away by design. */
    method MarcaIdos(presentes: set<string>, legible: string -> bool) returns (idos: seq<Hallazgo>)
      modifies `arranque
      ensures Vistos(arranque, old(arranque), {}, presentes, legible)
      ensures Avisos(idos) == 0 && SonIdos(idos, old(arranque), old(arranque).Keys, presentes, legible)
    {
      idos := [];
      ghost var antes := arranque;
      var quedan := arranque.Keys;
      assert antes.Keys - quedan == {};
      while quedan != {}
        invariant quedan <= antes.Keys && Avisos(idos) == 0
        invariant SonIdos(idos, antes, antes.Keys - quedan, presentes, legible)
        invariant Vistos(arranque, antes, quedan, presentes, legible)
        decreases quedan
      {
        var k := Siguiente(quedan);
        SeenNext(arranque, antes, quedan, presentes, legible, k);
        var h := MarcaIdo(k, presentes, legible);
        GoneTold(idos, h, antes, antes.Keys - quedan, presentes, legible, k);
        quedan := quedan - {k};
        idos := idos + h;
      }
      assert antes.Keys - {} == antes.Keys;
    }

    /** What the look tells: the new entries, and then the ones that are gone. */
    method DiceArranque(nuevos: seq<Arranque>, presentes: set<string>, legible: string -> bool,
                        ghost habia: set<string>, ahora: int)
      returns (out: seq<Hallazgo>)
      requires Claves(nuevos) == presentes - habia
      modifies `arranque, `avisados
      ensures Vistos(arranque, old(arranque), {}, presentes, legible)
      ensures Avisos(out) <= MAX_AVISOS_ARRANQUE && DichoNuevo(out, presentes - habia)
      ensures forall k | k in old(arranque) :: ArranqueIdo(k) in out <==> SeFue(old(arranque)[k], k, presentes, legible)
    {
      var avisos, resumenes := AvisaNuevos(nuevos, ahora);
      var idos := MarcaIdos(presentes, legible);
      NoticesConcat(avisos + resumenes, idos);
      out := avisos + resumenes + idos;
      StartupTold(avisos, resumenes, idos, nuevos, old(arranque).Keys);
    }

    /**
     * Looks at what starts on its own: at most three notices however many entries appeared. Every entry of the
     * list is remembered as there, and only entries that are gone are forgotten.
     */
    method MiraArranque(lista: seq<Arranque>, legible: string -> bool, ahora: int) returns (out: seq<Hallazgo>)
      modifies `arranqueDesde, `arranque, `avisados
      ensures arranqueDesde.Some? && Avisos(out) <= MAX_AVISOS_ARRANQUE
      ensures old(arranqueDesde).None? ==> Avisos(out) == 0
      ensures forall k | k in Claves(lista) :: k in arranque && arranque[k].presente
      ensures forall k | k in old(arranque) && k !in arranque :: old(arranque)[k].presente ==> legible(k)
      ensures forall k | k in old(arranque) && old(arranque)[k].presente && k !in Claves(lista) && !legible(k) ::
        k in arranque && arranque[k] == old(arranque)[k]
      ensures old(arranqueDesde).Some? ==> DichoNuevo(out, Claves(lista) - old(arranque).Keys)
      ensures old(arranqueDesde).Some? ==> forall k | k in old(arranque) ::
        ArranqueIdo(k) in out <==> SeFue(old(arranque)[k], k, Claves(lista), legible)
    {
      var nuevos := LeeArranque(lista, ahora);
      if arranqueDesde.None? {
        arranqueDesde := Some(ahora);
        out := [ArranqueBase(|Claves(lista)|)];
        assert out[..0] == [];
        return;
      }
      out := DiceArranque(nuevos, Claves(lista), legible, old(arranque).Keys, ahora);
      arranque := Olvida(arranque);
    }
  }

  lemma {:induction false} BriefUsesChangeNothing(activos: Usos, out: seq<Hallazgo>)
    requires forall i | 0 <= i < |out| :: out[i].UsoBreve?
    ensures RepiteUsos(activos, out) == Some(activos)
  {
    if out != [] { BriefUsesChangeNothing(activos, out[..|out| - 1]); }
  }

  lemma StepFromSame(a: Usos, b: Usos, h: Hallazgo)
    requires a.Keys == b.Keys && BienClavados(a) && BienFechados([h]) && SigueUsos(b, h).Some?
    ensures SigueUsos(a, h).Some? && SigueUsos(a, h).value.Keys == SigueUsos(b, h).value.Keys
    ensures BienClavados(SigueUsos(a, h).value)
  {
    assert [h][0] == h;
  }

  /** Findings replay alike from tables with the same keys. */
  lemma {:induction false} ReplayFromSame(a: Usos, b: Usos, out: seq<Hallazgo>)
    requires a.Keys == b.Keys && BienClavados(a) && BienFechados(out) && RepiteUsos(b, out).Some?
    ensures RepiteUsos(a, out).Some? && RepiteUsos(a, out).value.Keys == RepiteUsos(b, out).value.Keys
    ensures BienClavados(RepiteUsos(a, out).value)
  {
    if out != [] {
      var k := |out| - 1;
      ReplayFromSame(a, b, out[..k]);
      StepFromSame(RepiteUsos(a, out[..k]).value, RepiteUsos(b, out[..k]).value, out[k]);
    }
  }

  /** After the findings of one look, the last word on each fact is what is stored. */
  lemma FactsStayTrue(historia: seq<Hallazgo>, cambios: seq<Hallazgo>, resto: seq<Hallazgo>,
                      antes: map<string, bool>, hechos: map<string, bool>)
    requires SoloAtencion(resto)
    requires (historia == [] && cambios == [])
      || (SoloHechos(cambios) && (forall k ::
            UltimoHecho(cambios, k) == if Cambia(antes, hechos, k) then Some(hechos[k]) else None))
    requires forall k | k in antes && UltimoHecho(historia, k).Some? :: UltimoHecho(historia, k).value == antes[k]
    ensures forall k | k in hechos && UltimoHecho(historia + (cambios + resto), k).Some? ::
      UltimoHecho(historia + (cambios + resto), k).value == hechos[k]
  {
    forall k | k in hechos && UltimoHecho(historia + (cambios + resto), k).Some?
      ensures UltimoHecho(historia + (cambios + resto), k).value == hechos[k]
    {
      AttentionLeavesFacts(resto, k);
      FactConcat(cambios, resto, k);
      FactConcat(historia, cambios + resto, k);
    }
  }
}
