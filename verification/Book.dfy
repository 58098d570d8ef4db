/** The tables of the contracts and every operation on them (crates/core/src/contratos.rs). */
module Book {
  import opened Basics
  import opened Contracts
  import WhoAsked

  const MAX_CONTRATOS: nat := 400
  const MAX_AVISOS: nat := 500
  const LOTE: nat := 5000

  datatype EstadoAviso = Abierto | Aceptado | Cortado | CortadoAuto | Deshecho

  datatype PorQue = Esperado | Compartida

  datatype Aviso = Aviso(
    clave: string, programa: string, versionAntes: string, versionAhora: string, desde: int, ultimo: int,
    antes: set<string>, nuevas: map<string, Empresa>, estado: EstadoAviso, resuelto: Option<int>,
    reglas: seq<nat>, sinCortar: map<string, PorQue>)

  datatype Forma = Exacta | Dominio | Sufijo

  /** A rule of the rules' table: `corta` and `deEsteEquipo` for a cut of this computer. */
  datatype Regla = Regla(patron: string, forma: Forma, corta: bool, deEsteEquipo: bool, creada: int, deContrato: bool,
                         caduca: Option<int>, deshecha: Option<int>)

  datatype Tipo =
    | RAprendiendo | RNoAplica | RVersion | RAprendido | RNovedad(aviso: nat, empresa: string) | RAceptado(id: nat)
    | RCortado(id: nat, auto: bool) | RDeshecho(id: nat) | RFijado | RSoltado | RReaprende

  /** One row of the register, by what it says. */
  datatype Asiento = Asiento(ts: int, clave: string, tipo: Tipo)

  /** One row of the extract; `deEsteEquipo` and with a program is what a pass reads. */
  datatype Fila = Fila(id: int, ts: int, qname: string, deEsteEquipo: bool, conPrograma: bool,
                       proceso: Option<Proceso>, esperado: bool)

  datatype Libro = Libro(
    contratos: map<string, Contrato>, avisos: map<nat, Aviso>, proximo: nat, reglas: seq<Regla>,
    registro: seq<Asiento>, cursor: int, inicio: Option<int>, extracto: seq<Fila>)

  const NUEVO: Libro := Libro(map[], map[], 1, [], [], 0, None, [])

  function Registra(l: Libro, ts: int, clave: string, tipo: Tipo): Libro {
    l.(registro := l.registro + [Asiento(ts, clave, tipo)])
  }

  function ConContrato(l: Libro, c: Contrato): Libro { l.(contratos := l.contratos[c.clave := c]) }

  function ConAviso(l: Libro, id: nat, a: Aviso): Libro { l.(avisos := l.avisos[id := a]) }

  // ----- rules -----

  predicate Activa(r: Regla, t: int) {
    r.deshecha.None? && (r.caduca.None? || r.caduca.value > t)
  }

  predicate CortaAqui(r: Regla, t: int) { Activa(r, t) && r.corta && r.deEsteEquipo }

  /** The site has an active cut of this computer already. */
  predicate YaCortado(reglas: seq<Regla>, sitio: string, t: int) {
    exists i | 0 <= i < |reglas| ::
      CortaAqui(reglas[i], t) && (reglas[i].forma == Sufijo || reglas[i].forma == Dominio) && reglas[i].patron == sitio
  }

  function ReglaCorte(sitio: string, t: int): Regla { Regla(sitio, Sufijo, true, true, t, true, None, None) }

  /** The rule numbered `id` (from 1) undone; an undone one stays as it is. */
  function ReglaDeshecha(reglas: seq<Regla>, id: nat, t: int): (r: seq<Regla>)
    ensures |r| == |reglas|
  {
    if 1 <= id <= |reglas| && reglas[id - 1].deshecha.None?
    then reglas[id - 1 := reglas[id - 1].(deshecha := Some(t))] else reglas
  }

  function ReglasDeshechas(reglas: seq<Regla>, ids: seq<nat>, t: int): (r: seq<Regla>)
    ensures |r| == |reglas|
    decreases |ids|
  {
    if ids == [] then reglas else ReglasDeshechas(ReglaDeshecha(reglas, ids[0], t), ids[1..], t)
  }

  // ----- notices -----

  /** The open notices of a program. */
  function Abiertos(l: Libro, clave: string): set<nat> {
    set i | i in l.avisos && l.avisos[i].clave == clave && l.avisos[i].estado == Abierto
  }

  predicate EsUltimo(m: nat, s: set<nat>) { m in s && forall x | x in s :: x <= m }

  lemma {:induction false} LastExists(s: set<nat>)
    requires s != {}
    ensures exists m :: EsUltimo(m, s)
  {
    var x :| x in s;
    var rest := s - {x};
    if rest == {} {
      assert s == {x} && EsUltimo(x, s);
    } else {
      LastExists(rest);
      var y :| EsUltimo(y, rest);
      var m := if x < y then y else x;
      forall z | z in s ensures z <= m { assert z == x || z in rest; }
      assert EsUltimo(m, s);
    }
  }

  /** The newest of some notices. */
  function Ultimo(s: set<nat>): (m: nat)
    requires s != {}
    ensures m in s
  {
    LastExists(s);
    var m :| m in s && EsUltimo(m, s);
    m
  }

  function Resueltos(avisos: map<nat, Aviso>): set<nat> { set i | i in avisos && avisos[i].estado != Abierto }

  /** Notice `i` goes before `j`: it began earlier, or at the same time with a smaller number. */
  predicate Antes(avisos: map<nat, Aviso>, i: nat, j: nat)
    requires i in avisos && j in avisos
  {
    avisos[i].desde < avisos[j].desde || (avisos[i].desde == avisos[j].desde && i <= j)
  }

  predicate EsMasViejo(avisos: map<nat, Aviso>, i: nat, s: set<nat>)
    requires s <= avisos.Keys
  {
    i in s && forall j | j in s :: Antes(avisos, i, j)
  }

  lemma {:induction false} OldestExists(avisos: map<nat, Aviso>, s: set<nat>)
    requires s != {} && s <= avisos.Keys
    ensures exists i :: EsMasViejo(avisos, i, s)
  {
    var x :| x in s;
    var rest := s - {x};
    if rest == {} {
      assert s == {x} && EsMasViejo(avisos, x, s);
    } else {
      OldestExists(avisos, rest);
      var y :| EsMasViejo(avisos, y, rest);
      var m := if Antes(avisos, x, y) then x else y;
      forall j | j in s ensures Antes(avisos, m, j) { assert j == x || j in rest; }
      assert EsMasViejo(avisos, m, s);
    }
  }

  /** Without the oldest resolved notice, when there is one. */
  function SinMasViejo(avisos: map<nat, Aviso>): (r: map<nat, Aviso>)
    ensures r.Keys <= avisos.Keys && forall i | i in r :: r[i] == avisos[i]
    ensures forall i | i in avisos && i !in r :: avisos[i].estado != Abierto
  {
    var s := Resueltos(avisos);
    if s == {} then avisos
    else
      OldestExists(avisos, s);
      var i :| i in s && EsMasViejo(avisos, i, s);
      avisos - {i}
  }

  /** The oldest resolved notices go, `k` of them. */
  function Podados(avisos: map<nat, Aviso>, k: nat): (r: map<nat, Aviso>)
    ensures r.Keys <= avisos.Keys && forall i | i in r :: r[i] == avisos[i]
    ensures forall i | i in avisos && i !in r :: avisos[i].estado != Abierto
  {
    if k == 0 then avisos else Podados(SinMasViejo(avisos), k - 1)
  }

  /** One step of pruning: the oldest resolved notice goes, if there is one. */
  lemma PruneStep(avisos: map<nat, Aviso>, k: nat) returns (m: map<nat, Aviso>)
    requires k > 0
    ensures Podados(avisos, k) == Podados(m, k - 1)
    ensures Resueltos(avisos) == {} ==> m == avisos
    ensures Resueltos(avisos) != {} ==> SinUno(avisos, m)
  {
    m := SinMasViejo(avisos);
    if Resueltos(avisos) != {} {
      OldestExists(avisos, Resueltos(avisos));
      var e :| e in Resueltos(avisos) && EsMasViejo(avisos, e, Resueltos(avisos)) && m == avisos - {e};
    }
  }

  /** `m` is without one resolved notice, that went before every other. */
  predicate SinUno(avisos: map<nat, Aviso>, m: map<nat, Aviso>) {
    exists e | e in avisos :: EsMasViejo(avisos, e, Resueltos(avisos)) && m == avisos - {e}
  }

  lemma OneLess(avisos: map<nat, Aviso>, m: map<nat, Aviso>)
    requires SinUno(avisos, m)
    ensures |m| == |avisos| - 1 && |Resueltos(m)| == |Resueltos(avisos)| - 1
  {
    var e :| e in avisos && EsMasViejo(avisos, e, Resueltos(avisos)) && m == avisos - {e};
    assert Resueltos(m) == Resueltos(avisos) - {e};
    assert m.Keys == avisos.Keys - {e} && |m.Keys| == |m|;
  }

  /** Every notice that is not left goes before every resolved one that is. */
  predicate SeFueronAntes(avisos: map<nat, Aviso>, r: map<nat, Aviso>)
    requires r.Keys <= avisos.Keys
  {
    forall i, j | i in avisos && i !in r && j in r && r[j].estado != Abierto :: Antes(avisos, i, j)
  }

  lemma OldestThenTheRest(avisos: map<nat, Aviso>, m: map<nat, Aviso>, r: map<nat, Aviso>)
    requires SinUno(avisos, m) && r.Keys <= m.Keys && (forall i | i in r :: r[i] == m[i]) && SeFueronAntes(m, r)
    ensures r.Keys <= avisos.Keys && SeFueronAntes(avisos, r)
  {
    forall i, j | i in avisos && i !in r && j in r && r[j].estado != Abierto ensures Antes(avisos, i, j) {
      if i in m { assert Antes(m, i, j); } else { assert j in Resueltos(avisos); }
    }
  }

  /** Pruning takes as many resolved notices as asked, or all there are. */
  lemma {:induction false} PrunedCount(avisos: map<nat, Aviso>, k: nat)
    ensures |Podados(avisos, k)| == |avisos| - Min(k, |Resueltos(avisos)|)
    decreases k
  {
    if k > 0 {
      var m := PruneStep(avisos, k);
      PrunedCount(m, k - 1);
      if Resueltos(avisos) != {} { OneLess(avisos, m); }
    }
  }

  /** The oldest first. */
  lemma {:induction false} OldestResolvedGo(avisos: map<nat, Aviso>, k: nat)
    ensures SeFueronAntes(avisos, Podados(avisos, k))
    ensures forall i | i in avisos && i !in Podados(avisos, k) :: avisos[i].estado != Abierto
    decreases k
  {
    if k > 0 {
      var m := PruneStep(avisos, k);
      OldestResolvedGo(m, k - 1);
      if Resueltos(avisos) != {} { OldestThenTheRest(avisos, m, Podados(m, k - 1)); }
    }
  }

  /** A notice stored for the first time: it gets the next number, and too many old ones go. */
  function ConAvisoNuevo(l: Libro, a: Aviso): Libro {
    var todos := l.avisos[l.proximo := a];
    l.(avisos := Podados(todos, Max(0, |todos| - MAX_AVISOS)), proximo := l.proximo + 1)
  }

  function AvisoVacio(c: Contrato, ts: int): Aviso {
    Aviso(c.clave, c.nombre, c.versionContrato, Etiqueta(c), ts, ts, c.empresas.Keys, map[], Abierto, None, [], map[])
  }

  /** One more query of a new company in a notice. */
  function ConNovedad(a: Aviso, c: Contrato, o: Observacion, empresa: string): Aviso {
    var ev := if empresa in a.nuevas then a.nuevas[empresa] else EmpresaVacia(Etiqueta(c));
    a.(ultimo := Max(a.ultimo, o.ts), versionAhora := if Etiqueta(c) != "" then Etiqueta(c) else a.versionAhora,
       nuevas := a.nuevas[empresa := Anota(ev, o)])
  }

  /** The number of the notice a new company goes to. */
  function AvisoPara(l: Libro, clave: string): nat {
    if Abiertos(l, clave) == {} then l.proximo else Ultimo(Abiertos(l, clave))
  }

  function ConNovedadEn(l: Libro, c: Contrato, o: Observacion, empresa: string): Libro {
    if Abiertos(l, c.clave) == {} then ConAvisoNuevo(l, ConNovedad(AvisoVacio(c, o.ts), c, o, empresa))
    else var id := Ultimo(Abiertos(l, c.clave)); ConAviso(l, id, ConNovedad(l.avisos[id], c, o, empresa))
  }

  // Storing a notice does not look at the contracts' table.

  lemma OpenAnywhere(l: Libro, cs: map<string, Contrato>, clave: string)
    ensures Abiertos(l.(contratos := cs), clave) == Abiertos(l, clave)
    ensures AvisoPara(l.(contratos := cs), clave) == AvisoPara(l, clave)
  {
    assert Abiertos(l.(contratos := cs), clave) == Abiertos(l, clave);
  }

  lemma NewAnywhere(l: Libro, cs: map<string, Contrato>, a: Aviso)
    ensures ConAvisoNuevo(l.(contratos := cs), a) == ConAvisoNuevo(l, a).(contratos := cs)
  {
  }

  lemma StoredAnywhere(l: Libro, cs: map<string, Contrato>, c: Contrato, o: Observacion, empresa: string)
    ensures ConNovedadEn(l.(contratos := cs), c, o, empresa) == ConNovedadEn(l, c, o, empresa).(contratos := cs)
  {
    OpenAnywhere(l, cs, c.clave);
    if Abiertos(l, c.clave) == {} { NewAnywhere(l, cs, ConNovedad(AvisoVacio(c, o.ts), c, o, empresa)); }
  }

  function AplicaEfecto(l: Libro, c: Contrato, o: Observacion, e: Efecto): Libro {
    match e
    case CambioVersion(_, _) => Registra(l, o.ts, c.clave, RVersion)
    case SeAprendio => Registra(l, o.ts, c.clave, RAprendido)
    case SinContrato => Registra(l, o.ts, c.clave, RNoAplica)
    case Novedad(empresa, primera) =>
      var m := ConNovedadEn(l, c, o, empresa);
      if primera then Registra(m, o.ts, c.clave, RNovedad(AvisoPara(l, c.clave), empresa)) else m
  }

  function AplicaEfectos(l: Libro, c: Contrato, o: Observacion, es: seq<Efecto>): Libro
    decreases |es|
  {
    if es == [] then l else AplicaEfectos(AplicaEfecto(l, c, o, es[0]), c, o, es[1..])
  }

  // ----- cutting -----

  predicate SitioComun(e: Empresa, sitios: set<string>) { e.sitios * sitios != {} }

  /** Another program with a contract was seen at one of these sites. */
  predicate EsCompartida(contratos: map<string, Contrato>, clave: string, sitios: set<string>) {
    exists k | k in contratos ::
      contratos[k].clave != clave && contratos[k].estado != NoAplica
      && exists x | x in contratos[k].empresas :: SitioComun(contratos[k].empresas[x], sitios)
  }

  predicate SeCorta(l: Libro, a: Aviso, empresa: string)
    requires empresa in a.nuevas
  {
    !a.nuevas[empresa].esperado && !EsCompartida(l.contratos, a.clave, a.nuevas[empresa].sitios)
  }

  /** The companies of a notice that are cut. */
  function Cortables(l: Libro, a: Aviso): set<string> { set e | e in a.nuevas && SeCorta(l, a, e) }

  function SinCortarDe(l: Libro, a: Aviso): map<string, PorQue> {
    map e | e in a.nuevas && !SeCorta(l, a, e) :: if a.nuevas[e].esperado then Esperado else Compartida
  }

  /** The sites of some companies without an active cut, in order. */
  function SitiosDe(sitios: seq<string>, reglas: seq<Regla>, t: int): seq<string> {
    if sitios == [] then []
    else (if YaCortado(reglas, sitios[0], t) then [] else [sitios[0]]) + SitiosDe(sitios[1..], reglas, t)
  }

  function PatronesDe(l: Libro, a: Aviso, orden: seq<string>, t: int): seq<string>
    requires forall e | e in orden :: e in a.nuevas
  {
    if orden == [] then []
    else (if SeCorta(l, a, orden[0]) then SitiosDe(Sorted(a.nuevas[orden[0]].sitios), l.reglas, t) else [])
         + PatronesDe(l, a, orden[1..], t)
  }

  function Reglas(patrones: seq<string>, t: int): (r: seq<Regla>)
    ensures |r| == |patrones|
  {
    seq(|patrones|, i requires 0 <= i < |patrones| => ReglaCorte(patrones[i], t))
  }

  function Numeros(desde: nat, n: nat): (r: seq<nat>)
    ensures |r| == n
  {
    seq<nat>(n, i requires 0 <= i < n => desde + i)
  }

  function Entradas(nuevas: map<string, Empresa>, ks: set<string>): map<string, Empresa> {
    map e | e in nuevas && e in ks :: nuevas[e]
  }

  /** The contract after its notice was cut: what was left uncut joins it, the rest is cut. */
  function ContratoCortado(c: Contrato, a: Aviso, cortadas: set<string>): Contrato {
    c.(pendientes := c.pendientes - a.nuevas.Keys,
       empresas := c.empresas + Entradas(a.nuevas, a.nuevas.Keys - cortadas),
       cortadas := c.cortadas + cortadas)
  }

  /** The sites a cut of the notice makes rules for. */
  function PatronesCorte(l: Libro, a: Aviso, t: int): seq<string> { PatronesDe(l, a, Sorted(a.nuevas.Keys), t) }

  /** The notice once cut. */
  function AvisoCortado(l: Libro, a: Aviso, t: int, auto: bool): Aviso {
    a.(estado := if auto then CortadoAuto else Cortado, resuelto := Some(t),
       reglas := a.reglas + Numeros(|l.reglas| + 1, |PatronesCorte(l, a, t)|), sinCortar := SinCortarDe(l, a))
  }

  function ContratosCortados(l: Libro, a: Aviso): map<string, Contrato> {
    if a.clave in l.contratos
    then l.contratos[a.clave := ContratoCortado(l.contratos[a.clave], a, Cortables(l, a))] else l.contratos
  }

  /** Cuts the new companies of a notice, but for what the computer needs or another contract has. */
  function Cortada(l: Libro, id: nat, t: int, auto: bool): Libro
    requires id in l.avisos
  {
    var a := l.avisos[id];
    Registra(
      ConAviso(l, id, AvisoCortado(l, a, t, auto)).(
        reglas := l.reglas + Reglas(PatronesCorte(l, a, t), t), contratos := ContratosCortados(l, a)),
      t, a.clave, RCortado(id, auto))
  }

  // ----- what the person does -----

  predicate HayAbierto(l: Libro, id: nat) { id in l.avisos && l.avisos[id].estado == Abierto }

  function Cortar(l: Libro, id: nat, t: int): Libro {
    if HayAbierto(l, id) then Cortada(l, id, t, false) else l
  }

  function ContratoAceptado(c: Contrato, a: Aviso): Contrato {
    c.(pendientes := c.pendientes - a.nuevas.Keys, empresas := c.empresas + a.nuevas, versionContrato := Etiqueta(c))
  }

  function Aceptar(l: Libro, id: nat, t: int): Libro {
    if !HayAbierto(l, id) then l
    else
      var a := l.avisos[id];
      var m := if a.clave in l.contratos
               then l.(contratos := l.contratos[a.clave := ContratoAceptado(l.contratos[a.clave], a)]) else l;
      Registra(ConAviso(m, id, a.(estado := Aceptado, resuelto := Some(t))), t, a.clave, RAceptado(id))
  }

  function ContratoDeshecho(c: Contrato, a: Aviso): Contrato {
    c.(cortadas := c.cortadas - a.nuevas.Keys, empresas := c.empresas + a.nuevas)
  }

  predicate HayCorte(l: Libro, id: nat) {
    id in l.avisos && (l.avisos[id].estado == Cortado || l.avisos[id].estado == CortadoAuto)
  }

  function Deshacer(l: Libro, id: nat, t: int): Libro {
    if !HayCorte(l, id) then l
    else
      var a := l.avisos[id];
      var m := l.(reglas := ReglasDeshechas(l.reglas, a.reglas, t));
      var n := if a.clave in l.contratos
               then m.(contratos := l.contratos[a.clave := ContratoDeshecho(l.contratos[a.clave], a)]) else m;
      Registra(ConAviso(n, id, a.(estado := Deshecho, resuelto := Some(t))), t, a.clave, RDeshecho(id))
  }

  function ContratoFijado(c: Contrato, fijar: bool, t: int): Contrato {
    var d := c.(estado := if fijar then Fijado else if c.estado == Fijado then Vigilando else c.estado);
    if fijar && c.aprendido.None? then d.(aprendido := Some(t), versionContrato := Etiqueta(c)) else d
  }

  function Fijar(l: Libro, clave: string, fijar: bool, t: int): Libro {
    if clave !in l.contratos || l.contratos[clave].estado == NoAplica then l
    else
      var c := l.contratos[clave];
      var d := ContratoFijado(c, fijar, t);
      if d.estado == c.estado then l
      else Registra(l.(contratos := l.contratos[clave := d]), t, clave, if fijar then RFijado else RSoltado)
  }

  // ----- learning again -----

  predicate SeReaprende(c: Contrato, propio: bool, ahora: int) {
    propio || c.estado == Vigilando || (c.estado == Aprendiendo && c.desde < ahora)
  }

  /** The companies of some notices, the earlier notice first. */
  function NuevasDe(avisos: map<nat, Aviso>, ids: set<nat>): map<string, Empresa>
    requires ids <= avisos.Keys
    decreases |ids|
  {
    if ids == {} then map[]
    else var i := Ultimo(ids); avisos[i].nuevas + NuevasDe(avisos, ids - {i})
  }

  /** A contract put back to learning, with what it had seen; or without contract when it is our own. */
  function ContratoReaprendido(c: Contrato, propio: bool, nuevas: map<string, Empresa>, ahora: int): Contrato {
    var d := c.(pendientes := {}, aprendido := None);
    if propio then d.(estado := NoAplica, motivo := Propio, empresas := map[])
    else d.(estado := Aprendiendo, desde := Max(c.desde, ahora), versionContrato := Etiqueta(c),
            empresas := nuevas + c.empresas)
  }

  function ReaprendeUno(l: Libro, clave: string, lec: Lector, ahora: int): Libro
    requires clave in l.contratos
  {
    var c := l.contratos[clave];
    var propio := lec.motivo(c.nombre) == Propio;
    if !SeReaprende(c, propio, ahora) then l
    else
      var ids := Abiertos(l, c.clave);
      var d := ContratoReaprendido(c, propio, NuevasDe(l.avisos, ids), ahora);
      var m := l.(avisos := l.avisos - ids, contratos := l.contratos[clave := d]);
      if propio || c.estado == Vigilando || ids != {}
      then Registra(m, ahora, c.clave, if propio then RNoAplica else RReaprende) else m
  }

  function Reaprende(l: Libro, orden: seq<string>, lec: Lector, ahora: int): Libro
    decreases |orden|
  {
    if orden == [] then l
    else Reaprende(if orden[0] in l.contratos then ReaprendeUno(l, orden[0], lec, ahora) else l, orden[1..], lec, ahora)
  }

  // ----- one pass -----

  function Elegibles(extracto: seq<Fila>, desde: int): seq<Fila> {
    if extracto == [] then []
    else
      var f := extracto[|extracto| - 1];
      Elegibles(extracto[..|extracto| - 1], desde)
      + (if f.id > desde && f.deEsteEquipo && f.conPrograma then [f] else [])
  }

  /** The rows one pass reads. */
  function LoteDe(l: Libro): seq<Fila> {
    var f := Elegibles(l.extracto, l.cursor); if |f| > LOTE then f[..LOTE] else f
  }

  predicate Blanco(s: string) { forall i | 0 <= i < |s| :: s[i] in [' ', '\t', '\n', '\r'] }

  /** The contract of a program seen now, learning from `inicio` at the earliest. */
  function ConPrograma(l: Libro, p: Proceso, ts: int, lec: Lector, inicio: int): Libro {
    var clave := lec.clave(p);
    if clave in l.contratos || |l.contratos| >= MAX_CONTRATOS then l
    else
      var c := Nuevo(lec, p, Max(ts, inicio));
      Registra(ConContrato(l, c), ts, clave, if c.estado == NoAplica then RNoAplica else RAprendiendo)
  }

  function ObservadoEn(l: Libro, clave: string, o: Observacion, lec: Lector): Libro
    requires clave in l.contratos
  {
    var (c, es) := Observa(l.contratos[clave], o, lec);
    AplicaEfectos(l.(contratos := l.contratos[clave := c]), c, o, es)
  }

  function ConFila(l: Libro, f: Fila, lec: Lector, inicio: int): Libro {
    if f.proceso.None? || Blanco(f.proceso.value.nombre) then l
    else
      var p := f.proceso.value;
      match lec.lee(WhoAsked.Normaliza(f.qname))
      case None => l
      case Some(r) =>
        var m := ConPrograma(l, p, f.ts, lec, inicio);
        if lec.clave(p) !in m.contratos then m
        else ObservadoEn(m, lec.clave(p),
                         Observacion(f.ts, WhoAsked.Normaliza(f.qname), r.empresa, r.sitio, f.esperado, p), lec)
  }

  function ConFilas(l: Libro, fs: seq<Fila>, lec: Lector, inicio: int): Libro
    decreases |fs|
  {
    if fs == [] then l else ConFilas(ConFila(l, fs[0], lec, inicio), fs[1..], lec, inicio)
  }

  /** Programs that went quiet finish their learning too. */
  function Quietos(l: Libro, orden: seq<string>, ahora: int): Libro
    decreases |orden|
  {
    if orden == [] then l
    else
      var k := orden[0];
      Quietos(if k in l.contratos && TocaAprender(l.contratos[k], ahora)
              then Registra(l.(contratos := l.contratos[k := Revisado(l.contratos[k], ahora)]), ahora,
                            l.contratos[k].clave, RAprendido)
              else l, orden[1..], ahora)
  }

  /** Some open notices cut on their own, the earlier first. */
  function CortaTodos(l: Libro, ids: set<nat>, ahora: int): (r: Libro)
    requires ids <= l.avisos.Keys
    ensures r.avisos.Keys == l.avisos.Keys
    decreases |ids|
  {
    if ids == {} then l
    else var i := Ultimo(ids); Cortada(CortaTodos(l, ids - {i}, ahora), i, ahora, true)
  }

  /** Fixed contracts cut what is new. */
  function CortesAuto(l: Libro, orden: seq<string>, ahora: int): Libro
    decreases |orden|
  {
    if orden == [] then l
    else
      var k := orden[0];
      CortesAuto(if k in l.contratos && l.contratos[k].estado == Fijado
                 then CortaTodos(l, Abiertos(l, k), ahora) else l, orden[1..], ahora)
  }

  function ConInicio(l: Libro, lec: Lector, ahora: int): (r: Libro)
    ensures r.inicio.Some?
  {
    if l.inicio.Some? then l else Reaprende(l, Sorted(l.contratos.Keys), lec, ahora).(inicio := Some(ahora))
  }

  /** One pass over the extract; `orden` is the order in which a hash table of contracts is walked. */
  function Pasada(l: Libro, lec: Lector, orden: seq<string>, ahora: int): Libro {
    var m := ConInicio(l, lec, ahora);
    var fs := LoteDe(m);
    var n := ConFilas(m, fs, lec, m.inicio.value);
    CortesAuto(Quietos(n, orden, ahora), orden, ahora).(cursor := if fs == [] then m.cursor else fs[|fs| - 1].id)
  }

  // ----- runs -----

  datatype Paso =
    | Anotada(fila: Fila)
    | Pasa(lec: Lector, orden: seq<string>, ahora: int)
    | Corta(id: nat, t: int)
    | Acepta(id: nat, t: int)
    | Deshace(id: nat, t: int)
    | Fija(clave: string, fijar: bool, t: int)

  function Da(l: Libro, p: Paso): Libro {
    match p
    case Anotada(f) =>
      if l.extracto == [] || l.extracto[|l.extracto| - 1].id < f.id then l.(extracto := l.extracto + [f]) else l
    case Pasa(lec, orden, ahora) => Pasada(l, lec, orden, ahora)
    case Corta(id, t) => Cortar(l, id, t)
    case Acepta(id, t) => Aceptar(l, id, t)
    case Deshace(id, t) => Deshacer(l, id, t)
    case Fija(clave, fijar, t) => Fijar(l, clave, fijar, t)
  }

  function Corre(l: Libro, pasos: seq<Paso>): Libro
    decreases |pasos|
  {
    if pasos == [] then l else Corre(Da(l, pasos[0]), pasos[1..])
  }
}
