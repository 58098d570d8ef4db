/** «Contrato vivo» (crates/core/src/contratos.rs): one program's contract and what one query does to it. */
module Contracts {
  import opened Basics
  import Calendar

  const APRENDE_DIAS: int := 7
  const APRENDE_LANZAMIENTOS: nat := 10
  const MAX_EMPRESAS_CONTRATO: nat := 60
  const MAX_NOMBRES: nat := 12
  const MAX_SITIOS: nat := 8
  const MAX_VERSIONES: nat := 20
  const MAX_PIDS: nat := 16

  datatype Estado = Aprendiendo | Vigilando | Fijado | NoAplica

  datatype Motivo = SinMotivo | Propio | Navegador | Compartido | Variado

  /** One company in a contract or in a notice. */
  datatype Empresa = Empresa(nombres: set<string>, sitios: set<string>, desde: int, ultimo: int, veces: nat,
                             version: string, esperado: bool)

  /** One query of a program, as the contract reads it. */
  datatype Observacion = Observacion(ts: int, qname: string, empresa: string, sitio: string, esperado: bool,
                                     proceso: Proceso)

  datatype Version = Version(etiqueta: string, desde: int)

  datatype Contrato = Contrato(
    clave: string, nombre: string, ruta: string, version: string, huella: string, firmadoPor: string,
    versionContrato: string, desde: int, ultimo: int, lanzamientos: nat, pids: seq<nat>,
    estado: Estado, motivo: Motivo, aprendido: Option<int>,
    empresas: map<string, Empresa>, pendientes: set<string>, cortadas: set<string>, versiones: seq<Version>)

  /** What one observation changed in a contract. */
  datatype Efecto =
    | CambioVersion(antes: string, ahora: string)
    | SeAprendio
    | SinContrato
    | Novedad(empresa: string, primera: bool)

  /** How names and programs are read: company and site, identity, why no contract, our own sites. */
  datatype Lectura = Lectura(empresa: string, sitio: string)

  datatype Lector = Lector(lee: string -> Option<Lectura>, clave: Proceso -> string, motivo: string -> Motivo,
                           sitioPropio: string -> bool)

  function EmpresaVacia(version: string): Empresa { Empresa({}, {}, 0, 0, 0, version, false) }

  function Anota(e: Empresa, o: Observacion): Empresa {
    Empresa(
      if |e.nombres| < MAX_NOMBRES then e.nombres + {o.qname} else e.nombres,
      if o.sitio != "" && |e.sitios| < MAX_SITIOS then e.sitios + {o.sitio} else e.sitios,
      if e.desde == 0 || o.ts < e.desde then o.ts else e.desde,
      Max(e.ultimo, o.ts), e.veces + 1, e.version, e.esperado || o.esperado)
  }

  /** The declared version, else the start of the file's hash, else nothing. */
  function EtiquetaVersion(version: string, huella: string): string {
    if version != "" then version else if |huella| >= 8 then "huella " + huella[..8] else ""
  }

  function Etiqueta(c: Contrato): string { EtiquetaVersion(c.version, c.huella) }

  /** A program seen for the first time. */
  function Nuevo(lec: Lector, p: Proceso, ts: int): Contrato {
    var etiqueta := EtiquetaVersion(p.version, p.sha256);
    var motivo := lec.motivo(p.nombre);
    Contrato(lec.clave(p), p.nombre, p.ruta, p.version, p.sha256, p.firmadoPor, etiqueta, ts, ts, 0, [],
             if motivo != SinMotivo then NoAplica else Aprendiendo, motivo, None, map[], {}, {},
             if etiqueta == "" then [] else [Version(etiqueta, ts)])
  }

  predicate AprendizajeCumplido(c: Contrato, ts: int) {
    var edad := ts - c.desde;
    edad >= APRENDE_DIAS * Calendar.DAY_MS || (c.lanzamientos >= APRENDE_LANZAMIENTOS && edad > Calendar.DAY_MS)
  }

  predicate TocaAprender(c: Contrato, ts: int) { c.estado == Aprendiendo && AprendizajeCumplido(c, ts) }

  /** The learning ended if its time has come. */
  function Revisado(c: Contrato, ts: int): Contrato {
    if TocaAprender(c, ts) then c.(estado := Vigilando, aprendido := Some(ts), versionContrato := Etiqueta(c)) else c
  }

  function Empujado<T>(s: seq<T>, x: T, tope: nat): seq<T> {
    if |s| + 1 > tope then (s + [x])[1..] else s + [x]
  }

  /** What Windows said now of the program's file, where it said something. */
  function ConArchivo(c: Contrato, p: Proceso): Contrato {
    c.(version := if p.version != "" then p.version else c.version,
       huella := if p.sha256 != "" then p.sha256 else c.huella,
       firmadoPor := if p.firmadoPor != "" then p.firmadoPor else c.firmadoPor,
       ruta := if p.ruta != "" then p.ruta else c.ruta)
  }

  /** The versions seen, and the contract's own while it is learnt without one. */
  function ConVersion(c: Contrato, ts: int): Contrato {
    var ahora := Etiqueta(c);
    c.(versiones := if ahora != "" && (c.versiones == [] || c.versiones[|c.versiones| - 1].etiqueta != ahora)
                    then Empujado(c.versiones, Version(ahora, ts), MAX_VERSIONES) else c.versiones,
       versionContrato := if c.versionContrato == "" && c.estado == Aprendiendo then ahora else c.versionContrato)
  }

  /** A process not among the last ones is a launch. */
  function ConLanzamiento(c: Contrato, pid: nat): Contrato {
    if pid == 0 || pid in c.pids then c
    else c.(lanzamientos := Min(c.lanzamientos + 1, U32_MAX), pids := Empujado(c.pids, pid, MAX_PIDS))
  }

  /** What the query says of the program itself. */
  function ConProceso(c: Contrato, o: Observacion): Contrato {
    var d := ConLanzamiento(ConVersion(ConArchivo(c, o.proceso), o.ts), o.proceso.pid);
    d.(ultimo := Max(d.ultimo, o.ts))
  }

  /** A version changed only when both sides are known and differ. */
  function EfectoVersion(c: Contrato, p: Proceso): seq<Efecto> {
    var cambio := (p.version != "" && c.version != "" && p.version != c.version)
                  || (p.sha256 != "" && c.huella != "" && p.sha256 != c.huella);
    var ahora := Etiqueta(ConArchivo(c, p));
    if cambio && ahora != Etiqueta(c) then [CambioVersion(Etiqueta(c), ahora)] else []
  }

  /** The company joins the contract with this query. */
  function Incorporada(c: Contrato, o: Observacion): Contrato {
    c.(empresas := c.empresas[o.empresa := Anota(EmpresaVacia(Etiqueta(c)), o)])
  }

  /** A company learnt; with too many the program has no contract. */
  function Aprendida(c: Contrato, o: Observacion): (Contrato, seq<Efecto>) {
    var d := Incorporada(c, o);
    if |d.empresas| > MAX_EMPRESAS_CONTRATO
    then (d.(estado := NoAplica, motivo := Variado, empresas := map[]), [SinContrato])
    else (d, [])
  }

  /** What the query does to the companies, by where the contract stands. */
  function ConEmpresa(c: Contrato, o: Observacion, lec: Lector): (Contrato, seq<Efecto>) {
    if c.estado == NoAplica then (c, [])
    else if o.empresa in c.empresas then
      (c.(empresas := c.empresas[o.empresa := Anota(c.empresas[o.empresa], o)]), [])
    else if c.estado == Aprendiendo then Aprendida(c, o)
    else if lec.sitioPropio(o.sitio) then (Incorporada(c, o), [])
    else if o.empresa in c.cortadas then (c, [])
    else (c.(pendientes := c.pendientes + {o.empresa}), [Novedad(o.empresa, o.empresa !in c.pendientes)])
  }

  /** Reads one query of the program; the learning is judged before the query changes anything. */
  function Observa(c: Contrato, o: Observacion, lec: Lector): (Contrato, seq<Efecto>) {
    var r := Revisado(c, o.ts);
    var (d, e) := ConEmpresa(ConProceso(r, o), o, lec);
    (d, (if TocaAprender(c, o.ts) then [SeAprendio] else []) + EfectoVersion(r, o.proceso) + e)
  }

  // ----- the contract as the program holds it -----

  class ContratoVivo {
    const clave: string
    const nombre: string
    var ruta: string
    var version: string
    var huella: string
    var firmadoPor: string
    var versionContrato: string
    var desde: int
    var ultimo: int
    var lanzamientos: nat
    var pids: seq<nat>
    var estado: Estado
    var motivo: Motivo
    var aprendido: Option<int>
    var empresas: map<string, Empresa>
    var pendientes: set<string>
    var cortadas: set<string>
    var versiones: seq<Version>

    function Valor(): Contrato
      reads this
    {
      Contrato(clave, nombre, ruta, version, huella, firmadoPor, versionContrato, desde, ultimo, lanzamientos, pids,
               estado, motivo, aprendido, empresas, pendientes, cortadas, versiones)
    }

    constructor (c: Contrato)
      ensures Valor() == c
    {
      clave, nombre, ruta, version, huella, firmadoPor := c.clave, c.nombre, c.ruta, c.version, c.huella, c.firmadoPor;
      versionContrato, desde, ultimo := c.versionContrato, c.desde, c.ultimo;
      lanzamientos, pids, estado, motivo, aprendido := c.lanzamientos, c.pids, c.estado, c.motivo, c.aprendido;
      empresas, pendientes, cortadas, versiones := c.empresas, c.pendientes, c.cortadas, c.versiones;
    }

    method RevisaAprendizaje(ts: int) returns (e: seq<Efecto>)
      modifies this
      ensures Valor() == Revisado(old(Valor()), ts)
      ensures e == if TocaAprender(old(Valor()), ts) then [SeAprendio] else []
    {
      var edad := ts - desde;
      if estado == Aprendiendo && (edad >= APRENDE_DIAS * Calendar.DAY_MS
                                   || (lanzamientos >= APRENDE_LANZAMIENTOS && edad > Calendar.DAY_MS)) {
        estado := Vigilando;
        aprendido := Some(ts);
        versionContrato := EtiquetaVersion(version, huella);
        return [SeAprendio];
      }
      e := [];
    }

    method LeeArchivo(p: Proceso)
      modifies `version, `huella, `firmadoPor, `ruta
      ensures Valor() == ConArchivo(old(Valor()), p)
    {
      if p.version != "" { version := p.version; }
      if p.sha256 != "" { huella := p.sha256; }
      if p.firmadoPor != "" { firmadoPor := p.firmadoPor; }
      if p.ruta != "" { ruta := p.ruta; }
    }

    method LeeVersion(ts: int)
      modifies `versiones, `versionContrato
      ensures Valor() == ConVersion(old(Valor()), ts)
      ensures |versiones| <= Max(MAX_VERSIONES, |old(versiones)|)
    {
      var ahora := EtiquetaVersion(version, huella);
      if ahora != "" && (versiones == [] || versiones[|versiones| - 1].etiqueta != ahora) {
        versiones := versiones + [Version(ahora, ts)];
        if |versiones| > MAX_VERSIONES { versiones := versiones[1..]; }
      }
      if versionContrato == "" && estado == Aprendiendo { versionContrato := ahora; }
    }

    method LeeLanzamiento(pid: nat)
      modifies `lanzamientos, `pids
      ensures Valor() == ConLanzamiento(old(Valor()), pid)
      ensures |pids| <= Max(MAX_PIDS, |old(pids)|)
    {
      if pid != 0 && pid !in pids {
        lanzamientos := Min(lanzamientos + 1, U32_MAX);
        pids := pids + [pid];
        if |pids| > MAX_PIDS { pids := pids[1..]; }
      }
    }

    /** Whether the query's version or file is a known one changing into another, and its label with it. */
    method CambiaVersion(p: Proceso) returns (e: seq<Efecto>)
      ensures e == EfectoVersion(Valor(), p)
    {
      var antes := EtiquetaVersion(version, huella);
      var cambioVersion := p.version != "" && version != "" && p.version != version;
      var cambioArchivo := p.sha256 != "" && huella != "" && p.sha256 != huella;
      var ahora := EtiquetaVersion(if p.version != "" then p.version else version,
                                   if p.sha256 != "" then p.sha256 else huella);
      e := if (cambioVersion || cambioArchivo) && ahora != antes then [CambioVersion(antes, ahora)] else [];
    }

    method LeeProceso(o: Observacion) returns (e: seq<Efecto>)
      modifies this
      ensures Valor() == ConProceso(old(Valor()), o) && e == EfectoVersion(old(Valor()), o.proceso)
    {
      e := CambiaVersion(o.proceso);
      LeeArchivo(o.proceso);
      LeeVersion(o.ts);
      LeeLanzamiento(o.proceso.pid);
      ultimo := Max(ultimo, o.ts);
    }

    method Incorpora(o: Observacion)
      modifies `empresas
      ensures Valor() == Incorporada(old(Valor()), o)
    {
      empresas := empresas[o.empresa := Anota(EmpresaVacia(EtiquetaVersion(version, huella)), o)];
    }

    method Aprende(o: Observacion) returns (e: seq<Efecto>)
      modifies `empresas, `estado, `motivo
      ensures (Valor(), e) == Aprendida(old(Valor()), o)
    {
      e := [];
      Incorpora(o);
      if |empresas| > MAX_EMPRESAS_CONTRATO {
        QuedaSinContrato();
        e := [SinContrato];
      }
    }

    /** Too varied for a contract. */
    method QuedaSinContrato()
      modifies `empresas, `estado, `motivo
      ensures Valor() == old(Valor()).(estado := NoAplica, motivo := Variado, empresas := map[])
    {
      estado := NoAplica;
      motivo := Variado;
      empresas := map[];
    }

    method LeeEmpresa(o: Observacion, lec: Lector) returns (e: seq<Efecto>)
      modifies `empresas, `estado, `motivo, `pendientes
      ensures (Valor(), e) == ConEmpresa(old(Valor()), o, lec)
    {
      e := [];
      if estado == NoAplica { return; }
      if o.empresa in empresas {
        empresas := empresas[o.empresa := Anota(empresas[o.empresa], o)];
      } else if estado == Aprendiendo {
        e := Aprende(o);
      } else if lec.sitioPropio(o.sitio) {
        Incorpora(o);
      } else if o.empresa !in cortadas {
        var primera := o.empresa !in pendientes;
        pendientes := pendientes + {o.empresa};
        e := [Novedad(o.empresa, primera)];
      }
    }

    method ObservaConsulta(o: Observacion, lec: Lector) returns (efectos: seq<Efecto>)
      modifies this
      ensures (Valor(), efectos) == Observa(old(Valor()), o, lec)
    {
      var aprendido := RevisaAprendizaje(o.ts);
      var cambio := LeeProceso(o);
      var empresa := LeeEmpresa(o, lec);
      efectos := aprendido + cambio + empresa;
    }
  }

  // ----- what a company keeps of its queries -----

  predicate Acotada(e: Empresa) { |e.nombres| <= MAX_NOMBRES && |e.sitios| <= MAX_SITIOS }

  /** A company after some queries. */
  function Plegada(e: Empresa, os: seq<Observacion>): Empresa {
    if os == [] then e else Anota(Plegada(e, os[..|os| - 1]), os[|os| - 1])
  }

  /** The names kept are those of the queries, and all of them while there is room. */
  predicate NombresDe(e: Empresa, os: seq<Observacion>) {
    && (forall n | n in e.nombres :: exists i | 0 <= i < |os| :: os[i].qname == n)
    && (|e.nombres| < MAX_NOMBRES ==> forall i | 0 <= i < |os| :: os[i].qname in e.nombres)
  }

  /** The sites too, but for the empty one. */
  predicate SitiosSuyos(e: Empresa, os: seq<Observacion>) {
    && (forall s | s in e.sitios :: exists i | 0 <= i < |os| :: os[i].sitio == s && s != "")
    && (|e.sitios| < MAX_SITIOS ==> forall i | 0 <= i < |os| :: os[i].sitio == "" || os[i].sitio in e.sitios)
  }

  predicate TiemposDe(e: Empresa, os: seq<Observacion>) {
    && (forall i | 0 <= i < |os| :: os[i].ts <= e.ultimo)
    && (e.esperado <==> exists i | 0 <= i < |os| :: os[i].esperado)
  }

  /** Its count is the queries folded, its names and sites are theirs and bounded, its last time their end. */
  lemma {:induction false} FoldedCompany(version: string, os: seq<Observacion>)
    ensures var e := Plegada(EmpresaVacia(version), os);
            e.veces == |os| && Acotada(e) && NombresDe(e, os) && SitiosSuyos(e, os) && TiemposDe(e, os)
  {
    if os != [] {
      var k := |os| - 1;
      FoldedCompany(version, os[..k]);
      var b := Plegada(EmpresaVacia(version), os[..k]);
      FoldedNames(b, os, k);
      FoldedSites(b, os, k);
      FoldedTimes(b, os, k);
    }
  }

  lemma FoldedNames(b: Empresa, os: seq<Observacion>, k: nat)
    requires |os| == k + 1 && NombresDe(b, os[..k])
    ensures NombresDe(Anota(b, os[k]), os)
  {
    var e := Anota(b, os[k]);
    forall n | n in e.nombres ensures exists i | 0 <= i < |os| :: os[i].qname == n {
      if n in b.nombres { var i :| 0 <= i < k && os[..k][i].qname == n; assert os[i].qname == n; }
      else { assert os[k].qname == n; }
    }
    forall i | 0 <= i < |os| ensures |e.nombres| < MAX_NOMBRES ==> os[i].qname in e.nombres {
      if i < k { assert os[i] == os[..k][i]; }
    }
  }

  lemma FoldedSites(b: Empresa, os: seq<Observacion>, k: nat)
    requires |os| == k + 1 && SitiosSuyos(b, os[..k])
    ensures SitiosSuyos(Anota(b, os[k]), os)
  {
    var e := Anota(b, os[k]);
    forall s | s in e.sitios ensures exists i | 0 <= i < |os| :: os[i].sitio == s && s != "" {
      if s in b.sitios { var i :| 0 <= i < k && os[..k][i].sitio == s && s != ""; assert os[i].sitio == s; }
      else { assert os[k].sitio == s; }
    }
    forall i | 0 <= i < |os| ensures |e.sitios| < MAX_SITIOS ==> os[i].sitio == "" || os[i].sitio in e.sitios {
      if i < k { assert os[i] == os[..k][i]; }
    }
  }

  lemma FoldedTimes(b: Empresa, os: seq<Observacion>, k: nat)
    requires |os| == k + 1 && TiemposDe(b, os[..k])
    ensures TiemposDe(Anota(b, os[k]), os)
  {
    forall i | 0 <= i < |os| ensures os[i].ts <= Anota(b, os[k]).ultimo {
      if i < k { assert os[i] == os[..k][i]; }
    }
    if i :| 0 <= i < |os| && os[i].esperado && i < k { assert os[..k][i].esperado; }
    if b.esperado { var i :| 0 <= i < k && os[..k][i].esperado; assert os[i].esperado; }
  }
}
