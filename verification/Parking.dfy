/**
 * Standing aside and coming back: the copy of the system DNS and Home Mode, parked and restored while every
 * system call may fail (crates/cli/src/engine.rs, dns_cmd.rs, hogar_cmd.rs).
 */
module Parking {
  import opened Basics

  datatype Clase = HogarOn | HogarOff | DnsOn | DnsOff

  datatype Quien = Terminal | Instalador | Desinstalador | Licencia | SinArriba | ConArriba

  datatype Cambio = Cambio(clase: Clase, quien: Quien)

  /** A copy of the system DNS; `limpia` when none of what it records is the guardian itself. */
  datatype Copia = Copia(texto: string, limpia: bool)

  /**
   * The stored settings and changes, whether anything of the machine points at the guardian, and the person's
   * last choices: Home Mode on, and the DNS change made and not undone.
   */
  datatype Equipo = Equipo(
    copia: Option<Copia>, aparcada: Option<Copia>, hogar: bool, hogarAparcado: bool, heredado: bool,
    cambios: seq<Cambio>, apunta: bool, quiereHogar: bool, quiereDns: bool)

  /** A system call: whether it worked and, when it did not, whether anything is left pointing here. */
  datatype Intento = Intento(ok: bool, queda: bool)

  /** What the system does during one operation. */
  datatype Mundo = Mundo(
    foto: Option<string>, aplica: Intento, restaura: Intento, seSabe: bool, sinPermiso: bool,
    contesta: bool, llega: bool, crece: bool)

  // ----- the system's calls -----

  /** `snapshot`: a copy of what there is now. */
  function Foto(e: Equipo, m: Mundo): Option<Copia> {
    match m.foto case None => None case Some(t) => Some(Copia(t, !e.apunta))
  }

  /** `apply`: on success the machine points here; on failure it may be left half way. */
  function Apuntado(e: Equipo, m: Mundo): Equipo {
    e.(apunta := m.aplica.ok || m.aplica.queda)
  }

  /** `restore`: on success what the copy recorded; on failure it never points more than before. */
  function Devuelto(e: Equipo, c: Copia, m: Mundo): Equipo {
    e.(apunta := if m.restaura.ok then !c.limpia else e.apunta && m.restaura.queda)
  }

  /** `guardian_still_set() == Some(false)`. */
  predicate NadaApunta(e: Equipo, m: Mundo) { m.seSabe && !e.apunta }

  function Anotado(e: Equipo, clase: Clase, quien: Quien): Equipo {
    e.(cambios := e.cambios + [Cambio(clase, quien)])
  }

  // ----- the engine -----

  /** The newest change of some classes among the last `n`. */
  function Ultimo(cambios: seq<Cambio>, n: nat, clases: set<Clase>): Option<Cambio> {
    if cambios == [] || n == 0 then None
    else
      var c := cambios[|cambios| - 1];
      if c.clase in clases then Some(c) else Ultimo(cambios[..|cambios| - 1], n - 1, clases)
  }

  const HOGAR: set<Clase> := {HogarOn, HogarOff}
  const DNS: set<Clase> := {DnsOn, DnsOff}

  /** What 1.0.1 left without parking, once: parked as if it had been. */
  function Heredado(e: Equipo, m: Mundo): Equipo {
    if e.heredado then e
    else
      var e1 := e.(heredado := true);
      var e2 := if Ultimo(e.cambios, 500, HOGAR) == Some(Cambio(HogarOff, Licencia)) && !e.hogar && !e.hogarAparcado
                then e1.(hogarAparcado := true) else e1;
      if Ultimo(e.cambios, 500, DNS) == Some(Cambio(DnsOff, Licencia)) && e.copia.None? && e.aparcada.None?
      then e2.(aparcada := Foto(e2, m)) else e2
  }

  /** Gives the DNS back on standing down and parks the copy, once the undo really happened. */
  function DnsAparcado(e: Equipo, m: Mundo): Equipo {
    match e.copia
    case None => e
    case Some(c) =>
      var d := Devuelto(e, c, m);
      if m.restaura.ok || NadaApunta(d, m)
      then Anotado(d.(aparcada := Some(c), copia := None), DnsOff, Licencia) else d
  }

  function Apartado(e: Equipo, m: Mundo): Equipo {
    var d := DnsAparcado(Heredado(e, m), m);
    if d.hogar then Anotado(d.(hogarAparcado := true, hogar := false), HogarOff, Licencia) else d
  }

  /** The parked DNS comes back: with a copy taken now, or else the parked one. */
  function DnsVuelto(e: Equipo, m: Mundo): Equipo {
    match e.aparcada
    case None => e
    case Some(a) =>
      (if e.copia.None?
       then Anotado(e.(copia := if Foto(e, m).Some? then Foto(e, m) else Some(a)), DnsOn, Licencia)
       else e).(aparcada := None)
  }

  /** The licence is back: what was parked comes back on. */
  function Vuelto(e: Equipo, m: Mundo): Equipo {
    var d := DnsVuelto(e, m);
    if d.hogarAparcado then Anotado(d.(hogar := true, hogarAparcado := false), HogarOn, Licencia) else d
  }

  /** The upstreams are silent: the DNS goes back and the copy stays. */
  function DevueltoPorSilencio(e: Equipo, m: Mundo): Equipo {
    match e.copia
    case None => e
    case Some(c) =>
      if NadaApunta(e, m) then e
      else
        var d := Devuelto(e, c, m);
        if m.restaura.ok then Anotado(d, DnsOff, SinArriba) else d
  }

  /** Points the machine here, with the interfaces that appeared since added to the copy first. */
  function Reapuntado(e: Equipo, c: Copia, m: Mundo): Equipo {
    Apuntado(if m.crece && m.foto.Some? then e.(copia := Some(c.(texto := c.texto + m.foto.value))) else e, m)
  }

  function VueltoConArriba(e: Equipo, m: Mundo): Equipo {
    match e.copia
    case None => e
    case Some(c) =>
      var d := Reapuntado(e, c, m);
      if m.aplica.ok then Anotado(d, DnsOn, ConArriba) else d
  }

  /** The minute's watch: pointed again if the network put the old servers back. */
  function Reaplicado(e: Equipo, m: Mundo): Equipo {
    match e.copia
    case None => e
    case Some(c) => if m.seSabe && !e.apunta then Reapuntado(e, c, m) else e
  }

  /** On stopping: the DNS goes back, the copy stays for the next start. */
  function DadoMientrasParado(e: Equipo, m: Mundo): Equipo {
    match e.copia
    case None => e
    case Some(c) => if NadaApunta(e, m) then e else Devuelto(e, c, m)
  }

  // ----- the person's commands -----

  /** A change that failed: nothing kept when it was refused before touching anything, else rolled back. */
  function RetiradoTrasFallo(a: Equipo, c: Copia, m: Mundo): Equipo {
    if m.sinPermiso && NadaApunta(a, m) then a.(copia := None)
    else
      var d := Devuelto(a, c, m);
      if m.restaura.ok then d.(copia := None) else d.(quiereDns := true)
  }

  /** A change the system's own queries do not follow: the copy goes first, and comes back if undoing fails. */
  function RetiradoSinLlegar(a: Equipo, c: Copia, m: Mundo): Equipo {
    var d := Devuelto(a.(copia := None), c, m);
    if m.restaura.ok then d else d.(copia := Some(c), quiereDns := true)
  }

  /** `dns --apply --yes`. */
  function Aplicado(e: Equipo, m: Mundo, quien: Quien, apartado: bool): Equipo {
    if e.copia.Some? || apartado || !m.contesta || Foto(e, m).None? then e
    else
      var c := Foto(e, m).value;
      var a := Apuntado(e.(copia := Some(c)), m);
      if !m.aplica.ok then RetiradoTrasFallo(a, c, m)
      else if !m.llega then RetiradoSinLlegar(a, c, m)
      else Anotado(a, DnsOn, quien).(quiereDns := true)
  }

  /** `dns --restore`. */
  function Restaurado(e: Equipo, m: Mundo, quien: Quien): Equipo {
    match e.copia
    case None => e.(aparcada := None, quiereDns := false)
    case Some(c) => Deshecho(e, c, m, quien)
  }

  /** The copy goes first, and comes back if undoing fails. */
  function Deshecho(e: Equipo, c: Copia, m: Mundo, quien: Quien): Equipo {
    var d := Devuelto(e.(copia := None), c, m);
    if !m.restaura.ok then d.(copia := Some(c))
    else Anotado(d.(aparcada := None, quiereDns := false), DnsOff, quien)
  }

  /** `hogar on`: refused while stood aside, without Plus or without a LAN. */
  function HogarEncendido(e: Equipo, permitido: bool): Equipo {
    if !permitido then e else Anotado(e.(hogar := true, quiereHogar := true), HogarOn, Terminal)
  }

  function HogarApagado(e: Equipo, quien: Quien): Equipo {
    Anotado(e.(hogar := false, hogarAparcado := false, quiereHogar := false), HogarOff, quien)
  }

  // ----- runs -----

  datatype Paso =
    | SeAparta | Vuelve | Reintenta | Silencio | ConRespuesta | Vigila | Para | Hereda
    | DnsAplica(quien: Quien, apartado: bool) | DnsRestaura(quien: Quien)
    | Enciende(permitido: bool) | Apaga(quien: Quien)
    // `Reintenta` runs only once stood aside. `OtroServidor`: the network points the machine elsewhere.
    | OtroServidor

  /** The commands are the person's: none is recorded as the licence's. */
  predicate DeLaPersona(p: Paso) {
    match p
    case DnsAplica(q, _) => q == Terminal || q == Instalador
    case DnsRestaura(q) => q == Terminal || q == Desinstalador
    case Apaga(q) => q == Terminal || q == Desinstalador
    case _ => true
  }

  function Da(e: Equipo, p: Paso, m: Mundo): Equipo {
    match p
    case SeAparta => Apartado(e, m)
    case Vuelve => Vuelto(e, m)
    case Hereda => Heredado(e, m)
    case Reintenta => if e.heredado then DnsAparcado(e, m) else e
    case Silencio => DevueltoPorSilencio(e, m)
    case ConRespuesta => VueltoConArriba(e, m)
    case Vigila => Reaplicado(e, m)
    case Para => DadoMientrasParado(e, m)
    case DnsAplica(quien, apartado) => Aplicado(e, m, quien, apartado)
    case DnsRestaura(quien) => Restaurado(e, m, quien)
    case Enciende(permitido) => HogarEncendido(e, permitido)
    case Apaga(quien) => HogarApagado(e, quien)
    case OtroServidor => e.(apunta := false)
  }

  function Corre(e: Equipo, pasos: seq<(Paso, Mundo)>): Equipo
    decreases pasos
  {
    if pasos == [] then e else Corre(Da(e, pasos[0].0, pasos[0].1), pasos[1..])
  }

  predicate CopiaLimpia(c: Option<Copia>) { c.Some? ==> c.value.limpia }

  /** A machine pointed at the guardian can be put back, and no copy would put it back to the guardian. */
  predicate SiempreHayVuelta(e: Equipo) {
    (e.apunta ==> e.copia.Some?) && CopiaLimpia(e.copia) && CopiaLimpia(e.aparcada)
  }

  // ----- what 1.0.1 left, and the person's choices -----

  /** The newest change of some classes in the whole record. */
  function UltimoDe(cambios: seq<Cambio>, clases: set<Clase>): Option<Cambio> {
    if cambios == [] then None
    else
      var c := cambios[|cambios| - 1];
      if c.clase in clases then Some(c) else UltimoDe(cambios[..|cambios| - 1], clases)
  }

  /** Home Mode was switched off by the licence and nothing of it since: 1.0.1 left it so, or nobody looked yet. */
  predicate HogarPorHeredar(e: Equipo) { UltimoDe(e.cambios, HOGAR) == Some(Cambio(HogarOff, Licencia)) }

  predicate DnsPorHeredar(e: Equipo) { UltimoDe(e.cambios, DNS) == Some(Cambio(DnsOff, Licencia)) }

  /**
   * Home Mode is on or parked exactly when the person last chose it; on a machine that has not looked yet at what
   * 1.0.1 left, also when the licence was the last to touch it.
   */
  predicate HogarBien(e: Equipo) {
    if e.heredado then e.quiereHogar <==> e.hogar || e.hogarAparcado
    else !e.hogarAparcado && (e.quiereHogar <==> e.hogar || HogarPorHeredar(e))
  }

  /** The same for the DNS: the change is in force or parked exactly when the person made it and did not undo it. */
  predicate DnsComoQuiere(e: Equipo) {
    if e.heredado then e.quiereDns <==> e.copia.Some? || e.aparcada.Some?
    else e.aparcada.None? && (e.quiereDns <==> e.copia.Some? || DnsPorHeredar(e))
  }

  predicate DnsBien(e: Equipo) { SiempreHayVuelta(e) && DnsComoQuiere(e) }

  /** The step looks at what 1.0.1 left, for the first time. */
  predicate Mira(e: Equipo, p: Paso) { !e.heredado && (p.SeAparta? || p.Hereda?) }

  /** The look finds Home Mode's last change: it is on, it was not the licence's, or it is among the last 500. */
  predicate AlcanzaHogar(e: Equipo) {
    HogarPorHeredar(e) && !e.hogar ==> Ultimo(e.cambios, 500, HOGAR) == Some(Cambio(HogarOff, Licencia))
  }

  /** The same for the DNS, whose copy must be taken then. */
  predicate AlcanzaDns(e: Equipo, m: Mundo) {
    DnsPorHeredar(e) && e.copia.None? ==> Ultimo(e.cambios, 500, DNS) == Some(Cambio(DnsOff, Licencia)) && m.foto.Some?
  }

  /** The step loses no choice about Home Mode. */
  predicate CuentaHogar(e: Equipo, p: Paso) { Mira(e, p) ==> AlcanzaHogar(e) }

  /** The step loses no choice about the DNS: an undo with nothing to undo is not recorded. */
  predicate CuentaDns(e: Equipo, p: Paso, m: Mundo) {
    && (Mira(e, p) ==> AlcanzaDns(e, m))
    && (!e.heredado && p.DnsRestaura? && e.copia.None? ==> !DnsPorHeredar(e))
  }

  lemma {:induction false} NewestWithin(cambios: seq<Cambio>, n: nat, clases: set<Clase>)
    ensures Ultimo(cambios, n, clases) == None || Ultimo(cambios, n, clases) == UltimoDe(cambios, clases)
  {
    if cambios != [] && n > 0 && cambios[|cambios| - 1].clase !in clases {
      NewestWithin(cambios[..|cambios| - 1], n - 1, clases);
    }
  }

  /** A new change is the newest of its class and leaves the other as it was. */
  lemma NewestAfter(e: Equipo, clase: Clase, quien: Quien)
    ensures var c := e.cambios + [Cambio(clase, quien)];
      && UltimoDe(c, HOGAR) == (if clase in HOGAR then Some(Cambio(clase, quien)) else UltimoDe(e.cambios, HOGAR))
      && UltimoDe(c, DNS) == (if clase in DNS then Some(Cambio(clase, quien)) else UltimoDe(e.cambios, DNS))
  {
    var c := e.cambios + [Cambio(clase, quien)];
    assert c[..|c| - 1] == e.cambios;
  }

  // ----- the first look -----

  /** The first look keeps the choice about Home Mode exactly when it finds the change the licence made. */
  lemma LookKeepsHome(e: Equipo, m: Mundo)
    requires HogarBien(e) && !e.heredado
    ensures HogarBien(Heredado(e, m)) <==> AlcanzaHogar(e)
    ensures AlcanzaHogar(e) ==> (Heredado(e, m).hogar || Heredado(e, m).hogarAparcado <==> e.quiereHogar)
    ensures Heredado(e, m).hogar || Heredado(e, m).hogarAparcado ==> e.quiereHogar
  {
    NewestWithin(e.cambios, 500, HOGAR);
  }

  /** And the choice about the DNS, exactly when it finds the licence's change and can take a copy. */
  lemma LookKeepsDns(e: Equipo, m: Mundo)
    requires DnsBien(e) && !e.heredado
    ensures DnsBien(Heredado(e, m)) <==> AlcanzaDns(e, m)
    ensures SiempreHayVuelta(Heredado(e, m))
    ensures Heredado(e, m).copia.Some? || Heredado(e, m).aparcada.Some? ==> e.quiereDns
  {
    NewestWithin(e.cambios, 500, DNS);
  }

  // ----- what each step keeps: Home Mode -----

  /** What a step can change of Home Mode, when it is about the DNS. */
  predicate MismoHogar(e: Equipo, f: Equipo) {
    && f.hogar == e.hogar && f.hogarAparcado == e.hogarAparcado && f.quiereHogar == e.quiereHogar
    && f.heredado == e.heredado && UltimoDe(f.cambios, HOGAR) == UltimoDe(e.cambios, HOGAR)
  }

  /** Nothing of Home Mode changed, and at most this change was recorded. */
  predicate SoloAnota(e: Equipo, f: Equipo, c: Cambio) {
    && f.hogar == e.hogar && f.hogarAparcado == e.hogarAparcado && f.quiereHogar == e.quiereHogar
    && f.heredado == e.heredado && (f.cambios == e.cambios || f.cambios == e.cambios + [c])
  }

  lemma RecordLeavesHome(e: Equipo, f: Equipo, c: Cambio)
    requires SoloAnota(e, f, c) && c.clase in DNS
    ensures MismoHogar(e, f)
  {
    NewestAfter(e, c.clase, c.quien);
  }

  lemma ParkedCopyRecords(e: Equipo, m: Mundo)
    ensures SoloAnota(e, DnsAparcado(e, m), Cambio(DnsOff, Licencia))
  {
  }

  lemma SilenceRecords(e: Equipo, m: Mundo)
    ensures SoloAnota(e, DevueltoPorSilencio(e, m), Cambio(DnsOff, SinArriba))
    ensures SoloAnota(e, DadoMientrasParado(e, m), Cambio(DnsOff, SinArriba))
  {
  }

  lemma PointingRecords(e: Equipo, m: Mundo)
    ensures SoloAnota(e, VueltoConArriba(e, m), Cambio(DnsOn, ConArriba))
    ensures SoloAnota(e, Reaplicado(e, m), Cambio(DnsOn, ConArriba))
  {
    if e.copia.Some? { PointedRecords(e, e.copia.value, m); }
  }

  lemma PointedRecords(e: Equipo, c: Copia, m: Mundo)
    ensures SoloAnota(e, Reapuntado(e, c, m), Cambio(DnsOn, ConArriba)) && Reapuntado(e, c, m).cambios == e.cambios
  {
  }

  /** Nothing of Home Mode changed, and nothing was recorded. */
  predicate NadaAnota(e: Equipo, f: Equipo) {
    && f.hogar == e.hogar && f.hogarAparcado == e.hogarAparcado && f.quiereHogar == e.quiereHogar
    && f.heredado == e.heredado && f.cambios == e.cambios
  }

  lemma TakenBackRecords(a: Equipo, c: Copia, m: Mundo)
    ensures NadaAnota(a, RetiradoTrasFallo(a, c, m))
  {
  }

  lemma UnreachedRecords(a: Equipo, c: Copia, m: Mundo)
    ensures NadaAnota(a, RetiradoSinLlegar(a, c, m))
  {
  }

  lemma ApplyRecords(e: Equipo, m: Mundo, quien: Quien, apartado: bool)
    ensures SoloAnota(e, Aplicado(e, m, quien, apartado), Cambio(DnsOn, quien))
  {
    if Foto(e, m).Some? {
      var c := Foto(e, m).value;
      TakenBackRecords(Apuntado(e.(copia := Some(c)), m), c, m);
      UnreachedRecords(Apuntado(e.(copia := Some(c)), m), c, m);
    }
  }

  lemma RestoreRecords(e: Equipo, m: Mundo, quien: Quien)
    ensures SoloAnota(e, Restaurado(e, m, quien), Cambio(DnsOff, quien))
  {
    if e.copia.Some? { UndoneRecords(e, e.copia.value, m, quien); }
  }

  lemma UndoneRecords(e: Equipo, c: Copia, m: Mundo, quien: Quien)
    ensures SoloAnota(e, Deshecho(e, c, m, quien), Cambio(DnsOff, quien))
    ensures Deshecho(e, c, m, quien).cambios == if m.restaura.ok then e.cambios + [Cambio(DnsOff, quien)] else e.cambios
  {
    var d := Devuelto(e.(copia := None), c, m);
    if m.restaura.ok {
      assert Deshecho(e, c, m, quien)
          == d.(aparcada := None, quiereDns := false, cambios := d.cambios + [Cambio(DnsOff, quien)]);
    } else {
      assert Deshecho(e, c, m, quien) == d.(copia := Some(c));
    }
  }

  /** The change a step about the DNS may record. */
  function Anotable(p: Paso): Cambio {
    match p
    case Reintenta => Cambio(DnsOff, Licencia)
    case ConRespuesta => Cambio(DnsOn, ConArriba)
    case Vigila => Cambio(DnsOn, ConArriba)
    case DnsAplica(quien, _) => Cambio(DnsOn, quien)
    case DnsRestaura(quien) => Cambio(DnsOff, quien)
    case _ => Cambio(DnsOff, SinArriba)
  }

  predicate DelDns(p: Paso) { !p.SeAparta? && !p.Vuelve? && !p.Hereda? && !p.Enciende? && !p.Apaga? }

  lemma DnsStepsRecord(e: Equipo, p: Paso, m: Mundo)
    requires DelDns(p)
    ensures SoloAnota(e, Da(e, p, m), Anotable(p))
  {
    match p
    case Reintenta => ParkedCopyRecords(e, m);
    case Silencio => SilenceRecords(e, m);
    case Para => SilenceRecords(e, m);
    case ConRespuesta => PointingRecords(e, m);
    case Vigila => PointingRecords(e, m);
    case DnsAplica(quien, apartado) => ApplyRecords(e, m, quien, apartado);
    case DnsRestaura(quien) => RestoreRecords(e, m, quien);
    case OtroServidor =>
  }

  /** What a step about the DNS leaves of Home Mode: all of it. */
  lemma DnsStepsLeaveHome(e: Equipo, p: Paso, m: Mundo)
    requires DelDns(p)
    ensures MismoHogar(e, Da(e, p, m))
  {
    DnsStepsRecord(e, p, m);
    RecordLeavesHome(e, Da(e, p, m), Anotable(p));
  }

  lemma ParkedCopyLeavesHome(e: Equipo, m: Mundo)
    ensures MismoHogar(e, DnsAparcado(e, m))
  {
    ParkedCopyRecords(e, m);
    RecordLeavesHome(e, DnsAparcado(e, m), Cambio(DnsOff, Licencia));
  }

  lemma ParkingKeepsHome(e: Equipo, m: Mundo)
    requires e.heredado && HogarBien(e)
    ensures HogarBien(Apartado(e, m)) && Apartado(e, m).quiereHogar == e.quiereHogar && Apartado(e, m).heredado
  {
    ParkedCopyLeavesHome(e, m);
    NewestAfter(DnsAparcado(e, m), HogarOff, Licencia);
  }

  lemma ReturnKeepsHome(e: Equipo, m: Mundo)
    requires HogarBien(e)
    ensures HogarBien(Vuelto(e, m)) && Vuelto(e, m).quiereHogar == e.quiereHogar && Vuelto(e, m).heredado == e.heredado
    ensures Vuelto(e, m).hogar == (e.hogar || e.hogarAparcado) && !Vuelto(e, m).hogarAparcado
  {
    NewestAfter(e, DnsOn, Licencia);
    if !e.heredado { assert !e.hogarAparcado; }
  }

  lemma LooksOnce(e: Equipo, m: Mundo)
    ensures Heredado(e, m).heredado && Heredado(Heredado(e, m), m) == Heredado(e, m)
    ensures Heredado(e, m).quiereHogar == e.quiereHogar && Heredado(e, m).quiereDns == e.quiereDns
  {
  }

  lemma HeredadoThenApartado(e: Equipo, m: Mundo)
    ensures Apartado(e, m) == Apartado(Heredado(e, m), m) && Heredado(e, m).heredado
  {
    LooksOnce(e, m);
  }

  /** A step keeps Home Mode as chosen exactly when it loses no choice about it. */
  lemma HomeStep(e: Equipo, p: Paso, m: Mundo)
    requires HogarBien(e) && DeLaPersona(p)
    ensures HogarBien(Da(e, p, m)) <==> CuentaHogar(e, p)
    ensures !p.Enciende? && !p.Apaga? ==> Da(e, p, m).quiereHogar == e.quiereHogar
  {
    if Mira(e, p) {
      LookKeepsHome(e, m);
      if AlcanzaHogar(e) { ParkingKeepsHome(Heredado(e, m), m); } else { LostAtTheLook(e, m); }
      HeredadoThenApartado(e, m);
    } else {
      match p
      case SeAparta => ParkingKeepsHome(e, m);
      case Vuelve => ReturnKeepsHome(e, m);
      case Hereda =>
      case Enciende(_) => NewestAfter(e, HogarOn, Terminal);
      case Apaga(quien) => NewestAfter(e, HogarOff, quien);
      case _ => DnsStepsLeaveHome(e, p, m);
    }
  }

  /** What the look does not find is lost: Home Mode stays off, chosen as it was. */
  lemma LostAtTheLook(e: Equipo, m: Mundo)
    requires HogarBien(e) && !e.heredado && !AlcanzaHogar(e)
    ensures var f := Apartado(e, m); f.heredado && f.quiereHogar && !f.hogar && !f.hogarAparcado
  {
    NewestWithin(e.cambios, 500, HOGAR);
    ParkedCopyLeavesHome(Heredado(e, m), m);
  }

  // ----- what each step keeps: the DNS -----

  lemma ParkedCopyKeeps(e: Equipo, m: Mundo)
    requires e.heredado && DnsBien(e)
    ensures DnsBien(DnsAparcado(e, m)) && DnsAparcado(e, m).quiereDns == e.quiereDns
  {
  }

  /** Standing aside after the look: the DNS goes back, and Home Mode does not touch it. */
  lemma ParkingKeepsDns(e: Equipo, m: Mundo)
    requires e.heredado && DnsBien(e)
    ensures DnsBien(Apartado(e, m)) && Apartado(e, m).quiereDns == e.quiereDns
  {
    ParkedCopyKeeps(e, m);
    NewestAfter(DnsAparcado(e, m), HogarOff, Licencia);
  }

  lemma ReturnKeepsDns(e: Equipo, m: Mundo)
    requires DnsBien(e)
    ensures DnsBien(Vuelto(e, m)) && Vuelto(e, m).quiereDns == e.quiereDns
    ensures (Vuelto(e, m).copia.Some? <==> e.copia.Some? || e.aparcada.Some?) && Vuelto(e, m).aparcada.None?
  {
    NewestAfter(e, HogarOn, Licencia);
  }

  lemma SilenceKeepsDns(e: Equipo, m: Mundo)
    requires DnsBien(e)
    ensures DnsBien(DevueltoPorSilencio(e, m)) && DnsBien(DadoMientrasParado(e, m))
    ensures DevueltoPorSilencio(e, m).quiereDns == e.quiereDns && DadoMientrasParado(e, m).quiereDns == e.quiereDns
  {
  }

  lemma PointingKeepsDns(e: Equipo, m: Mundo)
    requires DnsBien(e)
    ensures DnsBien(VueltoConArriba(e, m)) && DnsBien(Reaplicado(e, m))
    ensures VueltoConArriba(e, m).quiereDns == e.quiereDns && Reaplicado(e, m).quiereDns == e.quiereDns
  {
    WayBackEngine(e, m);
    if e.copia.Some? {
      var f := Reapuntado(e, e.copia.value, m);
      assert f.copia.Some? && f.aparcada == e.aparcada && f.quiereDns == e.quiereDns && f.heredado == e.heredado;
      assert f.cambios == e.cambios;
      NewestAfter(f, DnsOn, ConArriba);
    }
  }

  /** A change that did not work is taken back, or stays with its copy. */
  lemma TakenBackKeepsDns(e: Equipo, c: Copia, m: Mundo)
    requires DnsBien(e) && e.copia.None? && c.limpia
    ensures var a := Apuntado(e.(copia := Some(c)), m);
            DnsBien(RetiradoTrasFallo(a, c, m)) && DnsBien(RetiradoSinLlegar(a, c, m))
  {
    var a := Apuntado(e.(copia := Some(c)), m);
    assert a.cambios == e.cambios && a.heredado == e.heredado && a.quiereDns == e.quiereDns;
  }

  lemma ApplyKeepsDns(e: Equipo, m: Mundo, quien: Quien, apartado: bool)
    requires DnsBien(e)
    ensures DnsBien(Aplicado(e, m, quien, apartado))
  {
    if e.copia.None? && Foto(e, m).Some? {
      TakenBackKeepsDns(e, Foto(e, m).value, m);
    }
  }

  /** Undoing by hand keeps the DNS as chosen, but for the one case that leaves no record of the choice. */
  lemma RestoreKeepsDns(e: Equipo, m: Mundo, quien: Quien)
    requires DnsBien(e) && (quien == Terminal || quien == Desinstalador)
    ensures DnsBien(Restaurado(e, m, quien)) <==> CuentaDns(e, DnsRestaura(quien), m)
  {
    WayBackUndone(e, m, quien);
    if e.copia.Some? { UndoneAsChosen(e, m, quien); }
  }

  lemma UndoneAsChosen(e: Equipo, m: Mundo, quien: Quien)
    requires DnsBien(e) && e.copia.Some? && (quien == Terminal || quien == Desinstalador)
    ensures DnsComoQuiere(Deshecho(e, e.copia.value, m, quien))
  {
    var f := Deshecho(e, e.copia.value, m, quien);
    UndoneRecords(e, e.copia.value, m, quien);
    NewestAfter(e, DnsOff, quien);
    assert m.restaura.ok ==> f.copia.None? && f.aparcada.None? && !f.quiereDns;
    assert !m.restaura.ok ==> f.copia == e.copia && f.aparcada == e.aparcada && f.quiereDns == e.quiereDns;
  }

  lemma WayBackUndone(e: Equipo, m: Mundo, quien: Quien)
    requires SiempreHayVuelta(e)
    ensures SiempreHayVuelta(Restaurado(e, m, quien))
  {
    if e.copia.Some? { assert Devuelto(e.(copia := None), e.copia.value, m).apunta ==> !m.restaura.ok; }
  }

  /** A step keeps the DNS as chosen, and the way back, exactly when it loses no choice about it. */
  lemma DnsStep(e: Equipo, p: Paso, m: Mundo)
    requires DnsBien(e) && DeLaPersona(p)
    ensures DnsBien(Da(e, p, m)) <==> CuentaDns(e, p, m)
    ensures !p.DnsAplica? && !p.DnsRestaura? ==> Da(e, p, m).quiereDns == e.quiereDns
  {
    if Mira(e, p) {
      LookKeepsDns(e, m);
      HeredadoThenApartado(e, m);
      if AlcanzaDns(e, m) { ParkingKeepsDns(Heredado(e, m), m); } else { DnsLostAtTheLook(e, m); }
    } else {
      match p
      case SeAparta => ParkingKeepsDns(e, m);
      case Vuelve => ReturnKeepsDns(e, m);
      case Reintenta => if e.heredado { ParkedCopyKeeps(e, m); }
      case Silencio => SilenceKeepsDns(e, m);
      case Para => SilenceKeepsDns(e, m);
      case ConRespuesta => PointingKeepsDns(e, m);
      case Vigila => PointingKeepsDns(e, m);
      case DnsAplica(quien, apartado) => ApplyKeepsDns(e, m, quien, apartado);
      case DnsRestaura(quien) => RestoreKeepsDns(e, m, quien);
      case Enciende(_) => NewestAfter(e, HogarOn, Terminal);
      case Apaga(quien) => NewestAfter(e, HogarOff, quien);
      case _ =>
    }
  }

  lemma DnsLostAtTheLook(e: Equipo, m: Mundo)
    requires DnsBien(e) && !e.heredado && !AlcanzaDns(e, m)
    ensures var f := Apartado(e, m); f.heredado && f.quiereDns && f.copia.None? && f.aparcada.None?
  {
    NewestWithin(e.cambios, 500, DNS);
  }

  // ----- runs -----

  predicate Persona(pasos: seq<(Paso, Mundo)>) {
    forall i | 0 <= i < |pasos| :: DeLaPersona(pasos[i].0)
  }

  /** No step of the run loses a choice about Home Mode. */
  predicate CuentaHogarTodo(e: Equipo, pasos: seq<(Paso, Mundo)>)
    decreases pasos
  {
    pasos == [] || (CuentaHogar(e, pasos[0].0) && CuentaHogarTodo(Da(e, pasos[0].0, pasos[0].1), pasos[1..]))
  }

  predicate CuentaDnsTodo(e: Equipo, pasos: seq<(Paso, Mundo)>)
    decreases pasos
  {
    pasos == [] || (CuentaDns(e, pasos[0].0, pasos[0].1) && CuentaDnsTodo(Da(e, pasos[0].0, pasos[0].1), pasos[1..]))
  }

  /** Over any run that loses no choice, Home Mode is on or parked exactly when last chosen on. */
  lemma {:induction false} HomeOverRuns(e: Equipo, pasos: seq<(Paso, Mundo)>)
    requires HogarBien(e) && Persona(pasos) && CuentaHogarTodo(e, pasos)
    ensures HogarBien(Corre(e, pasos))
    decreases pasos
  {
    if pasos != [] {
      HomeStep(e, pasos[0].0, pasos[0].1);
      HomeOverRuns(Da(e, pasos[0].0, pasos[0].1), pasos[1..]);
    }
  }

  /**
   * Over any such run, and for every success or failure of the system's calls: a machine pointed at the guardian
   * has a stored copy, no copy would put it back to the guardian itself, and the DNS is as last chosen.
   */
  lemma {:induction false} DnsOverRuns(e: Equipo, pasos: seq<(Paso, Mundo)>)
    requires DnsBien(e) && Persona(pasos) && CuentaDnsTodo(e, pasos)
    ensures DnsBien(Corre(e, pasos))
    decreases pasos
  {
    if pasos != [] {
      DnsStep(e, pasos[0].0, pasos[0].1);
      DnsOverRuns(Da(e, pasos[0].0, pasos[0].1), pasos[1..]);
    }
  }

  /** The way back holds over every run, whatever is lost: no step breaks it. */
  lemma {:induction false} WayBackOverRuns(e: Equipo, pasos: seq<(Paso, Mundo)>)
    requires SiempreHayVuelta(e)
    ensures SiempreHayVuelta(Corre(e, pasos))
    decreases pasos
  {
    if pasos != [] {
      WayBackStep(e, pasos[0].0, pasos[0].1);
      WayBackOverRuns(Da(e, pasos[0].0, pasos[0].1), pasos[1..]);
    }
  }

  lemma WayBackInherited(e: Equipo, m: Mundo)
    requires SiempreHayVuelta(e)
    ensures SiempreHayVuelta(Heredado(e, m))
  {
  }

  lemma WayBackParked(e: Equipo, m: Mundo)
    requires SiempreHayVuelta(e)
    ensures SiempreHayVuelta(DnsAparcado(e, m))
  {
  }

  lemma WayBackReturned(e: Equipo, m: Mundo)
    requires SiempreHayVuelta(e)
    ensures SiempreHayVuelta(Vuelto(e, m))
  {
  }

  lemma WayBackSilent(e: Equipo, m: Mundo)
    requires SiempreHayVuelta(e)
    ensures SiempreHayVuelta(DevueltoPorSilencio(e, m)) && SiempreHayVuelta(DadoMientrasParado(e, m))
  {
  }

  lemma WayBackPointed(e: Equipo, c: Copia, m: Mundo)
    requires SiempreHayVuelta(e) && e.copia == Some(c)
    ensures SiempreHayVuelta(Reapuntado(e, c, m))
  {
  }

  lemma WayBackEngine(e: Equipo, m: Mundo)
    requires SiempreHayVuelta(e)
    ensures SiempreHayVuelta(DevueltoPorSilencio(e, m)) && SiempreHayVuelta(DadoMientrasParado(e, m))
    ensures SiempreHayVuelta(VueltoConArriba(e, m)) && SiempreHayVuelta(Reaplicado(e, m))
  {
    WayBackSilent(e, m);
    if e.copia.Some? { WayBackPointed(e, e.copia.value, m); }
  }

  lemma WayBackApplied(e: Equipo, m: Mundo, quien: Quien, apartado: bool)
    requires SiempreHayVuelta(e)
    ensures SiempreHayVuelta(Aplicado(e, m, quien, apartado))
  {
    if e.copia.None? && Foto(e, m).Some? { WayBackTakenBack(e, Foto(e, m).value, m); }
  }

  lemma WayBackStep(e: Equipo, p: Paso, m: Mundo)
    requires SiempreHayVuelta(e)
    ensures SiempreHayVuelta(Da(e, p, m))
  {
    match p
    case SeAparta => WayBackInherited(e, m); WayBackParked(Heredado(e, m), m);
    case Vuelve => WayBackReturned(e, m);
    case Hereda => WayBackInherited(e, m);
    case Reintenta => WayBackParked(e, m);
    case DnsAplica(quien, apartado) => WayBackApplied(e, m, quien, apartado);
    case DnsRestaura(quien) => WayBackUndone(e, m, quien);
    case Enciende(_) =>
    case Apaga(_) =>
    case OtroServidor =>
    case _ => WayBackEngine(e, m);
  }

  lemma WayBackTakenBack(e: Equipo, c: Copia, m: Mundo)
    requires SiempreHayVuelta(e) && e.copia.None? && c.limpia
    ensures var a := Apuntado(e.(copia := Some(c)), m);
            SiempreHayVuelta(RetiradoTrasFallo(a, c, m)) && SiempreHayVuelta(RetiradoSinLlegar(a, c, m))
  {
  }

  /** Nothing of 1.0.1 to inherit: it looked already, or the licence was never the last to switch anything off. */
  predicate NadaQueHeredar(e: Equipo) { e.heredado || (!HogarPorHeredar(e) && !DnsPorHeredar(e)) }

  /** A change that is not the licence's leaves nothing new to inherit. */
  lemma NothingNewToInherit(e: Equipo, f: Equipo, c: Cambio)
    requires NadaQueHeredar(e) && c.quien != Licencia && f.heredado == e.heredado
    requires f.cambios == e.cambios || f.cambios == e.cambios + [c]
    ensures NadaQueHeredar(f)
  {
    NewestAfter(e, c.clase, c.quien);
  }

  lemma HeredadoStays(e: Equipo, p: Paso, m: Mundo)
    requires e.heredado || p.SeAparta? || p.Hereda?
    ensures Da(e, p, m).heredado
  {
    LooksOnce(e, m);
    match p
    case SeAparta => ParkedCopyLeavesHome(Heredado(e, m), m);
    case Vuelve =>
    case Hereda =>
    case Enciende(_) =>
    case Apaga(_) =>
    case _ => DnsStepsLeaveHome(e, p, m);
  }

  lemma StepLeavesNothing(e: Equipo, p: Paso, m: Mundo)
    requires NadaQueHeredar(e) && HogarBien(e) && DnsBien(e) && DeLaPersona(p)
    ensures NadaQueHeredar(Da(e, p, m)) && CuentaHogar(e, p) && CuentaDns(e, p, m)
  {
    if e.heredado || p.SeAparta? || p.Hereda? {
      HeredadoStays(e, p, m);
    } else if p.Vuelve? || p.Reintenta? {
      assert Da(e, p, m) == e;
    } else if DelDns(p) {
      DnsStepsRecord(e, p, m);
      NothingNewToInherit(e, Da(e, p, m), Anotable(p));
    } else {
      NothingNewToInherit(e, Da(e, p, m), if p.Apaga? then Cambio(HogarOff, p.quien) else Cambio(HogarOn, Terminal));
    }
  }

  /** A machine 1.0.1 left nothing on loses no choice, in any run. */
  lemma {:induction false} RunKeeps(e: Equipo, pasos: seq<(Paso, Mundo)>)
    requires NadaQueHeredar(e) && HogarBien(e) && DnsBien(e) && Persona(pasos)
    ensures CuentaHogarTodo(e, pasos) && CuentaDnsTodo(e, pasos)
    ensures HogarBien(Corre(e, pasos)) && DnsBien(Corre(e, pasos)) && NadaQueHeredar(Corre(e, pasos))
    decreases pasos
  {
    if pasos != [] {
      var (p, m) := pasos[0];
      StepLeavesNothing(e, p, m);
      HomeStep(e, p, m);
      DnsStep(e, p, m);
      RunKeeps(Da(e, p, m), pasos[1..]);
    }
  }

  predicate DelMotor(pasos: seq<(Paso, Mundo)>) {
    forall i | 0 <= i < |pasos| ::
      var p := pasos[i].0; !p.DnsAplica? && !p.DnsRestaura? && !p.Enciende? && !p.Apaga?
  }

  /** While the person chose Home Mode off, nothing the program does alone turns it on or parks it. */
  lemma {:induction false} OffStaysOff(e: Equipo, pasos: seq<(Paso, Mundo)>)
    requires HogarBien(e) && !e.quiereHogar && DelMotor(pasos)
    ensures var f := Corre(e, pasos); !f.hogar && !f.hogarAparcado && HogarBien(f)
    decreases pasos
  {
    if pasos != [] {
      HomeStep(e, pasos[0].0, pasos[0].1);
      OffStaysOff(Da(e, pasos[0].0, pasos[0].1), pasos[1..]);
    }
  }

  /** After `off`, no number of stand-downs and returns brings Home Mode back, on a machine of 1.0.1 too. */
  lemma NeverAfterOff(e: Equipo, quien: Quien, pasos: seq<(Paso, Mundo)>)
    requires HogarBien(e) && DelMotor(pasos) && DeLaPersona(Apaga(quien))
    ensures var f := Corre(HogarApagado(e, quien), pasos); !f.hogar && !f.hogarAparcado
  {
    NewestAfter(e, HogarOff, quien);
    OffStaysOff(HogarApagado(e, quien), pasos);
  }

  /** While the DNS change is undone by choice, nothing the program does alone points the machine here. */
  lemma {:induction false} UndoneStaysUndone(e: Equipo, pasos: seq<(Paso, Mundo)>)
    requires DnsBien(e) && !e.quiereDns && DelMotor(pasos)
    ensures !Corre(e, pasos).apunta
    decreases pasos
  {
    if pasos != [] {
      DnsStep(e, pasos[0].0, pasos[0].1);
      UndoneStaysUndone(Da(e, pasos[0].0, pasos[0].1), pasos[1..]);
    }
  }

  /**
   * After an undo that worked the machine is never pointed here again until the person asks, unless it was asked
   * with nothing to undo before the machine looked at what 1.0.1 left.
   */
  lemma NeverAfterRestore(e: Equipo, m: Mundo, quien: Quien, pasos: seq<(Paso, Mundo)>)
    requires DnsBien(e) && DelMotor(pasos) && DeLaPersona(DnsRestaura(quien)) && (m.restaura.ok || e.copia.None?)
    requires CuentaDns(e, DnsRestaura(quien), m)
    ensures !Corre(Restaurado(e, m, quien), pasos).apunta
  {
    RestoreKeepsDns(e, m, quien);
    UndoneStaysUndone(Restaurado(e, m, quien), pasos);
  }

  /** The system doing what it is asked. */
  const TODO_BIEN: Mundo := Mundo(Some(""), Intento(true, false), Intento(true, false), true, false, true, true, false)

  /**
   * An undo asked before that look leaves no record: whenever the licence's change is among the last 500, standing
   * aside, the licence coming back and the minute's watch point the machine here against it.
   */
  lemma UndoBeforeTheLookIsForgotten(e: Equipo, m: Mundo, quien: Quien)
    requires DnsBien(e) && !e.heredado && e.copia.None?
    requires Ultimo(e.cambios, 500, DNS) == Some(Cambio(DnsOff, Licencia))
    ensures var pasos := [(SeAparta, TODO_BIEN)] + ([(Vuelve, TODO_BIEN)] + ([(Vigila, TODO_BIEN)] + []));
      !Restaurado(e, m, quien).quiereDns && DelMotor(pasos) && Corre(Restaurado(e, m, quien), pasos).apunta
  {
    var r := Restaurado(e, m, quien);
    var s := Apartado(r, TODO_BIEN);
    assert Heredado(r, TODO_BIEN).aparcada.Some? && s.aparcada.Some? && s.copia.None?;
    var v := Vuelto(s, TODO_BIEN);
    assert v.copia.Some? && !v.apunta;
    var f := Reaplicado(v, TODO_BIEN);
    assert f.apunta;
    OneStep(r, SeAparta, TODO_BIEN, [(Vuelve, TODO_BIEN)] + ([(Vigila, TODO_BIEN)] + []));
    OneStep(s, Vuelve, TODO_BIEN, [(Vigila, TODO_BIEN)] + []);
    OneStep(v, Vigila, TODO_BIEN, []);
  }

  lemma OneStep(e: Equipo, p: Paso, m: Mundo, pasos: seq<(Paso, Mundo)>)
    ensures Corre(e, [(p, m)] + pasos) == Corre(Da(e, p, m), pasos)
  {
    assert ([(p, m)] + pasos)[1..] == pasos;
  }

  /** The program never changes what the person chose. */
  lemma {:induction false} EngineChoosesNothing(e: Equipo, pasos: seq<(Paso, Mundo)>)
    requires HogarBien(e) && DnsBien(e) && DelMotor(pasos) && CuentaHogarTodo(e, pasos) && CuentaDnsTodo(e, pasos)
    ensures HogarBien(Corre(e, pasos)) && DnsBien(Corre(e, pasos))
    ensures Corre(e, pasos).quiereHogar == e.quiereHogar && Corre(e, pasos).quiereDns == e.quiereDns
    decreases pasos
  {
    if pasos != [] {
      HomeStep(e, pasos[0].0, pasos[0].1);
      DnsStep(e, pasos[0].0, pasos[0].1);
      EngineChoosesNothing(Da(e, pasos[0].0, pasos[0].1), pasos[1..]);
    }
  }

  /** With the licence back after standing aside, Home Mode and the DNS are exactly as chosen. */
  lemma BackAsChosen(e: Equipo, pasos: seq<(Paso, Mundo)>, m: Mundo)
    requires HogarBien(e) && DnsBien(e) && DelMotor(pasos) && CuentaHogarTodo(e, pasos) && CuentaDnsTodo(e, pasos)
    requires Corre(e, pasos).heredado
    ensures var f := Vuelto(Corre(e, pasos), m);
            (f.hogar <==> e.quiereHogar) && !f.hogarAparcado && (f.copia.Some? <==> e.quiereDns) && f.aparcada.None?
  {
    EngineChoosesNothing(e, pasos);
    ReturnKeepsHome(Corre(e, pasos), m);
    ReturnKeepsDns(Corre(e, pasos), m);
  }

  // ----- a machine as 1.0.1 left it -----

  /** No change of some classes. */
  predicate SinClase(cambios: seq<Cambio>, clases: set<Clase>) {
    forall i | 0 <= i < |cambios| :: cambios[i].clase !in clases
  }

  lemma {:induction false} NewestBefore(antes: seq<Cambio>, despues: seq<Cambio>, clases: set<Clase>, n: nat)
    requires antes != [] && antes[|antes| - 1].clase in clases && SinClase(despues, clases)
    ensures Ultimo(antes + despues, n, clases) == if |despues| < n then Some(antes[|antes| - 1]) else None
    ensures UltimoDe(antes + despues, clases) == Some(antes[|antes| - 1])
    decreases |despues|
  {
    var s := antes + despues;
    if despues != [] {
      assert s[..|s| - 1] == antes + despues[..|despues| - 1];
      NewestBefore(antes, despues[..|despues| - 1], clases, if n > 0 then n - 1 else 0);
    } else {
      assert s == antes;
    }
  }

  /** Home Mode switched off by 1.0.1 is inherited exactly when fewer than 500 changes came after it, of any kind. */
  lemma InheritedWithin500(e: Equipo, m: Mundo, antes: seq<Cambio>, despues: seq<Cambio>)
    requires !e.heredado && !e.hogar && !e.hogarAparcado && SinClase(despues, HOGAR)
    requires e.cambios == antes + [Cambio(HogarOff, Licencia)] + despues
    ensures Heredado(e, m).hogarAparcado <==> |despues| < 500
  {
    NewestBefore(antes + [Cambio(HogarOff, Licencia)], despues, HOGAR, 500);
  }

  /** The DNS it gave back is parked exactly then and when a copy can be taken. */
  lemma DnsInheritedWithin500(e: Equipo, m: Mundo, antes: seq<Cambio>, despues: seq<Cambio>)
    requires !e.heredado && e.copia.None? && e.aparcada.None? && SinClase(despues, DNS)
    requires e.cambios == antes + [Cambio(DnsOff, Licencia)] + despues
    ensures Heredado(e, m).aparcada.Some? <==> |despues| < 500 && m.foto.Some?
  {
    NewestBefore(antes + [Cambio(DnsOff, Licencia)], despues, DNS, 500);
  }

  /** As 1.0.1 stood aside: nothing parked, both switched off by the licence, and both still wanted. */
  predicate Dejado(e: Equipo) {
    && !e.heredado && !e.hogar && !e.hogarAparcado && e.copia.None? && e.aparcada.None? && !e.apunta
    && HogarPorHeredar(e) && DnsPorHeredar(e) && e.quiereHogar && e.quiereDns
  }

  /**
   * From a machine 1.0.1 left standing aside: when the first thing is to stand aside and the look finds both
   * changes, both are parked; and whatever the program then does, the licence brings both back.
   */
  lemma WhatWasLeftComesBack(e: Equipo, m: Mundo, pasos: seq<(Paso, Mundo)>, n: Mundo)
    requires Dejado(e) && DelMotor(pasos) && AlcanzaHogar(e) && AlcanzaDns(e, m)
    ensures Apartado(e, m).hogarAparcado && Apartado(e, m).aparcada.Some?
    ensures var f := Vuelto(Corre(Apartado(e, m), pasos), n); f.hogar && f.copia.Some?
  {
    var a := Apartado(e, m);
    HomeStep(e, SeAparta, m);
    DnsStep(e, SeAparta, m);
    HeredadoThenApartado(e, m);
    ParkingKeepsHome(Heredado(e, m), m);
    assert Heredado(e, m).hogarAparcado && Heredado(e, m).aparcada.Some?;
    RunKeepsChoices(a, pasos);
    ReturnKeepsHome(Corre(a, pasos), n);
    ReturnKeepsDns(Corre(a, pasos), n);
  }

  lemma {:induction false} RunKeepsChoices(e: Equipo, pasos: seq<(Paso, Mundo)>)
    requires e.heredado && HogarBien(e) && DnsBien(e) && DelMotor(pasos)
    ensures var f := Corre(e, pasos);
      f.heredado && HogarBien(f) && DnsBien(f) && f.quiereHogar == e.quiereHogar && f.quiereDns == e.quiereDns
    decreases pasos
  {
    if pasos != [] {
      HomeStep(e, pasos[0].0, pasos[0].1);
      DnsStep(e, pasos[0].0, pasos[0].1);
      RunKeepsChoices(Da(e, pasos[0].0, pasos[0].1), pasos[1..]);
    }
  }
}
