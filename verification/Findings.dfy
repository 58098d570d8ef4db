/** What one look finds (crates/apps/src/vigilancia.rs), and replaying the findings. */
module Findings {
  import opened Basics
  import Calendar

  datatype Recurso = Camara | Microfono

  /** One use as Windows recorded it; `conRuta` when it gave the program's path. */
  datatype Uso = Uso(programa: string, conRuta: bool, recurso: Recurso, desde: int, hasta: Option<int>)

  datatype UsoActivo = UsoActivo(programa: string, recurso: Recurso, desde: int)

  datatype Hallazgo =
    | UsoEmpieza(clave: string, uso: UsoActivo, aviso: bool, alEmpezar: bool)
    | UsoBreve(clave: string, uso: UsoActivo, hasta: int, aviso: bool)
    | UsoTermina(clave: string, uso: UsoActivo, hasta: int, minutos: int)
    | PrivacidadBase(n: nat)
    | PrivacidadCambio(ajuste: string, antes: string, despues: string, aviso: bool)
    | AtencionEmpieza(condicion: string, alEmpezar: bool, aviso: bool)
    | AtencionVuelve(condicion: string)
    | HechoCambio(hecho: string, activo: bool)
    | HechoNuevo(hecho: string, activo: bool)
    | ArranqueBase(n: nat)
    | ArranqueNuevo(clave: string, aviso: bool)
    | ArranqueVarios(n: nat)
    | ArranqueIdo(clave: string)

  // ----- the key of a use -----

  function ComoTexto(r: Recurso): string { if r == Camara then "camara" else "microfono" }

  /** `to_string` of a signed integer. */
  function Entero(n: int): string {
    if n < 0 then "-" + Calendar.Text(Digits(-n)) else Calendar.Text(Digits(n))
  }

  function Clave(programa: string, recurso: Recurso, desde: int): string {
    Minusculas(programa) + ("|" + (ComoTexto(recurso) + ("|" + Entero(desde))))
  }

  function ClaveDe(u: Uso): string { Clave(u.programa, u.recurso, u.desde) }

  lemma SplitAtLast(a: string, b: string, c: string, d: string)
    requires '|' !in b && '|' !in d && a + ("|" + b) == c + ("|" + d)
    ensures a == c && b == d
  {
    var s := a + ("|" + b);
    assert s[|a|] == '|' && s[|c|] == '|';
    assert |a| == |c|;
    assert s[..|a|] == a && s[..|c|] == c && s[|a| + 1..] == b && s[|c| + 1..] == d;
  }

  lemma TextReads(ds: seq<Digit>)
    ensures Calendar.AllDigits(Calendar.Text(ds)) && Calendar.Number(Calendar.Text(ds)) == Value(ds)
    ensures '|' !in Calendar.Text(ds) && '-' !in Calendar.Text(ds)
  {
    assert Calendar.DigitsOf(Calendar.Text(ds)) == ds;
  }

  lemma EnteroInjective(a: int, b: int)
    ensures '|' !in Entero(a)
    ensures Entero(a) == Entero(b) ==> a == b
  {
    TextReads(Digits(Abs(a)));
    TextReads(Digits(Abs(b)));
    ValueOfDigits(Abs(a));
    ValueOfDigits(Abs(b));
    assert a < 0 ==> Entero(a)[0] == '-' && Entero(a)[1..] == Calendar.Text(Digits(Abs(a)));
    assert b < 0 ==> Entero(b)[0] == '-' && Entero(b)[1..] == Calendar.Text(Digits(Abs(b)));
    assert a >= 0 ==> Entero(a)[0] in Entero(a);
    assert b >= 0 ==> Entero(b)[0] in Entero(b);
  }

  lemma ResourceInjective(r: Recurso, s: Recurso)
    ensures '|' !in ComoTexto(r)
    ensures ComoTexto(r) == ComoTexto(s) ==> r == s
  {
    assert ComoTexto(Camara)[0] == 'c' && ComoTexto(Microfono)[0] == 'm';
  }

  /** The key tells the resource and the time apart, and the program up to its letters' case. */
  lemma ClaveInjective(p: string, r: Recurso, t: int, q: string, s: Recurso, v: int)
    requires Clave(p, r, t) == Clave(q, s, v)
    ensures r == s && t == v && Minusculas(p) == Minusculas(q)
  {
    EnteroInjective(t, v);
    EnteroInjective(v, t);
    ResourceInjective(r, s);
    ResourceInjective(s, r);
    ThreeParts(Minusculas(p), ComoTexto(r), Entero(t), Minusculas(q), ComoTexto(s), Entero(v));
  }

  lemma ThreeParts(a: string, b: string, c: string, x: string, y: string, z: string)
    requires '|' !in b && '|' !in c && '|' !in y && '|' !in z
    requires a + ("|" + (b + ("|" + c))) == x + ("|" + (y + ("|" + z)))
    ensures a == x && b == y && c == z
  {
    assert a + ("|" + (b + ("|" + c))) == (a + ("|" + b)) + ("|" + c);
    assert x + ("|" + (y + ("|" + z))) == (x + ("|" + y)) + ("|" + z);
    SplitAtLast(a + ("|" + b), c, x + ("|" + y), z);
    SplitAtLast(a, b, x, y);
  }

  // ----- replaying the uses -----

  type Usos = map<string, UsoActivo>

  /** One finding on the uses going on: a start only of one not going on, an end only of one that is. */
  function SigueUsos(activos: Usos, h: Hallazgo): Option<Usos> {
    match h
    case UsoEmpieza(k, u, _, _) => if k in activos then None else Some(activos[k := u])
    case UsoTermina(k, _, _, _) => if k !in activos then None else Some(activos - {k})
    case _ => Some(activos)
  }

  function RepiteUsos(activos: Usos, log: seq<Hallazgo>): Option<Usos> {
    if log == [] then Some(activos)
    else match RepiteUsos(activos, log[..|log| - 1])
      case None => None
      case Some(m) => SigueUsos(m, log[|log| - 1])
  }

  lemma {:induction false} ReplayConcat(activos: Usos, a: seq<Hallazgo>, b: seq<Hallazgo>)
    ensures RepiteUsos(activos, a + b)
         == match RepiteUsos(activos, a) case None => None case Some(m) => RepiteUsos(m, b)
  {
    if b == [] {
      assert a + b == a;
    } else {
      assert (a + b)[..|a + b| - 1] == a + b[..|b| - 1];
      ReplayConcat(activos, a, b[..|b| - 1]);
    }
  }

  /** The same use, but perhaps for the case of the program's letters. */
  predicate MismoUso(u: UsoActivo, v: UsoActivo) {
    Minusculas(u.programa) == Minusculas(v.programa) && u.recurso == v.recurso && u.desde == v.desde
  }

  predicate MismosUsos(a: Usos, b: Usos) {
    a.Keys == b.Keys && forall k | k in a :: MismoUso(a[k], b[k])
  }

  predicate BienClavados(m: Usos) {
    forall k | k in m :: k == Clave(m[k].programa, m[k].recurso, m[k].desde)
  }

  /** Tables with the same keys, each entry under its own key, hold the same uses. */
  lemma SameKeysSameUses(a: Usos, b: Usos)
    requires a.Keys == b.Keys && BienClavados(a) && BienClavados(b)
    ensures MismosUsos(a, b)
  {
    forall k | k in a ensures MismoUso(a[k], b[k]) {
      ClaveInjective(a[k].programa, a[k].recurso, a[k].desde, b[k].programa, b[k].recurso, b[k].desde);
    }
  }

  // ----- replaying the attention conditions -----

  function SigueAtencion(a: set<string>, h: Hallazgo): Option<set<string>> {
    match h
    case AtencionEmpieza(c, _, _) => if c in a then None else Some(a + {c})
    case AtencionVuelve(c) => if c !in a then None else Some(a - {c})
    case _ => Some(a)
  }

  function RepiteAtencion(a: set<string>, log: seq<Hallazgo>): Option<set<string>> {
    if log == [] then Some(a)
    else match RepiteAtencion(a, log[..|log| - 1])
      case None => None
      case Some(b) => SigueAtencion(b, log[|log| - 1])
  }

  // ----- replaying the privacy settings -----

  /** The last value the findings gave a setting. */
  function UltimoValor(log: seq<Hallazgo>, k: string): Option<string> {
    if log == [] then None
    else
      var h := log[|log| - 1];
      if h.PrivacidadCambio? && h.ajuste == k then Some(h.despues) else UltimoValor(log[..|log| - 1], k)
  }

  /** Each change of a setting starts where its last one ended, and changes something. */
  predicate Enlazados(log: seq<Hallazgo>) {
    log == [] ||
    (var before, h := log[..|log| - 1], log[|log| - 1];
     Enlazados(before)
     && (h.PrivacidadCambio? ==> h.antes != h.despues)
     && (h.PrivacidadCambio? && UltimoValor(before, h.ajuste).Some? ==> UltimoValor(before, h.ajuste).value == h.antes))
  }

  // ----- replaying the protection facts -----

  function UltimoHecho(log: seq<Hallazgo>, k: string): Option<bool> {
    if log == [] then None
    else
      var h := log[|log| - 1];
      if (h.HechoCambio? || h.HechoNuevo?) && h.hecho == k then Some(h.activo) else UltimoHecho(log[..|log| - 1], k)
  }

  // ----- counting notices -----

  function EsAviso(h: Hallazgo): bool {
    match h
    case UsoEmpieza(_, _, a, _) => a
    case UsoBreve(_, _, _, a) => a
    case PrivacidadCambio(_, _, _, a) => a
    case AtencionEmpieza(_, _, a) => a
    case ArranqueNuevo(_, a) => a
    case ArranqueVarios(_) => true
    case _ => false
  }

  function Avisos(log: seq<Hallazgo>): nat {
    if log == [] then 0 else Avisos(log[..|log| - 1]) + (if EsAviso(log[|log| - 1]) then 1 else 0)
  }

  // ----- the protection as read -----

  datatype Producto = Producto(nombre: string, activo: bool)

  datatype Defender = Defender(antivirus: bool, tiempoReal: bool, manipulacion: bool, alMando: bool)

  datatype Proteccion = Proteccion(antivirus: Option<seq<Producto>>, otros: Option<seq<Producto>>,
                                   defender: Option<Defender>, perfiles: Option<seq<(string, bool)>>)

  predicate AlgunoActivo(l: seq<Producto>) { exists i | 0 <= i < |l| :: l[i].activo }

  predicate SinTiempoReal(p: Proteccion) {
    p.defender.Some? && p.defender.value.alMando && !p.defender.value.tiempoReal
  }

  predicate HayAntivirus(p: Proteccion) {
    if p.antivirus.Some? && p.antivirus.value != [] then AlgunoActivo(p.antivirus.value)
    else p.defender.None? || (p.defender.value.antivirus && p.defender.value.tiempoReal)
  }

  /** The conditions that deserve attention now. */
  function AtencionProteccion(p: Proteccion): set<string> {
    (if SinTiempoReal(p) then {"tiempo_real"} else {})
    + (if !HayAntivirus(p) && !SinTiempoReal(p) then {"sin_antivirus"} else {})
    + (if p.perfiles.None? || (p.otros.Some? && AlgunoActivo(p.otros.value)) then {}
       else set i | 0 <= i < |p.perfiles.value| && !p.perfiles.value[i].1 :: "cortafuegos:" + p.perfiles.value[i].0)
  }

  /** What each condition says: no real time; no antivirus on, and not for that; a profile off and no other firewall. */
  lemma AttentionSaysWhatIsOff(p: Proteccion, perfil: string)
    ensures "tiempo_real" in AtencionProteccion(p) <==> SinTiempoReal(p)
    ensures "sin_antivirus" in AtencionProteccion(p) <==> !HayAntivirus(p) && !SinTiempoReal(p)
    ensures "cortafuegos:" + perfil in AtencionProteccion(p)
      <==> p.perfiles.Some? && (perfil, false) in p.perfiles.value && !(p.otros.Some? && AlgunoActivo(p.otros.value))
  {
    KindsApart();
    if p.perfiles.Some? && !(p.otros.Some? && AlgunoActivo(p.otros.value)) {
      forall i | 0 <= i < |p.perfiles.value| && "cortafuegos:" + p.perfiles.value[i].0 == "cortafuegos:" + perfil
        ensures p.perfiles.value[i].0 == perfil
      {
        assert ("cortafuegos:" + p.perfiles.value[i].0)[12..] == ("cortafuegos:" + perfil)[12..];
      }
      if (perfil, false) in p.perfiles.value {
        var i :| 0 <= i < |p.perfiles.value| && p.perfiles.value[i] == (perfil, false);
        assert !p.perfiles.value[i].1;
      }
    }
  }

  /** One cause is not told twice, and an antivirus standing aside for one that is on is not «off». */
  lemma AttentionIsNotDoubled(p: Proteccion)
    ensures !("tiempo_real" in AtencionProteccion(p) && "sin_antivirus" in AtencionProteccion(p))
    ensures p.antivirus.Some? && AlgunoActivo(p.antivirus.value) && (p.defender.Some? ==> !p.defender.value.alMando)
            ==> "tiempo_real" !in AtencionProteccion(p) && "sin_antivirus" !in AtencionProteccion(p)
  {
    AttentionSaysWhatIsOff(p, "");
  }

  lemma KindsApart()
    ensures forall s: string :: ("cortafuegos:" + s)[0] == 'c'
    ensures forall s: string :: ("av:" + s)[0] == 'a' && ("fw:" + s)[0] == 'f' && ("perfil:" + s)[0] == 'p'
    ensures "tiempo_real"[0] == 't' && "sin_antivirus"[0] == 's'
    ensures "defender_tiempo_real"[0] == 'd' && "defender_manipulacion"[0] == 'd'
  {
  }

  function HechosDe(l: seq<Producto>, prefijo: string, h: map<string, bool>): map<string, bool> {
    if l == [] then h else HechosDe(l[1..], prefijo, h[prefijo + l[0].nombre := l[0].activo])
  }

  function HechosDePerfiles(l: seq<(string, bool)>, h: map<string, bool>): map<string, bool> {
    if l == [] then h else HechosDePerfiles(l[1..], h["perfil:" + l[0].0 := l[0].1])
  }

  function HechosAntivirus(p: Proteccion): map<string, bool> {
    if p.antivirus.Some? then HechosDe(p.antivirus.value, "av:", map[]) else map[]
  }

  function HechosProductos(p: Proteccion): map<string, bool> {
    if p.otros.Some? then HechosDe(p.otros.value, "fw:", HechosAntivirus(p)) else HechosAntivirus(p)
  }

  /** The plain facts: each product and profile, on or off. */
  function HechosProteccion(p: Proteccion): map<string, bool> {
    var h2 := HechosProductos(p);
    var h3 := if p.defender.Some? && p.defender.value.alMando
              then h2["defender_tiempo_real" := p.defender.value.tiempoReal]
                     ["defender_manipulacion" := p.defender.value.manipulacion]
              else h2;
    if p.perfiles.Some? then HechosDePerfiles(p.perfiles.value, h3) else h3
  }

  /** The last one with its name. */
  predicate UltimoConNombre(l: seq<Producto>, i: int) {
    0 <= i < |l| && forall j | i < j < |l| :: l[j].nombre != l[i].nombre
  }

  lemma SameName(prefijo: string, a: string, b: string)
    ensures prefijo + a == prefijo + b <==> a == b
  {
    assert (prefijo + a)[|prefijo|..] == a && (prefijo + b)[|prefijo|..] == b;
  }

  lemma {:induction false} FactUntouched(l: seq<Producto>, prefijo: string, h: map<string, bool>, x: string)
    requires forall i | 0 <= i < |l| :: prefijo + l[i].nombre != x
    ensures (x in HechosDe(l, prefijo, h) <==> x in h) && (x in h ==> HechosDe(l, prefijo, h)[x] == h[x])
  {
    if l != [] {
      assert forall i | 0 <= i < |l| - 1 :: l[1..][i] == l[i + 1];
      FactUntouched(l[1..], prefijo, h[prefijo + l[0].nombre := l[0].activo], x);
    }
  }

  /** Of several with one name the last one is the fact. */
  lemma {:induction false} FactOf(l: seq<Producto>, prefijo: string, h: map<string, bool>, i: int)
    requires UltimoConNombre(l, i)
    ensures var k := prefijo + l[i].nombre; k in HechosDe(l, prefijo, h) && HechosDe(l, prefijo, h)[k] == l[i].activo
  {
    var g := h[prefijo + l[0].nombre := l[0].activo];
    if i > 0 {
      assert UltimoConNombre(l[1..], i - 1) && l[1..][i - 1] == l[i];
      FactOf(l[1..], prefijo, g, i - 1);
    } else {
      forall j | 0 <= j < |l[1..]| ensures prefijo + l[1..][j].nombre != prefijo + l[0].nombre {
        assert l[1..][j] == l[j + 1];
        SameName(prefijo, l[j + 1].nombre, l[0].nombre);
      }
      FactUntouched(l[1..], prefijo, g, prefijo + l[0].nombre);
    }
  }

  lemma {:induction false} ProfileFacts(l: seq<(string, bool)>, h: map<string, bool>, x: string)
    requires x != "" && x[0] != 'p'
    ensures (x in HechosDePerfiles(l, h) <==> x in h) && (x in h ==> HechosDePerfiles(l, h)[x] == h[x])
  {
    if l != [] {
      assert ("perfil:" + l[0].0)[0] == 'p';
      ProfileFacts(l[1..], h["perfil:" + l[0].0 := l[0].1], x);
    }
  }

  /** A product's fact is not touched by what is read after it. */
  lemma FactPasses(p: Proteccion, k: string)
    requires k != "" && (k[0] == 'a' || k[0] == 'f')
    ensures var h, g := HechosProteccion(p), HechosProductos(p); (k in h <==> k in g) && (k in g ==> h[k] == g[k])
    ensures var g, f := HechosProductos(p), HechosAntivirus(p);
            k[0] == 'a' ==> (k in g <==> k in f) && (k in f ==> g[k] == f[k])
  {
    KindsApart();
    if p.perfiles.Some? {
      var h2 := HechosProductos(p);
      ProfileFacts(p.perfiles.value,
        if p.defender.Some? && p.defender.value.alMando
        then h2["defender_tiempo_real" := p.defender.value.tiempoReal]
                ["defender_manipulacion" := p.defender.value.manipulacion]
        else h2, k);
    }
    if p.otros.Some? && k[0] == 'a' { FactUntouched(p.otros.value, "fw:", HechosAntivirus(p), k); }
  }

  /** Each antivirus and firewall is a fact with its own last state, whatever names the others have. */
  lemma FactsAreTheProducts(p: Proteccion, i: int)
    ensures var h := HechosProteccion(p);
      p.antivirus.Some? && UltimoConNombre(p.antivirus.value, i) ==>
        var k := "av:" + p.antivirus.value[i].nombre; k in h && h[k] == p.antivirus.value[i].activo
    ensures var h := HechosProteccion(p);
      p.otros.Some? && UltimoConNombre(p.otros.value, i) ==>
        var k := "fw:" + p.otros.value[i].nombre; k in h && h[k] == p.otros.value[i].activo
  {
    KindsApart();
    if p.antivirus.Some? && UltimoConNombre(p.antivirus.value, i) {
      FactPasses(p, "av:" + p.antivirus.value[i].nombre);
      FactOf(p.antivirus.value, "av:", map[], i);
    }
    if p.otros.Some? && UltimoConNombre(p.otros.value, i) {
      FactPasses(p, "fw:" + p.otros.value[i].nombre);
      FactOf(p.otros.value, "fw:", HechosAntivirus(p), i);
    }
  }
}
