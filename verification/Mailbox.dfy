/** What waits for the page of Comunicaciones (crates/cli/src/comunicaciones_cmd.rs): the numbered box. */
module Mailbox {
  import opened Basics

  const MAX_RESPUESTA: nat := 24 * 1024 * 1024
  const MAX_BUZON: nat := 64 * 1024 * 1024
  const MAX_MENSAJES: nat := 20_000

  /** A message's text, one character a byte. */
  type Texto = string

  datatype Mensaje = Mensaje(n: nat, texto: Texto)

  /** The box: `aviso` is the number that wakes whoever waits. */
  datatype Caja = Caja(siguiente: nat, cola: seq<Mensaje>, bytes: int, pagina: Option<string>, inicio: nat, aviso: nat)

  const VACIA: Caja := Caja(0, [], 0, None, 0, 0)

  /** What a request finds: another page took over, nothing yet after a number, or an answer. */
  datatype Recogida = Otra | Nada(desde: nat) | Lista(sig: nat, m: seq<Mensaje>)

  function Bytes(cola: seq<Mensaje>): nat {
    if cola == [] then 0 else |cola[0].texto| + Bytes(cola[1..])
  }

  function Numerados(n: nat, textos: seq<Texto>): (r: seq<Mensaje>)
    ensures |r| == |textos|
  {
    seq(|textos|, i requires 0 <= i < |textos| => Mensaje(n + i, textos[i]))
  }

  /** The number at the front of the queue, or the next one when it is empty. */
  function Primero(b: Caja): int { b.siguiente - |b.cola| }

  /** Consecutive numbers up to the next one, and the bytes counted. */
  predicate BienFormada(b: Caja) {
    && |b.cola| <= b.siguiente
    && (forall i | 0 <= i < |b.cola| :: b.cola[i].n == Primero(b) + i)
    && b.bytes == Bytes(b.cola)
    && b.inicio <= Primero(b)
    && b.aviso == b.siguiente
  }

  predicate SePasa(b: Caja) { (b.bytes > MAX_BUZON || |b.cola| > MAX_MENSAJES) && |b.cola| > 1 }

  function SinPrimero(b: Caja): Caja
    requires b.cola != []
  {
    b.(cola := b.cola[1..], bytes := Max(b.bytes - |b.cola[0].texto|, 0))
  }

  /** The oldest go while the box is over its caps, except the last one. */
  function Recortada(b: Caja): Caja
    decreases |b.cola|
  {
    if SePasa(b) then Recortada(SinPrimero(b)) else b
  }

  function Llena(b: Caja, textos: seq<Texto>): Caja {
    b.(cola := b.cola + Numerados(b.siguiente, textos), siguiente := b.siguiente + |textos|,
       bytes := b.bytes + Bytes(Numerados(b.siguiente, textos)))
  }

  /** Messages for the page, in order. */
  function Publicada(b: Caja, textos: seq<Texto>): Caja {
    if textos == [] then b else var c := Recortada(Llena(b, textos)); c.(aviso := c.siguiente)
  }

  /** `pagina` said it is ready: from now on it is the one, and what waited is gone. */
  function Tomada(b: Caja, pagina: string): Caja {
    b.(pagina := Some(pagina), inicio := b.siguiente, cola := [], bytes := 0, aviso := b.siguiente)
  }

  /** Requests taken: of the page there is, of any while there is none, and of one that is ready. */
  predicate Aceptada(b: Caja, p: string, listo: bool) {
    b.pagina == Some(p) || b.pagina.None? || listo
  }

  function Efectivo(b: Caja, desde: nat): int { Min(Max(desde, b.inicio), b.siguiente) }

  function Leida(b: Caja, efectivo: int): Caja
    decreases |b.cola|
  {
    if b.cola != [] && b.cola[0].n < efectivo then Leida(SinPrimero(b), efectivo) else b
  }

  /** How many messages one answer takes: always one, then while they fit. */
  function Caben(cola: seq<Mensaje>, k: nat, tam: nat): nat
    requires k <= |cola|
    decreases |cola| - k
  {
    if k == |cola| || (k > 0 && tam + |cola[k].texto| > MAX_RESPUESTA) then k
    else Caben(cola, k + 1, tam + |cola[k].texto|)
  }

  function Respuesta(b: Caja): Recogida {
    if b.cola == [] then Nada(b.siguiente)
    else
      var k := Caben(b.cola, 0, 0);
      CabenBetween(b.cola, 0, 0);
      Lista(b.cola[k - 1].n + 1, b.cola[..k])
  }

  lemma {:induction false} CabenBetween(cola: seq<Mensaje>, k: nat, tam: nat)
    requires k <= |cola|
    ensures k <= Caben(cola, k, tam) <= |cola|
    ensures k == 0 && cola != [] ==> Caben(cola, k, tam) >= 1
    decreases |cola| - k
  {
    if !(k == |cola| || (k > 0 && tam + |cola[k].texto| > MAX_RESPUESTA)) {
      CabenBetween(cola, k + 1, tam + |cola[k].texto|);
    }
  }

  /** What `pagina` has to read from `desde` on; what it read before is let go. */
  function Recogido(b: Caja, pagina: string, desde: nat): (Caja, Recogida) {
    if b.pagina != Some(pagina) then (b, Otra)
    else var c := Leida(b, Efectivo(b, desde)); (c, Respuesta(c))
  }

  // ----- what each operation keeps -----

  lemma {:induction false} BytesConcat(a: seq<Mensaje>, b: seq<Mensaje>)
    ensures Bytes(a + b) == Bytes(a) + Bytes(b)
  {
    if a == [] { assert a + b == b; } else { assert (a + b)[1..] == a[1..] + b; BytesConcat(a[1..], b); }
  }

  lemma SinPrimeroKeeps(b: Caja)
    requires BienFormada(b) && b.cola != []
    ensures BienFormada(SinPrimero(b)) && Primero(SinPrimero(b)) == Primero(b) + 1
  {
  }

  lemma {:induction false} RecortadaKeeps(b: Caja)
    requires BienFormada(b)
    ensures var c := Recortada(b);
            BienFormada(c) && !SePasa(c) && Primero(b) <= Primero(c) && c == b.(cola := c.cola, bytes := c.bytes)
            && c.cola == b.cola[Primero(c) - Primero(b)..]
    ensures b.cola != [] ==> Recortada(b).cola != []
    ensures !SePasa(b) ==> Recortada(b) == b
    decreases |b.cola|
  {
    if SePasa(b) {
      SinPrimeroKeeps(b);
      RecortadaKeeps(SinPrimero(b));
    }
  }

  lemma {:induction false} LeidaKeeps(b: Caja, efectivo: int)
    requires BienFormada(b) && efectivo <= b.siguiente
    ensures var c := Leida(b, efectivo);
            BienFormada(c) && Primero(c) == Max(Primero(b), efectivo) && c == b.(cola := c.cola, bytes := c.bytes)
            && c.cola == b.cola[Primero(c) - Primero(b)..]
    decreases |b.cola|
  {
    if b.cola != [] && b.cola[0].n < efectivo {
      SinPrimeroKeeps(b);
      LeidaKeeps(SinPrimero(b), efectivo);
    }
  }

  lemma LlenaKeeps(b: Caja, textos: seq<Texto>)
    requires BienFormada(b)
    ensures BienFormada(Llena(b, textos).(aviso := b.siguiente + |textos|)) && Primero(Llena(b, textos)) == Primero(b)
  {
    BytesConcat(b.cola, Numerados(b.siguiente, textos));
  }

  /** Trimming looks at the queue alone. */
  lemma {:induction false} RecortadaIgnoresAviso(b: Caja, a: nat)
    ensures Recortada(b.(aviso := a)) == Recortada(b).(aviso := a)
    decreases |b.cola|
  {
    if SePasa(b) { RecortadaIgnoresAviso(SinPrimero(b), a); }
  }

  // ----- the box itself -----

  class Buzon {
    var siguiente: nat
    var cola: seq<Mensaje>
    var bytes: int
    var pagina: Option<string>
    var inicio: nat
    var aviso: nat

    function State(): Caja
      reads this
    {
      Caja(siguiente, cola, bytes, pagina, inicio, aviso)
    }

    constructor ()
      ensures State() == VACIA
    {
      siguiente, cola, bytes, pagina, inicio, aviso := 0, [], 0, None, 0, 0;
    }

    method Acepta(p: string, listo: bool) returns (si: bool)
      ensures si <==> Aceptada(State(), p, listo)
    {
      if pagina == Some(p) { return true; }
      si := pagina.None? || listo;
    }

    method NuevaPagina(p: string)
      modifies this
      ensures State() == Tomada(old(State()), p)
    {
      pagina := Some(p);
      inicio := siguiente;
      cola := [];
      bytes := 0;
      aviso := siguiente;
    }

    method Publica(mensajes: seq<Texto>)
      modifies this
      ensures State() == Publicada(old(State()), mensajes)
    {
      if mensajes == [] { return; }
      ghost var b := State();
      for i := 0 to |mensajes|
        invariant State() == Llena(b, mensajes[..i])
      {
        assert Numerados(b.siguiente, mensajes[..i + 1])
            == Numerados(b.siguiente, mensajes[..i]) + [Mensaje(b.siguiente + i, mensajes[i])];
        BytesConcat(Numerados(b.siguiente, mensajes[..i]), [Mensaje(b.siguiente + i, mensajes[i])]);
        bytes := bytes + |mensajes[i]|;
        var n := siguiente;
        cola := cola + [Mensaje(n, mensajes[i])];
        siguiente := siguiente + 1;
      }
      assert mensajes[..|mensajes|] == mensajes;
      while (bytes > MAX_BUZON || |cola| > MAX_MENSAJES) && |cola| > 1
        invariant Recortada(State()) == Recortada(Llena(b, mensajes))
        decreases |cola|
      {
        bytes := Max(bytes - |cola[0].texto|, 0);
        cola := cola[1..];
      }
      aviso := siguiente;
    }

    method Recoge(p: string, desde: nat) returns (r: Recogida)
      modifies this
      ensures (State(), r) == Recogido(old(State()), p, desde)
    {
      if pagina != Some(p) { return Otra; }
      var efectivo := Min(Max(desde, inicio), siguiente);
      ghost var b := State();
      while cola != [] && cola[0].n < efectivo
        invariant Leida(State(), efectivo) == Leida(b, efectivo)
        decreases |cola|
      {
        bytes := Max(bytes - |cola[0].texto|, 0);
        cola := cola[1..];
      }
      if cola == [] { return Nada(siguiente); }
      var partes: seq<Mensaje> := [];
      var tam: nat := 0;
      var sig := efectivo;
      var k := 0;
      while k < |cola|
        invariant k <= |cola| && partes == cola[..k] && Caben(cola, k, tam) == Caben(cola, 0, 0)
        invariant k > 0 ==> sig == cola[k - 1].n + 1
        invariant State() == Leida(b, efectivo)
      {
        if partes != [] && tam + |cola[k].texto| > MAX_RESPUESTA {
          break;
        }
        partes := partes + [cola[k]];
        tam := tam + |cola[k].texto|;
        sig := cola[k].n + 1;
        k := k + 1;
      }
      CabenBetween(cola, 0, 0);
      r := Lista(sig, partes);
    }
  }
}
