/** One page and the box as a protocol: publications, takeovers, questions, and answers that may be lost. */
module Delivery {
  import opened Basics
  import opened Mailbox

  /**
   * The box with everything ever published, and one page: the number it asks from, what it received since
   * it last said it was ready, where that began and, once replaced, where the takeover came.
   */
  datatype Sistema = Sistema(
    caja: Caja, historia: seq<Texto>, perdidos: set<int>,
    yo: string, desde: nat, recibidos: seq<Mensaje>, comienzo: Option<nat>, relevo: Option<nat>,
    enVuelo: Option<Recogida>)

  datatype Paso =
    | Publica(textos: seq<Texto>)
    | Listo(pagina: string)
    | Pide
    | Llega
    | SePierde
    /** A request left behind: this page's from an older number, or another page's; its answer goes nowhere. */
    | Rezagada(pagina: string, d: nat)

  function Inicial(yo: string): Sistema { Sistema(VACIA, [], {}, yo, 0, [], None, None, None) }

  /** The numbers from `a` up to `b`. */
  function Numeros(a: int, b: int): (r: set<int>)
    ensures forall k :: k in r <==> a <= k < b
    decreases b - a
  {
    if a >= b then {} else {a} + Numeros(a + 1, b)
  }

  function Da(s: Sistema, p: Paso): Sistema {
    match p
    case Publica(textos) =>
      var c := Publicada(s.caja, textos);
      s.(caja := c, historia := s.historia + textos, perdidos := s.perdidos + Numeros(Primero(s.caja), Primero(c)))
    case Listo(pagina) =>
      var c := Tomada(s.caja, pagina);
      if pagina == s.yo then s.(caja := c, recibidos := [], comienzo := Some(c.inicio), relevo := None, enVuelo := None)
      else s.(caja := c, relevo := if s.comienzo.Some? && s.relevo.None? then Some(c.inicio) else s.relevo)
    case Pide =>
      if s.enVuelo.Some? then s
      else var (c, r) := Recogido(s.caja, s.yo, s.desde); s.(caja := c, enVuelo := Some(r))
    case Llega =>
      (match s.enVuelo
       case Some(Lista(sig, m)) => s.(recibidos := s.recibidos + m, desde := sig, enVuelo := None)
       case Some(Nada(n)) => s.(desde := if n == 0 then s.desde else n, enVuelo := None)
       case _ => s.(enVuelo := None))
    case SePierde => s.(enVuelo := None)
    case Rezagada(pagina, d) =>
      if pagina == s.yo && d > s.desde then s else s.(caja := Recogido(s.caja, pagina, d).0)
  }

  function Corre(s: Sistema, pasos: seq<Paso>): Sistema
    decreases pasos
  {
    if pasos == [] then s else Corre(Da(s, pasos[0]), pasos[1..])
  }

  // ----- the invariant -----

  /** Messages in increasing numbers, each one what was published under its number. */
  predicate Fieles(m: seq<Mensaje>, historia: seq<Texto>) {
    && (forall i | 0 <= i < |m| :: m[i].n < |historia| && m[i].texto == historia[m[i].n])
    && (forall i, j | 0 <= i < j < |m| :: m[i].n < m[j].n)
  }

  predicate Entre(m: seq<Mensaje>, lo: int, hi: int) {
    forall i | 0 <= i < |m| :: lo <= m[i].n < hi
  }

  /** Number `k` is among `m` or the caps evicted it. */
  predicate Cuenta(k: int, m: seq<Mensaje>, perdidos: set<int>) {
    k in perdidos || exists i | 0 <= i < |m| :: m[i].n == k
  }

  predicate SinHuecos(lo: int, hi: int, m: seq<Mensaje>, perdidos: set<int>) {
    forall k | lo <= k < hi :: Cuenta(k, m, perdidos)
  }

  /** Where the page's next message would be. */
  function Leido(s: Sistema): int
    requires s.comienzo.Some?
  {
    Max(s.desde, s.comienzo.value)
  }

  predicate EnVueloBien(s: Sistema) {
    s.comienzo.Some? ==>
      match s.enVuelo
      case Some(Lista(sig, m)) =>
        && m != [] && Fieles(m, s.historia) && Entre(m, Leido(s), sig) && Leido(s) < sig <= s.caja.siguiente
        && SinHuecos(Leido(s), sig, m, s.perdidos)
        && (s.relevo.Some? ==> sig <= s.relevo.value)
      case Some(Nada(n)) =>
        && Leido(s) <= n <= s.caja.siguiente && SinHuecos(Leido(s), n, [], s.perdidos)
        && (s.relevo.Some? ==> n <= s.relevo.value)
      case _ => true
  }

  predicate CajaBien(s: Sistema) {
    && BienFormada(s.caja) && |s.historia| == s.caja.siguiente
    && (forall i | 0 <= i < |s.caja.cola| :: s.caja.cola[i].texto == s.historia[Primero(s.caja) + i])
    && s.desde <= s.caja.siguiente
  }

  predicate LectorBien(s: Sistema) {
    s.comienzo.Some? ==>
      && s.comienzo.value <= s.caja.siguiente
      && Fieles(s.recibidos, s.historia) && Entre(s.recibidos, s.comienzo.value, Leido(s))
      && SinHuecos(s.comienzo.value, Leido(s), s.recibidos, s.perdidos)
      && (s.relevo.Some? ==> Leido(s) <= s.relevo.value <= s.caja.siguiente && s.caja.pagina != Some(s.yo))
      && (s.relevo.None? ==> s.caja.pagina == Some(s.yo) && s.caja.inicio == s.comienzo.value)
      && (s.relevo.None? ==> SinHuecos(Leido(s), Primero(s.caja), [], s.perdidos))
  }

  /** Before it first says it is ready the page has nothing. */
  predicate AunNada(s: Sistema) {
    s.comienzo.None? ==>
      s.relevo.None? && s.caja.pagina != Some(s.yo) && s.recibidos == []
          && (s.enVuelo == None || s.enVuelo == Some(Otra))
  }

  predicate Inv(s: Sistema) {
    CajaBien(s) && LectorBien(s) && EnVueloBien(s) && AunNada(s)
  }

  lemma GapsJoin(lo: int, mid: int, hi: int, a: seq<Mensaje>, b: seq<Mensaje>, p: set<int>)
    requires SinHuecos(lo, mid, a, p) && SinHuecos(mid, hi, b, p)
    ensures SinHuecos(lo, hi, a + b, p)
  {
    forall k | lo <= k < hi ensures Cuenta(k, a + b, p) {
      if k < mid {
        assert Cuenta(k, a, p);
        if i :| 0 <= i < |a| && a[i].n == k { assert (a + b)[i].n == k; }
      } else {
        assert Cuenta(k, b, p);
        if i :| 0 <= i < |b| && b[i].n == k { assert (a + b)[|a| + i].n == k; }
      }
    }
  }

  lemma GapsGrow(lo: int, hi: int, m: seq<Mensaje>, p: set<int>, q: set<int>)
    requires SinHuecos(lo, hi, m, p) && p <= q
    ensures SinHuecos(lo, hi, m, q)
  {
    forall k | lo <= k < hi ensures Cuenta(k, m, q) {
      assert Cuenta(k, m, p);
    }
  }

  /** The box after a publication: what it holds, and that only the caps took anything out. */
  lemma PublicadaKeeps(b: Caja, historia: seq<Texto>, textos: seq<Texto>)
    requires BienFormada(b) && |historia| == b.siguiente
    requires forall i | 0 <= i < |b.cola| :: b.cola[i].texto == historia[Primero(b) + i]
    ensures var c := Publicada(b, textos);
      && BienFormada(c) && c.siguiente == b.siguiente + |textos| && Primero(b) <= Primero(c)
      && c.pagina == b.pagina && c.inicio == b.inicio
      && forall i | 0 <= i < |c.cola| :: c.cola[i].texto == (historia + textos)[Primero(c) + i]
  {
    if textos != [] {
      var l := Llena(b, textos);
      LlenaHolds(b, historia, textos);
      RecortadaIgnoresAviso(l, l.siguiente);
      TrimHolds(l.(aviso := l.siguiente), historia + textos);
    }
  }

  lemma LlenaHolds(b: Caja, historia: seq<Texto>, textos: seq<Texto>)
    requires BienFormada(b) && |historia| == b.siguiente
    requires forall i | 0 <= i < |b.cola| :: b.cola[i].texto == historia[Primero(b) + i]
    ensures var l := Llena(b, textos);
      && BienFormada(l.(aviso := l.siguiente)) && l.siguiente == |historia + textos| && Primero(l) == Primero(b)
      && l.pagina == b.pagina && l.inicio == b.inicio
      && forall i | 0 <= i < |l.cola| :: l.cola[i].texto == (historia + textos)[Primero(l) + i]
  {
    LlenaKeeps(b, textos);
  }

  lemma TrimHolds(l: Caja, historia: seq<Texto>)
    requires BienFormada(l) && l.siguiente == |historia|
    requires forall i | 0 <= i < |l.cola| :: l.cola[i].texto == historia[Primero(l) + i]
    ensures var c := Recortada(l);
      && BienFormada(c) && c.siguiente == l.siguiente && Primero(l) <= Primero(c)
      && c.pagina == l.pagina && c.inicio == l.inicio
      && forall i | 0 <= i < |c.cola| :: c.cola[i].texto == historia[Primero(c) + i]
  {
    RecortadaKeeps(l);
    SuffixOfHistory(l.cola, Recortada(l).cola, historia, Primero(l), Primero(Recortada(l)));
  }

  lemma SuffixOfHistory(antes: seq<Mensaje>, cola: seq<Mensaje>, historia: seq<Texto>, p: nat, q: nat)
    requires p <= q && |antes| == |cola| + (q - p) && q + |cola| <= |historia|
    requires forall i | 0 <= i < |antes| :: antes[i].texto == historia[p + i]
    requires cola == antes[q - p..]
    ensures forall i | 0 <= i < |cola| :: cola[i].texto == historia[q + i]
  {
    assert forall i | 0 <= i < |cola| :: cola[i] == antes[q - p + i];
  }

  lemma PublicaKeeps(s: Sistema, textos: seq<Texto>)
    requires Inv(s)
    ensures Inv(Da(s, Publica(textos)))
  {
    PublicadaKeeps(s.caja, s.historia, textos);
    var t := Da(s, Publica(textos));
    if s.comienzo.Some? {
      GapsGrow(s.comienzo.value, Leido(s), s.recibidos, s.perdidos, t.perdidos);
      if s.relevo.None? {
        forall k | Leido(s) <= k < Primero(t.caja) ensures Cuenta(k, [], t.perdidos) {
          if k < Primero(s.caja) { assert Cuenta(k, [], s.perdidos); }
        }
      }
      match s.enVuelo
      case Some(Lista(sig, m)) => GapsGrow(Leido(s), sig, m, s.perdidos, t.perdidos);
      case Some(Nada(n)) => GapsGrow(Leido(s), n, [], s.perdidos, t.perdidos);
      case _ =>
    }
  }

  lemma ListoKeeps(s: Sistema, pagina: string)
    requires Inv(s)
    ensures Inv(Da(s, Listo(pagina)))
  {
  }

  lemma RecogidoKeeps(s: Sistema, pagina: string, d: nat)
    requires Inv(s) && (pagina == s.yo ==> d <= s.desde)
    ensures Inv(s.(caja := Recogido(s.caja, pagina, d).0))
  {
    if s.caja.pagina == Some(pagina) {
      LeidaKeeps(s.caja, Efectivo(s.caja, d));
    }
  }

  /** What an answer to the current page holds. */
  predicate RespuestaBien(s: Sistema, r: Recogida)
    requires s.comienzo.Some?
  {
    match r
    case Otra => false
    case Nada(n) => n == s.caja.siguiente && SinHuecos(Leido(s), n, [], s.perdidos)
    case Lista(sig, m) =>
      && m != [] && Fieles(m, s.historia) && Entre(m, Leido(s), sig) && Leido(s) < sig <= s.caja.siguiente
      && SinHuecos(Leido(s), sig, m, s.perdidos)
  }

  lemma AnswerHolds(s: Sistema, c: Caja)
    requires Inv(s) && s.comienzo.Some? && s.relevo.None? && c == Leida(s.caja, Leido(s))
    ensures RespuestaBien(s, Respuesta(c))
  {
    LeidaKeeps(s.caja, Leido(s));
    if c.cola != [] {
      CabenBetween(c.cola, 0, 0);
      AnswerIsGood(s, c, Caben(c.cola, 0, 0));
    }
  }

  lemma AnswerIsGood(s: Sistema, c: Caja, k: nat)
    requires Inv(s) && s.comienzo.Some? && s.relevo.None? && BienFormada(c) && 0 < k <= |c.cola|
    requires Primero(c) == Max(Primero(s.caja), Leido(s)) && c.siguiente == s.caja.siguiente
    requires Primero(c) - Primero(s.caja) <= |s.caja.cola| && c.cola == s.caja.cola[Primero(c) - Primero(s.caja)..]
    ensures RespuestaBien(s, Lista(c.cola[k - 1].n + 1, c.cola[..k]))
  {
    AnswerHasNoGaps(s, c, k);
    AnswerIsFaithful(s, c, k);
    assert Entre(c.cola[..k], Leido(s), Primero(c) + k);
  }

  lemma AnswerIsFaithful(s: Sistema, c: Caja, k: nat)
    requires Inv(s) && BienFormada(c) && k <= |c.cola| && Primero(s.caja) <= Primero(c)
    requires Primero(c) - Primero(s.caja) <= |s.caja.cola| && c.cola == s.caja.cola[Primero(c) - Primero(s.caja)..]
    ensures Fieles(c.cola[..k], s.historia)
  {
    var m := c.cola[..k];
    forall i | 0 <= i < |m| ensures m[i].n < |s.historia| && m[i].texto == s.historia[m[i].n] {
      assert m[i] == s.caja.cola[Primero(c) - Primero(s.caja) + i];
    }
  }

  lemma AnswerHasNoGaps(s: Sistema, c: Caja, k: nat)
    requires Inv(s) && s.comienzo.Some? && s.relevo.None? && BienFormada(c) && k <= |c.cola|
    requires Primero(c) == Max(Primero(s.caja), Leido(s))
    ensures SinHuecos(Leido(s), Primero(c) + k, c.cola[..k], s.perdidos)
  {
    var m := c.cola[..k];
    forall i | Leido(s) <= i < Primero(c) + k ensures Cuenta(i, m, s.perdidos) {
      if i < Primero(c) { assert Cuenta(i, [], s.perdidos); } else { assert m[i - Primero(c)].n == i; }
    }
  }

  lemma PideKeeps(s: Sistema)
    requires Inv(s)
    ensures Inv(Da(s, Pide))
  {
    RecogidoKeeps(s, s.yo, s.desde);
    if s.enVuelo.None? && s.caja.pagina == Some(s.yo) {
      AnswerHolds(s, Leida(s.caja, Efectivo(s.caja, s.desde)));
    }
  }

  /** Messages that arrive go after the ones there are. */
  lemma FaithfulJoin(a: seq<Mensaje>, b: seq<Mensaje>, historia: seq<Texto>, lo: int, mid: int, hi: int)
    requires Fieles(a, historia) && Fieles(b, historia) && Entre(a, lo, mid) && Entre(b, mid, hi) && lo <= mid <= hi
    ensures Fieles(a + b, historia) && Entre(a + b, lo, hi)
  {
  }

  lemma ListaKeeps(s: Sistema, sig: nat, m: seq<Mensaje>)
    requires Inv(s) && s.comienzo.Some? && s.enVuelo == Some(Lista(sig, m))
    ensures LectorBien(Da(s, Llega)) && Leido(Da(s, Llega)) == sig
  {
    GapsJoin(s.comienzo.value, Leido(s), sig, s.recibidos, m, s.perdidos);
    FaithfulJoin(s.recibidos, m, s.historia, s.comienzo.value, Leido(s), sig);
    var t := Da(s, Llega);
    assert t.recibidos == s.recibidos + m && Leido(t) == sig;
    if s.relevo.None? {
      forall k | sig <= k < Primero(s.caja) ensures Cuenta(k, [], s.perdidos) { assert Leido(s) <= k; }
    }
  }

  lemma NadaKeeps(s: Sistema, n: nat)
    requires Inv(s) && s.comienzo.Some? && s.enVuelo == Some(Nada(n))
    ensures LectorBien(Da(s, Llega)) && Leido(Da(s, Llega)) == n
  {
    GapsJoin(s.comienzo.value, Leido(s), n, s.recibidos, [], s.perdidos);
    assert s.recibidos + [] == s.recibidos;
  }

  lemma LlegaKeeps(s: Sistema)
    requires Inv(s)
    ensures Inv(Da(s, Llega))
  {
    if s.comienzo.Some? {
      match s.enVuelo
      case Some(Lista(sig, m)) => ListaKeeps(s, sig, m);
      case Some(Nada(n)) => NadaKeeps(s, n);
      case _ =>
    }
  }

  /** Every step keeps the invariant. */
  lemma StepKeeps(s: Sistema, p: Paso)
    requires Inv(s)
    ensures Inv(Da(s, p))
  {
    match p
    case Publica(textos) => PublicaKeeps(s, textos);
    case Listo(pagina) => ListoKeeps(s, pagina);
    case Pide => PideKeeps(s);
    case Llega => LlegaKeeps(s);
    case SePierde =>
    case Rezagada(pagina, d) => if !(pagina == s.yo && d > s.desde) { RecogidoKeeps(s, pagina, d); }
  }

  lemma {:induction false} RunKeeps(s: Sistema, pasos: seq<Paso>)
    requires Inv(s)
    ensures Inv(Corre(s, pasos))
    decreases pasos
  {
    if pasos != [] {
      StepKeeps(s, pasos[0]);
      RunKeeps(Da(s, pasos[0]), pasos[1..]);
    }
  }

  /** Nothing is wrong at the start. */
  lemma InicialInv(yo: string)
    ensures Inv(Inicial(yo))
  {
  }

  /**
   * Exactly once and in order, whatever answers are lost: what the page received since it said it was ready
   * is a strictly increasing run of what was published since then, each message as published, and every
   * number before the one it asks from was received or evicted by the caps.
   */
  lemma ExactlyOnceInOrder(yo: string, pasos: seq<Paso>)
    ensures var s := Corre(Inicial(yo), pasos);
      s.comienzo.Some? ==>
        && Fieles(s.recibidos, s.historia)
        && Entre(s.recibidos, s.comienzo.value, Leido(s))
        && SinHuecos(s.comienzo.value, Leido(s), s.recibidos, s.perdidos)
  {
    InicialInv(yo);
    RunKeeps(Inicial(yo), pasos);
  }

  /** A replaced page never gets a message published after the takeover, in this answer or in any other. */
  lemma ReplacedGetsNothingNew(yo: string, pasos: seq<Paso>)
    ensures var s := Corre(Inicial(yo), pasos);
      s.relevo.Some? ==>
        && s.comienzo.Some? && Entre(s.recibidos, s.comienzo.value, s.relevo.value)
        && Recogido(s.caja, yo, s.desde).1 == Otra
  {
    InicialInv(yo);
    RunKeeps(Inicial(yo), pasos);
    SamePage(Inicial(yo), pasos);
  }

  lemma {:induction false} SamePage(s: Sistema, pasos: seq<Paso>)
    ensures Corre(s, pasos).yo == s.yo
    decreases pasos
  {
    if pasos != [] { SamePage(Da(s, pasos[0]), pasos[1..]); }
  }

  /** The last page to say it is ready, if any did. */
  function UltimaLista(pasos: seq<Paso>): Option<string>
    decreases pasos
  {
    if pasos == [] then None
    else
      var u := UltimaLista(pasos[1..]);
      if u.Some? then u else if pasos[0].Listo? then Some(pasos[0].pagina) else None
  }

  lemma {:induction false} LastReadyIsThePage(s: Sistema, pasos: seq<Paso>)
    requires Inv(s)
    ensures Corre(s, pasos).caja.pagina == if UltimaLista(pasos).Some? then UltimaLista(pasos) else s.caja.pagina
    decreases pasos
  {
    if pasos != [] {
      StepKeeps(s, pasos[0]);
      PageOfStep(s, pasos[0]);
      LastReadyIsThePage(Da(s, pasos[0]), pasos[1..]);
    }
  }

  lemma PageOfStep(s: Sistema, p: Paso)
    requires Inv(s)
    ensures Da(s, p).caja.pagina == if p.Listo? then Some(p.pagina) else s.caja.pagina
  {
    match p
    case Publica(textos) => PublicadaKeeps(s.caja, s.historia, textos);
    case Pide => if s.caja.pagina == Some(s.yo) { LeidaKeeps(s.caja, Efectivo(s.caja, s.desde)); }
    case Rezagada(pagina, d) => if s.caja.pagina == Some(pagina) { LeidaKeeps(s.caja, Efectivo(s.caja, d)); }
    case _ =>
  }

  /** After any run, a page not saying it is ready is taken exactly when none has, or it was the last one that did. */
  lemma OnlyTheLastReadyPage(yo: string, pasos: seq<Paso>, p: string)
    ensures Aceptada(Corre(Inicial(yo), pasos).caja, p, false)
       <==> UltimaLista(pasos) == None || UltimaLista(pasos) == Some(p)
  {
    InicialInv(yo);
    LastReadyIsThePage(Inicial(yo), pasos);
  }

  /**
   * A page that is current and asks gets at least one message as soon as one waits for it, starting right
   * where it was: an answer that arrives always moves it on, and with nothing left the rest was evicted.
   */
  lemma AnswersMakeProgress(yo: string, pasos: seq<Paso>)
    ensures var s := Corre(Inicial(yo), pasos);
      s.comienzo.Some? && s.relevo.None? && s.enVuelo.None? ==>
        var r := Recogido(s.caja, yo, s.desde).1;
        RespuestaBien(s, r) && (r.Lista? ==> Da(Da(s, Pide), Llega).desde == r.sig)
  {
    InicialInv(yo);
    RunKeeps(Inicial(yo), pasos);
    SamePage(Inicial(yo), pasos);
    var s := Corre(Inicial(yo), pasos);
    if s.comienzo.Some? && s.relevo.None? && s.enVuelo.None? {
      AnswerHolds(s, Leida(s.caja, Efectivo(s.caja, s.desde)));
    }
  }

  /** Whoever was told there is nothing after `n` is woken exactly when something has been published since. */
  lemma WokenWhenPublished(yo: string, pasos: seq<Paso>, mas: seq<Paso>)
    ensures var s := Corre(Inicial(yo), pasos);
            var t := Corre(s, mas);
            t.caja.aviso > s.caja.siguiente <==> |t.historia| > |s.historia|
  {
    InicialInv(yo);
    RunKeeps(Inicial(yo), pasos);
    RunKeeps(Corre(Inicial(yo), pasos), mas);
  }

  /** Only the caps evict: with few enough bytes and messages nothing is lost. */
  lemma NothingEvictedUnderCaps(b: Caja, textos: seq<Texto>)
    requires BienFormada(b)
    ensures !SePasa(Llena(b, textos)) ==> Primero(Publicada(b, textos)) == Primero(b)
    ensures textos != [] ==> var c := Publicada(b, textos); c.cola != [] && !SePasa(c)
  {
    if textos != [] {
      var l := Llena(b, textos);
      LlenaKeeps(b, textos);
      RecortadaIgnoresAviso(l, l.siguiente);
      RecortadaKeeps(l.(aviso := l.siguiente));
    }
  }
}
