/** Which program asked for a name: the short queue of heard queries (crates/apps/src/ventanas.rs). */
module WhoAsked {
  import opened Basics

  /** How long a heard query may be from the one asked about. */
  const VENTANA_MS: int := 2000
  const MAXIMO: nat := 2048

  datatype Oida = Oida(ts: int, qname: string, proceso: Proceso)

  /** Without its final dots, in ASCII lower case. */
  function Normaliza(q: string): string {
    if q != "" && q[|q| - 1] == '.' then Normaliza(q[..|q| - 1])
    else Minusculas(q)
  }

  /** However a name is written, with final dots or capitals, it is one name; and that form is its own. */
  lemma {:induction false} OneNameHoweverWritten(q: string, dots: string)
    requires forall i | 0 <= i < |dots| :: dots[i] == '.'
    ensures Normaliza(q + dots) == Normaliza(q) && Normaliza(Normaliza(q)) == Normaliza(q)
    ensures forall c | c in Normaliza(q) :: !('A' <= c <= 'Z')
    ensures Normaliza(q) != "" ==> Normaliza(q)[|Normaliza(q)| - 1] != '.'
    decreases |q| + |dots|
  {
    if dots != "" {
      var k := |dots| - 1;
      assert (q + dots)[..|q + dots| - 1] == q + dots[..k];
      OneNameHoweverWritten(q, dots[..k]);
    } else if q != "" && q[|q| - 1] == '.' {
      assert q + dots == q;
      OneNameHoweverWritten(q[..|q| - 1], "");
    } else {
      assert q + dots == q;
    }
  }

  predicate Caducada(o: Oida, ahora: int) { ahora - o.ts > VENTANA_MS * 4 }

  /** What cleaning leaves: the front goes while it is too old or there are too many. */
  function Limpia(cola: seq<Oida>, ahora: int): seq<Oida> {
    if cola != [] && (Caducada(cola[0], ahora) || |cola| > MAXIMO) then Limpia(cola[1..], ahora) else cola
  }

  // ----- the answer, as a definition over any list of heard queries -----

  predicate Casa(o: Oida, q: string, ts: int) {
    o.qname == q && Abs(o.ts - ts) <= VENTANA_MS
  }

  /** `i` is the nearest in time of those that match, the first heard among equals. */
  predicate MasCercana(oidas: seq<Oida>, q: string, ts: int, i: int) {
    && 0 <= i < |oidas| && Casa(oidas[i], q, ts)
    && (forall k | 0 <= k < |oidas| && Casa(oidas[k], q, ts) :: Abs(oidas[i].ts - ts) <= Abs(oidas[k].ts - ts))
    && (forall k | 0 <= k < i && Casa(oidas[k], q, ts) :: Abs(oidas[i].ts - ts) < Abs(oidas[k].ts - ts))
  }

  ghost predicate Responde(oidas: seq<Oida>, q: string, ts: int, r: Option<Proceso>) {
    match r
    case None => forall k | 0 <= k < |oidas| :: !Casa(oidas[k], q, ts)
    case Some(p) => exists i | 0 <= i < |oidas| :: MasCercana(oidas, q, ts, i) && oidas[i].proceso == p
  }

  lemma AnswerIsUnique(oidas: seq<Oida>, q: string, ts: int, r: Option<Proceso>, s: Option<Proceso>)
    requires Responde(oidas, q, ts, r) && Responde(oidas, q, ts, s)
    ensures r == s
  {
    if r.Some? && s.Some? {
      var i :| MasCercana(oidas, q, ts, i) && oidas[i].proceso == r.value;
      var k :| MasCercana(oidas, q, ts, k) && oidas[k].proceso == s.value;
      assert MasCercana(oidas, q, ts, i) && MasCercana(oidas, q, ts, k);
      assert Casa(oidas[i], q, ts);
      assert i == k;
    }
  }

  lemma NearestForgetting(oidas: seq<Oida>, k: nat, q: string, ts: int, i: nat)
    requires k <= i < |oidas| && forall j | 0 <= j < k :: !Casa(oidas[j], q, ts)
    ensures MasCercana(oidas[k..], q, ts, i - k) <==> MasCercana(oidas, q, ts, i)
  {
    assert forall j | k <= j < |oidas| :: oidas[j] == oidas[k..][j - k];
    assert forall j | 0 <= j < |oidas| - k :: oidas[k..][j] == oidas[j + k];
  }

  /** Forgetting heard queries that cannot match changes no answer. */
  lemma ForgettingIsHarmless(oidas: seq<Oida>, k: nat, q: string, ts: int, r: Option<Proceso>)
    requires k <= |oidas| && forall i | 0 <= i < k :: !Casa(oidas[i], q, ts)
    ensures Responde(oidas[k..], q, ts, r) <==> Responde(oidas, q, ts, r)
  {
    if r.Some? {
      if Responde(oidas[k..], q, ts, r) {
        var i :| MasCercana(oidas[k..], q, ts, i) && oidas[k..][i].proceso == r.value;
        assert MasCercana(oidas[k..], q, ts, i);
        NearestForgetting(oidas, k, q, ts, k + i);
      }
      if Responde(oidas, q, ts, r) {
        var i :| MasCercana(oidas, q, ts, i) && oidas[i].proceso == r.value;
        assert MasCercana(oidas, q, ts, i) && Casa(oidas[i], q, ts);
        NearestForgetting(oidas, k, q, ts, i);
      }
    } else {
      forall i | k <= i < |oidas|
        ensures Casa(oidas[i], q, ts) <==> Casa(oidas[k..][i - k], q, ts)
      {
      }
    }
  }

  /** Six seconds is the most a question may be behind the cleaning: with any longer lag the queue forgets an answer. */
  lemma SixSecondsIsSharp(q: string, p: Proceso, lag: int)
    requires lag > 6000
    ensures var oidas := [Oida(0, q, p)];
            var pregunta := VENTANA_MS;
            Responde(Limpia(oidas, pregunta + lag), q, pregunta, None) && Responde(oidas, q, pregunta, Some(p))
  {
    var oidas := [Oida(0, q, p)];
    assert Limpia(oidas, VENTANA_MS + lag) == oidas[1..] == [];
    assert MasCercana(oidas, q, VENTANA_MS, 0);
  }

  /** The walk over the queue, with the best so far and its distance. */
  method Busca(cola: seq<Oida>, q: string, ts: int) returns (r: Option<Proceso>)
    ensures Responde(cola, q, ts, r)
  {
    var mejor: Option<(int, int)> := None;
    for i := 0 to |cola|
      invariant mejor.None? ==> forall k | 0 <= k < i :: !Casa(cola[k], q, ts)
      invariant mejor.Some? ==> MasCercana(cola[..i], q, ts, mejor.value.0)
      invariant mejor.Some? ==> mejor.value.1 == Abs(cola[mejor.value.0].ts - ts)
    {
      assert cola[..i + 1] == cola[..i] + [cola[i]];
      assert forall k | 0 <= k < i :: cola[..i + 1][k] == cola[..i][k];
      if cola[i].qname != q {
        continue;
      }
      var distancia := Abs(cola[i].ts - ts);
      if distancia <= VENTANA_MS && (mejor.None? || distancia < mejor.value.1) {
        mejor := Some((i, distancia));
      }
    }
    assert cola[..|cola|] == cola;
    r := match mejor case None => None case Some((i, _)) => Some(cola[i].proceso);
  }

  // ----- the session -----

  /** The first `n` queries were too old when the queue was last cleaned. */
  predicate VanCaducadas(oidas: seq<Oida>, n: nat, limpiada: Option<int>)
    requires n <= |oidas|
  {
    forall i | 0 <= i < n :: limpiada.Some? && Caducada(oidas[i], limpiada.value)
  }

  /** What went before and what goes now were too old. */
  lemma StillTooOld(oidas: seq<Oida>, cola: seq<Oida>, k: nat, antes: Option<int>, ahora: int, limpiada: int)
    requires |cola| <= |oidas| && cola == oidas[|oidas| - |cola|..] && k <= |cola|
    requires VanCaducadas(oidas, |oidas| - |cola|, antes)
    requires VanCaducadas(cola, k, Some(ahora))
    requires limpiada == if antes.Some? then Max(antes.value, ahora) else ahora
    ensures VanCaducadas(oidas, |oidas| - |cola| + k, Some(limpiada))
  {
    forall i | 0 <= i < |oidas| - |cola| + k ensures Caducada(oidas[i], limpiada) {
      if i >= |oidas| - |cola| { assert oidas[i] == cola[i - (|oidas| - |cola|)]; }
    }
  }

  lemma TooOldNeverMatch(oidas: seq<Oida>, n: nat, limpiada: int, q: string, ts: int)
    requires n <= |oidas| && VanCaducadas(oidas, n, Some(limpiada)) && ts >= limpiada - 6000
    ensures forall i | 0 <= i < n :: !Casa(oidas[i], q, ts)
  {
  }

  /** What is left of the queue answers as everything heard, for a question not too far behind the cleaning. */
  lemma ShortQueueAnswers(oidas: seq<Oida>, cola: seq<Oida>, limpiada: int, q: string, ts: int, r: Option<Proceso>)
    requires |cola| <= |oidas| && cola == oidas[|oidas| - |cola|..]
    requires VanCaducadas(oidas, |oidas| - |cola|, Some(limpiada)) && ts >= limpiada - 6000
    requires Responde(cola, q, ts, r)
    ensures Responde(oidas, q, ts, r)
  {
    TooOldNeverMatch(oidas, |oidas| - |cola|, limpiada, q, ts);
    ForgettingIsHarmless(oidas, |oidas| - |cola|, q, ts, r);
  }

  class Sesion {
    var cola: seq<Oida>
    /** Everything ever heard. */
    ghost var oidas: seq<Oida>
    /** The latest time used to clean the queue. */
    ghost var limpiada: Option<int>
    /** Whether the size cap ever took out a query that was not too old. */
    ghost var topada: bool

    ghost predicate Valid()
      reads this
    {
      && |cola| <= |oidas|
      && cola == oidas[|oidas| - |cola|..]
      && (!topada ==> VanCaducadas(oidas, |oidas| - |cola|, limpiada))
    }

    constructor ()
      ensures Valid() && oidas == [] && limpiada == None && !topada
    {
      cola, oidas, limpiada, topada := [], [], None, false;
    }

    /** Pops the front while it is too old or there are too many; says how many went, and if one was not too old. */
    method Descarta(ahora: int) returns (ghost k: nat, ghost sinCaducar: bool)
      modifies `cola
      ensures k <= |old(cola)| && cola == old(cola)[k..] && cola == Limpia(old(cola), ahora)
      ensures !sinCaducar ==> VanCaducadas(old(cola), k, Some(ahora))
      ensures sinCaducar ==> |old(cola)| > MAXIMO
    {
      k, sinCaducar := 0, false;
      while cola != [] && (Caducada(cola[0], ahora) || |cola| > MAXIMO)
        invariant k <= |old(cola)| && cola == old(cola)[k..]
        invariant Limpia(cola, ahora) == Limpia(old(cola), ahora)
        invariant !sinCaducar ==> VanCaducadas(old(cola), k, Some(ahora))
        invariant sinCaducar ==> |old(cola)| > MAXIMO
        decreases |cola|
      {
        assert cola[0] == old(cola)[k];
        sinCaducar := sinCaducar || !Caducada(cola[0], ahora);
        cola := cola[1..];
        k := k + 1;
      }
    }

    method Limpiar(ahora: int)
      requires Valid()
      modifies this
      ensures Valid() && oidas == old(oidas) && cola == Limpia(old(cola), ahora)
      ensures limpiada == Some(if old(limpiada).Some? then Max(old(limpiada).value, ahora) else ahora)
      ensures topada ==> old(topada) || |old(cola)| > MAXIMO
    {
      ghost var k, sinCaducar := Descarta(ahora);
      limpiada := Some(if limpiada.Some? then Max(limpiada.value, ahora) else ahora);
      topada := topada || sinCaducar;
      SuffixOfSuffix(oidas, old(cola), k);
      if !topada { StillTooOld(oidas, old(cola), k, old(limpiada), ahora, limpiada.value); }
    }

    /** A query Windows published, with who asked for it. */
    method Anota(nombre: string, proceso: Proceso, ahora: int)
      requires Valid()
      modifies this
      ensures Valid()
      ensures Normaliza(nombre) == "" ==> oidas == old(oidas) && cola == old(cola)
      ensures Normaliza(nombre) != "" ==> oidas == old(oidas) + [Oida(ahora, Normaliza(nombre), proceso)]
      ensures Normaliza(nombre) != "" ==> cola == Limpia(old(cola), ahora) + [Oida(ahora, Normaliza(nombre), proceso)]
      ensures topada ==> old(topada) || |old(cola)| > MAXIMO
    {
      var qname := Normaliza(nombre);
      if qname == "" { return; }
      Limpiar(ahora);
      var o := Oida(ahora, qname, proceso);
      cola := cola + [o];
      oidas := oidas + [o];
    }

    /**
     * Who asked for `nombre` around `ts`. The queue answers as everything ever heard would, unless the
     * cap took something out or the question comes more than six seconds behind an earlier one.
     */
    method QuienPidio(nombre: string, ts: int) returns (r: Option<Proceso>)
      requires Valid()
      modifies this
      ensures Valid() && oidas == old(oidas) && cola == Limpia(old(cola), ts)
      ensures Responde(cola, Normaliza(nombre), ts, r)
      ensures !topada && (old(limpiada).Some? ==> ts >= old(limpiada).value - 6000)
              ==> Responde(oidas, Normaliza(nombre), ts, r)
    {
      var buscado := Normaliza(nombre);
      Limpiar(ts);
      r := Busca(cola, buscado, ts);
      if !topada && ts >= limpiada.value - 6000 {
        ShortQueueAnswers(oidas, cola, limpiada.value, buscado, ts, r);
      }
    }
  }

  lemma SuffixOfSuffix(s: seq<Oida>, t: seq<Oida>, k: nat)
    requires |t| <= |s| && t == s[|s| - |t|..] && k <= |t|
    ensures t[k..] == s[|s| - (|t| - k)..]
  {
  }
}
