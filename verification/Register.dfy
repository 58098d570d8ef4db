/** The contracts' own hash-chained register (crates/core/src/contratos.rs). */
module Register {
  import opened Basics
  import opened Preimage

  /** One stored row. `id` is SQLite's and does not enter the hash. */
  datatype Fila = Fila(id: int, ts: int, clave: Bytes, tipo: Bytes, detalle: Bytes, cabeza: Bytes,
                       prevHash: Digest, rowHash: Digest)

  datatype Comprobacion = Comprobacion(ok: bool, filas: nat, fallo: Option<int>)

  function FieldsOf(f: Fila): seq<Bytes> { [Decimal(f.ts), f.clave, f.tipo, f.detalle, f.cabeza] }

  function RegisterPreimage(prev: Digest, f: Fila): Bytes { prev + EncodeFields(FieldsOf(f)) }

  predicate ShortFila(f: Fila) { Short(FieldsOf(f)) }

  /** `guardiana-contratos:` before the extract's genesis. */
  function Genesis(sha: Bytes -> Digest, genesisHex: Bytes): Digest {
    sha([103, 117, 97, 114, 100, 105, 97, 110, 97, 45, 99, 111, 110, 116, 114, 97, 116, 111, 115, 58] + genesisHex)
  }

  /** From a register preimage one recovers the previous hash and the five fields. */
  lemma FilaInjective(p: Digest, f: Fila, q: Digest, g: Fila)
    requires ShortFila(f) && ShortFila(g) && RegisterPreimage(p, f) == RegisterPreimage(q, g)
    ensures p == q && SameContent(f, g)
  {
    var b := RegisterPreimage(p, f);
    assert b[..32] == p && b[32..] == EncodeFields(FieldsOf(f));
    assert RegisterPreimage(q, g)[..32] == q && RegisterPreimage(q, g)[32..] == EncodeFields(FieldsOf(g));
    FieldsRoundTrip(FieldsOf(f));
    FieldsRoundTrip(FieldsOf(g));
    DecimalRoundTrip(f.ts);
    DecimalRoundTrip(g.ts);
    assert FieldsOf(f)[0] == FieldsOf(g)[0] && FieldsOf(f)[1] == FieldsOf(g)[1] && FieldsOf(f)[2] == FieldsOf(g)[2]
        && FieldsOf(f)[3] == FieldsOf(g)[3] && FieldsOf(f)[4] == FieldsOf(g)[4];
  }

  /** A row of one chain can never be passed off as a row of the other. */
  lemma ChainsNeverConfused(p: Digest, f: Fila, q: Digest, r: Row)
    requires ShortFila(f) && ShortRow(r)
    ensures RegisterPreimage(p, f) != RowPreimage(q, r)
  {
    if RegisterPreimage(p, f) == RowPreimage(q, r) {
      var b := RegisterPreimage(p, f);
      assert b[32..] == EncodeFields(FieldsOf(f));
      assert RowPreimage(q, r)[32..] == EncodeFields(BaseFields(r) + OptionalFields(r));
      FieldsRoundTrip(FieldsOf(f));
      FieldsRoundTrip(BaseFields(r) + OptionalFields(r));
      assert false;
    }
  }

  predicate SameContent(f: Fila, g: Fila) {
    f.ts == g.ts && f.clave == g.clave && f.tipo == g.tipo && f.detalle == g.detalle && f.cabeza == g.cabeza
  }

  // ----- walking the chain -----

  datatype Recorrido = Roto(id: int, filas: nat) | Entero(fin: Digest)

  /** Recomputes the rows one by one from `prev`; `n` rows were read before these. */
  function Recorre(sha: Bytes -> Digest, prev: Digest, filas: seq<Fila>, n: nat): Recorrido
    decreases filas
  {
    if filas == [] then Entero(prev)
    else
      var f := filas[0];
      var h := sha(RegisterPreimage(prev, f));
      if f.prevHash != prev || f.rowHash != h then Roto(f.id, n + 1) else Recorre(sha, h, filas[1..], n + 1)
  }

  /** The stored head and count, against what was walked. */
  predicate Cuadra(fin: Digest, n: nat, head: Option<Bytes>, count: Option<nat>) {
    match (head, count)
    case (Some(h), Some(c)) => h == ToHex(fin) && c == n
    case (None, _) => n == 0
    case _ => false
  }

  function Verdict(sha: Bytes -> Digest, genesis: Digest, filas: seq<Fila>, head: Option<Bytes>, count: Option<nat>)
    : Comprobacion
  {
    match Recorre(sha, genesis, filas, 0)
    case Roto(id, n) => Comprobacion(false, n, Some(id))
    case Entero(fin) =>
      var ok := Cuadra(fin, |filas|, head, count);
      Comprobacion(ok, |filas|, if ok then None else Some(0))
  }

  /** Walking two stretches of rows is walking the first and, if it is whole, the second from its end. */
  lemma {:induction false} WalkAppend(sha: Bytes -> Digest, prev: Digest, a: seq<Fila>, b: seq<Fila>, n: nat)
    ensures Recorre(sha, prev, a + b, n)
         == match Recorre(sha, prev, a, n)
            case Roto(id, m) => Roto(id, m)
            case Entero(fin) => Recorre(sha, fin, b, n + |a|)
    decreases a
  {
    if a == [] {
      assert a + b == b;
    } else {
      assert (a + b)[1..] == a[1..] + b;
      WalkAppend(sha, sha(RegisterPreimage(prev, a[0])), a[1..], b, n + 1);
    }
  }

  /** A chain that walks whole: its last row, and the rows before it. */
  lemma {:induction false} WalkLast(sha: Bytes -> Digest, prev: Digest, filas: seq<Fila>, n: nat)
    requires filas != [] && Recorre(sha, prev, filas, n).Entero?
    ensures var u := filas[|filas| - 1];
            Recorre(sha, prev, filas, n).fin == u.rowHash == sha(RegisterPreimage(u.prevHash, u))
            && Recorre(sha, prev, filas[..|filas| - 1], n) == Entero(u.prevHash)
    decreases filas
  {
    if |filas| > 1 {
      WalkLast(sha, filas[0].rowHash, filas[1..], n + 1);
      assert filas[1..][..|filas| - 2] == filas[..|filas| - 1][1..];
    }
  }

  // ----- tampering -----

  /** Two rows whose preimages differ and hash alike. */
  predicate Collide(sha: Bytes -> Digest, f: Fila, g: Fila) {
    var p, q := RegisterPreimage(f.prevHash, f), RegisterPreimage(g.prevHash, g);
    p != q && sha(p) == sha(q)
  }

  /** What a forger would need. */
  predicate Collision(sha: Bytes -> Digest, a: seq<Fila>, b: seq<Fila>) {
    exists f, g | f in a && g in b :: Collide(sha, f, g)
  }

  predicate SameRows(a: seq<Fila>, b: seq<Fila>) {
    |a| == |b| && forall i | 0 <= i < |a| ::
      SameContent(a[i], b[i]) && a[i].prevHash == b[i].prevHash && a[i].rowHash == b[i].rowHash
  }

  lemma SameHashSameRow(sha: Bytes -> Digest, f: Fila, g: Fila)
    requires ShortFila(f) && ShortFila(g) && !Collide(sha, f, g)
    requires sha(RegisterPreimage(f.prevHash, f)) == sha(RegisterPreimage(g.prevHash, g))
    ensures f.prevHash == g.prevHash && SameContent(f, g)
  {
    FilaInjective(f.prevHash, f, g.prevHash, g);
  }

  lemma SameRowsExtend(a: seq<Fila>, b: seq<Fila>, k: nat)
    requires |a| == |b| == k + 1 && SameRows(a[..k], b[..k])
    requires SameContent(a[k], b[k]) && a[k].prevHash == b[k].prevHash && a[k].rowHash == b[k].rowHash
    ensures SameRows(a, b)
  {
    forall i | 0 <= i < |a|
      ensures SameContent(a[i], b[i]) && a[i].prevHash == b[i].prevHash && a[i].rowHash == b[i].rowHash
    {
      if i < k { assert a[..k][i] == a[i] && b[..k][i] == b[i]; }
    }
  }

  lemma {:induction false} SameEndSameRows(sha: Bytes -> Digest, genesis: Digest, a: seq<Fila>, b: seq<Fila>)
    requires |a| == |b| && (forall f | f in a :: ShortFila(f)) && (forall f | f in b :: ShortFila(f))
    requires Recorre(sha, genesis, a, 0).Entero? && Recorre(sha, genesis, a, 0) == Recorre(sha, genesis, b, 0)
    requires !Collision(sha, a, b)
    ensures SameRows(a, b)
  {
    if a != [] {
      var k := |a| - 1;
      WalkLast(sha, genesis, a, 0);
      WalkLast(sha, genesis, b, 0);
      assert a[k] in a && b[k] in b;
      SameHashSameRow(sha, a[k], b[k]);
      assert forall f | f in a[..k] :: f in a;
      assert forall g | g in b[..k] :: g in b;
      SameEndSameRows(sha, genesis, a[..k], b[..k]);
      SameRowsExtend(a, b, k);
    }
  }

  /**
   * With the head and the count kept, rows altered, removed, inserted or reordered are reported: any
   * rows that verify are the ones written, unless two of their preimages collide.
   */
  lemma TamperingIsReported(sha: Bytes -> Digest, genesis: Digest, a: seq<Fila>, b: seq<Fila>,
                            head: Bytes, count: Option<nat>)
    requires (forall f | f in a :: ShortFila(f)) && (forall f | f in b :: ShortFila(f))
    requires Verdict(sha, genesis, a, Some(head), count).ok
    requires !Collision(sha, a, b)
    ensures Verdict(sha, genesis, b, Some(head), count).ok <==> SameRows(a, b)
  {
    if Verdict(sha, genesis, b, Some(head), count).ok {
      PairsRoundTrip(Recorre(sha, genesis, a, 0).fin);
      PairsRoundTrip(Recorre(sha, genesis, b, 0).fin);
      SameEndSameRows(sha, genesis, a, b);
    }
    if SameRows(a, b) {
      SameRowsWalkAlike(sha, genesis, a, b, 0);
    }
  }

  lemma {:induction false} SameRowsWalkAlike(sha: Bytes -> Digest, prev: Digest, a: seq<Fila>, b: seq<Fila>, n: nat)
    requires SameRows(a, b) && Recorre(sha, prev, a, n).Entero?
    ensures Recorre(sha, prev, b, n) == Recorre(sha, prev, a, n)
    decreases a
  {
    if a != [] {
      assert SameContent(a[0], b[0]);
      assert FieldsOf(a[0]) == FieldsOf(b[0]);
      forall i | 0 <= i < |a[1..]|
        ensures SameContent(a[1..][i], b[1..][i]) && a[1..][i].prevHash == b[1..][i].prevHash
             && a[1..][i].rowHash == b[1..][i].rowHash
      {
        assert SameContent(a[i + 1], b[i + 1]);
      }
      SameRowsWalkAlike(sha, a[0].rowHash, a[1..], b[1..], n + 1);
    }
  }

  /** Without the head and the count nothing is noticed: rows cut from the end still verify. */
  lemma HeadIsNeeded(sha: Bytes -> Digest, genesis: Digest, a: seq<Fila>)
    requires a != [] && Recorre(sha, genesis, a, 0).Entero?
    ensures exists head, count :: Verdict(sha, genesis, a[..|a| - 1], Some(head), Some(count)).ok
  {
    WalkLast(sha, genesis, a, 0);
    var fin := Recorre(sha, genesis, a[..|a| - 1], 0).fin;
    assert Verdict(sha, genesis, a[..|a| - 1], Some(ToHex(fin)), Some(|a| - 1)).ok;
  }

  // ----- the register itself -----

  class Registro {
    const sha: Bytes -> Digest
    const genesisHex: Bytes
    var filas: seq<Fila>
    var head: Option<Bytes>
    var count: Option<nat>

    /** What writing alone keeps: the chain walks whole and ends where the head says. */
    ghost predicate Valid()
      reads this
    {
      var walked := Recorre(sha, Genesis(sha, genesisHex), filas, 0);
      && walked.Entero?
      && (head == None ==> filas == [] && count == None)
      && (head.Some? ==> head == Some(ToHex(walked.fin)) && count == Some(|filas|))
    }

    constructor (sha: Bytes -> Digest, genesisHex: Bytes)
      ensures Valid() && filas == [] && this.sha == sha && this.genesisHex == genesisHex
    {
      this.sha, this.genesisHex := sha, genesisHex;
      filas, head, count := [], None, None;
    }

    /** Writes one row, chained to the one before. Fails only when the stored head is not a hash. */
    method Registra(ts: int, clave: Bytes, tipo: Bytes, detalle: Bytes, cabeza: Bytes) returns (escrita: bool)
      modifies this
      ensures escrita <==> old(head).None? || FromHex(old(head).value).Some?
      ensures !escrita ==> filas == old(filas) && head == old(head) && count == old(count)
      ensures escrita ==> |filas| == |old(filas)| + 1 && filas[..|filas| - 1] == old(filas)
      ensures escrita ==> var f := filas[|filas| - 1];
        && f.ts == ts && f.clave == clave && f.tipo == tipo && f.detalle == detalle && f.cabeza == cabeza
        && f.rowHash == sha(RegisterPreimage(f.prevHash, f)) && head == Some(ToHex(f.rowHash))
      ensures old(Valid()) ==> escrita && Valid()
    {
      var prev := Genesis(sha, genesisHex);
      ghost var walked := Recorre(sha, prev, filas, 0);
      if Valid() { HexRoundTrip(walked.fin); }
      if head.Some? {
        var p := ParseHex(head.value);
        if p.None? { return false; }
        prev := p.value;
      }
      var f := Fila(|filas| + 1, ts, clave, tipo, detalle, cabeza, prev, prev);
      var h := sha(RegisterPreimage(prev, f));
      f := f.(rowHash := h);
      var n := match count case Some(c) => c case None => 0;
      if Valid() { WalkAppend(sha, Genesis(sha, genesisHex), filas, [f], 0); }
      filas := filas + [f];
      head, count := Some(ToHex(h)), Some(n + 1);
      escrita := true;
    }

    /** Recomputes the whole register and checks it ends where its head says. */
    method Comprueba() returns (c: Comprobacion)
      ensures c == Verdict(sha, Genesis(sha, genesisHex), filas, head, count)
      ensures Valid() ==> c == Comprobacion(true, |filas|, None)
    {
      var prev := Genesis(sha, genesisHex);
      ghost var walked := Recorre(sha, prev, filas, 0);
      assert filas[0..] == filas;
      var n := 0;
      while n < |filas|
        invariant 0 <= n <= |filas|
        invariant Recorre(sha, prev, filas[n..], n) == walked
      {
        var f := filas[n];
        assert filas[n..][1..] == filas[n + 1..];
        n := n + 1;
        var calculado := sha(RegisterPreimage(prev, f));
        if f.prevHash != prev || f.rowHash != calculado {
          return Comprobacion(false, n, Some(f.id));
        }
        prev := calculado;
      }
      var cuadra := match (head, count)
        case (Some(h), Some(c)) => h == ToHex(prev) && c == n
        case (None, _) => n == 0
        case _ => false;
      c := Comprobacion(cuadra, n, if cuadra then None else Some(0));
    }
  }
}
