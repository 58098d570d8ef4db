/** What every operation on the contracts' tables keeps. */
module BookInvariant {
  import opened Basics
  import opened Contracts
  import opened Book

  predicate EmpresasAcotadas(m: map<string, Empresa>) { forall e | e in m :: Acotada(m[e]) }

  /**
   * A contract by itself: while it is learnt, or without one, nothing is pending; settled, it says since when; and
   * what it keeps of companies, versions and processes is bounded.
   */
  predicate ContratoBien(c: Contrato, clave: string) {
    && c.clave == clave
    && (c.estado == Aprendiendo || c.estado == NoAplica ==> c.pendientes == {})
    && (c.estado == Vigilando || c.estado == Fijado ==> c.aprendido.Some?)
    && c.pendientes !! c.cortadas
    && EmpresasAcotadas(c.empresas) && |c.versiones| <= MAX_VERSIONES && |c.pids| <= MAX_PIDS
  }

  /** These companies will never be new to the contract again. */
  predicate Cubre(c: Contrato, es: set<string>) {
    c.estado == NoAplica || es <= c.empresas.Keys + c.cortadas
  }

  /** What a notice shows: its new companies are none of those of before, and it is open until it says when not. */
  predicate Retrato(a: Aviso) {
    a.antes !! a.nuevas.Keys && a.desde <= a.ultimo && (a.estado == Abierto <==> a.resuelto.None?)
  }

  /**
   * A notice: open, its companies are what its program has pending, and those of before are still in the contract
   * or cut; resolved, its companies are settled.
   */
  predicate AvisoBien(contratos: map<string, Contrato>, a: Aviso) {
    && a.clave in contratos && a.nuevas != map[] && EmpresasAcotadas(a.nuevas) && Retrato(a)
    && (a.estado == Abierto ==> a.antes <= contratos[a.clave].empresas.Keys + contratos[a.clave].cortadas)
    && (a.estado == Abierto ==> a.reglas == [] && contratos[a.clave].pendientes == a.nuevas.Keys)
    && (a.estado != Abierto ==> Cubre(contratos[a.clave], a.nuevas.Keys))
  }

  /** Two notices of one program: never both open, never a company in both. */
  predicate Aparte(a: Aviso, b: Aviso) {
    a.clave == b.clave ==> !(a.estado == Abierto && b.estado == Abierto) && a.nuevas.Keys !! b.nuevas.Keys
  }

  predicate ContratosBien(l: Libro) { forall k | k in l.contratos :: ContratoBien(l.contratos[k], k) }

  predicate AvisosBien(l: Libro) {
    && (forall i | i in l.avisos :: AvisoBien(l.contratos, l.avisos[i]))
    && (forall i | i in l.avisos :: i < l.proximo)
    && (forall i, j | i in l.avisos && j in l.avisos && i != j :: Aparte(l.avisos[i], l.avisos[j]))
  }

  /** What is pending is in an open notice. */
  predicate PendientesAvisados(l: Libro) {
    forall k | k in l.contratos && l.contratos[k].pendientes != {} :: Abiertos(l, k) != {}
  }

  /** A company announced stays pending or settled. */
  predicate Anunciada(contratos: map<string, Contrato>, r: Asiento) {
    r.tipo.RNovedad? ==>
      r.clave in contratos
      && (contratos[r.clave].estado == NoAplica
          || r.tipo.empresa in contratos[r.clave].empresas.Keys + contratos[r.clave].cortadas
              + contratos[r.clave].pendientes)
  }

  /** Two announcements of one program are of different companies. */
  predicate Distintas(r: Asiento, s: Asiento) {
    r.tipo.RNovedad? && s.tipo.RNovedad? && r.clave == s.clave ==> r.tipo.empresa != s.tipo.empresa
  }

  predicate RegistroBien(l: Libro) {
    && (forall n | 0 <= n < |l.registro| :: Anunciada(l.contratos, l.registro[n]))
    && (forall m, n | 0 <= m < n < |l.registro| :: Distintas(l.registro[m], l.registro[n]))
  }

  predicate Tablas(l: Libro) {
    ContratosBien(l) && AvisosBien(l) && PendientesAvisados(l) && RegistroBien(l)
  }

  // ----- changes of one contract -----

  /** The contract goes on: same pending companies, and what was settled stays settled. */
  predicate Sigue(c: Contrato, d: Contrato) {
    && d.pendientes == c.pendientes
    && (d.estado == NoAplica || (c.estado != NoAplica && c.empresas.Keys + c.cortadas <= d.empresas.Keys + d.cortadas))
  }

  lemma GoesOn(l: Libro, k: string, d: Contrato)
    requires Tablas(l) && k in l.contratos && Sigue(l.contratos[k], d) && ContratoBien(d, k)
    ensures Tablas(l.(contratos := l.contratos[k := d]))
  {
    NoticesGoOn(l, k, d);
    PendingGoesOn(l, k, d);
    RowsGoOn(l, k, d);
  }

  lemma NoticesGoOn(l: Libro, k: string, d: Contrato)
    requires AvisosBien(l) && k in l.contratos && Sigue(l.contratos[k], d) && ContratoBien(d, k)
    ensures AvisosBien(l.(contratos := l.contratos[k := d]))
  {
    var m := l.(contratos := l.contratos[k := d]);
    forall i | i in m.avisos ensures AvisoBien(m.contratos, m.avisos[i]) {
      assert AvisoBien(l.contratos, l.avisos[i]);
    }
  }

  lemma PendingGoesOn(l: Libro, k: string, d: Contrato)
    requires PendientesAvisados(l) && k in l.contratos && Sigue(l.contratos[k], d)
    ensures PendientesAvisados(l.(contratos := l.contratos[k := d]))
  {
    var m := l.(contratos := l.contratos[k := d]);
    forall x | x in m.contratos && m.contratos[x].pendientes != {} ensures Abiertos(m, x) != {} {
      assert Abiertos(m, x) == Abiertos(l, x);
    }
  }

  lemma RowsGoOn(l: Libro, k: string, d: Contrato)
    requires RegistroBien(l) && k in l.contratos && Sigue(l.contratos[k], d)
    ensures RegistroBien(l.(contratos := l.contratos[k := d]))
  {
    var m := l.(contratos := l.contratos[k := d]);
    forall n | 0 <= n < |m.registro| ensures Anunciada(m.contratos, m.registro[n]) {
      assert Anunciada(l.contratos, l.registro[n]);
    }
  }

  lemma RowKeeps(l: Libro, ts: int, clave: string, tipo: Tipo)
    requires Tablas(l) && !tipo.RNovedad?
    ensures Tablas(Registra(l, ts, clave, tipo))
  {
    var m := Registra(l, ts, clave, tipo);
    assert forall x :: Abiertos(m, x) == Abiertos(l, x);
  }

  lemma NewContract(l: Libro, c: Contrato)
    requires Tablas(l) && c.clave !in l.contratos && ContratoBien(c, c.clave) && c.pendientes == {}
    ensures Tablas(ConContrato(l, c))
  {
    var m := ConContrato(l, c);
    forall i | i in m.avisos ensures AvisoBien(m.contratos, m.avisos[i]) {
      assert AvisoBien(l.contratos, l.avisos[i]);
    }
    forall x | x in m.contratos && m.contratos[x].pendientes != {} ensures Abiertos(m, x) != {} {
      assert Abiertos(m, x) == Abiertos(l, x);
    }
    forall n | 0 <= n < |m.registro| ensures Anunciada(m.contratos, m.registro[n]) {
      assert Anunciada(l.contratos, l.registro[n]);
    }
  }

  lemma AnotaBounded(e: Empresa, o: Observacion)
    requires Acotada(e)
    ensures Acotada(Anota(e, o))
  {
  }

  lemma UpdatedBounded(m: map<string, Empresa>, k: string, e: Empresa)
    requires EmpresasAcotadas(m) && Acotada(e)
    ensures EmpresasAcotadas(m[k := e])
  {
  }

  lemma JoinedBounded(m: map<string, Empresa>, n: map<string, Empresa>)
    requires EmpresasAcotadas(m) && EmpresasAcotadas(n)
    ensures EmpresasAcotadas(m + n)
  {
  }

  // ----- one observation -----

  lemma RevisadoGoesOn(c: Contrato, k: string, ts: int)
    requires ContratoBien(c, k)
    ensures ContratoBien(Revisado(c, ts), k) && Sigue(c, Revisado(c, ts))
  {
  }

  lemma ConProcesoGoesOn(c: Contrato, k: string, o: Observacion)
    requires ContratoBien(c, k)
    ensures ContratoBien(ConProceso(c, o), k)
    ensures var d := ConProceso(c, o);
            d.estado == c.estado && d.empresas == c.empresas && d.cortadas == c.cortadas && d.pendientes == c.pendientes
            && d.aprendido == c.aprendido && d.desde == c.desde && d.lanzamientos >= Min(c.lanzamientos, U32_MAX)
  {
  }

  /** Either the contract just goes on, or a company outside it becomes pending. */
  lemma ConEmpresaGoesOn(c: Contrato, k: string, o: Observacion, lec: Lector)
    requires ContratoBien(c, k)
    ensures var (d, es) := ConEmpresa(c, o, lec);
      && ContratoBien(d, k) && d.aprendido == c.aprendido && d.desde == c.desde && d.lanzamientos == c.lanzamientos
      && (d.estado == c.estado || d.estado == NoAplica)
      && |es| <= 1
      && (es == [] || es[0].SinContrato? ==> Sigue(c, d))
      && (es != [] && !es[0].SinContrato? ==>
            && es[0] == Novedad(o.empresa, o.empresa !in c.pendientes)
                && d == c.(pendientes := c.pendientes + {o.empresa})
            && o.empresa !in c.empresas && o.empresa !in c.cortadas && (c.estado == Vigilando || c.estado == Fijado))
  {
    if c.estado != NoAplica {
      var e := if o.empresa in c.empresas then c.empresas[o.empresa] else EmpresaVacia(Etiqueta(c));
      JoinedGoesOn(c, k, o, e);
    }
  }

  /** The query written to a company of the contract, known or not. */
  lemma JoinedGoesOn(c: Contrato, k: string, o: Observacion, e: Empresa)
    requires ContratoBien(c, k) && Acotada(e) && c.estado != NoAplica
    ensures var d := c.(empresas := c.empresas[o.empresa := Anota(e, o)]); ContratoBien(d, k) && Sigue(c, d)
  {
    AnotaBounded(e, o);
    UpdatedBounded(c.empresas, o.empresa, Anota(e, o));
  }

  /** The effects written before a company is announced say nothing of companies. */
  predicate SinNovedad(es: seq<Efecto>) { forall i | 0 <= i < |es| :: !es[i].Novedad? }

  /** The rows those effects write. */
  function FilasDe(es: seq<Efecto>, ts: int, clave: string): (r: seq<Asiento>)
    ensures |r| == |es| && forall i | 0 <= i < |r| :: !r[i].tipo.RNovedad? && !r[i].tipo.RFijado?
  {
    seq(|es|, i requires 0 <= i < |es| =>
      Asiento(ts, clave,
              match es[i] case CambioVersion(_, _) => RVersion case SeAprendio => RAprendido case _ => RNoAplica))
  }

  lemma {:induction false} EffectsAreRows(l: Libro, c: Contrato, o: Observacion, es: seq<Efecto>)
    requires SinNovedad(es)
    ensures AplicaEfectos(l, c, o, es) == l.(registro := l.registro + FilasDe(es, o.ts, c.clave))
    decreases |es|
  {
    if es == [] {
      assert l.registro + FilasDe(es, o.ts, c.clave) == l.registro;
    } else {
      var m := AplicaEfecto(l, c, o, es[0]);
      EffectsAreRows(m, c, o, es[1..]);
      var f := FilasDe(es, o.ts, c.clave);
      assert f == [f[0]] + FilasDe(es[1..], o.ts, c.clave);
      assert m.registro == l.registro + [f[0]];
      assert l.registro + f == (l.registro + [f[0]]) + FilasDe(es[1..], o.ts, c.clave);
    }
  }

  lemma RowsKeep(l: Libro, rows: seq<Asiento>)
    requires Tablas(l) && forall i | 0 <= i < |rows| :: !rows[i].tipo.RNovedad?
    ensures Tablas(l.(registro := l.registro + rows))
  {
    var m := l.(registro := l.registro + rows);
    forall x | x in m.contratos && m.contratos[x].pendientes != {} ensures Abiertos(m, x) != {} {
      assert Abiertos(m, x) == Abiertos(l, x);
    }
    forall n | 0 <= n < |m.registro| ensures Anunciada(m.contratos, m.registro[n]) {
      if n < |l.registro| { assert Anunciada(l.contratos, l.registro[n]); }
    }
    forall x, n | 0 <= x < n < |m.registro| ensures Distintas(m.registro[x], m.registro[n]) {
      if n < |l.registro| { assert Distintas(l.registro[x], l.registro[n]); }
    }
  }

  lemma {:induction false} EffectsSplit(l: Libro, c: Contrato, o: Observacion, a: seq<Efecto>, b: seq<Efecto>)
    ensures AplicaEfectos(l, c, o, a + b) == AplicaEfectos(AplicaEfectos(l, c, o, a), c, o, b)
    decreases |a|
  {
    if a == [] {
      assert a + b == b;
    } else {
      assert (a + b)[1..] == a[1..] + b;
      EffectsSplit(AplicaEfecto(l, c, o, a[0]), c, o, a[1..], b);
    }
  }

  // ----- a new company -----

  lemma PruningKeeps(l: Libro, r: map<nat, Aviso>)
    requires Tablas(l) && r.Keys <= l.avisos.Keys && (forall i | i in r :: r[i] == l.avisos[i])
    requires forall i | i in l.avisos && i !in r :: l.avisos[i].estado != Abierto
    ensures Tablas(l.(avisos := r))
  {
    var m := l.(avisos := r);
    forall i | i in m.avisos ensures AvisoBien(m.contratos, m.avisos[i]) {
      assert AvisoBien(l.contratos, l.avisos[i]);
    }
    forall x | x in m.contratos && m.contratos[x].pendientes != {} ensures Abiertos(m, x) != {} {
      assert Abiertos(m, x) == Abiertos(l, x);
    }
  }

  /** The notice a new company goes to: the open one there was with it, or one that starts from the contract. */
  predicate Anunciante(l: Libro, c: Contrato, id: nat, a: Aviso, empresa: string) {
    && a.clave == c.clave && a.estado == Abierto && a.reglas == [] && EmpresasAcotadas(a.nuevas)
    && a.nuevas.Keys == (if id in l.avisos then l.avisos[id].nuevas.Keys else {}) + {empresa}
    && a.antes == (if id in l.avisos then l.avisos[id].antes else c.empresas.Keys)
    && a.desde <= a.ultimo && a.resuelto.None?
  }

  /** A company outside the contract `c`: pending, in the open notice, and announced once. */
  lemma AnnouncedKeeps(l: Libro, m: Libro, c: Contrato, id: nat, a: Aviso, empresa: string, rows: seq<Asiento>)
    requires Tablas(l) && c.clave in l.contratos && c == l.contratos[c.clave]
    requires c.estado == Vigilando || c.estado == Fijado
    requires empresa !in c.empresas && empresa !in c.cortadas
    requires if Abiertos(l, c.clave) == {} then id == l.proximo else id in Abiertos(l, c.clave)
    requires Anunciante(l, c, id, a, empresa)
    requires m == l.(contratos := l.contratos[c.clave := c.(pendientes := c.pendientes + {empresa})],
                     avisos := l.avisos[id := a], proximo := Max(l.proximo, id + 1), registro := l.registro + rows)
    requires if empresa in c.pendientes then rows == []
             else |rows| == 1 && rows[0].clave == c.clave && rows[0].tipo == RNovedad(id, empresa)
    ensures Tablas(m)
  {
    AnnouncedContracts(l, m, c, empresa);
    AnnouncedNotices(l, m, c, id, a, empresa);
    AnnouncedNotice(l, c, id, a, empresa);
    AnnouncedPending(l, m, c, id, a, empresa);
    AnnouncedRegister(l, m, c, id, empresa, rows);
  }

  lemma AnnouncedContracts(l: Libro, m: Libro, c: Contrato, empresa: string)
    requires ContratosBien(l) && c.clave in l.contratos && c == l.contratos[c.clave]
    requires (c.estado == Vigilando || c.estado == Fijado) && empresa !in c.cortadas
    requires m.contratos == l.contratos[c.clave := c.(pendientes := c.pendientes + {empresa})]
    ensures ContratosBien(m)
  {
    assert ContratoBien(c, c.clave);
  }

  lemma AnnouncedPending(l: Libro, m: Libro, c: Contrato, id: nat, a: Aviso, empresa: string)
    requires PendientesAvisados(l) && c.clave in l.contratos && a.clave == c.clave && a.estado == Abierto
    requires m.contratos == l.contratos[c.clave := c.(pendientes := c.pendientes + {empresa})]
        && m.avisos == l.avisos[id := a]
    requires if Abiertos(l, c.clave) == {} then id !in l.avisos else id in Abiertos(l, c.clave)
    ensures PendientesAvisados(m)
  {
    forall x | x in m.contratos && m.contratos[x].pendientes != {} ensures Abiertos(m, x) != {} {
      if x == c.clave {
        assert id in Abiertos(m, x);
      } else {
        var i :| i in Abiertos(l, x);
        assert i in Abiertos(m, x);
      }
    }
  }

  lemma AnnouncedNotices(l: Libro, m: Libro, c: Contrato, id: nat, a: Aviso, empresa: string)
    requires Tablas(l) && c.clave in l.contratos && c == l.contratos[c.clave]
    requires c.estado == Vigilando || c.estado == Fijado
    requires empresa !in c.empresas && empresa !in c.cortadas
    requires if Abiertos(l, c.clave) == {} then id == l.proximo else id in Abiertos(l, c.clave)
    requires Anunciante(l, c, id, a, empresa)
    requires m.contratos == l.contratos[c.clave := c.(pendientes := c.pendientes + {empresa})]
    requires m.avisos == l.avisos[id := a] && m.proximo == Max(l.proximo, id + 1)
    ensures AvisosBien(m)
  {
    AnnouncedNotice(l, c, id, a, empresa);
    forall i | i in m.avisos ensures AvisoBien(m.contratos, m.avisos[i]) && i < m.proximo {
      if i != id { OtherStays(l, c, id, i, a, empresa); }
    }
    forall j | j in l.avisos && j != id ensures Aparte(a, l.avisos[j]) && Aparte(l.avisos[j], a) {
      OtherStays(l, c, id, j, a, empresa);
    }
    OneMoreApart(l, m, id, a);
  }

  lemma OneMoreApart(l: Libro, m: Libro, id: nat, a: Aviso)
    requires AvisosBien(l) && m.avisos == l.avisos[id := a]
    requires forall j | j in l.avisos && j != id :: Aparte(a, l.avisos[j]) && Aparte(l.avisos[j], a)
    ensures forall i, j | i in m.avisos && j in m.avisos && i != j :: Aparte(m.avisos[i], m.avisos[j])
  {
    forall i, j | i in m.avisos && j in m.avisos && i != j ensures Aparte(m.avisos[i], m.avisos[j]) {
      if i != id && j != id { assert Aparte(l.avisos[i], l.avisos[j]); }
    }
  }

  lemma OtherStays(l: Libro, c: Contrato, id: nat, i: nat, a: Aviso, empresa: string)
    requires Tablas(l) && c.clave in l.contratos && c == l.contratos[c.clave]
    requires c.estado == Vigilando || c.estado == Fijado
    requires empresa !in c.empresas && empresa !in c.cortadas
    requires if Abiertos(l, c.clave) == {} then id == l.proximo else id in Abiertos(l, c.clave)
    requires Anunciante(l, c, id, a, empresa) && i in l.avisos && i != id
    ensures i < l.proximo
    ensures AvisoBien(l.contratos[c.clave := c.(pendientes := c.pendientes + {empresa})], l.avisos[i])
    ensures Aparte(l.avisos[i], a) && Aparte(a, l.avisos[i])
  {
    assert AvisoBien(l.contratos, l.avisos[i]);
    if l.avisos[i].clave == c.clave { OtherNotice(l, c, id, i, empresa); }
  }

  lemma AnnouncedNotice(l: Libro, c: Contrato, id: nat, a: Aviso, empresa: string)
    requires Tablas(l) && c.clave in l.contratos && c == l.contratos[c.clave]
    requires c.estado == Vigilando || c.estado == Fijado
    requires empresa !in c.empresas && empresa !in c.cortadas
    requires if Abiertos(l, c.clave) == {} then id == l.proximo else id in Abiertos(l, c.clave)
    requires Anunciante(l, c, id, a, empresa)
    ensures AvisoBien(l.contratos[c.clave := c.(pendientes := c.pendientes + {empresa})], a)
    ensures id !in l.avisos <==> Abiertos(l, c.clave) == {}
  {
    if Abiertos(l, c.clave) == {} {
      assert c.pendientes == {};
      assert id !in l.avisos;
    } else {
      assert AvisoBien(l.contratos, l.avisos[id]);
    }
    assert empresa in a.nuevas;
  }

  /** A notice other than the one a new company goes to holds none of its companies. */
  lemma OtherNotice(l: Libro, c: Contrato, id: nat, j: nat, empresa: string)
    requires Tablas(l) && c.clave in l.contratos && c == l.contratos[c.clave]
    requires c.estado == Vigilando || c.estado == Fijado
    requires empresa !in c.empresas && empresa !in c.cortadas
    requires if Abiertos(l, c.clave) == {} then id == l.proximo else id in Abiertos(l, c.clave)
    requires j in l.avisos && j != id && l.avisos[j].clave == c.clave
    ensures l.avisos[j].estado != Abierto && empresa !in l.avisos[j].nuevas
    ensures id in l.avisos ==> l.avisos[id].nuevas.Keys !! l.avisos[j].nuevas.Keys
  {
    assert AvisoBien(l.contratos, l.avisos[j]);
    if id in l.avisos { assert Aparte(l.avisos[j], l.avisos[id]); }
    assert l.avisos[j].estado == Abierto ==> j in Abiertos(l, c.clave);
  }

  lemma AnnouncedRegister(l: Libro, m: Libro, c: Contrato, id: nat, empresa: string, rows: seq<Asiento>)
    requires Tablas(l) && c.clave in l.contratos && c == l.contratos[c.clave] && c.estado != NoAplica
    requires empresa !in c.empresas && empresa !in c.cortadas
    requires m.contratos == l.contratos[c.clave := c.(pendientes := c.pendientes + {empresa})]
    requires m.registro == l.registro + rows
    requires if empresa in c.pendientes then rows == []
             else |rows| == 1 && rows[0].clave == c.clave && rows[0].tipo == RNovedad(id, empresa)
    ensures RegistroBien(m)
  {
    forall n | 0 <= n < |m.registro| ensures Anunciada(m.contratos, m.registro[n]) {
      if n < |l.registro| { assert Anunciada(l.contratos, l.registro[n]); }
    }
    forall x, n | 0 <= x < n < |m.registro| ensures Distintas(m.registro[x], m.registro[n]) {
      if n < |l.registro| { assert Distintas(l.registro[x], l.registro[n]); }
      else { assert Anunciada(l.contratos, l.registro[x]); }
    }
  }
}
