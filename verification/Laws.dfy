/** The promises of the living contracts, over any run of the tables. */
module Laws {
  import opened Basics
  import opened Contracts
  import opened Book
  import opened BookInvariant
  import BookKeeps

  // ----- one open notice -----

  lemma EmptyTables()
    ensures Tablas(NUEVO)
  {
  }

  /**
   * After any run, a program has at most one open notice and what it has pending is exactly that notice's
   * companies; while it is learnt, or without contract, it has none.
   */
  lemma OneOpenNotice(l: Libro, pasos: seq<Paso>, clave: string)
    requires Tablas(l)
    ensures var r := Corre(l, pasos);
      clave in r.contratos ==>
        var c, ids := r.contratos[clave], Abiertos(r, clave);
        && (forall i, j | i in ids && j in ids :: i == j)
        && c.pendientes == (if ids == {} then {} else r.avisos[Ultimo(ids)].nuevas.Keys)
        && (c.estado == Aprendiendo || c.estado == NoAplica ==> c.pendientes == {} && ids == {})
  {
    BookKeeps.RunKeeps(l, pasos);
    var r := Corre(l, pasos);
    if clave in r.contratos {
      var c, ids := r.contratos[clave], Abiertos(r, clave);
      assert ContratoBien(c, clave);
      forall i, j | i in ids && j in ids ensures i == j {
        assert i != j ==> Aparte(r.avisos[i], r.avisos[j]);
      }
      if ids != {} {
        assert AvisoBien(r.contratos, r.avisos[Ultimo(ids)]);
      }
    }
  }

  /** The companies of a notice no longer open are part of the contract or cut, while there is one. */
  predicate Asentadas(c: Contrato, a: Aviso) {
    a.estado == Abierto || c.estado == NoAplica || a.nuevas.Keys <= c.empresas.Keys + c.cortadas
  }

  /**
   * After any run, the companies of a resolved notice are part of the contract or cut, while there is one; no
   * company is in two notices of a program; and the register announces each company of a program once.
   */
  lemma AnnouncedOnce(l: Libro, pasos: seq<Paso>)
    requires Tablas(l)
    ensures var r := Corre(l, pasos);
      && (forall i | i in r.avisos ::
            r.avisos[i].clave in r.contratos && Asentadas(r.contratos[r.avisos[i].clave], r.avisos[i]))
      && (forall i, j | i in r.avisos && j in r.avisos && i != j && r.avisos[i].clave == r.avisos[j].clave ::
            r.avisos[i].nuevas.Keys !! r.avisos[j].nuevas.Keys)
      && (forall m, n | 0 <= m < n < |r.registro| :: Distintas(r.registro[m], r.registro[n]))
  {
    BookKeeps.RunKeeps(l, pasos);
    var r := Corre(l, pasos);
    forall i | i in r.avisos ensures AvisoBien(r.contratos, r.avisos[i]) {}
    forall i, j | i in r.avisos && j in r.avisos && i != j ensures Aparte(r.avisos[i], r.avisos[j]) {}
  }

  /**
   * After any run, what a notice shows as new was in no part of what it shows as before; its times are in order;
   * and it says when it was resolved exactly when it was.
   */
  lemma NoticesShowBeforeAndAfter(l: Libro, pasos: seq<Paso>, i: nat)
    requires Tablas(l)
    ensures var r := Corre(l, pasos);
      i in r.avisos ==>
        && r.avisos[i].nuevas != map[] && r.avisos[i].antes !! r.avisos[i].nuevas.Keys
        && r.avisos[i].desde <= r.avisos[i].ultimo
        && (r.avisos[i].resuelto.None? <==> r.avisos[i].estado == Abierto)
  {
    BookKeeps.RunKeeps(l, pasos);
    var r := Corre(l, pasos);
    if i in r.avisos { assert AvisoBien(r.contratos, r.avisos[i]); }
  }

  // ----- a cut -----

  lemma {:induction false} SitesChosen(sitios: seq<string>, reglas: seq<Regla>, t: int)
    ensures forall s :: s in SitiosDe(sitios, reglas, t) <==> s in sitios && !YaCortado(reglas, s, t)
  {
    if sitios != [] { SitesChosen(sitios[1..], reglas, t); assert sitios == [sitios[0]] + sitios[1..]; }
  }

  /** A pattern is one of a cut company's sites that had no cut. */
  predicate Elegido(l: Libro, a: Aviso, e: string, s: string, t: int) {
    e in a.nuevas && SeCorta(l, a, e) && s in a.nuevas[e].sitios && !YaCortado(l.reglas, s, t)
  }

  lemma {:induction false} PatternsChosen(l: Libro, a: Aviso, orden: seq<string>, t: int)
    requires forall e | e in orden :: e in a.nuevas
    ensures forall s | s in PatronesDe(l, a, orden, t) :: exists e | e in orden :: Elegido(l, a, e, s, t)
    ensures forall e, s | e in orden && Elegido(l, a, e, s, t) :: s in PatronesDe(l, a, orden, t)
    decreases |orden|
  {
    if orden != [] {
      var e := orden[0];
      PatternsChosen(l, a, orden[1..], t);
      var suyos := Sorted(a.nuevas[e].sitios);
      SitesChosen(suyos, l.reglas, t);
      forall s | s in PatronesDe(l, a, orden, t) ensures exists x | x in orden :: Elegido(l, a, x, s, t) {
        if s in PatronesDe(l, a, orden[1..], t) {
          var x :| x in orden[1..] && Elegido(l, a, x, s, t);
          assert x in orden;
        } else {
          assert s in SitiosDe(suyos, l.reglas, t) && Elegido(l, a, e, s, t);
        }
      }
    }
  }

  /** A cut's rules come after the ones before, and its notice has their numbers. */
  lemma CutRules(l: Libro, id: nat, t: int, auto: bool)
    requires id in l.avisos
    ensures var a, r := l.avisos[id], Cortada(l, id, t, auto);
            var patrones := PatronesCorte(l, a, t);
      && r.reglas == l.reglas + Reglas(patrones, t) && id in r.avisos
      && r.avisos[id].reglas == a.reglas + Numeros(|l.reglas| + 1, |patrones|)
      && r.avisos[id].nuevas == a.nuevas && r.avisos[id].clave == a.clave && r.avisos[id].sinCortar == SinCortarDe(l, a)
  {
  }

  /** A cut splits the notice's companies: the ones cut, and the ones left because needed or shared. */
  lemma CutPartitions(l: Libro, id: nat, t: int, auto: bool)
    requires id in l.avisos && l.avisos[id].clave in l.contratos
    ensures var a, r := l.avisos[id], Cortada(l, id, t, auto);
            var c, d, sin := l.contratos[a.clave], r.contratos[a.clave], r.avisos[id].sinCortar;
            var cortadas := a.nuevas.Keys - sin.Keys;
      && sin.Keys <= a.nuevas.Keys
      && d.cortadas == c.cortadas + cortadas && d.empresas == c.empresas + Entradas(a.nuevas, sin.Keys)
      && (forall e | e in cortadas :: !a.nuevas[e].esperado && !LaTieneOtro(l, a, e))
      && (forall e | e in sin && a.nuevas[e].esperado :: sin[e] == Esperado)
      && (forall e | e in sin && !a.nuevas[e].esperado :: sin[e] == Compartida && LaTieneOtro(l, a, e))
  {
    var a := l.avisos[id];
    var sin := SinCortarDe(l, a);
    assert a.nuevas.Keys - sin.Keys == Cortables(l, a);
    assert a.nuevas.Keys - Cortables(l, a) == sin.Keys;
    forall e | e in a.nuevas ensures LaTieneOtro(l, a, e) <==> EsCompartida(l.contratos, a.clave, a.nuevas[e].sitios) {
      SharedIs(l, a, e);
    }
  }

  /** Company `x` is in the contract of another program than `clave`. */
  predicate Ajena(l: Libro, clave: string, k: string, x: string) {
    k in l.contratos && l.contratos[k].clave != clave && l.contratos[k].estado != NoAplica
        && x in l.contratos[k].empresas
  }

  /** The company `e` of the notice has a site that some other program's contract has. */
  ghost predicate LaTieneOtro(l: Libro, a: Aviso, e: string)
    requires e in a.nuevas
  {
    exists k, x, s :: Ajena(l, a.clave, k, x) && s in l.contratos[k].empresas[x].sitios && s in a.nuevas[e].sitios
  }

  lemma SharedIs(l: Libro, a: Aviso, e: string)
    requires e in a.nuevas
    ensures LaTieneOtro(l, a, e) <==> EsCompartida(l.contratos, a.clave, a.nuevas[e].sitios)
  {
    if LaTieneOtro(l, a, e) {
      var k, x, s :| Ajena(l, a.clave, k, x) && s in l.contratos[k].empresas[x].sitios && s in a.nuevas[e].sitios;
      assert s in l.contratos[k].empresas[x].sitios * a.nuevas[e].sitios;
      assert SitioComun(l.contratos[k].empresas[x], a.nuevas[e].sitios);
    }
    forall k, x | Ajena(l, a.clave, k, x) && SitioComun(l.contratos[k].empresas[x], a.nuevas[e].sitios)
      ensures LaTieneOtro(l, a, e)
    {
      var s :| s in l.contratos[k].empresas[x].sitios * a.nuevas[e].sitios;
    }
    forall k, x | k in l.contratos && x in l.contratos[k].empresas
      ensures Ajena(l, a.clave, k, x) <==> l.contratos[k].clave != a.clave && l.contratos[k].estado != NoAplica
    {
    }
  }

  lemma SiteOfCutCompany(l: Libro, a: Aviso, t: int, e: string, s: string)
    requires e in a.nuevas && SeCorta(l, a, e) && s in a.nuevas[e].sitios
    ensures YaCortado(l.reglas + Reglas(PatronesCorte(l, a, t), t), s, t)
  {
    if !YaCortado(l.reglas, s, t) {
      PatternsChosen(l, a, Sorted(a.nuevas.Keys), t);
      assert Elegido(l, a, e, s, t);
    }
    CutByEither(l.reglas, PatronesCorte(l, a, t), s, t);
  }

  lemma CutByEither(reglas: seq<Regla>, patrones: seq<string>, s: string, t: int)
    requires YaCortado(reglas, s, t) || s in patrones
    ensures YaCortado(reglas + Reglas(patrones, t), s, t)
  {
    var todas := reglas + Reglas(patrones, t);
    if s in patrones {
      var i :| 0 <= i < |patrones| && patrones[i] == s;
      assert todas[|reglas| + i] == ReglaCorte(s, t);
    } else {
      var i :| 0 <= i < |reglas| && CortaAqui(reglas[i], t)
        && (reglas[i].forma == Sufijo || reglas[i].forma == Dominio) && reglas[i].patron == s;
      assert todas[i] == reglas[i];
    }
  }

  /** Every recorded site of a company that was cut has an active cut of this computer. */
  lemma CutSitesAreCut(l: Libro, id: nat, t: int, auto: bool, e: string, s: string)
    requires id in l.avisos && e in l.avisos[id].nuevas && s in l.avisos[id].nuevas[e].sitios
    ensures var r := Cortada(l, id, t, auto);
      id in r.avisos && (e !in r.avisos[id].sinCortar ==> exists i | 0 <= i < |r.reglas| :: Corte(r.reglas[i], s, t))
  {
    CutRules(l, id, t, auto);
    if SeCorta(l, l.avisos[id], e) {
      SiteOfCutCompany(l, l.avisos[id], t, e, s);
      var r := Cortada(l, id, t, auto).reglas;
      var i :| 0 <= i < |r| && CortaAqui(r[i], t) && (r[i].forma == Sufijo || r[i].forma == Dominio)
          && r[i].patron == s;
      assert Corte(r[i], s, t);
    }
  }

  /** The rule cuts the site and all under it, for this computer, at that time. */
  predicate Corte(r: Regla, sitio: string, t: int) {
    && r.patron == sitio && r.forma != Exacta && r.corta && r.deEsteEquipo
    && r.deshecha.None? && (r.caduca == None || r.caduca.value > t)
  }

  lemma ChosenHarmsNobody(l: Libro, a: Aviso, t: int, e: string, s: string, k: string, x: string)
    requires Elegido(l, a, e, s, t) && Ajena(l, a.clave, k, x)
    ensures s !in l.contratos[k].empresas[x].sitios
  {
    var suyos := l.contratos[k].empresas[x].sitios * a.nuevas[e].sitios;
    assert s in l.contratos[k].empresas[x].sitios ==> s in suyos;
    assert SitioComun(l.contratos[k].empresas[x], a.nuevas[e].sitios) <==> suyos != {};
  }

  lemma PatternHarmsNobody(l: Libro, a: Aviso, t: int, s: string, k: string, x: string)
    requires s in PatronesCorte(l, a, t)
    ensures exists e :: Elegido(l, a, e, s, t) && !a.nuevas[e].esperado
    ensures Ajena(l, a.clave, k, x) ==> s !in l.contratos[k].empresas[x].sitios
  {
    var orden := Sorted(a.nuevas.Keys);
    PatternsChosen(l, a, orden, t);
    var e :| e in orden && Elegido(l, a, e, s, t);
    if Ajena(l, a.clave, k, x) { ChosenHarmsNobody(l, a, t, e, s, k, x); }
  }

  /**
   * A rule a cut makes is an active cut of this computer, of a recorded site of some company that is not expected;
   * and no other program's contract has that site.
   */
  lemma CutHarmsNobody(l: Libro, id: nat, t: int, auto: bool, i: nat, k: string, x: string)
    requires id in l.avisos && |l.reglas| <= i < |Cortada(l, id, t, auto).reglas|
    ensures var a, r := l.avisos[id], Cortada(l, id, t, auto).reglas[i];
      && Corte(r, r.patron, t) && (exists e :: Elegido(l, a, e, r.patron, t) && !a.nuevas[e].esperado)
      && (Ajena(l, a.clave, k, x) ==> r.patron !in l.contratos[k].empresas[x].sitios)
  {
    var a := l.avisos[id];
    var patrones := PatronesCorte(l, a, t);
    CutRules(l, id, t, auto);
    assert Cortada(l, id, t, auto).reglas[i] == ReglaCorte(patrones[i - |l.reglas|], t);
    PatternHarmsNobody(l, a, t, patrones[i - |l.reglas|], k, x);
  }

  /** A cut company of the notice has the site, and it had no cut yet. */
  predicate LaArrastra(l: Libro, a: Aviso, s: string, t: int) {
    !YaCortado(l.reglas, s, t) && exists x | x in a.nuevas :: SeCorta(l, a, x) && s in a.nuevas[x].sitios
  }

  /** One of the rules made since is on the site. */
  predicate ReglaNueva(antes: seq<Regla>, reglas: seq<Regla>, s: string) {
    exists i | |antes| <= i < |reglas| :: reglas[i].patron == s
  }

  /** A company the cut leaves uncut has the site. */
  predicate QuedaSinCortar(l: Libro, a: Aviso, e: string, s: string) {
    e in a.nuevas && !SeCorta(l, a, e) && s in a.nuevas[e].sitios
  }

  /**
   * A site of a company left uncut gets a rule of the cut exactly when a company of the same notice that is cut has
   * that site too and it had no cut yet: what is kept out of a cut is the company, not its sites.
   */
  lemma LeftUncutSiteIsCut(l: Libro, id: nat, t: int, auto: bool, e: string, s: string)
    requires id in l.avisos && QuedaSinCortar(l, l.avisos[id], e, s)
    ensures var r := Cortada(l, id, t, auto);
      && id in r.avisos && e in r.avisos[id].sinCortar
      && (ReglaNueva(l.reglas, r.reglas, s) <==> LaArrastra(l, l.avisos[id], s, t))
  {
    var a, patrones := l.avisos[id], PatronesCorte(l, l.avisos[id], t);
    CutRules(l, id, t, auto);
    NewPatterns(l.reglas, patrones, s, t);
    PatternIsDragged(l, a, s, t);
  }

  lemma NewPatterns(reglas: seq<Regla>, patrones: seq<string>, s: string, t: int)
    ensures ReglaNueva(reglas, reglas + Reglas(patrones, t), s) <==> s in patrones
  {
    var r := reglas + Reglas(patrones, t);
    assert forall i | |reglas| <= i < |r| :: r[i].patron == patrones[i - |reglas|];
    if s in patrones {
      var j :| 0 <= j < |patrones| && patrones[j] == s;
      assert r[|reglas| + j].patron == s;
    }
  }

  lemma PatternIsDragged(l: Libro, a: Aviso, s: string, t: int)
    ensures s in PatronesCorte(l, a, t) <==> LaArrastra(l, a, s, t)
  {
    var orden := Sorted(a.nuevas.Keys);
    PatternsChosen(l, a, orden, t);
    if s in PatronesCorte(l, a, t) {
      var x :| x in orden && Elegido(l, a, x, s, t);
      assert SeCorta(l, a, x);
    }
    if LaArrastra(l, a, s, t) {
      var x :| x in a.nuevas && SeCorta(l, a, x) && s in a.nuevas[x].sitios;
      assert x in orden && Elegido(l, a, x, s, t);
    }
  }

  /** No rule of a cut is on a site of a company it left uncut, exactly when none of its cut companies has one uncut. */
  lemma CutSparesTheUncut(l: Libro, id: nat, t: int, auto: bool)
    requires id in l.avisos
    ensures var a, reglas := l.avisos[id], Cortada(l, id, t, auto).reglas;
      (forall e, s | QuedaSinCortar(l, a, e, s) :: !ReglaNueva(l.reglas, reglas, s))
      <==> (forall e, s | QuedaSinCortar(l, a, e, s) :: !LaArrastra(l, a, s, t))
  {
    var a, reglas := l.avisos[id], Cortada(l, id, t, auto).reglas;
    forall e, s | QuedaSinCortar(l, a, e, s) ensures ReglaNueva(l.reglas, reglas, s) <==> LaArrastra(l, a, s, t) {
      LeftUncutSiteIsCut(l, id, t, auto, e, s);
    }
  }

  /** Tables with one open notice: of a company the computer needs, and of another with the same site. */
  function DosDeUnSitio(): Libro {
    Libro(map["p" := Contrato("p", "p", "", "", "", "", "", 0, 0, 0, [], Vigilando, SinMotivo, Some(0),
                              map[], {"a", "b"}, {}, [])],
          map[1 := Aviso("p", "p", "", "", 0, 0, {},
                         map["a" := Empresa({}, {"s"}, 0, 0, 1, "", true),
                             "b" := Empresa({}, {"s"}, 0, 0, 1, "", false)],
                         Abierto, None, [], map[])],
          2, [], [], 0, None, [])
  }

  /** Cutting it leaves `a` uncut because the computer needs it, and cuts its only site. */
  lemma ExpectedSiteIsCut(t: int)
    ensures var l := DosDeUnSitio();
            var r := Cortar(l, 1, t);
      && Tablas(l) && 1 in r.avisos && "a" in r.avisos[1].sinCortar && r.avisos[1].sinCortar["a"] == Esperado
      && exists i | 0 <= i < |r.reglas| :: Corte(r.reglas[i], "s", t)
  {
    TwoOfOneSite();
    OneIsDragged(DosDeUnSitio(), DosDeUnSitio().avisos[1], t);
  }

  lemma TwoOfOneSite()
    ensures Tablas(DosDeUnSitio()) && HayAbierto(DosDeUnSitio(), 1)
  {
    var l := DosDeUnSitio();
    assert 1 in Abiertos(l, "p") && "a" in l.avisos[1].nuevas;
    assert ContratoBien(l.contratos["p"], "p") && AvisoBien(l.contratos, l.avisos[1]);
  }

  lemma OneIsDragged(l: Libro, a: Aviso, t: int)
    requires 1 in l.avisos && a == l.avisos[1] && a.estado == Abierto && "a" in a.nuevas && "b" in a.nuevas
        && "s" in a.nuevas["b"].sitios
    requires a.nuevas["a"].esperado && !a.nuevas["b"].esperado
        && forall k | k in l.contratos :: l.contratos[k].clave == a.clave
    ensures var r := Cortar(l, 1, t);
      && 1 in r.avisos && "a" in r.avisos[1].sinCortar && r.avisos[1].sinCortar["a"] == Esperado
      && exists i | 0 <= i < |r.reglas| :: Corte(r.reglas[i], "s", t)
  {
    assert SeCorta(l, a, "b") && !SeCorta(l, a, "a");
    CutRules(l, 1, t, false);
    CutSitesAreCut(l, 1, t, false, "b", "s");
  }

  // ----- cutting and undoing -----

  /** Undoing the rules numbered from `n` on leaves the ones before, and none of them active ever. */
  lemma {:induction false} UndoneRange(reglas: seq<Regla>, n: nat, k: nat, t: int)
    requires 1 <= n && n + k == |reglas| + 1
    ensures var r := ReglasDeshechas(reglas, Numeros(n, k), t);
      r[..n - 1] == reglas[..n - 1] && forall i | n - 1 <= i < |r| :: r[i].deshecha.Some?
    decreases k
  {
    UndoneFrom(reglas, n, n, k, t);
  }

  lemma {:induction false} UndoneFrom(reglas: seq<Regla>, first: nat, n: nat, k: nat, t: int)
    requires 1 <= first <= n && n + k == |reglas| + 1
    requires forall i | first - 1 <= i < n - 1 :: reglas[i].deshecha.Some?
    ensures var r := ReglasDeshechas(reglas, Numeros(n, k), t);
      |r| == |reglas| && r[..first - 1] == reglas[..first - 1] && forall i | first - 1 <= i < |r| :: r[i].deshecha.Some?
    decreases k
  {
    if k > 0 {
      var m := ReglaDeshecha(reglas, n, t);
      assert Numeros(n, k)[1..] == Numeros(n + 1, k - 1);
      UndoneFrom(m, first, n + 1, k - 1, t);
      assert m[..first - 1] == reglas[..first - 1];
    }
  }

  lemma CutTables(l: Libro, id: nat, t: int)
    requires HayAbierto(l, id) && l.avisos[id].clave in l.contratos
    ensures var a, m := l.avisos[id], Cortada(l, id, t, false);
      && HayCorte(m, id) && m.contratos == ContratosCortados(l, a)
  {
  }

  lemma UndoTables(m: Libro, id: nat, u: int)
    requires HayCorte(m, id) && m.avisos[id].clave in m.contratos
    ensures var a, r := m.avisos[id], Deshacer(m, id, u);
      && r.contratos == m.contratos[a.clave := ContratoDeshecho(m.contratos[a.clave], a)]
      && r.reglas == ReglasDeshechas(m.reglas, a.reglas, u)
  {
  }

  lemma UndoneSame(c: Contrato, a: Aviso, b: Aviso)
    requires a.nuevas == b.nuevas
    ensures ContratoDeshecho(c, a) == ContratoDeshecho(c, b)
  {
  }

  lemma AcceptTables(l: Libro, id: nat, u: int)
    requires HayAbierto(l, id) && l.avisos[id].clave in l.contratos
    ensures var a, r := l.avisos[id], Aceptar(l, id, u);
      r.contratos == l.contratos[a.clave := ContratoAceptado(l.contratos[a.clave], a)] && r.reglas == l.reglas
  {
  }

  lemma CutThenUndoContracts(l: Libro, m: Libro, id: nat, u: int)
    requires id in l.avisos && id in m.avisos && m.avisos[id].nuevas == l.avisos[id].nuevas
    requires m.avisos[id].clave == l.avisos[id].clave && l.avisos[id].clave in l.contratos
    requires HayCorte(m, id) && m.contratos == ContratosCortados(l, l.avisos[id])
    ensures var a := l.avisos[id];
      Deshacer(m, id, u).contratos
        == l.contratos[a.clave := ContratoDeshecho(ContratoCortado(l.contratos[a.clave], a, Cortables(l, a)), a)]
  {
    var a := l.avisos[id];
    UndoTables(m, id, u);
    UndoneSame(ContratoCortado(l.contratos[a.clave], a, Cortables(l, a)), a, m.avisos[id]);
  }

  lemma CutThenUndoRules(l: Libro, m: Libro, id: nat, t: int, u: int)
    requires id in l.avisos && l.avisos[id].reglas == [] && HayCorte(m, id) && m.avisos[id].clave in m.contratos
    requires var patrones := PatronesCorte(l, l.avisos[id], t);
      m.reglas == l.reglas + Reglas(patrones, t) && m.avisos[id].reglas == [] + Numeros(|l.reglas| + 1, |patrones|)
    ensures var r := Deshacer(m, id, u).reglas;
      l.reglas <= r && forall i | |l.reglas| <= i < |r| :: r[i].deshecha.Some?
  {
    UndoTables(m, id, u);
    var numeros := Numeros(|l.reglas| + 1, |PatronesCorte(l, l.avisos[id], t)|);
    assert [] + numeros == numeros;
    UndoneRange(m.reglas, |l.reglas| + 1, |numeros|, u);
  }

  /** The tables after a cut undone are as after accepting but for the undone rules; `k` is the notice's program. */
  ghost predicate ComoAceptado(l: Libro, undone: Libro, accepted: Libro, k: string) {
    && k in l.contratos && k in undone.contratos && k in accepted.contratos
    && undone.contratos[k].empresas == accepted.contratos[k].empresas
    && undone.contratos[k].pendientes == accepted.contratos[k].pendientes == {}
    && undone.contratos[k].cortadas == accepted.contratos[k].cortadas == l.contratos[k].cortadas
    && undone.contratos.Keys == accepted.contratos.Keys == l.contratos.Keys
    && (forall y | y in l.contratos && y != k :: undone.contratos[y] == accepted.contratos[y] == l.contratos[y])
    && accepted.reglas == l.reglas && l.reglas <= undone.reglas
    && (forall i, x: int | |l.reglas| <= i < |undone.reglas| :: !Activa(undone.reglas[i], x))
  }

  /**
   * Cutting and then undoing leaves what accepting leaves: the same companies, nothing pending, the same cut
   * ones; and the rules that were there before are as they were, the ones made never active again.
   */
  lemma CutThenUndoIsAccept(l: Libro, id: nat, t: int, u: int)
    requires Tablas(l) && HayAbierto(l, id)
    ensures ComoAceptado(l, Deshacer(Cortar(l, id, t), id, u), Aceptar(l, id, u), l.avisos[id].clave)
  {
    var a, m := l.avisos[id], Cortada(l, id, t, false);
    assert AvisoBien(l.contratos, a);
    assert ContratoBien(l.contratos[a.clave], a.clave);
    CutTables(l, id, t);
    CutRules(l, id, t, false);
    CutThenUndoContracts(l, m, id, u);
    CutThenUndoRules(l, m, id, t, u);
    AcceptTables(l, id, u);
    SameTables(l, a, Deshacer(m, id, u), Aceptar(l, id, u));
  }

  lemma SameTables(l: Libro, a: Aviso, undone: Libro, accepted: Libro)
    requires a.clave in l.contratos && l.contratos[a.clave].pendientes == a.nuevas.Keys
    requires l.contratos[a.clave].pendientes !! l.contratos[a.clave].cortadas
    requires accepted.contratos == l.contratos[a.clave := ContratoAceptado(l.contratos[a.clave], a)]
    requires undone.contratos
      == l.contratos[a.clave := ContratoDeshecho(ContratoCortado(l.contratos[a.clave], a, Cortables(l, a)), a)]
    requires accepted.reglas == l.reglas && l.reglas <= undone.reglas
    requires forall i | |l.reglas| <= i < |undone.reglas| :: undone.reglas[i].deshecha.Some?
    ensures ComoAceptado(l, undone, accepted, a.clave)
  {
    var c, cortadas := l.contratos[a.clave], Cortables(l, a);
    assert c.empresas + Entradas(a.nuevas, a.nuevas.Keys - cortadas) + a.nuevas == c.empresas + a.nuevas;
    assert (c.cortadas + cortadas) - a.nuevas.Keys == c.cortadas;
  }
}
