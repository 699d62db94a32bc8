/** generar_mps (server/app/services/mps.py): for every SKU of the forecast,
    the week loop over the sorted union of the forecast's week keys, carrying
    each week's closing stock into the next week's opening stock, and the plan
    it returns. The database reads are inputs: the parameters, and for each
    SKU its stored gram weight, its average scrap and its production history
    (see Mps.EntradaSku). */
module MpsPlan {
  import opened Outcomes
  import opened Mps
  import StrOrder

  // ---------------------------------------------------------------------------
  // The week recurrence of one SKU

  /** The rows of the weeks `semanas`, in order, the first opening with
      `inicial` and every later one with the closing stock of the week before;
      the first week that raises ends the loop with its exception. */
  function Filas(p: Parametros, e: EntradaSku, semanas: seq<string>, inicial: int): (r: Result<seq<Fila>>)
    ensures r.Ok? ==> |r.value| == |semanas|
    decreases |semanas|
  {
    if |semanas| == 0 then Ok([])
    else
      match Filas(p, e, semanas[..|semanas| - 1], inicial)
      case Raise(x) => Raise(x)
      case Ok(filas) =>
        var apertura := if |filas| == 0 then inicial else filas[|filas| - 1].inventarioFinal;
        match Semana(p, e, semanas[|semanas| - 1], apertura)
        case Raise(x) => Raise(x)
        case Ok(f) => Ok(filas + [f])
  }

  /** The opening stock of week i: the first estimate, then the previous
      week's closing stock. */
  function Apertura(filas: seq<Fila>, i: int, inicial: int): int
    requires 0 <= i <= |filas|
  {
    if i == 0 then inicial else filas[i - 1].inventarioFinal
  }

  /** The carry: every row is the week's row for the opening stock the
      recurrence hands it, which is the first estimate for week 0 and the
      closing stock of week i - 1 afterwards. */
  lemma {:induction false} Arrastre(p: Parametros, e: EntradaSku, semanas: seq<string>, inicial: int)
    requires Filas(p, e, semanas, inicial).Ok?
    ensures var filas := Filas(p, e, semanas, inicial).value;
      forall i :: 0 <= i < |semanas| ==>
        && Semana(p, e, semanas[i], Apertura(filas, i, inicial)) == Ok(filas[i])
        && filas[i].inventarioInicial == Apertura(filas, i, inicial)
    decreases |semanas|
  {
    if |semanas| > 0 {
      var n := |semanas| - 1;
      Arrastre(p, e, semanas[..n], inicial);
      UltimaFila(p, e, semanas, inicial);
      ArrastrePrefijo(p, e, semanas, inicial);
    }
  }

  /** The rows before the last keep the carry they had without the last
      week. */
  lemma ArrastrePrefijo(p: Parametros, e: EntradaSku, semanas: seq<string>, inicial: int)
    requires |semanas| > 0 && Filas(p, e, semanas, inicial).Ok?
    requires var n := |semanas| - 1;
      var previas := Filas(p, e, semanas[..n], inicial);
      && previas.Ok?
      && Filas(p, e, semanas, inicial).value[..n] == previas.value
      && forall i :: 0 <= i < n ==>
        && Semana(p, e, semanas[..n][i], Apertura(previas.value, i, inicial)) == Ok(previas.value[i])
        && previas.value[i].inventarioInicial == Apertura(previas.value, i, inicial)
    ensures var filas := Filas(p, e, semanas, inicial).value;
      forall i :: 0 <= i < |semanas| - 1 ==>
        && Semana(p, e, semanas[i], Apertura(filas, i, inicial)) == Ok(filas[i])
        && filas[i].inventarioInicial == Apertura(filas, i, inicial)
  {
    var n := |semanas| - 1;
    var previas := Filas(p, e, semanas[..n], inicial).value;
    var filas := Filas(p, e, semanas, inicial).value;
    forall i | 0 <= i < n
      ensures Semana(p, e, semanas[i], Apertura(filas, i, inicial)) == Ok(filas[i])
      ensures filas[i].inventarioInicial == Apertura(filas, i, inicial)
    {
      assert semanas[..n][i] == semanas[i] && previas[i] == filas[i];
      assert Apertura(previas, i, inicial) == Apertura(filas, i, inicial);
    }
  }

  /** The last row is the last week's row, opened with the closing stock of
      the rows before it, which it extends. */
  lemma UltimaFila(p: Parametros, e: EntradaSku, semanas: seq<string>, inicial: int)
    requires |semanas| > 0 && Filas(p, e, semanas, inicial).Ok?
    ensures var n := |semanas| - 1;
      var filas := Filas(p, e, semanas, inicial).value;
      && Filas(p, e, semanas[..n], inicial).Ok?
      && filas[..n] == Filas(p, e, semanas[..n], inicial).value
      && Semana(p, e, semanas[n], Apertura(filas, n, inicial)) == Ok(filas[n])
      && filas[n].inventarioInicial == Apertura(filas, n, inicial)
  {
    var n := |semanas| - 1;
    var previas := Filas(p, e, semanas[..n], inicial).value;
    var filas := Filas(p, e, semanas, inicial).value;
    assert filas == previas + [filas[n]];
    assert Apertura(filas, n, inicial) == Apertura(previas, n, inicial);
    FilaDeLaSemana(p, e, semanas[n], Apertura(filas, n, inicial));
  }

  /** The loop raises exactly when there is a week and the SKU's stored weight
      is 0 or its scrap is 1, and then with ZeroDivisionError. */
  lemma {:induction false} FilasFalla(p: Parametros, e: EntradaSku, semanas: seq<string>, inicial: int)
    ensures Filas(p, e, semanas, inicial).Raise?
        <==> |semanas| > 0 && (e.gramosDb == Some(0) || e.scrapPromedio == 1.0)
    ensures Filas(p, e, semanas, inicial).Raise?
        ==> Filas(p, e, semanas, inicial).exc == ZeroDivisionError
    decreases |semanas|
  {
    if |semanas| > 0 {
      var n := |semanas| - 1;
      FilasFalla(p, e, semanas[..n], inicial);
      var previas := Filas(p, e, semanas[..n], inicial);
      if previas.Ok? {
        var filas := previas.value;
        var apertura := if |filas| == 0 then inicial else filas[|filas| - 1].inventarioFinal;
      }
    }
  }

  /** The weeks' closing stock stays near the safety stock: with the SKU in
      the database and a realistic scrap, every week produces at least its net
      requirement and closes at no less than its safety stock minus one. */
  lemma CierresAcotados(p: Parametros, e: EntradaSku, semanas: seq<string>, inicial: int)
    requires e.gramosDb.Some? && e.gramosDb.value != 0
    requires 0.0 <= e.scrapPromedio < 1.0
    ensures Filas(p, e, semanas, inicial).Ok?
    ensures var filas := Filas(p, e, semanas, inicial).value;
      forall i :: 0 <= i < |filas| ==>
        && filas[i].produccion >= NecesidadNeta(filas[i].demanda, filas[i].stockSeguridad, filas[i].inventarioInicial)
        && filas[i].inventarioFinal >= filas[i].stockSeguridad - 1
  {
    FilasFalla(p, e, semanas, inicial);
    Arrastre(p, e, semanas, inicial);
    var filas := Filas(p, e, semanas, inicial).value;
    forall i | 0 <= i < |filas|
      ensures filas[i].produccion >= NecesidadNeta(filas[i].demanda, filas[i].stockSeguridad, filas[i].inventarioInicial)
      ensures filas[i].inventarioFinal >= filas[i].stockSeguridad - 1
    {
      CierreJuntoAlStockSeguridad(p, e, semanas[i], Apertura(filas, i, inicial));
    }
  }

  // ---------------------------------------------------------------------------
  // The plan of one SKU

  /** mps_sku: the SKU's identity and, per week key, the stored values. */
  datatype PlanSku = PlanSku(
    skuId: int,
    nombre: string,
    presentacionG: int,
    demanda: map<string, int>,
    inventarioInicial: map<string, int>,
    stockSeguridad: map<string, int>,
    scrap: map<string, real>,
    produccion: map<string, int>,
    inventarioFinal: map<string, int>,
    alertas: map<string, seq<Alerta>>)

  /** A plan with no week stored yet. */
  function PlanVacio(e: EntradaSku): PlanSku
  {
    PlanSku(e.skuId, e.nombre, e.presentacionG, map[], map[], map[], map[], map[], map[], map[])
  }

  /** The plan after storing the row of week `semana`. */
  function Anotar(plan: PlanSku, semana: string, f: Fila): PlanSku
  {
    plan.(demanda := plan.demanda[semana := f.demanda],
          inventarioInicial := plan.inventarioInicial[semana := f.inventarioInicial],
          stockSeguridad := plan.stockSeguridad[semana := f.stockSeguridad],
          scrap := plan.scrap[semana := f.scrap],
          produccion := plan.produccion[semana := f.produccion],
          inventarioFinal := plan.inventarioFinal[semana := f.inventarioFinal],
          alertas := plan.alertas[semana := f.alertas])
  }

  /** The plan that stores the rows `filas` under the weeks `semanas`, in
      order. Storing a row never changes the SKU's identity. */
  function PlanDe(e: EntradaSku, semanas: seq<string>, filas: seq<Fila>): (r: PlanSku)
    requires |semanas| == |filas|
    ensures r.skuId == e.skuId && r.nombre == e.nombre && r.presentacionG == e.presentacionG
    decreases |semanas|
  {
    if |semanas| == 0 then PlanVacio(e)
    else
      var n := |semanas| - 1;
      Anotar(PlanDe(e, semanas[..n], filas[..n]), semanas[n], filas[n])
  }

  predicate Distintas(semanas: seq<string>)
  {
    forall i, j :: 0 <= i < j < |semanas| ==> semanas[i] != semanas[j]
  }

  /** Every week gets an entry in every map, no other key appears, and for
      distinct weeks the entry of week i is row i's value. */
  lemma PlanCubre(e: EntradaSku, semanas: seq<string>, filas: seq<Fila>)
    requires |semanas| == |filas| && Distintas(semanas)
    ensures var plan := PlanDe(e, semanas, filas);
      && plan.skuId == e.skuId && plan.nombre == e.nombre && plan.presentacionG == e.presentacionG
      && ClavesSon(plan, set x | x in semanas)
      && forall i :: 0 <= i < |semanas| ==> Guarda(plan, semanas[i], filas[i])
  {
    PlanClaves(e, semanas, filas);
    PlanValores(e, semanas, filas);
  }

  /** Every map of the plan has exactly the keys `claves`. */
  predicate ClavesSon(plan: PlanSku, claves: set<string>)
  {
    && plan.demanda.Keys == claves
    && plan.inventarioInicial.Keys == claves
    && plan.stockSeguridad.Keys == claves
    && plan.scrap.Keys == claves
    && plan.produccion.Keys == claves
    && plan.inventarioFinal.Keys == claves
    && plan.alertas.Keys == claves
  }

  /** The plan stores row f under week `semana`. */
  predicate Guarda(plan: PlanSku, semana: string, f: Fila)
  {
    && semana in plan.demanda && plan.demanda[semana] == f.demanda
    && semana in plan.inventarioInicial && plan.inventarioInicial[semana] == f.inventarioInicial
    && semana in plan.stockSeguridad && plan.stockSeguridad[semana] == f.stockSeguridad
    && semana in plan.scrap && plan.scrap[semana] == f.scrap
    && semana in plan.produccion && plan.produccion[semana] == f.produccion
    && semana in plan.inventarioFinal && plan.inventarioFinal[semana] == f.inventarioFinal
    && semana in plan.alertas && plan.alertas[semana] == f.alertas
  }

  lemma {:induction false} PlanClaves(e: EntradaSku, semanas: seq<string>, filas: seq<Fila>)
    requires |semanas| == |filas|
    ensures var plan := PlanDe(e, semanas, filas);
      && plan.skuId == e.skuId && plan.nombre == e.nombre && plan.presentacionG == e.presentacionG
      && ClavesSon(plan, set x | x in semanas)
    decreases |semanas|
  {
    if |semanas| > 0 {
      var n := |semanas| - 1;
      PlanClaves(e, semanas[..n], filas[..n]);
      assert semanas == semanas[..n] + [semanas[n]];
      assert (set x | x in semanas) == (set x | x in semanas[..n]) + {semanas[n]};
      AnotarClaves(PlanDe(e, semanas[..n], filas[..n]), (set x | x in semanas[..n]), semanas[n], filas[n]);
    }
  }

  /** Storing a row adds its week to every map's keys and keeps the SKU's
      identity. */
  lemma AnotarClaves(plan: PlanSku, claves: set<string>, semana: string, f: Fila)
    requires ClavesSon(plan, claves)
    ensures var nuevo := Anotar(plan, semana, f);
      && nuevo.skuId == plan.skuId && nuevo.nombre == plan.nombre
      && nuevo.presentacionG == plan.presentacionG
      && ClavesSon(nuevo, claves + {semana})
  {
    ClavesTrasAnotar(plan.demanda, semana, f.demanda);
    ClavesTrasAnotar(plan.inventarioInicial, semana, f.inventarioInicial);
    ClavesTrasAnotar(plan.stockSeguridad, semana, f.stockSeguridad);
    ClavesTrasAnotar(plan.scrap, semana, f.scrap);
    ClavesTrasAnotar(plan.produccion, semana, f.produccion);
    ClavesTrasAnotar(plan.inventarioFinal, semana, f.inventarioFinal);
    ClavesTrasAnotar(plan.alertas, semana, f.alertas);
  }

  /** A fresh entry holds the SKU's identity and no week. */
  lemma PlanVacioSinSemanas(e: EntradaSku)
    ensures var plan := PlanVacio(e);
      && plan.skuId == e.skuId && plan.nombre == e.nombre && plan.presentacionG == e.presentacionG
      && ClavesSon(plan, {})
  {
  }

  /** Storing a row puts each of its values under the week, and leaves the
      other weeks' entries alone. */
  lemma AnotarGuarda(plan: PlanSku, semana: string, f: Fila, otra: string, g: Fila)
    ensures Guarda(Anotar(plan, semana, f), semana, f)
    ensures otra != semana && Guarda(plan, otra, g) ==> Guarda(Anotar(plan, semana, f), otra, g)
  {
  }

  lemma ClavesTrasAnotar<V>(m: map<string, V>, k: string, v: V)
    ensures m[k := v].Keys == m.Keys + {k}
  {
  }

  lemma {:induction false} PlanValores(e: EntradaSku, semanas: seq<string>, filas: seq<Fila>)
    requires |semanas| == |filas| && Distintas(semanas)
    ensures forall i :: 0 <= i < |semanas| ==> Guarda(PlanDe(e, semanas, filas), semanas[i], filas[i])
    decreases |semanas|
  {
    if |semanas| > 0 {
      var n := |semanas| - 1;
      var previo := PlanDe(e, semanas[..n], filas[..n]);
      PlanValores(e, semanas[..n], filas[..n]);
      forall i | 0 <= i < |semanas| ensures Guarda(PlanDe(e, semanas, filas), semanas[i], filas[i]) {
        if i < n {
          assert semanas[..n][i] == semanas[i] && filas[..n][i] == filas[i];
          assert Guarda(previo, semanas[i], filas[i]);
          assert semanas[i] != semanas[n];
        }
      }
    }
  }

  /** The plan of one SKU, as the loop body of generar_mps builds it: the first
      week's opening stock is estimated from semanas_ordenadas[0], which does
      not exist when there are no weeks. */
  function PlanSkuDe(p: Parametros, e: EntradaSku, semanas: seq<string>): Result<PlanSku>
  {
    if |semanas| == 0 then Raise(IndexError)
    else
      match Filas(p, e, semanas, InventarioInicial(e.historial))
      case Raise(x) => Raise(x)
      case Ok(filas) => Ok(PlanDe(e, semanas, filas))
  }

  /** A SKU's plan fails exactly when there is no week (IndexError), or when
      its stored weight is 0 or its scrap is 1 (ZeroDivisionError). */
  lemma PlanSkuFalla(p: Parametros, e: EntradaSku, semanas: seq<string>)
    ensures PlanSkuDe(p, e, semanas).Raise?
        <==> |semanas| == 0 || e.gramosDb == Some(0) || e.scrapPromedio == 1.0
    ensures PlanSkuDe(p, e, semanas).Raise?
        ==> PlanSkuDe(p, e, semanas).exc == if |semanas| == 0 then IndexError else ZeroDivisionError
  {
    FilasFalla(p, e, semanas, InventarioInicial(e.historial));
  }

  /** A SKU's plan in terms of its weeks: for distinct week keys, each key is
      stored once, with the demand read as 0 when the forecast has none, the
      first opening stock the estimate from the production history and every
      later one the previous week's closing stock. */
  lemma PlanSkuSemanas(p: Parametros, e: EntradaSku, semanas: seq<string>)
    requires PlanSkuDe(p, e, semanas).Ok? && Distintas(semanas)
    ensures var plan := PlanSkuDe(p, e, semanas).value;
      && plan.skuId == e.skuId && plan.nombre == e.nombre && plan.presentacionG == e.presentacionG
      && ClavesSon(plan, set x | x in semanas)
      && plan.inventarioInicial[semanas[0]] == InventarioInicial(e.historial)
      && (forall i :: 0 < i < |semanas| ==>
            plan.inventarioInicial[semanas[i]] == plan.inventarioFinal[semanas[i - 1]])
      && (forall i :: 0 <= i < |semanas| ==>
            plan.demanda[semanas[i]] == if semanas[i] in e.demanda then e.demanda[semanas[i]] else 0)
  {
    var inicial := InventarioInicial(e.historial);
    var filas := Filas(p, e, semanas, inicial).value;
    Arrastre(p, e, semanas, inicial);
    PlanCubre(e, semanas, filas);
    forall i | 0 <= i < |semanas|
      ensures filas[i].demanda == if semanas[i] in e.demanda then e.demanda[semanas[i]] else 0
    {
      FilaDeLaSemana(p, e, semanas[i], Apertura(filas, i, inicial));
    }
  }

  // ---------------------------------------------------------------------------
  // The whole plan

  /** The dictionary generar_mps returns. */
  datatype Plan = Plan(semanas: seq<string>, capacidadSemanal: real, data: seq<PlanSku>)

  /** todas_semanas: the union of the forecast's week keys. */
  function SemanasDe(pronostico: seq<EntradaSku>): (r: set<string>)
    ensures forall x :: x in r <==> exists k :: 0 <= k < |pronostico| && x in pronostico[k].semanas
    decreases |pronostico|
  {
    if |pronostico| == 0 then {}
    else
      var n := |pronostico| - 1;
      var previas := SemanasDe(pronostico[..n]);
      assert forall k :: 0 <= k < n ==> pronostico[..n][k] == pronostico[k];
      previas + set x | x in pronostico[n].semanas
  }

  /** The plans of the forecast's SKUs, in the forecast's order, over the
      weeks `semanas`; the first SKU that raises ends the plan. */
  function PlanesDe(p: Parametros, pronostico: seq<EntradaSku>, semanas: seq<string>): (r: Result<seq<PlanSku>>)
    ensures r.Ok? ==> |r.value| == |pronostico|
  {
    Recolectar(PlanesPorSku(p, pronostico, semanas))
  }

  /** The outcome of every SKU's week loop, in the forecast's order. */
  function PlanesPorSku(p: Parametros, pronostico: seq<EntradaSku>, semanas: seq<string>): (rs: seq<Result<PlanSku>>)
    ensures |rs| == |pronostico|
  {
    seq(|pronostico|, k requires 0 <= k < |pronostico| => PlanSkuDe(p, pronostico[k], semanas))
  }

  /** The values of a sequence of outcomes, in order, or the first exception
      among them. */
  function Recolectar<T>(rs: seq<Result<T>>): (r: Result<seq<T>>)
    ensures r.Ok? ==> |r.value| == |rs|
    decreases |rs|
  {
    if |rs| == 0 then Ok([])
    else
      match Recolectar(rs[..|rs| - 1])
      case Raise(x) => Raise(x)
      case Ok(vs) =>
        match rs[|rs| - 1]
        case Raise(x) => Raise(x)
        case Ok(v) => Ok(vs + [v])
  }

  /** Collected values are the outcomes' values, position by position. */
  lemma {:induction false} RecolectarValores<T>(rs: seq<Result<T>>)
    requires Recolectar(rs).Ok?
    ensures forall k :: 0 <= k < |rs| ==> rs[k] == Ok(Recolectar(rs).value[k])
    decreases |rs|
  {
    if |rs| > 0 {
      var n := |rs| - 1;
      RecolectarValores(rs[..n]);
      var vs := Recolectar(rs[..n]).value;
      assert Recolectar(rs).value == vs + [rs[n].value];
      forall k | 0 <= k < |rs| ensures rs[k] == Ok(Recolectar(rs).value[k]) {
        if k < n {
          assert rs[..n][k] == rs[k];
          assert (vs + [rs[n].value])[k] == vs[k];
        }
      }
    }
  }

  /** Collecting raises exactly when some outcome raises, and then with the
      exception of one that does. */
  lemma {:induction false} RecolectarFalla<T>(rs: seq<Result<T>>)
    ensures Recolectar(rs).Raise? <==> exists k :: 0 <= k < |rs| && rs[k].Raise?
    ensures Recolectar(rs).Raise? ==>
      exists k :: 0 <= k < |rs| && rs[k].Raise? && rs[k].exc == Recolectar(rs).exc
    decreases |rs|
  {
    if |rs| > 0 {
      var n := |rs| - 1;
      RecolectarFalla(rs[..n]);
      if exists k :: 0 <= k < n && rs[..n][k].Raise? {
        var k :| 0 <= k < n && rs[..n][k].Raise?;
        assert rs[k] == rs[..n][k];
      }
      if Recolectar(rs[..n]).Raise? {
        var k :| 0 <= k < n && rs[..n][k].Raise? && rs[..n][k].exc == Recolectar(rs[..n]).exc;
        assert rs[k] == rs[..n][k];
      } else {
        RecolectarValores(rs[..n]);
        forall k | 0 <= k < n ensures rs[k].Ok? {
          assert rs[k] == rs[..n][k];
        }
      }
    }
  }

  /** One more outcome at the end. */
  lemma RecolectarUnoMas<T>(rs: seq<Result<T>>, vs: seq<T>, r: Result<T>)
    requires Recolectar(rs) == Ok(vs)
    ensures Recolectar(rs + [r]) == if r.Ok? then Ok(vs + [r.value]) else Raise(r.exc)
  {
    assert (rs + [r])[..|rs|] == rs;
  }

  /** Every SKU of the forecast gets its own plan, in order. */
  lemma PlanesCubren(p: Parametros, pronostico: seq<EntradaSku>, semanas: seq<string>)
    requires PlanesDe(p, pronostico, semanas).Ok?
    ensures forall k :: 0 <= k < |pronostico| ==>
      PlanSkuDe(p, pronostico[k], semanas) == Ok(PlanesDe(p, pronostico, semanas).value[k])
  {
    RecolectarValores(PlanesPorSku(p, pronostico, semanas));
  }

  /** The outcomes of one more SKU. */
  lemma PorSkuUnoMas(p: Parametros, pronostico: seq<EntradaSku>, semanas: seq<string>, i: int)
    requires 0 <= i < |pronostico|
    ensures PlanesPorSku(p, pronostico[..i + 1], semanas)
         == PlanesPorSku(p, pronostico[..i], semanas) + [PlanSkuDe(p, pronostico[i], semanas)]
  {
    var a := PlanesPorSku(p, pronostico[..i + 1], semanas);
    var b := PlanesPorSku(p, pronostico[..i], semanas) + [PlanSkuDe(p, pronostico[i], semanas)];
    assert |a| == |b|;
    forall k | 0 <= k < |a| ensures a[k] == b[k] {
      if k < i {
        assert pronostico[..i + 1][k] == pronostico[..i][k];
      }
    }
  }

  /** Some SKU of the forecast makes its week loop divide by zero. */
  predicate AlgunaDivisionPorCero(pronostico: seq<EntradaSku>)
  {
    exists k :: 0 <= k < |pronostico|
      && (pronostico[k].gramosDb == Some(0) || pronostico[k].scrapPromedio == 1.0)
  }

  /** Whether generar_mps raises does not depend on the SKUs' order: exactly
      when there is a SKU and either no week at all or a SKU that divides by
      zero. */
  predicate FallaElPlan(pronostico: seq<EntradaSku>, semanas: seq<string>)
  {
    |pronostico| > 0 && (|semanas| == 0 || AlgunaDivisionPorCero(pronostico))
  }

  lemma PlanesFalla(p: Parametros, pronostico: seq<EntradaSku>, semanas: seq<string>)
    ensures PlanesDe(p, pronostico, semanas).Raise? <==> FallaElPlan(pronostico, semanas)
    ensures PlanesDe(p, pronostico, semanas).Raise?
        ==> PlanesDe(p, pronostico, semanas).exc == if |semanas| == 0 then IndexError else ZeroDivisionError
  {
    var rs := PlanesPorSku(p, pronostico, semanas);
    RecolectarFalla(rs);
    forall k | 0 <= k < |pronostico|
      ensures rs[k].Raise? <==> |semanas| == 0 || pronostico[k].gramosDb == Some(0) || pronostico[k].scrapPromedio == 1.0
      ensures rs[k].Raise? ==> rs[k].exc == if |semanas| == 0 then IndexError else ZeroDivisionError
    {
      PlanSkuFalla(p, pronostico[k], semanas);
    }
    if FallaElPlan(pronostico, semanas) && |semanas| == 0 {
      assert rs[0].Raise?;
    }
  }

  /** Sorted week keys are distinct. */
  lemma OrdenadasSonDistintas(semanas: seq<string>)
    requires StrOrder.StrictlySorted(semanas)
    ensures Distintas(semanas)
  {
    forall i, j | 0 <= i < j < |semanas| ensures semanas[i] != semanas[j] {
      StrOrder.LessIrreflexive(semanas[i]);
    }
  }

  /** Plan coverage: over sorted weeks, every SKU of the forecast gets, in
      the forecast's order, an entry for every week and no other, with the
      demand read as 0 when its forecast has none and the opening stock
      carried from the week before. */
  lemma PlanCompleto(p: Parametros, pronostico: seq<EntradaSku>, semanas: seq<string>)
    requires StrOrder.StrictlySorted(semanas)
    requires PlanesDe(p, pronostico, semanas).Ok?
    ensures var data := PlanesDe(p, pronostico, semanas).value;
      forall k :: 0 <= k < |pronostico| ==>
        && data[k].skuId == pronostico[k].skuId
        && data[k].nombre == pronostico[k].nombre
        && ClavesSon(data[k], set x | x in semanas)
        && (forall i :: 0 < i < |semanas| ==>
              data[k].inventarioInicial[semanas[i]] == data[k].inventarioFinal[semanas[i - 1]])
        && (forall i :: 0 <= i < |semanas| ==>
              data[k].demanda[semanas[i]] == DemandaDe(pronostico[k], semanas[i]))
  {
    OrdenadasSonDistintas(semanas);
    PlanesCubren(p, pronostico, semanas);
    var data := PlanesDe(p, pronostico, semanas).value;
    forall k | 0 <= k < |pronostico|
      ensures data[k].skuId == pronostico[k].skuId
      ensures data[k].nombre == pronostico[k].nombre
      ensures ClavesSon(data[k], set x | x in semanas)
      ensures forall i :: 0 < i < |semanas| ==>
              data[k].inventarioInicial[semanas[i]] == data[k].inventarioFinal[semanas[i - 1]]
      ensures forall i :: 0 <= i < |semanas| ==>
              data[k].demanda[semanas[i]] == DemandaDe(pronostico[k], semanas[i])
    {
      PlanSkuSemanas(p, pronostico[k], semanas);
    }
  }

  /** Two weeks of the example coffee: the second week opens with the first
      week's closing stock, and both close one unit under the safety stock. */
  lemma DosSemanasEjemplo()
    ensures Filas(Parametros(None, None), CafeEjemplo(), ["2024-S01", "2024-S02"], 100)
        == Ok([Fila(200, 100, 66, 0.05, 174, 65, [BajoStockSeguridad]),
               Fila(180, 65, 59, 0.05, 183, 58, [BajoStockSeguridad])])
  {
    var p := Parametros(None, None);
    var e := CafeEjemplo();
    var semanas := ["2024-S01", "2024-S02"];
    var w1 := Fila(200, 100, 66, 0.05, 174, 65, [BajoStockSeguridad]);
    var w2 := Fila(180, 65, 59, 0.05, 183, 58, [BajoStockSeguridad]);
    PrimeraSemanaEjemplo();
    SegundaSemanaEjemplo();
    assert semanas[..1][..0] == [];
    UnaSemanaMas(p, e, semanas[..1], 100, [], w1);
    assert [] + [w1] == [w1];
    assert semanas[..|semanas| - 1] == semanas[..1];
    UnaSemanaMas(p, e, semanas, 100, [w1], w2);
    assert [w1] + [w2] == [w1, w2];
  }

  /** The recurrence adds the row of the last week, opened with the stock the
      rows before it hand on. */
  lemma UnaSemanaMas(p: Parametros, e: EntradaSku, semanas: seq<string>, inicial: int, filas: seq<Fila>, f: Fila)
    requires |semanas| > 0
    requires Filas(p, e, semanas[..|semanas| - 1], inicial) == Ok(filas)
    requires Semana(p, e, semanas[|semanas| - 1], Apertura(filas, |filas|, inicial)) == Ok(f)
    ensures Filas(p, e, semanas, inicial) == Ok(filas + [f])
  {
  }
}
