/** generar_mps (server/app/services/mps.py) as the code runs it: a loop that
    grows the set of week keys, sorted() of that set, and for every SKU a loop
    over the sorted weeks that writes each week's values into the SKU's
    dictionaries and reads the previous week's closing stock back from them.
    Each loop is proved against the plan of MpsPlan. */
module MpsEngine {
  import opened Outcomes
  import opened Mps
  import opened MpsPlan
  import StrOrder

  /** generar_mps: the capacity parameter (300 by default), the sorted union
      of the forecast's week keys, and the plan of every SKU over those weeks
      in the forecast's order; it raises IndexError when the forecast has SKUs
      but no week, and ZeroDivisionError when some SKU has a stored weight of
      0 or a scrap of 1. */
  method GenerarMps(p: Parametros, pronostico: seq<EntradaSku>) returns (r: Result<Plan>)
    ensures r.Raise? <==> |pronostico| > 0 && (SemanasDe(pronostico) == {} || AlgunaDivisionPorCero(pronostico))
    ensures r.Raise? ==> r.exc == if SemanasDe(pronostico) == {} then IndexError else ZeroDivisionError
    ensures r.Ok? ==>
      && StrOrder.StrictlySorted(r.value.semanas)
      && (forall x :: x in r.value.semanas <==> x in SemanasDe(pronostico))
      && r.value.capacidadSemanal == Capacidad(p)
      && PlanesDe(p, pronostico, r.value.semanas) == Ok(r.value.data)
  {
    var capacidad := Capacidad(p);
    var todas := UnirSemanas(pronostico);
    var semanas := StrOrder.Sorted(todas);
    assert |semanas| == 0 <==> todas == {};
    PlanesFalla(p, pronostico, semanas);
    var data: seq<PlanSku> := [];
    var i := 0;
    while i < |pronostico|
      invariant 0 <= i <= |pronostico|
      invariant PlanesDe(p, pronostico[..i], semanas) == Ok(data)
    {
      var plan := GenerarMpsSku(p, pronostico[i], semanas);
      if plan.Raise? {
        FallaUnSku(p, pronostico, semanas, i);
        return Raise(plan.exc);
      }
      PlanesPaso(p, pronostico, semanas, i, data, plan.value);
      data := data + [plan.value];
      i := i + 1;
    }
    assert pronostico[..i] == pronostico;
    return Ok(Plan(semanas, capacidad, data));
  }

  /** todas_semanas, grown by the forecast's week keys SKU by SKU. */
  method UnirSemanas(pronostico: seq<EntradaSku>) returns (todas: set<string>)
    ensures todas == SemanasDe(pronostico)
  {
    todas := {};
    var k := 0;
    while k < |pronostico|
      invariant 0 <= k <= |pronostico|
      invariant todas == SemanasDe(pronostico[..k])
    {
      assert pronostico[..k + 1][..k] == pronostico[..k];
      todas := todas + set x | x in pronostico[k].semanas;
      k := k + 1;
    }
    assert pronostico[..k] == pronostico;
  }

  /** One more SKU on the plan. */
  lemma PlanesPaso(p: Parametros, pronostico: seq<EntradaSku>, semanas: seq<string>, i: int,
                   data: seq<PlanSku>, plan: PlanSku)
    requires 0 <= i < |pronostico|
    requires PlanesDe(p, pronostico[..i], semanas) == Ok(data)
    requires PlanSkuDe(p, pronostico[i], semanas) == Ok(plan)
    ensures PlanesDe(p, pronostico[..i + 1], semanas) == Ok(data + [plan])
  {
    PorSkuUnoMas(p, pronostico, semanas, i);
    RecolectarUnoMas(PlanesPorSku(p, pronostico[..i], semanas), data, PlanSkuDe(p, pronostico[i], semanas));
  }

  /** A SKU whose plan raises makes the whole plan raise, with its exception. */
  lemma FallaUnSku(p: Parametros, pronostico: seq<EntradaSku>, semanas: seq<string>, i: int)
    requires 0 <= i < |pronostico| && PlanSkuDe(p, pronostico[i], semanas).Raise?
    ensures FallaElPlan(pronostico, semanas)
    ensures PlanSkuDe(p, pronostico[i], semanas).exc == if |semanas| == 0 then IndexError else ZeroDivisionError
  {
    PlanSkuFalla(p, pronostico[i], semanas);
    if |semanas| > 0 {
      assert pronostico[i].gramosDb == Some(0) || pronostico[i].scrapPromedio == 1.0;
    }
  }

  /** The week loop of one SKU: the plan PlanSkuDe describes, or the exception
      the loop raises. */
  method GenerarMpsSku(p: Parametros, e: EntradaSku, semanas: seq<string>) returns (r: Result<PlanSku>)
    ensures r == PlanSkuDe(p, e, semanas)
  {
    if |semanas| == 0 {
      return Raise(IndexError);
    }
    var invInicial := InventarioInicial(e.historial);
    var demandaM: map<string, int> := map[];
    var inicialM: map<string, int> := map[];
    var ssM: map<string, int> := map[];
    var scrapM: map<string, real> := map[];
    var produccionM: map<string, int> := map[];
    var finalM: map<string, int> := map[];
    var alertasM: map<string, seq<Alerta>> := map[];
    ghost var filas: seq<Fila> := [];
    var i := 0;
    while i < |semanas|
      invariant 0 <= i <= |semanas|
      invariant Filas(p, e, semanas[..i], invInicial) == Ok(filas)
      invariant PlanDe(e, semanas[..i], filas)
        == PlanSku(e.skuId, e.nombre, e.presentacionG,
                   demandaM, inicialM, ssM, scrapM, produccionM, finalM, alertasM)
      invariant i > 0 ==> semanas[i - 1] in finalM && finalM[semanas[i - 1]] == filas[i - 1].inventarioFinal
    {
      var semana := semanas[i];
      var apertura := if i == 0 then invInicial else finalM[semanas[i - 1]];
      var fila := CalcularSemana(p, e, semana, apertura);
      if fila.Raise? {
        PrefijoQueFalla(p, e, semanas, i, invInicial, filas, apertura);
        return Raise(fila.exc);
      }
      var f := fila.value;
      demandaM := demandaM[semana := f.demanda];
      inicialM := inicialM[semana := f.inventarioInicial];
      ssM := ssM[semana := f.stockSeguridad];
      scrapM := scrapM[semana := f.scrap];
      produccionM := produccionM[semana := f.produccion];
      finalM := finalM[semana := f.inventarioFinal];
      alertasM := alertasM[semana := f.alertas];
      PrefijoQueSigue(p, e, semanas, i, invInicial, filas, apertura, f);
      filas := filas + [f];
      i := i + 1;
    }
    assert semanas[..i] == semanas;
    return Ok(PlanSku(e.skuId, e.nombre, e.presentacionG,
                      demandaM, inicialM, ssM, scrapM, produccionM, finalM, alertasM));
  }

  /** The body of the week loop: the week's demand (0 when the forecast has
      none), its safety stock, the net requirement against the opening stock,
      the batch rule, the closing stock, and the alerts. The alert list
      starts empty and grows by one append per check that fires, in the order
      the code checks them, and then by the batch rule's alerts. */
  method CalcularSemana(p: Parametros, e: EntradaSku, semana: string, apertura: int) returns (r: Result<Fila>)
    ensures r == Semana(p, e, semana, apertura)
  {
    var demanda := if semana in e.demanda then e.demanda[semana] else 0;
    var ss := StockSeguridad(NivelServicio(p), demanda);
    var scrap := e.scrapPromedio;
    var neta := NecesidadNeta(demanda, ss, apertura);
    var lote := ProduccionConRegla60kg(e.gramosDb, neta, scrap);
    if lote.Raise? {
      return Raise(lote.exc);
    }
    var produccion := lote.value.produccion;
    var invFinal := apertura + UnidadesBuenas(produccion, scrap) - demanda;
    var alertas: seq<Alerta> := [];
    if ss as real > 1.2 * demanda as real && demanda > 0 {
      alertas := alertas + [StockSeguridadElevado];
    }
    if invFinal < ss {
      alertas := alertas + [BajoStockSeguridad];
    }
    if scrap == 1.0 {
      return Raise(ZeroDivisionError);
    }
    var kgVerde := (produccion * e.presentacionG) as real / (1000.0 * (1.0 - scrap));
    if kgVerde > Capacidad(p) {
      alertas := alertas + [ExcedeCapacidad];
    }
    alertas := alertas + lote.value.alertas;
    assert alertas == AlertasUmbral(p, e, demanda, ss, invFinal, produccion) + lote.value.alertas;
    return Ok(Fila(demanda, apertura, ss, scrap, produccion, invFinal, alertas));
  }

  /** One more week on the recurrence: the rows of the first i weeks and the
      row of week i for the carried opening stock. */
  lemma PrefijoQueSigue(p: Parametros, e: EntradaSku, semanas: seq<string>, i: int, inicial: int,
                         filas: seq<Fila>, apertura: int, f: Fila)
    requires 0 <= i < |semanas|
    requires Filas(p, e, semanas[..i], inicial) == Ok(filas)
    requires apertura == if i == 0 then inicial else filas[i - 1].inventarioFinal
    requires Semana(p, e, semanas[i], apertura) == Ok(f)
    ensures Filas(p, e, semanas[..i + 1], inicial) == Ok(filas + [f])
    ensures PlanDe(e, semanas[..i + 1], filas + [f]) == Anotar(PlanDe(e, semanas[..i], filas), semanas[i], f)
  {
    var hasta := semanas[..i + 1];
    assert hasta[..i] == semanas[..i] && hasta[i] == semanas[i];
    assert Apertura(filas, |filas|, inicial) == apertura;
    UnaSemanaMas(p, e, hasta, inicial, filas, f);
    assert (filas + [f])[..i] == filas;
  }

  /** The week that raises ends the recurrence with the same exception. */
  lemma PrefijoQueFalla(p: Parametros, e: EntradaSku, semanas: seq<string>, i: int, inicial: int,
                         filas: seq<Fila>, apertura: int)
    requires 0 <= i < |semanas|
    requires Filas(p, e, semanas[..i], inicial) == Ok(filas)
    requires apertura == if i == 0 then inicial else filas[i - 1].inventarioFinal
    requires inicial == InventarioInicial(e.historial)
    requires Semana(p, e, semanas[i], apertura).Raise?
    ensures PlanSkuDe(p, e, semanas) == Raise(Semana(p, e, semanas[i], apertura).exc)
  {
    FilasFalla(p, e, semanas, inicial);
  }
}
