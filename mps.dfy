/** The Master Production Schedule rules of server/app/services/mps.py: safety
    stock, the 60 kg batch rule, the opening inventory estimate, and one week
    of the plan. Database reads are inputs: the service level and capacity
    parameters, the SKU's gram weight as stored (None when the SKU is not
    found), its average scrap and its production history. Floats are exact
    reals. */
module Mps {
  import opened Outcomes

  /** int() of a float: truncation toward zero. */
  function Trunc(x: real): (n: int)
    ensures x >= 0.0 ==> n as real <= x < n as real + 1.0
    ensures x < 0.0 ==> n as real - 1.0 < x <= n as real
  {
    if x >= 0.0 then x.Floor else -((-x).Floor)
  }

  lemma TruncMonotone(x: real, y: real)
    requires x <= y
    ensures Trunc(x) <= Trunc(y)
  {
  }

  lemma TruncOfInt(n: int)
    ensures Trunc(n as real) == n
  {
  }

  /** The good units of a production run: int(produccion * (1 - scrap)). */
  function UnidadesBuenas(produccion: int, scrap: real): int
  {
    Trunc(produccion as real * (1.0 - scrap))
  }

  function Max(a: int, b: int): int { if a >= b then a else b }

  /** Parameters read from the database, None when the row is missing. */
  datatype Parametros = Parametros(nivelServicio: Option<real>, capacidadSemanal: Option<real>)

  /** The service level, 0.95 when the parameter is missing. */
  function NivelServicio(p: Parametros): real
  {
    if p.nivelServicio.Some? then p.nivelServicio.value else 0.95
  }

  /** The weekly green-coffee capacity in kg, 300 when the parameter is missing. */
  function Capacidad(p: Parametros): real
  {
    if p.capacidadSemanal.Some? then p.capacidadSemanal.value else 300.0
  }

  // ---------------------------------------------------------------------------
  // calcular_stock_seguridad

  /** The safety factor for a service level: the normal quantile of the nearest
      tabulated level at or below it. */
  function FactorSeguridad(nivel: real): (f: real)
    ensures f == 1.0 || f == 1.28 || f == 1.65 || f == 2.05 || f == 2.33
    ensures nivel >= 0.99 <==> f == 2.33
    ensures 0.98 <= nivel < 0.99 <==> f == 2.05
    ensures 0.95 <= nivel < 0.98 <==> f == 1.65
    ensures 0.90 <= nivel < 0.95 <==> f == 1.28
    ensures nivel < 0.90 <==> f == 1.0
  {
    if nivel >= 0.99 then 2.33
    else if nivel >= 0.98 then 2.05
    else if nivel >= 0.95 then 1.65
    else if nivel >= 0.90 then 1.28
    else 1.0
  }

  /** A higher service level never lowers the factor. */
  lemma FactorMonotone(n1: real, n2: real)
    requires n1 <= n2
    ensures FactorSeguridad(n1) <= FactorSeguridad(n2)
  {
  }

  /** calcular_stock_seguridad: 20% of the demand times the factor, truncated,
      and never below 10 units. */
  function StockSeguridad(nivel: real, demanda: int): (ss: int)
    ensures ss >= 10
  {
    Max(10, Trunc(demanda as real * 0.2 * FactorSeguridad(nivel)))
  }

  /** The safety stock is 20% of the demand times the factor, rounded down, or
      the floor of 10 units when that is smaller; a demand of 0 or less gets
      the floor. */
  lemma StockSeguridadEs(nivel: real, demanda: int)
    ensures var ss := StockSeguridad(nivel, demanda);
      var x := demanda as real * 0.2 * FactorSeguridad(nivel);
      && (ss == 10 || ss as real <= x < ss as real + 1.0)
      && (x >= 10.0 ==> ss as real <= x < ss as real + 1.0)
      && (demanda <= 0 ==> ss == 10)
  {
    var f := FactorSeguridad(nivel);
    if demanda <= 0 {
      NonPosTimes(demanda as real * 0.2, f);
    }
  }

  /** More demand, or a higher service level, never lowers the safety stock. */
  lemma StockSeguridadMonotone(n1: real, n2: real, d1: int, d2: int)
    requires n1 <= n2 && d1 <= d2
    ensures StockSeguridad(n1, d1) <= StockSeguridad(n2, d2)
  {
    FactorMonotone(n1, n2);
    var f1, f2 := FactorSeguridad(n1), FactorSeguridad(n2);
    if d1 > 0 {
      MulMonotone(d1 as real * 0.2, d2 as real * 0.2, f1, f2);
      TruncMonotone(d1 as real * 0.2 * f1, d2 as real * 0.2 * f2);
    }
  }

  lemma MulMonotone(a1: real, a2: real, b1: real, b2: real)
    requires 0.0 <= a1 <= a2 && 0.0 <= b1 <= b2
    ensures a1 * b1 <= a2 * b2
  {
    assert a1 * b1 <= a2 * b1;
    assert a2 * b1 <= a2 * b2;
  }

  lemma StockSeguridadEjemplos()
    ensures StockSeguridad(0.95, 200) == 66
    ensures StockSeguridad(0.95, 180) == 59
    ensures StockSeguridad(0.95, 30) == 10
  {
  }

  // ---------------------------------------------------------------------------
  // calcular_produccion_con_regla_60kg

  /** The alerts the plan attaches to a week. */
  datatype Alerta =
    | StockSeguridadElevado
    | BajoStockSeguridad
    | ExcedeCapacidad
    | ErrorUnidadesPorTanda
    | ErrorTandas
    | SkuNoEncontrado

  /** The text the plan shows for an alert. */
  function Mensaje(a: Alerta): string
  {
    match a
    case StockSeguridadElevado => "Stock de seguridad elevado"
    case BajoStockSeguridad => "Inventario final por debajo del stock de seguridad"
    case ExcedeCapacidad => "Excede capacidad semanal"
    case ErrorUnidadesPorTanda => "Error en cálculo de unidades por tanda"
    case ErrorTandas => "Error en cálculo de tandas"
    case SkuNoEncontrado => "SKU no encontrado"
  }

  /** Different alerts have different texts, so a list of alerts stands for
      exactly one list of messages. */
  lemma MensajesDistintos(a: Alerta, b: Alerta)
    requires a != b
    ensures Mensaje(a) != Mensaje(b)
  {
  }

  /** What the batch rule returns: units to produce and its alerts. */
  datatype Lote = Lote(produccion: int, alertas: seq<Alerta>)

  /** The gross requirement: enough units that, after losing the scrap share,
      the net requirement remains; the net requirement itself when the scrap
      is 1 or more. */
  function NecesidadBruta(neta: int, scrap: real): int
  {
    if scrap < 1.0 then Trunc(neta as real / (1.0 - scrap)) else neta
  }

  /** Finished units out of one 60 kg batch of green coffee. */
  function UnidadesPorTanda(gramos: int, scrap: real): int
    requires gramos != 0
  {
    Trunc(60000.0 / gramos as real * (1.0 - scrap))
  }

  /** calcular_produccion_con_regla_60kg for the SKU's stored gram weight
      (None when the SKU is not in the database). Dividing by a gram weight of
      0 raises ZeroDivisionError. */
  function ProduccionConRegla60kg(gramos: Option<int>, neta: int, scrap: real): (r: Result<Lote>)
    ensures r.Raise? <==> gramos == Some(0)
    ensures r.Raise? ==> r.exc == ZeroDivisionError
    ensures gramos.None? ==> r == Ok(Lote(neta, [SkuNoEncontrado]))
  {
    if gramos.None? then Ok(Lote(neta, [SkuNoEncontrado]))
    else
      var bruta := NecesidadBruta(neta, scrap);
      var g := gramos.value;
      if g == 0 then Raise(ZeroDivisionError)
      else
        var porTanda := UnidadesPorTanda(g, scrap);
        if porTanda <= 0 then Ok(Lote(bruta, [ErrorUnidadesPorTanda]))
        else
          var completas := bruta / porTanda;
          var restantes := bruta % porTanda;
          assert scrap != 1.0;
          var kgRestantes := (restantes * g) as real / (1000.0 * (1.0 - scrap));
          if kgRestantes > 60.0 then Ok(Lote((completas + 1) * porTanda + 0, [ErrorTandas]))
          else Ok(Lote(completas * porTanda + restantes, []))
  }

  /** The remainder never needs 60 kg or more: it is fewer units than one
      batch holds, whatever the signs of the weight and the scrap. */
  lemma RestoBajoSesenta(restantes: int, g: int, scrap: real)
    requires g != 0 && UnidadesPorTanda(g, scrap) > 0
    requires 0 <= restantes < UnidadesPorTanda(g, scrap)
    ensures scrap != 1.0
    ensures (restantes * g) as real / (1000.0 * (1.0 - scrap)) < 60.0
  {
    var gr := g as real;
    assert restantes as real < 60000.0 / gr * (1.0 - scrap);
    assert (restantes * g) as real == restantes as real * gr;
    var a := 1.0 - scrap;
    KgDelResto(restantes as real, gr, a);
    assert restantes as real * gr / (1000.0 * a) < 60.0;
    assert (restantes * g) as real / (1000.0 * a) < 60.0;
  }

  /** The real arithmetic behind it: r < 60000 / g * a forces
      r * g / (1000 * a) < 60. */
  lemma KgDelResto(r: real, gr: real, a: real)
    requires gr != 0.0 && 0.0 <= r < 60000.0 / gr * a
    ensures a != 0.0
    ensures r * gr / (1000.0 * a) < 60.0
  {
    var x := 60000.0 / gr * a;
    assert x * gr == 60000.0 * a;
    assert a != 0.0;
    var kg := r * gr / (1000.0 * a);
    assert kg * (1000.0 * a) == r * gr;
    assert kg * 1000.0 * a == kg * (1000.0 * a);
    if gr > 0.0 {
      PosTimesPos(x, gr);
      LessTimesPos(r, x, gr);
      DivideByPos(kg * 1000.0, 60000.0, a);
    } else {
      PosTimesNeg(x, gr);
      LessTimesNeg(r, x, gr);
      DivideByNeg(kg * 1000.0, 60000.0, a);
    }
  }

  lemma PosTimesPos(u: real, v: real)
    requires u > 0.0 && v > 0.0
    ensures u * v > 0.0
  {
  }

  lemma PosTimesNeg(u: real, v: real)
    requires u > 0.0 && v < 0.0
    ensures u * v < 0.0
  {
  }

  lemma NonPosTimes(p: real, q: real)
    requires (p >= 0.0 && q <= 0.0) || (p <= 0.0 && q >= 0.0)
    ensures p * q <= 0.0
  {
  }

  lemma LessTimesPos(u: real, v: real, c: real)
    requires u < v && c > 0.0
    ensures u * c < v * c
  {
  }

  lemma LessTimesNeg(u: real, v: real, c: real)
    requires u < v && c < 0.0
    ensures u * c > v * c
  {
  }

  lemma DivideByPos(u: real, v: real, c: real)
    requires c > 0.0 && u * c < v * c
    ensures u < v
  {
  }

  lemma DivideByNeg(u: real, v: real, c: real)
    requires c < 0.0 && u * c > v * c
    ensures u < v
  {
  }

  /** Hence the defensive "Error en cálculo de tandas" branch never fires, and a
      found SKU with a usable weight yields exactly the gross requirement:
      full batches plus the remainder add back up to it. */
  lemma ReglaDaLaBruta(g: int, neta: int, scrap: real)
    requires g != 0
    ensures ProduccionConRegla60kg(Some(g), neta, scrap)
        == Ok(Lote(NecesidadBruta(neta, scrap),
                   if UnidadesPorTanda(g, scrap) <= 0 then [ErrorUnidadesPorTanda] else []))
  {
    var porTanda := UnidadesPorTanda(g, scrap);
    if porTanda > 0 {
      var bruta := NecesidadBruta(neta, scrap);
      RestoBajoSesenta(bruta % porTanda, g, scrap);
      assert bruta == (bruta / porTanda) * porTanda + bruta % porTanda;
    }
  }

  /** With a realistic scrap (0 <= scrap < 1) the gross requirement covers the
      net one, and its good units fall short of the net requirement by less
      than one unit, so truncated they are the net requirement or one less. */
  lemma BrutaCubreNeta(neta: int, scrap: real)
    requires neta >= 0 && 0.0 <= scrap < 1.0
    ensures NecesidadBruta(neta, scrap) >= neta
    ensures neta - 1 <= UnidadesBuenas(NecesidadBruta(neta, scrap), scrap) <= neta
  {
    var a := 1.0 - scrap;
    CocienteTruncado(neta, a);
    assert NecesidadBruta(neta, scrap) == Trunc(neta as real / a);
  }

  /** b = int(n / a) for 0 < a <= 1: b >= n, and int(b * a) is n or n - 1. */
  lemma CocienteTruncado(neta: int, a: real)
    requires neta >= 0 && 0.0 < a <= 1.0
    ensures Trunc(neta as real / a) >= neta
    ensures neta - 1 <= Trunc(Trunc(neta as real / a) as real * a) <= neta
  {
    var x := neta as real / a;
    CocienteAcotado(neta as real, a, x);
    TruncMonotone(neta as real, x);
    TruncOfInt(neta);
    var b := Trunc(x);
    ProductoAcotado(neta as real, a, x, b as real);
    var y := b as real * a;
    TruncMonotone(y, neta as real);
  }

  /** x = n / a for 0 < a <= 1 is at least n. */
  lemma CocienteAcotado(n: real, a: real, x: real)
    requires n >= 0.0 && 0.0 < a <= 1.0 && x == n / a
    ensures x * a == n && x >= n
  {
    DivNonNeg(n, a);
    MulLe(a, 1.0, x);
  }

  /** b within one below x, with x * a = n: b * a is within a below n. */
  lemma ProductoAcotado(n: real, a: real, x: real, b: real)
    requires 0.0 < a <= 1.0 && x * a == n && 0.0 <= b <= x < b + 1.0
    ensures n - 1.0 < b * a <= n
    ensures b * a >= 0.0
  {
    ProductoSobre(n, a, x, b);
    MulLe(b, x, a);
    MulLe(0.0, b, a);
  }

  lemma ProductoSobre(n: real, a: real, x: real, b: real)
    requires 0.0 < a <= 1.0 && x * a == n && x < b + 1.0
    ensures n - 1.0 < b * a
  {
    LessTimesPos(x, b + 1.0, a);
    var ba := b * a;
    assert (b + 1.0) * a == ba + a;
    assert n < ba + a && ba + a <= ba + 1.0;
  }

  lemma DivNonNeg(u: real, c: real)
    requires u >= 0.0 && c > 0.0
    ensures u / c >= 0.0
  {
  }

  lemma ProduccionCubreNeta(gramos: Option<int>, neta: int, scrap: real)
    requires neta >= 0 && 0.0 <= scrap < 1.0 && gramos != Some(0)
    ensures ProduccionConRegla60kg(gramos, neta, scrap).Ok?
    ensures ProduccionConRegla60kg(gramos, neta, scrap).value.produccion >= neta
  {
    if gramos.Some? {
      ReglaDaLaBruta(gramos.value, neta, scrap);
      BrutaCubreNeta(neta, scrap);
    }
  }

  /** For a positive weight and a realistic scrap, the "unidades por tanda"
      error is raised exactly for packs heavier than the good coffee of a
      batch. */
  lemma ErrorDeUnidades(g: int, scrap: real)
    requires g > 0 && 0.0 <= scrap < 1.0
    ensures UnidadesPorTanda(g, scrap) <= 0 <==> g as real > 60000.0 * (1.0 - scrap)
  {
    var a := 1.0 - scrap;
    var gr := g as real;
    var x := 60000.0 / gr * a;
    assert x * gr == 60000.0 * a;
    if gr > 60000.0 * a {
      assert x < 1.0 by { DivideByPos(x, 1.0, gr); }
    } else {
      assert x >= 1.0 by {
        if x < 1.0 { LessTimesPos(x, 1.0, gr); }
      }
    }
  }

  /** 200 units net, 250 g packs, 5% scrap: 210 units, one partial batch. */
  lemma ReglaEjemplo()
    ensures ProduccionConRegla60kg(Some(250), 200, 0.05) == Ok(Lote(210, []))
  {
    assert NecesidadBruta(200, 0.05) == 210;
    assert UnidadesPorTanda(250, 0.05) == 228;
    ReglaDaLaBruta(250, 200, 0.05);
  }

  // ---------------------------------------------------------------------------
  // calcular_inventario_inicial

  function Suma(s: seq<int>): int
  {
    if |s| == 0 then 0 else Suma(s[..|s| - 1]) + s[|s| - 1]
  }

  /** calcular_inventario_inicial over the units of the SKU's recorded
      production runs: twice the mean run, truncated, at least 100; 100 when
      nothing was recorded. */
  function InventarioInicial(historial: seq<int>): (r: int)
    ensures r >= 100
    ensures |historial| == 0 ==> r == 100
  {
    if |historial| == 0 then 100
    else
      var promedio := Suma(historial) as real / |historial| as real;
      Max(100, Trunc(promedio * 2.0))
  }

  lemma {:induction false} SumaAcotada(s: seq<int>, lo: int, hi: int)
    requires forall i :: 0 <= i < |s| ==> lo <= s[i] <= hi
    ensures |s| * lo <= Suma(s) <= |s| * hi
  {
    if |s| > 0 {
      SumaAcotada(s[..|s| - 1], lo, hi);
    }
  }

  /** The estimate is two weeks of production: between twice the smallest and
      twice the largest run (or 100, the floor). */
  lemma InventarioInicialAcotado(historial: seq<int>, lo: int, hi: int)
    requires |historial| > 0
    requires forall i :: 0 <= i < |historial| ==> lo <= historial[i] <= hi
    ensures Max(100, 2 * lo) <= InventarioInicial(historial) <= Max(100, 2 * hi)
  {
    var n := |historial|;
    SumaAcotada(historial, lo, hi);
    var promedio := Suma(historial) as real / n as real;
    MediaAcotada(Suma(historial), n, lo, hi);
    TruncMonotone((2 * lo) as real, promedio * 2.0);
    TruncMonotone(promedio * 2.0, (2 * hi) as real);
  }

  /** A sum of n values between lo and hi has its mean between them. */
  lemma MediaAcotada(suma: int, n: int, lo: int, hi: int)
    requires n > 0 && n * lo <= suma <= n * hi
    ensures lo as real <= suma as real / n as real <= hi as real
  {
    var m := suma as real / n as real;
    var nr := n as real;
    assert m * nr == suma as real;
    assert (n * lo) as real == lo as real * nr;
    assert (n * hi) as real == hi as real * nr;
    if m < lo as real { LessTimesPos(m, lo as real, nr); }
    if m > hi as real { LessTimesPos(hi as real, m, nr); }
  }

  // ---------------------------------------------------------------------------
  // One week of generar_mps

  /** What the forecast and the database hold for one SKU. */
  datatype EntradaSku = EntradaSku(
    skuId: int,
    nombre: string,
    presentacionG: int,         // the forecast's pack weight, used for the kg alert
    semanas: seq<string>,       // the forecast's week keys
    demanda: map<string, int>,  // forecast demand by week key
    gramosDb: Option<int>,      // the SKU's pack weight in the database, None if absent
    scrapPromedio: real,        // get_scrap_promedio
    historial: seq<int>)        // units of the SKU's recorded production runs

  /** One week's row of the plan. */
  datatype Fila = Fila(
    demanda: int,
    inventarioInicial: int,
    stockSeguridad: int,
    scrap: real,
    produccion: int,
    inventarioFinal: int,
    alertas: seq<Alerta>)

  function DemandaDe(e: EntradaSku, semana: string): int
  {
    if semana in e.demanda then e.demanda[semana] else 0
  }

  /** The net requirement: what the opening stock lacks to cover the demand
      plus the safety stock, 0 when it lacks nothing. */
  function NecesidadNeta(demanda: int, ss: int, apertura: int): (r: int)
    ensures r >= 0 && apertura + r >= demanda + ss
    ensures r > 0 ==> apertura + r == demanda + ss
  {
    Max(0, demanda + ss - apertura)
  }

  /** Green coffee needed for a week's production. */
  function KgVerde(produccion: int, presentacionG: int, scrap: real): real
    requires scrap != 1.0
  {
    (produccion * presentacionG) as real / (1000.0 * (1.0 - scrap))
  }

  /** The threshold alerts of a week, in the order the plan checks them. */
  function AlertasUmbral(p: Parametros, e: EntradaSku, demanda: int, ss: int, final: int, produccion: int): (r: seq<Alerta>)
    requires e.scrapPromedio != 1.0
    ensures StockSeguridadElevado in r <==> ss as real > 1.2 * demanda as real && demanda > 0
    ensures BajoStockSeguridad in r <==> final < ss
    ensures ExcedeCapacidad in r <==> KgVerde(produccion, e.presentacionG, e.scrapPromedio) > Capacidad(p)
  {
    (if ss as real > 1.2 * demanda as real && demanda > 0 then [StockSeguridadElevado] else [])
    + (if final < ss then [BajoStockSeguridad] else [])
    + (if KgVerde(produccion, e.presentacionG, e.scrapPromedio) > Capacidad(p) then [ExcedeCapacidad] else [])
  }

  /** The body of generar_mps's week loop for one SKU, from the inventory the
      week opens with. The kg of green coffee divide by 1 - scrap, so a scrap
      of exactly 1 raises ZeroDivisionError, after the batch rule has run. */
  function Semana(p: Parametros, e: EntradaSku, semana: string, apertura: int): (r: Result<Fila>)
    ensures r.Raise? <==> e.gramosDb == Some(0) || e.scrapPromedio == 1.0
    ensures r.Raise? ==> r.exc == ZeroDivisionError
  {
    var demanda := DemandaDe(e, semana);
    var ss := StockSeguridad(NivelServicio(p), demanda);
    var scrap := e.scrapPromedio;
    var neta := NecesidadNeta(demanda, ss, apertura);
    match ProduccionConRegla60kg(e.gramosDb, neta, scrap)
    case Raise(x) => Raise(x)
    case Ok(lote) =>
      var final := apertura + UnidadesBuenas(lote.produccion, scrap) - demanda;
      if scrap == 1.0 then Raise(ZeroDivisionError)
      else
        var alertas := AlertasUmbral(p, e, demanda, ss, final, lote.produccion) + lote.alertas;
        Ok(Fila(demanda, apertura, ss, scrap, lote.produccion, final, alertas))
  }

  /** The rank of an alert in a week's list: the three threshold checks in
      order, then whatever the batch rule reported. */
  function Rango(a: Alerta): nat
  {
    match a
    case StockSeguridadElevado => 0
    case BajoStockSeguridad => 1
    case ExcedeCapacidad => 2
    case _ => 3
  }

  /** A computed week is the row the loop body stores. This unfolds Semana
      once for the lemmas about a single week. */
  lemma SemanaDesglose(p: Parametros, e: EntradaSku, semana: string, apertura: int)
    requires Semana(p, e, semana, apertura).Ok?
    ensures var demanda := DemandaDe(e, semana);
      var ss := StockSeguridad(NivelServicio(p), demanda);
      var lote := ProduccionConRegla60kg(e.gramosDb, NecesidadNeta(demanda, ss, apertura), e.scrapPromedio);
      && lote.Ok? && e.scrapPromedio != 1.0
      && var final := apertura + UnidadesBuenas(lote.value.produccion, e.scrapPromedio) - demanda;
        Semana(p, e, semana, apertura).value
          == Fila(demanda, apertura, ss, e.scrapPromedio, lote.value.produccion, final,
                  AlertasUmbral(p, e, demanda, ss, final, lote.value.produccion) + lote.value.alertas)
  {
  }

  /** The threshold alerts come in the order the plan checks them, ahead of
      anything the batch rule reports. */
  lemma AlertasUmbralEnOrden(p: Parametros, e: EntradaSku, demanda: int, ss: int, final: int, produccion: int)
    requires e.scrapPromedio != 1.0
    ensures var s := AlertasUmbral(p, e, demanda, ss, final, produccion);
      && (forall a :: a in s ==> Rango(a) < 3)
      && (forall i, j :: 0 <= i < j < |s| ==> Rango(s[i]) < Rango(s[j]))
  {
  }

  /** The batch rule's alerts: at most one, "SKU no encontrado" exactly when the
      SKU is missing, "unidades por tanda" exactly when a batch yields no unit,
      and never "Error en cálculo de tandas". */
  lemma AlertasDelLote(gramos: Option<int>, neta: int, scrap: real)
    requires ProduccionConRegla60kg(gramos, neta, scrap).Ok?
    ensures var s := ProduccionConRegla60kg(gramos, neta, scrap).value.alertas;
      && |s| <= 1
      && (forall a :: a in s ==> Rango(a) == 3)
      && (SkuNoEncontrado in s <==> gramos.None?)
      && (ErrorUnidadesPorTanda in s <==> gramos.Some? && UnidadesPorTanda(gramos.value, scrap) <= 0)
      && ErrorTandas !in s
  {
    if gramos.Some? {
      ReglaDaLaBruta(gramos.value, neta, scrap);
    }
  }

  /** The row of a week: the demand read as 0 when missing, the stored opening,
      the safety stock for that demand, and the closing stock from the good
      units, never clamped. */
  lemma FilaDeLaSemana(p: Parametros, e: EntradaSku, semana: string, apertura: int)
    requires Semana(p, e, semana, apertura).Ok?
    ensures var f := Semana(p, e, semana, apertura).value;
      && f.demanda == (if semana in e.demanda then e.demanda[semana] else 0)
      && f.inventarioInicial == apertura
      && f.stockSeguridad == StockSeguridad(NivelServicio(p), f.demanda)
      && f.scrap == e.scrapPromedio && f.scrap != 1.0
      && f.inventarioFinal == apertura + UnidadesBuenas(f.produccion, f.scrap) - f.demanda
  {
    SemanaDesglose(p, e, semana, apertura);
  }

  /** A week's production is what the 60 kg rule returns for the week's net
      requirement against its opening stock. */
  lemma ProduccionDeLaSemana(p: Parametros, e: EntradaSku, semana: string, apertura: int)
    requires Semana(p, e, semana, apertura).Ok?
    ensures var f := Semana(p, e, semana, apertura).value;
      var lote := ProduccionConRegla60kg(e.gramosDb, NecesidadNeta(f.demanda, f.stockSeguridad, apertura), f.scrap);
      lote.Ok? && f.produccion == lote.value.produccion
  {
    SemanaDesglose(p, e, semana, apertura);
  }

  /** A week's alerts: each present exactly when its condition holds, and
      "Error en cálculo de tandas" never. */
  lemma AlertasDeLaSemana(p: Parametros, e: EntradaSku, semana: string, apertura: int)
    requires Semana(p, e, semana, apertura).Ok?
    ensures var f := Semana(p, e, semana, apertura).value;
      && (StockSeguridadElevado in f.alertas
          <==> f.stockSeguridad as real > 1.2 * f.demanda as real && f.demanda > 0)
      && (BajoStockSeguridad in f.alertas <==> f.inventarioFinal < f.stockSeguridad)
      && (ExcedeCapacidad in f.alertas
          <==> KgVerde(f.produccion, e.presentacionG, e.scrapPromedio) > Capacidad(p))
      && (SkuNoEncontrado in f.alertas <==> e.gramosDb.None?)
      && (ErrorUnidadesPorTanda in f.alertas
          <==> e.gramosDb.Some? && UnidadesPorTanda(e.gramosDb.value, e.scrapPromedio) <= 0)
      && ErrorTandas !in f.alertas
  {
    AlertasUmbralDeLaSemana(p, e, semana, apertura);
    AlertasLoteDeLaSemana(p, e, semana, apertura);
  }

  /** The threshold alerts of a week's row. */
  lemma AlertasUmbralDeLaSemana(p: Parametros, e: EntradaSku, semana: string, apertura: int)
    requires Semana(p, e, semana, apertura).Ok?
    ensures var f := Semana(p, e, semana, apertura).value;
      && (StockSeguridadElevado in f.alertas
          <==> f.stockSeguridad as real > 1.2 * f.demanda as real && f.demanda > 0)
      && (BajoStockSeguridad in f.alertas <==> f.inventarioFinal < f.stockSeguridad)
      && (ExcedeCapacidad in f.alertas
          <==> KgVerde(f.produccion, e.presentacionG, e.scrapPromedio) > Capacidad(p))
  {
    var demanda := DemandaDe(e, semana);
    var ss := StockSeguridad(NivelServicio(p), demanda);
    var neta := NecesidadNeta(demanda, ss, apertura);
    SemanaDesglose(p, e, semana, apertura);
    var lote := ProduccionConRegla60kg(e.gramosDb, neta, e.scrapPromedio).value;
    var f := Semana(p, e, semana, apertura).value;
    var umbral := AlertasUmbral(p, e, demanda, ss, f.inventarioFinal, lote.produccion);
    AlertasUmbralEnOrden(p, e, demanda, ss, f.inventarioFinal, lote.produccion);
    AlertasDelLote(e.gramosDb, neta, e.scrapPromedio);
    assert f.alertas == umbral + lote.alertas;
    assert StockSeguridadElevado !in lote.alertas && BajoStockSeguridad !in lote.alertas
      && ExcedeCapacidad !in lote.alertas;
  }

  /** The batch rule's alerts of a week's row. */
  lemma AlertasLoteDeLaSemana(p: Parametros, e: EntradaSku, semana: string, apertura: int)
    requires Semana(p, e, semana, apertura).Ok?
    ensures var f := Semana(p, e, semana, apertura).value;
      && (SkuNoEncontrado in f.alertas <==> e.gramosDb.None?)
      && (ErrorUnidadesPorTanda in f.alertas
          <==> e.gramosDb.Some? && UnidadesPorTanda(e.gramosDb.value, e.scrapPromedio) <= 0)
      && ErrorTandas !in f.alertas
  {
    var demanda := DemandaDe(e, semana);
    var ss := StockSeguridad(NivelServicio(p), demanda);
    var neta := NecesidadNeta(demanda, ss, apertura);
    SemanaDesglose(p, e, semana, apertura);
    var lote := ProduccionConRegla60kg(e.gramosDb, neta, e.scrapPromedio).value;
    var f := Semana(p, e, semana, apertura).value;
    var umbral := AlertasUmbral(p, e, demanda, ss, f.inventarioFinal, lote.produccion);
    AlertasUmbralEnOrden(p, e, demanda, ss, f.inventarioFinal, lote.produccion);
    AlertasDelLote(e.gramosDb, neta, e.scrapPromedio);
    assert f.alertas == umbral + lote.alertas;
    assert SkuNoEncontrado !in umbral && ErrorUnidadesPorTanda !in umbral && ErrorTandas !in umbral;
  }

  /** A week's alerts come in a fixed order: the three threshold checks as the
      plan makes them, then the batch rule's. */
  lemma OrdenDeLasAlertas(p: Parametros, e: EntradaSku, semana: string, apertura: int)
    requires Semana(p, e, semana, apertura).Ok?
    ensures var s := Semana(p, e, semana, apertura).value.alertas;
      forall i, j :: 0 <= i < j < |s| ==> Rango(s[i]) < Rango(s[j])
  {
    var demanda := DemandaDe(e, semana);
    var ss := StockSeguridad(NivelServicio(p), demanda);
    var neta := NecesidadNeta(demanda, ss, apertura);
    SemanaDesglose(p, e, semana, apertura);
    var lote := ProduccionConRegla60kg(e.gramosDb, neta, e.scrapPromedio).value;
    var f := Semana(p, e, semana, apertura).value;
    var u := AlertasUmbral(p, e, demanda, ss, f.inventarioFinal, lote.produccion);
    AlertasUmbralEnOrden(p, e, demanda, ss, f.inventarioFinal, lote.produccion);
    AlertasDelLote(e.gramosDb, neta, e.scrapPromedio);
    OrdenConcatenado(u, lote.alertas);
  }

  lemma OrdenConcatenado(u: seq<Alerta>, l: seq<Alerta>)
    requires forall i, j :: 0 <= i < j < |u| ==> Rango(u[i]) < Rango(u[j])
    requires forall a :: a in u ==> Rango(a) < 3
    requires |l| <= 1 && forall a :: a in l ==> Rango(a) == 3
    ensures forall i, j :: 0 <= i < j < |u + l| ==> Rango((u + l)[i]) < Rango((u + l)[j])
  {
    var s := u + l;
    forall i, j | 0 <= i < j < |s|
      ensures Rango(s[i]) < Rango(s[j])
    {
      if j < |u| {
        assert s[i] == u[i] && s[j] == u[j];
      } else {
        assert s[i] == u[i] && s[j] == l[j - |u|];
        assert u[i] in u && l[j - |u|] in l;
      }
    }
  }

  /** With the SKU in the database and a realistic scrap, the plan produces at
      least the net requirement and the week closes within one unit of the
      safety stock or above it; when there was a net requirement it closes at
      the safety stock or one unit below it (the good units are truncated), so
      the "below safety stock" alert fires from rounding alone. */
  lemma CierreJuntoAlStockSeguridad(p: Parametros, e: EntradaSku, semana: string, apertura: int)
    requires e.gramosDb.Some? && e.gramosDb.value != 0
    requires 0.0 <= e.scrapPromedio < 1.0
    ensures Semana(p, e, semana, apertura).Ok?
    ensures var f := Semana(p, e, semana, apertura).value;
      var neta := NecesidadNeta(f.demanda, f.stockSeguridad, apertura);
      && f.produccion >= neta
      && f.inventarioFinal >= f.stockSeguridad - 1
      && (neta > 0 ==> f.inventarioFinal <= f.stockSeguridad)
  {
    var demanda := DemandaDe(e, semana);
    var ss := StockSeguridad(NivelServicio(p), demanda);
    var neta := NecesidadNeta(demanda, ss, apertura);
    ReglaDaLaBruta(e.gramosDb.value, neta, e.scrapPromedio);
    BrutaCubreNeta(neta, e.scrapPromedio);
    SemanaDesglose(p, e, semana, apertura);
  }

  lemma MulLe(u: real, v: real, c: real)
    requires u <= v && c >= 0.0
    ensures u * c <= v * c
  {
  }

  /** Without the SKU in the database the net requirement is produced as is and
      nothing compensates the scrap: half scrap and an empty start close far
      below zero, and the closing stock is not clamped. */
  lemma SkuAusenteEjemplo()
    ensures var e := EntradaSku(1, "Café", 250, ["2024-S01"], map["2024-S01" := 1000], None, 0.5, []);
      Semana(Parametros(None, None), e, "2024-S01", 100)
        == Ok(Fila(1000, 100, 330, 0.5, 1230, -285,
                   [BajoStockSeguridad, ExcedeCapacidad, SkuNoEncontrado]))
  {
    var e := EntradaSku(1, "Café", 250, ["2024-S01"], map["2024-S01" := 1000], None, 0.5, []);
    var p := Parametros(None, None);
    assert DemandaDe(e, "2024-S01") == 1000;
    assert NivelServicio(p) == 0.95;
    assert StockSeguridad(0.95, 1000) == 330;
    assert NecesidadNeta(1000, 330, 100) == 1230;
    assert ProduccionConRegla60kg(None, 1230, 0.5) == Ok(Lote(1230, [SkuNoEncontrado]));
    assert UnidadesBuenas(1230, 0.5) == 615;
    assert KgVerde(1230, 250, 0.5) == 615.0;
    assert AlertasUmbral(p, e, 1000, 330, -285, 1230) == [BajoStockSeguridad, ExcedeCapacidad];
    assert [BajoStockSeguridad, ExcedeCapacidad] + [SkuNoEncontrado]
      == [BajoStockSeguridad, ExcedeCapacidad, SkuNoEncontrado];
    SemanaDesglose(p, e, "2024-S01", 100);
    var f := Semana(p, e, "2024-S01", 100).value;
    assert f.produccion == 1230;
    assert f.inventarioFinal == -285;
    assert f.alertas == [BajoStockSeguridad, ExcedeCapacidad, SkuNoEncontrado];
  }

  /** A 250 g coffee with 5% scrap, forecast at 200 and 180 units. */
  function CafeEjemplo(): EntradaSku
  {
    EntradaSku(1, "Café Altura 250 g", 250, ["2024-S01", "2024-S02"],
               map["2024-S01" := 200, "2024-S02" := 180], Some(250), 0.05, [])
  }

  /** Its first week from the default opening stock of 100: safety stock 66,
      net 166, gross 174 in one partial batch, closing at 65, one unit under
      the safety stock. */
  lemma PrimeraSemanaEjemplo()
    ensures Semana(Parametros(None, None), CafeEjemplo(), "2024-S01", 100)
        == Ok(Fila(200, 100, 66, 0.05, 174, 65, [BajoStockSeguridad]))
  {
    var e := CafeEjemplo();
    var p := Parametros(None, None);
    assert DemandaDe(e, "2024-S01") == 200;
    assert NivelServicio(p) == 0.95;
    assert StockSeguridad(0.95, 200) == 66;
    assert NecesidadNeta(200, 66, 100) == 166;
    assert NecesidadBruta(166, 0.05) == 174;
    assert UnidadesPorTanda(250, 0.05) == 228;
    ReglaDaLaBruta(250, 166, 0.05);
    assert UnidadesBuenas(174, 0.05) == 165;
    assert KgVerde(174, 250, 0.05) < 300.0;
    assert AlertasUmbral(p, e, 200, 66, 65, 174) == [BajoStockSeguridad];
    SemanaDesglose(p, e, "2024-S01", 100);
    var f := Semana(p, e, "2024-S01", 100).value;
    assert f.produccion == 174;
    assert f.inventarioFinal == 65;
    assert f.alertas == [BajoStockSeguridad];
  }

  /** Its second week, opening with the first week's 65: safety stock 59,
      net 174, gross 183, closing at 58. */
  lemma SegundaSemanaEjemplo()
    ensures Semana(Parametros(None, None), CafeEjemplo(), "2024-S02", 65)
        == Ok(Fila(180, 65, 59, 0.05, 183, 58, [BajoStockSeguridad]))
  {
    var e := CafeEjemplo();
    var p := Parametros(None, None);
    assert DemandaDe(e, "2024-S02") == 180;
    assert NivelServicio(p) == 0.95;
    assert StockSeguridad(0.95, 180) == 59;
    assert NecesidadNeta(180, 59, 65) == 174;
    assert NecesidadBruta(174, 0.05) == 183;
    assert UnidadesPorTanda(250, 0.05) == 228;
    ReglaDaLaBruta(250, 174, 0.05);
    assert UnidadesBuenas(183, 0.05) == 173;
    assert KgVerde(183, 250, 0.05) < 300.0;
    assert AlertasUmbral(p, e, 180, 59, 58, 183) == [BajoStockSeguridad];
    SemanaDesglose(p, e, "2024-S02", 65);
    var f := Semana(p, e, "2024-S02", 65).value;
    assert f.produccion == 183;
    assert f.inventarioFinal == 58;
    assert f.alertas == [BajoStockSeguridad];
  }
}
