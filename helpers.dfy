/** The client's copies of the week helpers and its scrap ratio
    (client/utils/helpers.py). The client works with datetime values; a
    datetime at midnight is modelled by its date ordinal. */
module Helpers {
  import opened Outcomes
  import opened Calendar
  import opened PyStr
  import IsoWeeks

  /** get_iso_week_dates(year, week): the Monday and the Sunday of ISO week
      `week` of `year`, counted from the Monday on or before 4 January.
      datetime(year, 1, 4) raises ValueError outside years 1..9999; each of
      the two additions raises OverflowError when it leaves the date range. */
  function IsoWeekDates(year: int, week: int): (r: Result<(Date, Date)>)
    ensures r.Raise? ==> r.exc == ValueError || r.exc == OverflowError
    ensures r.Ok? ==> r.value.1 == r.value.0 + 6
  {
    if !(1 <= year <= 9999) then Raise(ValueError)
    else
      var monday := MondayOnOrBeforeJan4(year) + 7 * (week - 1);
      if !InDateRange(monday) then Raise(OverflowError)
      else
        var sunday := monday + 6;
        if !InDateRange(sunday) then Raise(OverflowError)
        else Ok((monday, sunday))
  }

  /** The client and the server agree: the week's dates are semana_iso_a_fecha
      for day 1 and day 7, and each side raises exactly when the other does. */
  lemma IsoWeekDatesAgree(year: int, week: int)
    ensures var lunes := IsoWeeks.SemanaIsoAFecha(year, week, 1);
      var domingo := IsoWeeks.SemanaIsoAFecha(year, week, 7);
      IsoWeekDates(year, week)
        == if lunes.Raise? then Raise(lunes.exc)
           else if domingo.Raise? then Raise(domingo.exc)
           else Ok((lunes.value, domingo.value))
  {
  }

  /** The dates run Monday to Sunday, and for a week of the ISO year they lie
      in that week, except where 9999's last week leaves the date range. */
  lemma IsoWeekDatesSpanTheWeek(year: int, week: int)
    requires 1 <= year <= 9999 && 1 <= week <= WeeksInIsoYear(year)
    ensures IsoWeekDates(year, week).Raise? <==> year == 9999 && week == 52
    ensures IsoWeekDates(year, week).Ok? ==>
      var (monday, sunday) := IsoWeekDates(year, week).value;
      && Weekday(monday) == 0 && Weekday(sunday) == 6
      && IsoWeeks.FechaASemanaIso(monday) == (year, week)
      && IsoWeeks.FechaASemanaIso(sunday) == (year, week)
  {
    IsoWeekDatesAgree(year, week);
    IsoWeeks.SemanaAFechaAFecha(year, week, 1);
    IsoWeeks.SemanaAFechaAFecha(year, week, 7);
    if IsoWeekDates(year, week).Ok? {
      IsoWeeks.DiaDeLaSemana(year, week, 1);
      IsoWeeks.DiaDeLaSemana(year, week, 7);
    }
  }

  /** format_iso_week: the same key as the server's formato_semana_iso. */
  function FormatIsoWeek(year: int, week: int): (s: string)
    ensures s == IsoWeeks.FormatoSemanaIso(year, week)
  {
    IntToStr(year) + "-S" + ZeroPad2(week)
  }

  /** parse_iso_week: split on "-S", exactly two pieces, int() of each. */
  function ParseIsoWeek(s: string): (r: Result<(int, int)>)
    ensures r == IsoWeeks.ParsearSemanaIso(s)
  {
    var parts := Split(s, "-S");
    if |parts| != 2 then Raise(ValueError)
    else
      var year := ParseInt(parts[0]);
      var week := ParseInt(parts[1]);
      if year.Raise? || week.Raise? then Raise(ValueError)
      else Ok((year.value, week.value))
  }

  /** Round trip through the client's pair, for every pair of integers. */
  lemma ParseFormatIsoWeek(year: int, week: int)
    ensures ParseIsoWeek(FormatIsoWeek(year, week)) == Ok((year, week))
  {
    IsoWeeks.ParsearFormato(year, week);
  }

  // ---------------------------------------------------------------------------
  // calculate_scrap

  /** calculate_scrap(kg_verde, unidades, presentacion_g): the share of the
      green coffee's grams that did not end up in finished units, clamped to
      [0, 1]; 0 when no positive weight of green coffee was used. */
  function CalculateScrap(kgVerde: real, unidades: int, presentacionG: int): (r: real)
    ensures 0.0 <= r <= 1.0
    ensures kgVerde <= 0.0 ==> r == 0.0
    ensures kgVerde > 0.0 ==>
      var crudo := 1.0 - (unidades * presentacionG) as real / (kgVerde * 1000.0);
      0.0 <= crudo <= 1.0 ==> r == crudo
  {
    var gVerde := kgVerde * 1000.0;
    var gProducto := (unidades * presentacionG) as real;
    if gVerde > 0.0 then
      var scrap := 1.0 - gProducto / gVerde;
      Max(0.0, Min(1.0, scrap))
    else 0.0
  }

  function Min(a: real, b: real): real { if a <= b then a else b }
  function Max(a: real, b: real): real { if a >= b then a else b }

  /** The clamp's two ends: all of the green coffee is scrap exactly when no
      grams came out, and none of it is when at least as many grams came out
      as went in. */
  lemma ScrapExtremes(kgVerde: real, unidades: int, presentacionG: int)
    requires kgVerde > 0.0
    ensures CalculateScrap(kgVerde, unidades, presentacionG) == 1.0
        <==> unidades * presentacionG <= 0
    ensures CalculateScrap(kgVerde, unidades, presentacionG) == 0.0
        <==> (unidades * presentacionG) as real >= kgVerde * 1000.0
  {
    var g := (unidades * presentacionG) as real;
    var v := kgVerde * 1000.0;
    if g < v {
      assert g / v < 1.0 by { DivBelowOne(g, v); }
    } else {
      assert g / v >= 1.0 by { DivAtLeastOne(g, v); }
    }
    if g > 0.0 {
      assert g / v > 0.0;
    } else {
      assert g / v <= 0.0 by { DivNonPositive(g, v); }
    }
  }

  lemma DivBelowOne(g: real, v: real)
    requires v > 0.0 && g < v
    ensures g / v < 1.0
  {
    assert g / v * v == g;
  }

  lemma DivAtLeastOne(g: real, v: real)
    requires v > 0.0 && g >= v
    ensures g / v >= 1.0
  {
    assert g / v * v == g;
  }

  lemma DivNonPositive(g: real, v: real)
    requires v > 0.0 && g <= 0.0
    ensures g / v <= 0.0
  {
    assert g / v * v == g;
  }

  /** Inside the clamp the ratio gives the finished grams back: with scrap r,
      1000 * kg * (1 - r) grams of product came out of kg kilograms. */
  lemma ScrapRecoversProductGrams(kgVerde: real, unidades: int, presentacionG: int)
    requires kgVerde > 0.0
    requires 0 <= unidades * presentacionG
    requires (unidades * presentacionG) as real <= kgVerde * 1000.0
    ensures (unidades * presentacionG) as real
        == kgVerde * 1000.0 * (1.0 - CalculateScrap(kgVerde, unidades, presentacionG))
  {
    var g := (unidades * presentacionG) as real;
    var v := kgVerde * 1000.0;
    DivAtMostOne(g, v);
    assert g / v * v == g;
  }

  lemma DivAtMostOne(g: real, v: real)
    requires v > 0.0 && 0.0 <= g <= v
    ensures 0.0 <= g / v <= 1.0
  {
    assert g / v * v == g;
  }

  /** 228 units of 250 g from 60 kg leave 5% scrap. */
  lemma ScrapExample()
    ensures CalculateScrap(60.0, 228, 250) == 0.05
  {
    assert (228 * 250) as real / (60.0 * 1000.0) == 0.95;
  }
}
