/** The server's ISO week helpers (server/app/utils/iso_weeks.py): converting a
    date to its ISO year and week and back, and the "YYYY-SWW" week keys the MPS
    engine uses as dictionary and sort keys. */
module IsoWeeks {
  import opened Outcomes
  import opened Calendar
  import opened PyStr
  import StrOrder

  /** fecha_a_semana_iso: the ISO year and week of a date. */
  function FechaASemanaIso(fecha: Date): (r: (int, int))
    ensures InIsoYear(fecha, r.0)
    ensures 1 <= r.1 <= WeeksInIsoYear(r.0)
    ensures r.1 == (fecha - IsoWeek1Monday(r.0)) / 7 + 1
  {
    var c := IsoCalendar(fecha);
    (c.0, c.1)
  }

  /** semana_iso_a_fecha(anio, semana, dia): the Monday on or before 4 January of
      anio, plus semana - 1 weeks and dia - 1 days. date(anio, 1, 4) raises
      ValueError outside years 1..9999; a sum that leaves the date range raises
      OverflowError. No argument is otherwise checked; dia defaults to 1,
      the Monday. */
  function SemanaIsoAFecha(anio: int, semana: int, dia: int := 1): (r: Result<Date>)
    ensures r == Raise(ValueError) <==> !(1 <= anio <= 9999)
    ensures r.Raise? ==> r.exc == ValueError || r.exc == OverflowError
  {
    if !(1 <= anio <= 9999) then Raise(ValueError)
    else
      var target := MondayOnOrBeforeJan4(anio) + 7 * (semana - 1) + (dia - 1);
      if InDateRange(target) then Ok(target) else Raise(OverflowError)
  }

  /** The Monday of week 1 is the Monday on or before 4 January, 0 to 6 days
      before it, and it is the Monday of the week holding the first Thursday. */
  lemma PrimerLunes(anio: int)
    requires 1 <= anio <= 9999
    ensures SemanaIsoAFecha(anio, 1, 1).Ok?
    ensures var m := SemanaIsoAFecha(anio, 1, 1).value;
      && Weekday(m) == 0
      && January(anio, 4) - 6 <= m <= January(anio, 4)
      && m == IsoWeek1Monday(anio)
  {
    FirstThursdayRule(anio);
    IsoYearInDateRange(anio);
    var n := WeeksInIsoYear(anio);
  }

  /** Day dia of a week (1 = Monday .. 7 = Sunday) falls on weekday dia - 1. */
  lemma DiaDeLaSemana(anio: int, semana: int, dia: int)
    requires 1 <= dia <= 7
    requires SemanaIsoAFecha(anio, semana, dia).Ok?
    ensures Weekday(SemanaIsoAFecha(anio, semana, dia).value) == dia - 1
  {
    var m := MondayOnOrBeforeJan4(anio);
    var target := m + 7 * (semana - 1) + (dia - 1);
    assert SemanaIsoAFecha(anio, semana, dia).value == target;
    WeekdayFromMonday(m, semana - 1, dia - 1);
  }

  /** The same day of the next week is seven days later. */
  lemma SemanaSiguiente(anio: int, semana: int, dia: int)
    requires SemanaIsoAFecha(anio, semana, dia).Ok?
    requires InDateRange(SemanaIsoAFecha(anio, semana, dia).value + 7)
    ensures SemanaIsoAFecha(anio, semana + 1, dia) == Ok(SemanaIsoAFecha(anio, semana, dia).value + 7)
  {
    assert 1 <= anio <= 9999;
    var m := MondayOnOrBeforeJan4(anio);
    ContandoDesde(anio, semana, dia, m);
    ContandoDesde(anio, semana + 1, dia, m);
  }

  /** semana_iso_a_fecha for a valid year, from that year's Monday m. */
  lemma ContandoDesde(anio: int, semana: int, dia: int, m: int)
    requires 1 <= anio <= 9999 && m == MondayOnOrBeforeJan4(anio)
    ensures var t := m + 7 * (semana - 1) + (dia - 1);
      SemanaIsoAFecha(anio, semana, dia) == if InDateRange(t) then Ok(t) else Raise(OverflowError)
  {
  }

  /** Day k (0-based) of the 7n days from the Monday m is in week k / 7 + 1. */
  lemma WeekOfOffset(k: int, semana: int, dia: int)
    requires 1 <= dia <= 7
    requires k == 7 * (semana - 1) + (dia - 1)
    ensures k / 7 + 1 == semana
  {
  }

  /** The inverse pair, from weeks to dates and back: every day of a week of
      ISO year anio (1..9999) is a date, except the last two days of 9999, and
      its ISO year and week are anio and semana. */
  lemma SemanaAFechaAFecha(anio: int, semana: int, dia: int)
    requires 1 <= anio <= 9999
    requires 1 <= semana <= WeeksInIsoYear(anio)
    requires 1 <= dia <= 7
    ensures SemanaIsoAFecha(anio, semana, dia).Raise? <==> anio == 9999 && semana == 52 && dia >= 6
    ensures SemanaIsoAFecha(anio, semana, dia).Ok? ==>
      FechaASemanaIso(SemanaIsoAFecha(anio, semana, dia).value) == (anio, semana)
  {
    var m := IsoWeek1Monday(anio);
    var target := m + 7 * (semana - 1) + (dia - 1);
    DesdeElPrimerLunes(anio, semana, dia);
    DentroDelAnio(anio, semana, dia);
    var r := SemanaIsoAFecha(anio, semana, dia);
    if r.Ok? {
      SemanaDeUnDia(anio, semana, dia, r.value);
    }
  }

  lemma SemanaDeUnDia(anio: int, semana: int, dia: int, t: Date)
    requires 1 <= dia <= 7
    requires t == IsoWeek1Monday(anio) + 7 * (semana - 1) + (dia - 1)
    requires InIsoYear(t, anio)
    ensures FechaASemanaIso(t) == (anio, semana)
  {
    var c := IsoCalendar(t);
    IsoYearUnique(t, c.0, anio);
    WeekOfOffset(t - IsoWeek1Monday(anio), semana, dia);
  }

  /** semana_iso_a_fecha counts from the Monday of ISO week 1. */
  lemma DesdeElPrimerLunes(anio: int, semana: int, dia: int)
    requires 1 <= anio <= 9999
    ensures var target := IsoWeek1Monday(anio) + 7 * (semana - 1) + (dia - 1);
      SemanaIsoAFecha(anio, semana, dia)
        == if InDateRange(target) then Ok(target) else Raise(OverflowError)
  {
    FirstThursdayRule(anio);
  }

  /** A day of a week of ISO year anio lies in that ISO year, and after date.max
      only for the last two days of 9999. */
  lemma DentroDelAnio(anio: int, semana: int, dia: int)
    requires 1 <= anio <= 9999
    requires 1 <= semana <= WeeksInIsoYear(anio)
    requires 1 <= dia <= 7
    ensures var target := IsoWeek1Monday(anio) + 7 * (semana - 1) + (dia - 1);
      && InIsoYear(target, anio)
      && 1 <= target
      && (target <= MaxOrdinal <==> !(anio == 9999 && semana == 52 && dia >= 6))
  {
    IsoYearInDateRange(anio);
    IsoYearsOfDateRange();
    LastIsoYear();
    var m, n := IsoWeek1Monday(anio), WeeksInIsoYear(anio);
    if anio < 9999 {
      IsoWeek1MondayMonotone(anio + 1, 9999);
    }
    WeekDayOffsets(m, n, anio == 9999, semana, dia);
  }

  /** The arithmetic behind DentroDelAnio, over the Monday m of week 1 and the
      number n of weeks of a year; last says whether the year is 9999. */
  lemma WeekDayOffsets(m: int, n: int, last: bool, semana: int, dia: int)
    requires 1 <= m && (n == 52 || n == 53) && 1 <= semana <= n && 1 <= dia <= 7
    requires last ==> m + 7 * n == MaxOrdinal + 3 && n == 52
    requires !last ==> m + 7 * n <= MaxOrdinal + 3 - 364
    ensures var target := m + 7 * (semana - 1) + (dia - 1);
      && m <= target < m + 7 * n
      && (target <= MaxOrdinal <==> !(last && semana == 52 && dia >= 6))
  {
  }

  /** The ISO year of a date is one of the years 1 .. 9999. */
  lemma IsoYearOfDate(d: int, y: int)
    requires InDateRange(d) && InIsoYear(d, y)
    ensures 1 <= y <= 9999
  {
    IsoYearsOfDateRange();
    if y < 1 { IsoWeek1MondayMonotone(y + 1, 1); }
    if y > 9999 { IsoWeek1MondayMonotone(10000, y); }
  }

  /** ... and from dates to weeks and back: a date's ISO year is a valid
      argument, and its ISO year, week and weekday give the date again. */
  lemma FechaASemanaAFecha(fecha: Date)
    ensures var (anio, semana) := FechaASemanaIso(fecha);
      && 1 <= anio <= 9999
      && 1 <= semana <= WeeksInIsoYear(anio)
      && SemanaIsoAFecha(anio, semana, Weekday(fecha) + 1) == Ok(fecha)
  {
    var c := IsoCalendar(fecha);
    IsoYearOfDate(fecha, c.0);
    DiaDeSuSemana(fecha, c.0, c.1);
  }

  /** A date is day Weekday + 1 of its week counted from week 1's Monday. */
  lemma DiaDeSuSemana(fecha: Date, anio: int, semana: int)
    requires 1 <= anio <= 9999 && InIsoYear(fecha, anio)
    requires semana == (fecha - IsoWeek1Monday(anio)) / 7 + 1
    ensures SemanaIsoAFecha(anio, semana, Weekday(fecha) + 1) == Ok(fecha)
  {
    var m := IsoWeek1Monday(anio);
    IsoWeek1MondayIsMondayNearJan1(anio);
    var k := fecha - m;
    var q, r := k / 7, k % 7;
    assert fecha == m + 7 * q + r;
    WeekdayFromMonday(m, q, r);
    assert Weekday(fecha) == r;
    DesdeElPrimerLunes(anio, semana, r + 1);
    assert m + 7 * (semana - 1) + (r + 1 - 1) == fecha;
  }

  // ---------------------------------------------------------------------------
  // Week keys

  /** formato_semana_iso: f"{anio}-S{semana:02d}". */
  function FormatoSemanaIso(anio: int, semana: int): string
  {
    IntToStr(anio) + "-S" + ZeroPad2(semana)
  }

  /** parsear_semana_iso: split on "-S"; anything but two pieces, or a piece
      int() rejects, raises ValueError. */
  function ParsearSemanaIso(s: string): (r: Result<(int, int)>)
    ensures r.Raise? ==> r.exc == ValueError
    ensures |Split(s, "-S")| != 2 ==> r == Raise(ValueError)
    ensures r.Ok? ==> (
      && |Split(s, "-S")| == 2
      && ParseInt(Split(s, "-S")[0]) == Ok(r.value.0)
      && ParseInt(Split(s, "-S")[1]) == Ok(r.value.1)
      && s == Split(s, "-S")[0] + "-S" + Split(s, "-S")[1])
  {
    var partes := Split(s, "-S");
    JoinSplit(s, "-S");
    if |partes| != 2 then Raise(ValueError)
    else
      var anio := ParseInt(partes[0]);
      var semana := ParseInt(partes[1]);
      if anio.Raise? || semana.Raise? then Raise(ValueError)
      else Ok((anio.value, semana.value))
  }

  /** Round trip: parsing a formatted key gives back year and week, for every
      pair of integers (negative ones included). */
  lemma ParsearFormato(anio: int, semana: int)
    ensures ParsearSemanaIso(FormatoSemanaIso(anio, semana)) == Ok((anio, semana))
  {
    var a, b := IntToStr(anio), ZeroPad2(semana);
    SinSeparadorAntes(a, b);
    SplitAtFirst(a, b, "-S");
    SinSeparador(b);
    SplitWithoutSeparator(b, "-S");
    ParseIntToStr(anio);
    ParseIntZeroPad2(semana);
  }

  /** "-S" does not start inside a string of digits and minus signs that ends
      in a digit, even when "-S" follows it. */
  lemma SinSeparadorAntes(a: string, b: string)
    requires |a| > 0 && IsDigit(a[|a| - 1])
    requires forall i :: 0 <= i < |a| ==> IsDigit(a[i]) || a[i] == '-'
    ensures forall i :: 0 <= i < |a| ==> !OccursAt(a + "-S" + b, "-S", i)
  {
    var s := a + "-S" + b;
    forall i | 0 <= i < |a| ensures !OccursAt(s, "-S", i) {
      assert s[i..i + 2] == [s[i], s[i + 1]];
      if i + 1 < |a| {
        assert s[i + 1] == a[i + 1];
      } else {
        assert s[i] == a[|a| - 1];
      }
    }
  }

  /** "-S" does not occur in a string of digits and minus signs. */
  lemma SinSeparador(b: string)
    requires forall i :: 0 <= i < |b| ==> IsDigit(b[i]) || b[i] == '-'
    ensures forall i :: 0 <= i < |b| ==> !OccursAt(b, "-S", i)
  {
    forall i | 0 <= i < |b| ensures !OccursAt(b, "-S", i) {
      if i + 2 <= |b| {
        assert b[i..i + 2] == [b[i], b[i + 1]];
      }
    }
  }

  /** The key spells the year, "-S" and the week in two digits. */
  lemma FormatoEjemplo()
    ensures FormatoSemanaIso(2024, 5) == "2024-S05"
    ensures FormatoSemanaIso(2024, 12) == "2024-S12"
  {
    assert Digits(2) == "2";
    assert Digits(20) == "20";
    assert Digits(202) == "202";
    assert Digits(2024) == "2024";
    assert ZeroPad2(5) == "05";
    assert Digits(1) == "1";
    assert Digits(12) == "12";
  }

  // ---------------------------------------------------------------------------
  // Sorting week keys

  /** Two digit strings of one length compare as the numbers they spell. */
  lemma {:induction false} LessDigitsIsLessValue(x: string, y: string)
    requires |x| == |y|
    requires forall i :: 0 <= i < |x| ==> IsDigit(x[i])
    requires forall i :: 0 <= i < |y| ==> IsDigit(y[i])
    ensures StrOrder.Less(x, y) <==> RunValue(x) < RunValue(y)
    ensures x == y <==> RunValue(x) == RunValue(y)
    decreases |x|
  {
    if |x| > 0 {
      var n := |x| - 1;
      var x', y' := x[..n], y[..n];
      LessDigitsIsLessValue(x', y');
      assert x == x' + [x[n]] && y == y' + [y[n]];
      StrOrder.LessConcat(x', [x[n]], y', [y[n]]);
      assert [x[n]][1..] == [] && [y[n]][1..] == [];
      assert StrOrder.Less([x[n]], [y[n]]) <==> x[n] < y[n];
      assert RunValue(x) == RunValue(x') * 10 + DigitValue(x[n]);
      assert RunValue(y) == RunValue(y') * 10 + DigitValue(y[n]);
    }
  }

  lemma {:induction false} DigitsLength(n: nat)
    requires 1000 <= n <= 9999
    ensures |Digits(n)| == 4
  {
    var n1, n2, n3 := n / 10, n / 10 / 10, n / 10 / 10 / 10;
    assert 100 <= n1 <= 999 && 10 <= n2 <= 99 && 1 <= n3 <= 9;
    assert |Digits(n3)| == 1;
    assert |Digits(n2)| == |Digits(n3)| + 1;
    assert |Digits(n1)| == |Digits(n2)| + 1;
    assert |Digits(n)| == |Digits(n1)| + 1;
  }

  lemma ZeroPad2Digits(w: int)
    requires 0 <= w <= 99
    ensures |ZeroPad2(w)| == 2
    ensures forall i :: 0 <= i < 2 ==> IsDigit(ZeroPad2(w)[i])
    ensures RunValue(ZeroPad2(w)) == w
  {
    ParseIntZeroPad2(w);
    var s := ZeroPad2(w);
    if w >= 10 {
      assert 1 <= w / 10 <= 9;
      assert s == Digits(w / 10) + [DigitChar(w % 10)];
      assert s == [DigitChar(w / 10), DigitChar(w % 10)];
    } else {
      assert s == ['0', DigitChar(w)];
    }
    assert StripLeft(s) == s && StripRight(s) == s;
    assert IsDigitRun(s);
  }

  /** For four-digit years and weeks of up to two digits, ordering keys as
      strings (what sorted() does with them) orders them by year, then week. */
  lemma ClavesOrdenCronologico(a1: int, w1: int, a2: int, w2: int)
    requires 1000 <= a1 <= 9999 && 1000 <= a2 <= 9999
    requires 0 <= w1 <= 99 && 0 <= w2 <= 99
    ensures StrOrder.Less(FormatoSemanaIso(a1, w1), FormatoSemanaIso(a2, w2))
        <==> a1 < a2 || (a1 == a2 && w1 < w2)
  {
    var d1, d2 := Digits(a1), Digits(a2);
    var p1, p2 := ZeroPad2(w1), ZeroPad2(w2);
    DigitsLength(a1);
    DigitsLength(a2);
    RunValueDigits(a1);
    RunValueDigits(a2);
    ZeroPad2Digits(w1);
    ZeroPad2Digits(w2);
    LessDigitsIsLessValue(d1, d2);
    LessDigitsIsLessValue(p1, p2);
    assert FormatoSemanaIso(a1, w1) == d1 + ("-S" + p1);
    assert FormatoSemanaIso(a2, w2) == d2 + ("-S" + p2);
    StrOrder.LessConcat(d1, "-S" + p1, d2, "-S" + p2);
    StrOrder.LessConcat("-S", p1, "-S", p2);
    StrOrder.LessIrreflexive("-S");
  }

  /** For valid weeks, week order is also the order of their Mondays. */
  lemma LunesOrdenCronologico(a1: int, w1: int, a2: int, w2: int)
    requires 1 <= a1 <= 9999 && 1 <= a2 <= 9999
    requires 1 <= w1 <= WeeksInIsoYear(a1) && 1 <= w2 <= WeeksInIsoYear(a2)
    requires SemanaIsoAFecha(a1, w1, 1).Ok? && SemanaIsoAFecha(a2, w2, 1).Ok?
    ensures SemanaIsoAFecha(a1, w1, 1).value < SemanaIsoAFecha(a2, w2, 1).value
        <==> a1 < a2 || (a1 == a2 && w1 < w2)
  {
    FirstThursdayRule(a1);
    FirstThursdayRule(a2);
    if a1 < a2 { IsoWeek1MondayIncreasing(a1, a2); }
    if a2 < a1 { IsoWeek1MondayIncreasing(a2, a1); }
  }
}
