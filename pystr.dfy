/** The pieces of Python's string handling that the week-key code relies on:
    str() of an int, the "02d" format spec, str.split with a separator, and int()
    of a string in base 10. */
module PyStr {
  import opened Outcomes

  predicate IsDigit(c: char) { '0' <= c <= '9' }

  function DigitChar(d: nat): (c: char)
    requires d < 10
    ensures IsDigit(c) && DigitValue(c) == d
  {
    ('0' as int + d) as char
  }

  function DigitValue(c: char): (d: nat)
    requires IsDigit(c)
    ensures d < 10
  {
    c as int - '0' as int
  }

  /** The decimal digits of n, most significant first, without leading zeros. */
  function Digits(n: nat): (s: string)
    ensures |s| > 0
    ensures n > 0 ==> s[0] != '0'
    ensures forall i :: 0 <= i < |s| ==> IsDigit(s[i])
    decreases n
  {
    if n < 10 then [DigitChar(n)] else Digits(n / 10) + [DigitChar(n % 10)]
  }

  /** str(n) for a Python int: the decimal digits, after a minus sign when n
      is negative. */
  function IntToStr(n: int): (s: string)
    ensures |s| > 0 && IsDigit(s[|s| - 1])
    ensures n >= 0 ==> forall i :: 0 <= i < |s| ==> IsDigit(s[i])
    ensures n >= 0 ==> s[0] != '0' || s == "0"
    ensures n < 0 ==> |s| >= 2 && s[1] != '0'
    ensures n < 0 ==> s[0] == '-' && forall i :: 0 < i < |s| ==> IsDigit(s[i])
  {
    if n < 0 then "-" + Digits(-n) else Digits(n)
  }

  /** format(n, "02d"): the sign-aware zero padding to a width of at least two
      characters; a negative number already has two characters ("-5"). */
  function ZeroPad2(n: int): (s: string)
    ensures |s| >= 2 && IsDigit(s[|s| - 1])
    ensures forall i :: 0 <= i < |s| ==> IsDigit(s[i]) || s[i] == '-'
    ensures 0 <= n ==> forall i :: 0 <= i < |s| ==> IsDigit(s[i])
  {
    if 0 <= n < 10 then "0" + Digits(n) else IntToStr(n)
  }

  // ---------------------------------------------------------------------------
  // str.split(sep)

  /** sep occurs in s starting at index i. */
  predicate OccursAt(s: string, sep: string, i: int)
  {
    0 <= i && i + |sep| <= |s| && s[i..i + |sep|] == sep
  }

  /** s.split(sep) for a non-empty separator: the occurrences of sep are found
      left to right without overlap and the pieces between them are returned. */
  function Split(s: string, sep: string): (parts: seq<string>)
    requires |sep| > 0
    ensures |parts| > 0
    decreases |s|
  {
    if |s| < |sep| then [s]
    else if s[..|sep|] == sep then [""] + Split(s[|sep|..], sep)
    else
      var rest := Split(s[1..], sep);
      [[s[0]] + rest[0]] + rest[1..]
  }

  /** sep.join(parts). */
  function Join(parts: seq<string>, sep: string): string
    requires |parts| > 0
  {
    if |parts| == 1 then parts[0] else parts[0] + sep + Join(parts[1..], sep)
  }

  /** Splitting loses nothing: joining the pieces with the separator gives the
      string back. */
  lemma {:induction false} JoinSplit(s: string, sep: string)
    requires |sep| > 0
    ensures Join(Split(s, sep), sep) == s
    decreases |s|
  {
    if |s| < |sep| {
    } else if s[..|sep|] == sep {
      var rest := Split(s[|sep|..], sep);
      JoinSplit(s[|sep|..], sep);
      JoinAfterEmpty(rest, sep);
      assert s == sep + s[|sep|..];
    } else {
      var rest := Split(s[1..], sep);
      JoinSplit(s[1..], sep);
      JoinPrepend(s[0], rest, sep);
      assert s == [s[0]] + s[1..];
    }
  }

  /** An empty first piece puts the separator in front. */
  lemma JoinAfterEmpty(rest: seq<string>, sep: string)
    requires |rest| > 0
    ensures Join([""] + rest, sep) == sep + Join(rest, sep)
  {
    assert ([""] + rest)[1..] == rest;
  }

  /** A character in front of the first piece is in front of the join. */
  lemma JoinPrepend(c: char, rest: seq<string>, sep: string)
    requires |rest| > 0
    ensures Join([[c] + rest[0]] + rest[1..], sep) == [c] + Join(rest, sep)
  {
    var parts := [[c] + rest[0]] + rest[1..];
    if |rest| > 1 {
      assert parts[1..] == rest[1..];
    }
  }

  /** A string in which the separator does not occur splits into itself. */
  lemma {:induction false} SplitWithoutSeparator(s: string, sep: string)
    requires |sep| > 0
    requires forall i :: 0 <= i < |s| ==> !OccursAt(s, sep, i)
    ensures Split(s, sep) == [s]
    decreases |s|
  {
    if |s| >= |sep| {
      assert !OccursAt(s, sep, 0);
      forall i | 0 <= i < |s[1..]|
        ensures !OccursAt(s[1..], sep, i)
      {
        if i + |sep| <= |s[1..]| {
          assert !OccursAt(s, sep, i + 1);
          assert s[1..][i..i + |sep|] == s[i + 1..i + 1 + |sep|];
        }
      }
      SplitWithoutSeparator(s[1..], sep);
      assert [s[0]] + s[1..] == s;
    }
  }

  /** When the first occurrence of sep in a + sep + b is the one after a, the
      first piece is a. */
  lemma {:induction false} SplitAtFirst(a: string, b: string, sep: string)
    requires |sep| > 0
    requires forall i :: 0 <= i < |a| ==> !OccursAt(a + sep + b, sep, i)
    ensures Split(a + sep + b, sep) == [a] + Split(b, sep)
    decreases |a|
  {
    var s := a + sep + b;
    if |a| == 0 {
      assert s == sep + b;
      assert s[..|sep|] == sep;
      assert s[|sep|..] == b;
    } else {
      assert !OccursAt(s, sep, 0);
      var a' := a[1..];
      assert s[1..] == a' + sep + b;
      forall i | 0 <= i < |a'|
        ensures !OccursAt(a' + sep + b, sep, i)
      {
        if i + |sep| <= |s[1..]| {
          assert !OccursAt(s, sep, i + 1);
          assert s[1..][i..i + |sep|] == s[i + 1..i + 1 + |sep|];
        }
      }
      SplitAtFirst(a', b, sep);
      assert [s[0]] + a' == a;
    }
  }

  // ---------------------------------------------------------------------------
  // int(s) in base 10

  /** The white space int() strips from both ends of its argument: the ASCII
      characters \t \n \v \f \r and space, and the non-ASCII characters
      str.isspace() accepts, which int() first turns into spaces. The ASCII
      separators 0x1C-0x1F pass str.isspace() but are not stripped. */
  predicate IsSpace(c: char)
  {
    var k := c as int;
    (9 <= k <= 13) || k == 32 || k == 0x85 || k == 0xA0 || k == 0x1680
    || (0x2000 <= k <= 0x200A) || k == 0x2028 || k == 0x2029 || k == 0x202F
    || k == 0x205F || k == 0x3000
  }

  function StripLeft(s: string): string
  {
    if |s| > 0 && IsSpace(s[0]) then StripLeft(s[1..]) else s
  }

  function StripRight(s: string): string
  {
    if |s| > 0 && IsSpace(s[|s| - 1]) then StripRight(s[..|s| - 1]) else s
  }

  /** A run of decimal digits in which single underscores may separate digits,
      as int() accepts it. */
  predicate IsDigitRun(t: string)
  {
    && |t| > 0 && IsDigit(t[0])
    && DigitsAndUnderscores(t)
    && forall i :: 0 <= i < |t| && t[i] == '_' ==> i + 1 < |t| && IsDigit(t[i + 1])
  }

  predicate DigitsAndUnderscores(t: string)
  {
    forall i :: 0 <= i < |t| ==> IsDigit(t[i]) || t[i] == '_'
  }

  /** The number a digit run denotes; underscores carry no value. */
  function RunValue(t: string): nat
    requires DigitsAndUnderscores(t)
  {
    if |t| == 0 then 0
    else if t[|t| - 1] == '_' then RunValue(t[..|t| - 1])
    else RunValue(t[..|t| - 1]) * 10 + DigitValue(t[|t| - 1])
  }

  /** int(s): surrounding white space, an optional sign, then a digit run;
      anything else raises ValueError. */
  function ParseInt(s: string): (r: Result<int>)
    ensures r.Raise? ==> r.exc == ValueError
  {
    var t := StripRight(StripLeft(s));
    if |t| > 0 && (t[0] == '-' || t[0] == '+') then
      if IsDigitRun(t[1..]) then
        var v: int := RunValue(t[1..]);
        Ok(if t[0] == '-' then -v else v)
      else Raise(ValueError)
    else if IsDigitRun(t) then Ok(RunValue(t))
    else Raise(ValueError)
  }

  /** int() rejects the ASCII separators 0x1C-0x1F around a number, and
      strips a tab or a no-break space. */
  lemma ParseIntSpaces()
    ensures ParseInt([28 as char, '5']) == Raise(ValueError)
    ensures ParseInt(['5', 31 as char]) == Raise(ValueError)
    ensures ParseInt(['\t', '5', 0xA0 as char]) == Ok(5)
  {
    assert StripLeft(['\t', '5', 0xA0 as char]) == ['5', 0xA0 as char];
    assert StripRight(['5', 0xA0 as char]) == ['5'];
    assert ['5'][..0] == [];
  }

  lemma {:induction false} RunValueDigits(n: nat)
    ensures RunValue(Digits(n)) == n
    decreases n
  {
    if n >= 10 {
      RunValueDigits(n / 10);
      var s := Digits(n);
      assert s[..|s| - 1] == Digits(n / 10);
    }
  }

  /** int(str(n)) == n. */
  lemma ParseIntToStr(n: int)
    ensures ParseInt(IntToStr(n)) == Ok(n)
  {
    var s := IntToStr(n);
    var d := Digits(if n < 0 then -n else n);
    RunValueDigits(if n < 0 then -n else n);
    assert StripLeft(s) == s;
    assert StripRight(s) == s;
    if n < 0 {
      assert s[1..] == d;
    }
  }

  /** int(format(n, "02d")) == n. */
  lemma ParseIntZeroPad2(n: int)
    ensures ParseInt(ZeroPad2(n)) == Ok(n)
  {
    if 0 <= n < 10 {
      var s := ZeroPad2(n);
      assert s == ['0', DigitChar(n)];
      assert StripLeft(s) == s;
      assert StripRight(s) == s;
      assert s[..1] == ['0'] && ['0'][..0] == [];
      assert RunValue(['0']) == 0;
      assert IsDigitRun(s);
      assert RunValue(s) == RunValue(['0']) * 10 + DigitValue(DigitChar(n));
    } else {
      ParseIntToStr(n);
    }
  }
}
