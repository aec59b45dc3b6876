/**
 * The output line of one closed session (Track_EDGAR.py, CreateLine, lines 48-53):
 * `ip,first,last,dur,count` followed by a newline. Numbers are written in
 * decimal as str() writes them; the two time stamps are written as their count
 * of seconds (see README, "Left out"). ParseLine is the inverse used to show
 * that a line determines the five values it was built from.
 */
module Output {
  import opened Wrappers

  predicate IsDigit(c: char) {
    '0' <= c <= '9'
  }

  predicate AllDigits(s: string) {
    forall i :: 0 <= i < |s| ==> IsDigit(s[i])
  }

  function DigitChar(d: nat): (c: char)
    requires d < 10
    ensures IsDigit(c) && c as int - '0' as int == d
  {
    (d + '0' as int) as char
  }

  function DigitValue(c: char): nat
    requires IsDigit(c)
  {
    c as int - '0' as int
  }

  /**
   * Decimal text of a natural number, most significant digit first, as str()
   * gives it: no leading zero, except for 0 itself.
   */
  function NatToString(n: nat): (s: string)
    ensures |s| >= 1 && AllDigits(s)
    ensures s[0] == '0' <==> n == 0
    decreases n
  {
    if n < 10 then [DigitChar(n)]
    else
      var s := NatToString(n / 10) + [DigitChar(n % 10)];
      assert s[0] == NatToString(n / 10)[0];
      s
  }

  /** Decimal text of an integer; a negative number gets a leading '-'. */
  function IntToString(i: int): (s: string)
    ensures |s| >= 1 && ',' !in s
    ensures i >= 0 ==> AllDigits(s) && (s[0] == '0' <==> i == 0)
    ensures i < 0 ==> s[0] == '-' && |s| >= 2 && AllDigits(s[1..]) && s[1] != '0'
  {
    if i < 0 then "-" + NatToString(-i) else NatToString(i)
  }

  function ParseNat(s: string): nat
    requires AllDigits(s)
    decreases |s|
  {
    if |s| == 0 then 0 else ParseNat(s[..|s| - 1]) * 10 + DigitValue(s[|s| - 1])
  }

  function ParseDecimal(s: string): Option<nat> {
    if |s| >= 1 && AllDigits(s) then Some(ParseNat(s)) else None
  }

  function ParseInt(s: string): Option<int> {
    if |s| >= 2 && s[0] == '-' && AllDigits(s[1..]) then Some(0 - ParseNat(s[1..]) as int)
    else match ParseDecimal(s) case Some(n) => Some(n as int) case None => None
  }

  lemma {:induction false} ParseNatToString(n: nat)
    ensures ParseNat(NatToString(n)) == n
    decreases n
  {
    if n >= 10 {
      var s := NatToString(n);
      assert s[..|s| - 1] == NatToString(n / 10);
      ParseNatToString(n / 10);
    }
  }

  lemma ParseIntToString(i: int)
    ensures ParseInt(IntToString(i)) == Some(i)
  {
    if i < 0 {
      ParseNegative(-i);
    } else {
      ParseNonNegative(i);
    }
  }

  lemma ParseNegative(n: nat)
    requires n > 0
    ensures ParseInt("-" + NatToString(n)) == Some(-(n as int))
  {
    var s := "-" + NatToString(n);
    assert s[1..] == NatToString(n);
    ParseNatToString(n);
  }

  lemma ParseNonNegative(n: nat)
    ensures ParseInt(NatToString(n)) == Some(n)
  {
    var s := NatToString(n);
    assert IsDigit(s[0]);
    ParseNatToString(n);
  }

  /** The comma-separated fields of a text, as Python's split(',') returns them. */
  function Split(s: string): (parts: seq<string>)
    ensures |parts| >= 1
    decreases |s|
  {
    if |s| == 0 then [""]
    else if s[0] == ',' then [""] + Split(s[1..])
    else var rest := Split(s[1..]); [[s[0]] + rest[0]] + rest[1..]
  }

  lemma {:induction false} SplitNoComma(a: string)
    requires ',' !in a
    ensures Split(a) == [a]
    decreases |a|
  {
    if |a| > 0 {
      SplitNoComma(a[1..]);
      assert [a[0]] + a[1..] == a;
    }
  }

  lemma {:induction false} SplitField(a: string, b: string)
    requires ',' !in a
    ensures Split(a + "," + b) == [a] + Split(b)
    decreases |a|
  {
    if |a| == 0 {
      assert a + "," + b == [','] + b;
      assert (a + "," + b)[1..] == b;
    } else {
      assert (a + "," + b)[1..] == a[1..] + "," + b;
      SplitField(a[1..], b);
      assert [a[0]] + a[1..] == a;
    }
  }

  /** The five values an output line carries. */
  datatype Fields = Fields(ip: string, first: nat, last: nat, dur: int, count: nat)

  /** One output line: `ip,first,last,dur,count\n` (Track_EDGAR.py, line 52). */
  function CreateLine(ip: string, first: nat, last: nat, dur: int, count: nat): string {
    ip + "," + NatToString(first) + "," + NatToString(last) + "," + IntToString(dur) + ","
      + NatToString(count) + "\n"
  }

  /** Reads an output line back into its five values, or None if it is not one. */
  function ParseLine(line: string): Option<Fields> {
    if |line| == 0 || line[|line| - 1] != '\n' then None
    else
      var parts := Split(line[..|line| - 1]);
      if |parts| != 5 then None
      else
        match (ParseDecimal(parts[1]), ParseDecimal(parts[2]), ParseInt(parts[3]), ParseDecimal(parts[4]))
        case (Some(f), Some(l), Some(d), Some(c)) => Some(Fields(parts[0], f, l, d, c))
        case _ => None
  }

  /**
   * A line determines the values it was written from, as long as the ip holds
   * no comma; an ip taken from a row split on ',' never does (line 89).
   */
  lemma CreateLineRoundTrip(ip: string, first: nat, last: nat, dur: int, count: nat)
    requires ',' !in ip
    ensures ParseLine(CreateLine(ip, first, last, dur, count)) == Some(Fields(ip, first, last, dur, count))
  {
    var f, l, d, c := NatToString(first), NatToString(last), IntToString(dur), NatToString(count);
    LineBody(ip, f, l, d, c);
    SplitFive(ip, f, l, d, c);
    ParseNatToString(first);
    ParseNatToString(last);
    ParseIntToString(dur);
    ParseNatToString(count);
  }

  /** An output line is its five fields joined by commas, then a newline. */
  lemma LineBody(ip: string, f: string, l: string, d: string, c: string)
    ensures var line := ip + "," + f + "," + l + "," + d + "," + c + "\n";
      |line| > 0 && line[|line| - 1] == '\n' && line[..|line| - 1] == ip + "," + (f + "," + (l + "," + (d + "," + c)))
  {
    var line := ip + "," + f + "," + l + "," + d + "," + c + "\n";
    assert line == (ip + "," + (f + "," + (l + "," + (d + "," + c)))) + "\n";
  }

  /** Five comma-free fields joined by commas split back into the same five. */
  lemma SplitFive(a: string, b: string, c: string, d: string, e: string)
    requires ',' !in a && ',' !in b && ',' !in c && ',' !in d && ',' !in e
    ensures Split(a + "," + (b + "," + (c + "," + (d + "," + e)))) == [a, b, c, d, e]
  {
    SplitField(a, b + "," + (c + "," + (d + "," + e)));
    SplitField(b, c + "," + (d + "," + e));
    SplitField(c, d + "," + e);
    SplitField(d, e);
    SplitNoComma(e);
  }
}
