/** Values shared by the chat front end and the collaboration store: optional
    values, the outcome of a call to the chat backend, wall-clock instants and
    the few pieces of Python string behaviour the application relies on
    (str(n) of a natural number, strftime with a fixed pattern, str.isspace). */
module Base {

  datatype Option<+T> = None | Some(value: T)

  /** What one call to the chat backend yields: the text of the assistant
      message, or the text of the exception it raised (str(e)). */
  datatype Reply = Ok(text: string) | Err(reason: string)

  /** The calendar fields of a datetime. */
  datatype DateTime = DateTime(year: nat, month: nat, day: nat, hour: nat, minute: nat, second: nat)

  /** A datetime as returned by datetime.now(): the field ranges datetime
      enforces, with the four-digit year of any present-day clock. */
  type Instant = t: DateTime | 1000 <= t.year <= 9999 && 1 <= t.month <= 12 && 1 <= t.day <= 31 &&
                               t.hour < 24 && t.minute < 60 && t.second < 60
    witness DateTime(1970, 1, 1, 0, 0, 0)

  function DigitChar(d: nat): (c: char)
    requires d < 10
    ensures '0' <= c <= '9' && c as int == '0' as int + d
  {
    ('0' as int + d) as char
  }

  /** str(n) for a natural number: its decimal digits, most significant first. */
  function Decimal(n: nat): (r: string)
    ensures 1 <= |r|
    ensures forall i :: 0 <= i < |r| ==> '0' <= r[i] <= '9'
    ensures n < 10 <==> |r| == 1
    ensures r[|r| - 1] == DigitChar(n % 10)
    ensures r[0] == '0' <==> n == 0
    decreases n
  {
    if n < 10 then [DigitChar(n)] else Decimal(n / 10) + [DigitChar(n % 10)]
  }

  /** Different numbers are written differently. */
  lemma {:induction false} DecimalInjective(a: nat, b: nat)
    requires Decimal(a) == Decimal(b)
    ensures a == b
  {
    if 10 <= a && 10 <= b {
      var da, db := Decimal(a), Decimal(b);
      assert da == Decimal(a / 10) + [DigitChar(a % 10)];
      assert db == Decimal(b / 10) + [DigitChar(b % 10)];
      assert da[..|da| - 1] == Decimal(a / 10);
      assert db[..|db| - 1] == Decimal(b / 10);
      DecimalInjective(a / 10, b / 10);
    }
  }

  /** int(s) for a text of decimal digits, read most significant first: the
      reader that str(n) and the strftime fields are checked against. */
  function DigitsValue(s: string): int {
    if s == [] then 0 else 10 * DigitsValue(s[..|s| - 1]) + (s[|s| - 1] as int - '0' as int)
  }

  /** str(n) reads back as n. */
  lemma {:induction false} DecimalValue(n: nat)
    ensures DigitsValue(Decimal(n)) == n
    decreases n
  {
    var r := Decimal(n);
    if n < 10 {
      assert r[..0] == [];
    } else {
      assert r[..|r| - 1] == Decimal(n / 10);
      DecimalValue(n / 10);
    }
  }

  /** %d of strftime for a field below 100: two digits, a leading zero if needed. */
  function TwoDigits(n: nat): (r: string)
    requires n < 100
    ensures |r| == 2
    ensures forall i :: 0 <= i < |r| ==> '0' <= r[i] <= '9'
    ensures DigitsValue(r) == n
  {
    var r := [DigitChar(n / 10), DigitChar(n % 10)];
    assert r[..1][..0] == [];
    assert DigitsValue(r[..1]) == n / 10;
    r
  }

  /** %Y of strftime for a four-digit year. */
  function FourDigits(n: nat): (r: string)
    requires 1000 <= n <= 9999
    ensures |r| == 4
    ensures forall i :: 0 <= i < |r| ==> '0' <= r[i] <= '9'
    ensures DigitsValue(r) == n
  {
    var high, low := TwoDigits(n / 100), TwoDigits(n % 100);
    DigitsValueAppendTwo(high, low);
    high + low
  }

  /** Two more digits at the end multiply the value read so far by 100. */
  lemma DigitsValueAppendTwo(x: string, y: string)
    requires |y| == 2
    ensures DigitsValue(x + y) == 100 * DigitsValue(x) + DigitsValue(y)
  {
    var d0, d1 := y[0] as int - '0' as int, y[1] as int - '0' as int;
    assert (x + y)[..|x + y| - 1] == x + y[..1];
    assert DigitsValue(x + y) == 10 * DigitsValue(x + y[..1]) + d1;
    assert (x + y[..1])[..|x|] == x;
    assert DigitsValue(x + y[..1]) == 10 * DigitsValue(x) + d0;
    assert y[..1][..0] == [];
    assert DigitsValue(y[..1]) == d0;
    assert DigitsValue(y) == 10 * d0 + d1;
  }

  /** strftime("%Y-%m-%d %H:%M:%S"). */
  function Stamp(t: Instant): (r: string)
    ensures |r| == 19
    ensures r[4] == '-' && r[7] == '-' && r[10] == ' ' && r[13] == ':' && r[16] == ':'
    ensures forall i :: 0 <= i < |r| && i != 4 && i != 7 && i != 10 && i != 13 && i != 16 ==> '0' <= r[i] <= '9'
    ensures DigitsValue(r[..4]) == t.year && DigitsValue(r[5..7]) == t.month && DigitsValue(r[8..10]) == t.day
    ensures DigitsValue(r[11..13]) == t.hour && DigitsValue(r[14..16]) == t.minute && DigitsValue(r[17..]) == t.second
  {
    var year, month, day := FourDigits(t.year), TwoDigits(t.month), TwoDigits(t.day);
    var hour, minute, second := TwoDigits(t.hour), TwoDigits(t.minute), TwoDigits(t.second);
    var r := year + "-" + month + "-" + day + " " + hour + ":" + minute + ":" + second;
    assert r[..4] == year && r[5..7] == month && r[8..10] == day;
    assert r[11..13] == hour && r[14..16] == minute && r[17..] == second;
    r
  }

  /** Different instants are formatted differently. */
  lemma StampInjective(a: Instant, b: Instant)
    requires Stamp(a) == Stamp(b)
    ensures a == b
  {
    var r := Stamp(a);
    assert DigitsValue(r[..4]) == a.year == b.year;
    assert DigitsValue(r[5..7]) == a.month == b.month;
    assert DigitsValue(r[8..10]) == a.day == b.day;
  }

  /** The characters Python's str.isspace accepts, which are the ones
      str.strip() removes when called without arguments. */
  predicate IsSpace(c: char) {
    c == ' ' || '\t' <= c <= '\r' || '\U{1C}' <= c <= '\U{1F}' ||
    c == '\U{85}' || c == '\U{A0}' || c == '\U{1680}' || '\U{2000}' <= c <= '\U{200A}' ||
    c == '\U{2028}' || c == '\U{2029}' || c == '\U{202F}' || c == '\U{205F}' || c == '\U{3000}'
  }

  /** `not s.strip()`: the text is empty once surrounding whitespace is removed. */
  predicate IsBlank(s: string) {
    forall i :: 0 <= i < |s| ==> IsSpace(s[i])
  }

  /** str.strip() without arguments: whitespace removed from both ends. */
  function Strip(s: string): (r: string)
    ensures |r| <= |s|
    ensures r == [] || (!IsSpace(r[0]) && !IsSpace(r[|r| - 1]))
    decreases |s|
  {
    if s == [] then []
    else if IsSpace(s[0]) then Strip(s[1..])
    else if IsSpace(s[|s| - 1]) then Strip(s[..|s| - 1])
    else s
  }

  /** What strip() returns is the input with only surrounding whitespace taken
      off: a blank prefix and a blank suffix. */
  lemma {:induction false} StripRemovesOnlySurroundingSpace(s: string) returns (a: string, b: string)
    ensures s == a + Strip(s) + b && IsBlank(a) && IsBlank(b)
    decreases |s|
  {
    if s == [] {
      a, b := [], [];
    } else if IsSpace(s[0]) {
      var a', b' := StripRemovesOnlySurroundingSpace(s[1..]);
      a, b := [s[0]] + a', b';
      BlankCons(s[0], a');
      assert a + Strip(s) + b == [s[0]] + (a' + Strip(s[1..]) + b');
    } else if IsSpace(s[|s| - 1]) {
      var a', b' := StripRemovesOnlySurroundingSpace(s[..|s| - 1]);
      a, b := a', b' + [s[|s| - 1]];
      BlankSnoc(b', s[|s| - 1]);
      assert a + Strip(s) + b == (a' + Strip(s[..|s| - 1]) + b') + [s[|s| - 1]];
      assert s == s[..|s| - 1] + [s[|s| - 1]];
    } else {
      a, b := [], [];
    }
  }

  lemma BlankCons(c: char, s: string)
    requires IsSpace(c) && IsBlank(s)
    ensures IsBlank([c] + s)
  {
    assert forall i :: 1 <= i < |s| + 1 ==> ([c] + s)[i] == s[i - 1];
  }

  lemma BlankSnoc(s: string, c: char)
    requires IsSpace(c) && IsBlank(s)
    ensures IsBlank(s + [c])
  {
    assert forall i :: 0 <= i < |s| ==> (s + [c])[i] == s[i];
  }

  /** `not s.strip()` holds exactly for the texts made only of whitespace. */
  lemma {:induction false} BlankIffStripEmpty(s: string)
    ensures IsBlank(s) <==> Strip(s) == []
    decreases |s|
  {
    if s == [] {
    } else if IsSpace(s[0]) {
      assert IsBlank(s) <==> IsBlank(s[1..]) by {
        assert forall i :: 1 <= i < |s| ==> s[i] == s[1..][i - 1];
      }
      BlankIffStripEmpty(s[1..]);
    } else if IsSpace(s[|s| - 1]) {
      assert !IsBlank(s);
      BlankIffStripEmpty(s[..|s| - 1]);
    } else {
      assert !IsBlank(s);
    }
  }
}
