/** Money as people type it: grouped digits in a locale's notation, exact to the minor unit. */
module Money {
  import opened Options

  const MINOR_DIGITS := 2
  const MAX_SAFE := 0x1F_FFFF_FFFF_FFFF

  // ------------------------------------------------------------------ digits

  predicate Digit(c: char) { '0' <= c <= '9' }

  predicate Digits(s: string) { s != "" && forall i :: 0 <= i < |s| ==> Digit(s[i]) }

  function Pow10(n: nat): nat { if n == 0 then 1 else 10 * Pow10(n - 1) }

  /** The number a digit string names. */
  function Value(s: string): nat
    requires forall i :: 0 <= i < |s| ==> Digit(s[i])
  {
    if s == "" then 0 else assert Digit(s[|s| - 1]); 10 * Value(s[..|s| - 1]) + (s[|s| - 1] as int - '0' as int)
  }

  /** The usual decimal digits, no leading zero. */
  function Decimal(n: nat): (s: string)
    ensures Digits(s)
  {
    if n < 10 then [('0' as int + n) as char] else Decimal(n / 10) + [('0' as int + n % 10) as char]
  }

  lemma {:induction false} DecimalValue(n: nat)
    ensures Value(Decimal(n)) == n
  {
    if n >= 10 {
      DecimalValue(n / 10);
      assert Decimal(n)[..|Decimal(n)| - 1] == Decimal(n / 10);
    }
  }

  lemma {:induction false} DecimalLength(n: nat, k: nat)
    requires k > 0 && n < Pow10(k)
    ensures |Decimal(n)| <= k
  {
    if n >= 10 { DecimalLength(n / 10, k - 1); }
  }

  lemma {:induction false} ValueOfJoined(a: string, b: string)
    requires (forall i :: 0 <= i < |a| ==> Digit(a[i])) && (forall i :: 0 <= i < |b| ==> Digit(b[i]))
    ensures Value(a + b) == Value(a) * Pow10(|b|) + Value(b)
  {
    if b == "" {
      assert a + b == a;
    } else {
      var n := |b| - 1;
      assert (a + b)[..|a + b| - 1] == a + b[..n];
      ValueOfJoined(a, b[..n]);
      assert Value(a + b) == 10 * Value(a + b[..n]) + (b[n] as int - '0' as int);
      Shift(Value(a), Pow10(n), Value(b[..n]));
    }
  }

  lemma Shift(a: nat, p: nat, b: nat)
    ensures 10 * (a * p + b) == a * (10 * p) + 10 * b
  {
  }

  function Zeros(n: nat): (s: string)
    ensures |s| == n && forall i :: 0 <= i < n ==> s[i] == '0'
  {
    seq(n, _ => '0')
  }

  lemma {:induction false} ValueOfZeros(n: nat)
    ensures Value(Zeros(n)) == 0
  {
    if n > 0 {
      assert Zeros(n)[..n - 1] == Zeros(n - 1);
      ValueOfZeros(n - 1);
    }
  }

  // ------------------------------------------------------------------ splitting and joining

  function Split(s: string, c: char): (parts: seq<string>)
    ensures |parts| > 0
  {
    if s == "" then [""]
    else
      var rest := Split(s[1..], c);
      if s[0] == c then [""] + rest else [[s[0]] + rest[0]] + rest[1..]
  }

  function Join(parts: seq<string>, c: char): string
    requires |parts| > 0
  {
    if |parts| == 1 then parts[0] else parts[0] + [c] + Join(parts[1..], c)
  }

  function Concat(parts: seq<string>): string {
    if parts == [] then "" else parts[0] + Concat(parts[1..])
  }

  lemma {:induction false} SplitOfNone(s: string, c: char)
    requires c !in s
    ensures Split(s, c) == [s]
  {
    if s != "" {
      SplitOfNone(s[1..], c);
      assert s == [s[0]] + s[1..];
    }
  }

  lemma {:induction false} SplitAtFirst(a: string, b: string, c: char)
    requires c !in a
    ensures Split(a + [c] + b, c) == [a] + Split(b, c)
  {
    if a == "" {
      assert (a + [c] + b)[1..] == b;
    } else {
      assert (a + [c] + b)[1..] == a[1..] + [c] + b;
      SplitAtFirst(a[1..], b, c);
      assert a == [a[0]] + a[1..];
    }
  }

  /** Splitting undoes joining. */
  lemma {:induction false} SplitOfJoin(parts: seq<string>, c: char)
    requires |parts| > 0 && forall i :: 0 <= i < |parts| ==> c !in parts[i]
    ensures Split(Join(parts, c), c) == parts
  {
    if |parts| == 1 {
      SplitOfNone(parts[0], c);
    } else {
      SplitAtFirst(parts[0], Join(parts[1..], c), c);
      SplitOfJoin(parts[1..], c);
    }
  }

  /** Joining undoes splitting, and no part contains the mark. */
  lemma {:induction false} JoinOfSplit(s: string, c: char)
    ensures Join(Split(s, c), c) == s
    ensures forall i :: 0 <= i < |Split(s, c)| ==> c !in Split(s, c)[i]
  {
    if s != "" {
      JoinOfSplit(s[1..], c);
      var rest := Split(s[1..], c);
      assert s == [s[0]] + s[1..];
      if s[0] == c {
        assert ([""] + rest)[1..] == rest;
      } else {
        var parts := [[s[0]] + rest[0]] + rest[1..];
        assert parts[1..] == rest[1..];
        assert Join(parts, c) == [s[0]] + Join(rest, c);
      }
    }
  }

  // ------------------------------------------------------------------ minor units

  /** Canonical decimal notation to minor units. */
  function DecimalToMinor(value: string): Option<nat> {
    var parts := Split(value, '.');
    if |value| > 32 || |parts| > 2 || !Digits(parts[0]) || (|parts| == 2 && !Digits(parts[1])) then None
    else
      var fraction := if |parts| == 2 then parts[1] else "";
      if |fraction| > MINOR_DIGITS then None
      else
        var minor := Value(parts[0] + (fraction + Zeros(MINOR_DIGITS - |fraction|)));
        if minor <= MAX_SAFE then Some(minor) else None
  }

  /** The whole and the fraction of canonical decimal notation. */
  function MinorToDecimal(amount: nat): (r: (string, string))
    ensures Digits(r.0) && Digits(r.1) && |r.1| == MINOR_DIGITS
  {
    var digits := Decimal(amount);
    var padded := Zeros(if |digits| < MINOR_DIGITS + 1 then MINOR_DIGITS + 1 - |digits| else 0) + digits;
    (padded[..|padded| - MINOR_DIGITS], padded[|padded| - MINOR_DIGITS..])
  }

  lemma MinorToDecimalValue(amount: nat)
    ensures var (whole, fraction) := MinorToDecimal(amount);
            Value(whole) * 100 + Value(fraction) == amount
  {
    var digits := Decimal(amount);
    var n := if |digits| < MINOR_DIGITS + 1 then MINOR_DIGITS + 1 - |digits| else 0;
    var (whole, fraction) := MinorToDecimal(amount);
    PaddedValue(n, digits);
    DecimalValue(amount);
    assert Zeros(n) + digits == whole + fraction;
    HundredsValue(whole, fraction);
  }

  lemma PaddedValue(n: nat, digits: string)
    requires Digits(digits)
    ensures (forall i :: 0 <= i < |Zeros(n) + digits| ==> Digit((Zeros(n) + digits)[i])) && Value(Zeros(n) + digits) == Value(digits)
  {
    ValueOfZeros(n);
    ValueOfJoined(Zeros(n), digits);
  }

  lemma HundredsValue(whole: string, fraction: string)
    requires Digits(whole) && Digits(fraction) && |fraction| == MINOR_DIGITS
    ensures Digits(whole + fraction) && Value(whole + fraction) == Value(whole) * 100 + Value(fraction)
  {
    ValueOfJoined(whole, fraction);
    assert Pow10(2) == 100;
  }

  lemma DecimalToMinorOf(whole: string, fraction: Option<string>)
    requires Digits(whole) && (fraction.Some? ==> Digits(fraction.value))
    ensures var text := whole + (if fraction.Some? then "." + fraction.value else "");
            var f := if fraction.Some? then fraction.value else "";
            DecimalToMinor(text)
            == if |text| <= 32 && |f| <= MINOR_DIGITS && Value(whole + (f + Zeros(MINOR_DIGITS - |f|))) <= MAX_SAFE
               then Some(Value(whole + (f + Zeros(MINOR_DIGITS - |f|)))) else None
  {
    if fraction.Some? {
      assert whole + ("." + fraction.value) == whole + ['.'] + fraction.value;
      SplitAtFirst(whole, fraction.value, '.');
      SplitOfNone(fraction.value, '.');
    } else {
      assert whole + "" == whole;
      SplitOfNone(whole, '.');
    }
  }

  // ------------------------------------------------------------------ a locale's notation

  /** The locale's marks; `groupFrom` is the length from which whole numbers are grouped. */
  datatype Notation = Notation(group: Option<char>, decimal: char, groupFrom: nat)

  predicate NotationOk(n: Notation) {
    && !Digit(n.decimal) && n.groupFrom >= 4
    && (n.group.Some? ==> !Digit(n.group.value) && n.group.value != n.decimal)
  }

  /** JavaScript's `\\s`, which is also what `trim` removes. */
  predicate Space(c: char) {
    var u := c as int;
    || 9 <= u <= 13 || u == 0x20 || u == 0xA0 || u == 0x1680 || 0x2000 <= u <= 0x200A
    || u == 0x2028 || u == 0x2029 || u == 0x202F || u == 0x205F || u == 0x3000 || u == 0xFEFF
  }

  /** The spaces taken for one another when groups are set apart by a space. */
  predicate TypedSpace(c: char) { c as int == 0x20 || c as int == 0xA0 || c as int == 0x202F }

  function TrimStart(s: string): string { if s != "" && Space(s[0]) then TrimStart(s[1..]) else s }
  function TrimEnd(s: string): string { if s != "" && Space(s[|s| - 1]) then TrimEnd(s[..|s| - 1]) else s }

  function Respace(s: string, group: char): (r: string)
    ensures |r| == |s| && forall i :: 0 <= i < |s| ==> r[i] == if TypedSpace(s[i]) then group else s[i]
  {
    seq(|s|, i requires 0 <= i < |s| => if TypedSpace(s[i]) then group else s[i])
  }

  function Normalized(n: Notation, value: string): string {
    var trimmed := TrimEnd(TrimStart(value));
    if n.group.Some? && Space(n.group.value) then Respace(trimmed, n.group.value) else trimmed
  }

  predicate WellGrouped(groups: seq<string>) {
    && |groups| > 0 && Digits(groups[0])
    && (|groups| > 1 ==> |groups[0]| <= 3 && forall i :: 0 < i < |groups| ==> |groups[i]| == 3 && Digits(groups[i]))
  }

  function ParseMoneyInput(n: Notation, value: string): Option<nat> {
    if |value| > 128 then None
    else
      var parts := Split(Normalized(n, value), n.decimal);
      if |parts| > 2 || (|parts| == 2 && !Digits(parts[1])) then None
      else
        var groups := if n.group.Some? then Split(parts[0], n.group.value) else [parts[0]];
        if !WellGrouped(groups) then None
        else DecimalToMinor(Concat(groups) + if |parts| == 2 then "." + parts[1] else "")
  }

  /** Digits in threes from the right. */
  function Threes(s: string): (groups: seq<string>)
    ensures |groups| > 0
  {
    if |s| <= 3 then [s] else Threes(s[..|s| - 3]) + [s[|s| - 3..]]
  }

  function Groups(n: Notation, whole: string): (groups: seq<string>)
    ensures |groups| > 0
  {
    if n.group.Some? && |whole| >= n.groupFrom then Threes(whole) else [whole]
  }

  /** `formatMoneyInput`: the whole part as a number, regrouped, and every minor digit. */
  function FormatMoneyInput(n: Notation, amount: nat): string
  {
    var (whole, fraction) := MinorToDecimal(amount);
    Join(Groups(n, Decimal(Value(whole))), Mark(n)) + [n.decimal] + fraction
  }

  /** The group mark; without one there is only ever one group to join. */
  function Mark(n: Notation): char { if n.group.Some? then n.group.value else 'x' }

  // ------------------------------------------------------------------ grouping

  lemma {:induction false} ConcatGrows(parts: seq<string>, last: string)
    ensures Concat(parts + [last]) == Concat(parts) + last
  {
    if parts == [] {
      assert [] + [last] == [last];
    } else {
      assert (parts + [last])[1..] == parts[1..] + [last];
      ConcatGrows(parts[1..], last);
    }
  }

  lemma {:induction false} JoinGrows(parts: seq<string>, last: string, c: char)
    requires |parts| > 0
    ensures Join(parts + [last], c) == Join(parts, c) + [c] + last
  {
    if |parts| == 1 {
      assert (parts + [last])[1..] == [last];
    } else {
      assert (parts + [last])[1..] == parts[1..] + [last];
      JoinGrows(parts[1..], last, c);
    }
  }

  lemma {:induction false} ThreesFit(s: string)
    requires Digits(s)
    ensures WellGrouped(Threes(s)) && |Threes(s)[0]| <= 3 && Concat(Threes(s)) == s
    ensures forall c :: |Join(Threes(s), c)| <= 2 * |s|
    ensures forall i :: 0 <= i < |Threes(s)| ==> Digits(Threes(s)[i])
  {
    if |s| > 3 {
      var n := |s| - 3;
      ThreesFit(s[..n]);
      ConcatGrows(Threes(s[..n]), s[n..]);
      forall c ensures |Join(Threes(s), c)| <= 2 * |s| { JoinGrows(Threes(s[..n]), s[n..], c); }
    }
  }

  lemma GroupsFit(n: Notation, s: string)
    requires Digits(s) && NotationOk(n)
    ensures WellGrouped(Groups(n, s)) && Concat(Groups(n, s)) == s && |Join(Groups(n, s), Mark(n))| <= 2 * |s|
    ensures forall i :: 0 <= i < |Groups(n, s)| ==> Digits(Groups(n, s)[i])
    ensures n.group.None? ==> |Groups(n, s)| == 1
  {
    ThreesFit(s);
  }

  /** Joined groups are digits and group marks, beginning and ending with a digit. */
  lemma {:induction false} JoinedUnits(parts: seq<string>, c: char)
    requires |parts| > 0 && forall i :: 0 <= i < |parts| ==> Digits(parts[i])
    ensures var j := Join(parts, c);
            && j != "" && Digit(j[0]) && Digit(j[|j| - 1])
            && (forall i :: 0 <= i < |j| ==> Digit(j[i]) || (j[i] == c && |parts| > 1))
  {
    if |parts| > 1 { JoinedUnits(parts[1..], c); }
  }

  // ------------------------------------------------------------------ what is accepted

  /** Well grouped digits, and after at most one decimal mark more digits. */
  predicate Shape(n: Notation, text: string, groups: seq<string>, fraction: Option<string>) {
    && WellGrouped(groups) && (n.group.None? ==> |groups| == 1)
    && (fraction.Some? ==> Digits(fraction.value))
    && text == Join(groups, Mark(n)) + (if fraction.Some? then [n.decimal] + fraction.value else "")
  }

  function Amount(groups: seq<string>, fraction: Option<string>): Option<nat> {
    DecimalToMinor(Concat(groups) + if fraction.Some? then "." + fraction.value else "")
  }

  lemma DigitsLackMarks(n: Notation, s: string)
    requires NotationOk(n) && forall i :: 0 <= i < |s| ==> Digit(s[i])
    ensures n.decimal !in s && (n.group.Some? ==> n.group.value !in s)
  {
  }

  /** Text of that shape is read as its digits say. */
  lemma ShapeIsRead(n: Notation, value: string, groups: seq<string>, fraction: Option<string>)
    requires NotationOk(n) && |value| <= 128 && Shape(n, Normalized(n, value), groups, fraction)
    ensures ParseMoneyInput(n, value) == Amount(groups, fraction)
  {
    DecimalParts(n, Normalized(n, value), groups, fraction);
    GroupParts(n, groups);
  }

  lemma DecimalParts(n: Notation, text: string, groups: seq<string>, fraction: Option<string>)
    requires NotationOk(n) && Shape(n, text, groups, fraction)
    ensures Split(text, n.decimal) == [Join(groups, Mark(n))] + (if fraction.Some? then [fraction.value] else [])
  {
    var joined := Join(groups, Mark(n));
    JoinedUnits(groups, Mark(n));
    assert n.decimal !in joined;
    if fraction.Some? {
      DigitsLackMarks(n, fraction.value);
      assert text == joined + [n.decimal] + fraction.value;
      SplitAtFirst(joined, fraction.value, n.decimal);
      SplitOfNone(fraction.value, n.decimal);
    } else {
      assert text == joined;
      SplitOfNone(joined, n.decimal);
    }
  }

  lemma GroupParts(n: Notation, groups: seq<string>)
    requires NotationOk(n) && WellGrouped(groups) && (n.group.None? ==> |groups| == 1)
    ensures (if n.group.Some? then Split(Join(groups, Mark(n)), n.group.value) else [Join(groups, Mark(n))]) == groups
  {
    if n.group.Some? {
      forall i | 0 <= i < |groups| ensures n.group.value !in groups[i] { DigitsLackMarks(n, groups[i]); }
      SplitOfJoin(groups, n.group.value);
    }
  }

  /** And nothing else is accepted: not a group out of place, nor a second decimal mark. */
  lemma OnlyShapesAreRead(n: Notation, value: string) returns (groups: seq<string>, fraction: Option<string>)
    requires NotationOk(n) && ParseMoneyInput(n, value).Some?
    ensures Shape(n, Normalized(n, value), groups, fraction) && ParseMoneyInput(n, value) == Amount(groups, fraction)
  {
    var text := Normalized(n, value);
    var parts := Split(text, n.decimal);
    JoinOfSplit(text, n.decimal);
    groups := if n.group.Some? then Split(parts[0], n.group.value) else [parts[0]];
    fraction := if |parts| == 2 then Some(parts[1]) else None;
    JoinOfSplit(parts[0], Mark(n));
    if |parts| == 2 {
      assert parts[1..] == [parts[1]];
      assert Join(parts, n.decimal) == parts[0] + [n.decimal] + parts[1];
      assert parts[0] + [n.decimal] + parts[1] == parts[0] + ([n.decimal] + parts[1]);
    } else {
      assert text == parts[0] + "";
    }
  }

  lemma SecondDecimalMarkRefused(n: Notation, value: string, i: nat, j: nat)
    requires NotationOk(n) && i < j < |Normalized(n, value)|
    requires Normalized(n, value)[i] == n.decimal == Normalized(n, value)[j]
    ensures ParseMoneyInput(n, value).None?
  {
    if ParseMoneyInput(n, value).Some? {
      var groups, fraction := OnlyShapesAreRead(n, value);
      JoinedUnits(groups, Mark(n));
      var joined := Join(groups, Mark(n));
      OneMark(n, Normalized(n, value), joined, fraction, i);
      OneMark(n, Normalized(n, value), joined, fraction, j);
    }
  }

  lemma OneMark(n: Notation, text: string, joined: string, fraction: Option<string>, i: nat)
    requires NotationOk(n) && i < |text| && text[i] == n.decimal && (fraction.Some? ==> Digits(fraction.value))
    requires forall k :: 0 <= k < |joined| ==> joined[k] != n.decimal
    requires text == joined + (if fraction.Some? then [n.decimal] + fraction.value else "")
    ensures i == |joined|
  {
  }

  // ------------------------------------------------------------------ the round trip

  lemma {:induction false} NothingToTrim(s: string)
    requires s != "" && Digit(s[0]) && Digit(s[|s| - 1])
    ensures TrimEnd(TrimStart(s)) == s
  {
  }

  lemma FormattedShape(n: Notation, amount: nat) returns (groups: seq<string>, fraction: string)
    requires NotationOk(n) && amount <= MAX_SAFE
    ensures WellGrouped(groups) && FormatMoneyInput(n, amount) == Join(groups, Mark(n)) + [n.decimal] + fraction
    ensures Digits(fraction) && |fraction| == MINOR_DIGITS && (n.group.None? ==> |groups| == 1)
    ensures forall i :: 0 <= i < |groups| ==> Digits(groups[i])
    ensures Amount(groups, Some(fraction)) == Some(amount)
    ensures |FormatMoneyInput(n, amount)| <= 128
  {
    var (whole, f) := MinorToDecimal(amount);
    MinorToDecimalValue(amount);
    var units := Decimal(Value(whole));
    groups, fraction := Groups(n, units), f;
    GroupsFit(n, units);
    DecimalValue(Value(whole));
    PowersOfTen();
    DecimalLength(Value(whole), 14);
    DecimalToMinorOf(units, Some(fraction));
    ValueOfJoined(units, fraction);
    assert fraction + Zeros(0) == fraction;
  }

  lemma PowersOfTen()
    ensures Pow10(2) == 100 && Pow10(14) == 100_000_000_000_000
  {
    assert Pow10(4) == 10_000 && Pow10(7) == 10_000_000 && Pow10(10) == 10_000_000_000 && Pow10(12) == 1_000_000_000_000;
  }

  /** A space sets the groups apart and another of the interchangeable spaces is the decimal mark. */
  predicate MarksConfused(n: Notation) { n.group.Some? && Space(n.group.value) && TypedSpace(n.decimal) }

  /** Every amount is read back from its own text, in every notation whose marks differ and are not
      digits, except that where the two marks are spaces taken for one another none is. */
  lemma FormattedIsReadBack(n: Notation, amount: nat)
    requires NotationOk(n) && amount <= MAX_SAFE
    ensures ParseMoneyInput(n, FormatMoneyInput(n, amount)) == if MarksConfused(n) then None else Some(amount)
  {
    var text := FormatMoneyInput(n, amount);
    var groups, fraction := FormattedShape(n, amount);
    JoinedUnits(groups, Mark(n));
    NothingToTrim(text);
    if MarksConfused(n) {
      ConfusedIsRefused(n, text, groups, fraction);
    } else {
      NormalizedFormatted(n, text, groups, fraction);
      assert text == Join(groups, Mark(n)) + ([n.decimal] + fraction);
      ShapeIsRead(n, text, groups, Some(fraction));
    }
  }

  /** Groups set apart by a no-break space, and a narrow no-break space as the decimal mark. */
  const CONFUSED := Notation(Some(0xA0 as char), 0x202F as char, 4)

  /** In such a notation no amount is read back, be it long enough for groups or not. */
  lemma ConfusedNotationExample(amount: nat)
    requires amount <= MAX_SAFE
    ensures NotationOk(CONFUSED) && ParseMoneyInput(CONFUSED, FormatMoneyInput(CONFUSED, amount)) == None
  {
    FormattedIsReadBack(CONFUSED, amount);
  }

  lemma NormalizedFormatted(n: Notation, text: string, groups: seq<string>, fraction: string)
    requires NotationOk(n) && !MarksConfused(n) && |groups| > 0 && text == Join(groups, Mark(n)) + [n.decimal] + fraction && Digits(fraction)
    requires (n.group.None? ==> |groups| == 1) && forall i :: 0 <= i < |groups| ==> Digits(groups[i])
    requires TrimEnd(TrimStart(text)) == text
    ensures Normalized(n, text) == text
  {
    JoinedUnits(groups, Mark(n));
    if n.group.Some? && Space(n.group.value) {
      assert Respace(text, n.group.value) == text;
    }
  }

  /** There the decimal mark is read as a group mark, and two digits make no group. */
  lemma ConfusedIsRefused(n: Notation, text: string, groups: seq<string>, fraction: string)
    requires NotationOk(n) && MarksConfused(n) && |groups| > 0 && text == Join(groups, Mark(n)) + [n.decimal] + fraction
    requires (forall i :: 0 <= i < |groups| ==> Digits(groups[i])) && Digits(fraction) && |fraction| == MINOR_DIGITS
    requires TrimEnd(TrimStart(text)) == text
    ensures ParseMoneyInput(n, text).None?
  {
    var g := n.group.value;
    var all := groups + [fraction];
    JoinedUnits(groups, g);
    JoinGrows(groups, fraction, g);
    assert Respace(text, g) == Join(all, g);
    JoinedUnits(all, g);
    SplitOfNone(Join(all, g), n.decimal);
    forall i | 0 <= i < |all| ensures g !in all[i] { DigitsLackMarks(n, all[i]); }
    SplitOfJoin(all, g);
    assert all[|all| - 1] == fraction;
  }
}
