/** Canonical JSON text, and why equal text means equal content. */
module CanonicalJson {
  import opened Options

  /** A UTF-16 code unit. Nothing below needs its upper bound. */
  type CodeUnit = int
  type Text = seq<CodeUnit>

  /** A value as it is handed in: object members in insertion order, `undefined` included. A number is
      named by the text `JSON.stringify` prints for it. */
  datatype Json =
    | Undefined
    | Null
    | Bool(b: bool)
    | Num(text: Text)
    | Str(s: Text)
    | Arr(items: Items)
    | Obj(members: Members)
  datatype Items = NoItems | Item(head: Json, tail: Items)
  datatype Members = NoMembers | Member(key: Text, value: Json, rest: Members)

  /** What a value says: an object is a map from names to values, and `undefined` says nothing. */
  datatype Value =
    | VNull | VBool(b: bool) | VNum(text: Text) | VStr(s: Text) | VArr(items: seq<Value>) | VObj(fields: map<Text, Value>)

  function Meaning(v: Json): Value {
    match v
    case Undefined => VNull
    case Null => VNull
    case Bool(b) => VBool(b)
    case Num(text) => VNum(text)
    case Str(s) => VStr(s)
    case Arr(items) => VArr(ItemMeanings(items))
    case Obj(members) => VObj(FieldMeanings(members))
  }

  function ItemMeanings(items: Items): seq<Value> {
    match items
    case NoItems => []
    case Item(head, tail) => [Meaning(head)] + ItemMeanings(tail)
  }

  function FieldMeanings(members: Members): map<Text, Value> {
    match members
    case NoMembers => map[]
    case Member(key, value, rest) =>
      if value.Undefined? then FieldMeanings(rest) else FieldMeanings(rest)[key := Meaning(value)]
  }

  // ------------------------------------------------------------------ well-formed values

  const QUOTE := 0x22
  const BACKSLASH := 0x5C
  const COMMA := 0x2C
  const COLON := 0x3A
  const OPEN_BRACKET := 0x5B
  const CLOSE_BRACKET := 0x5D
  const OPEN_BRACE := 0x7B
  const CLOSE_BRACE := 0x7D

  /** Digits, sign, point and exponent: what number texts are made of. */
  predicate NumberUnit(u: CodeUnit) { 0x30 <= u <= 0x39 || u == 0x2D || u == 0x2B || u == 0x2E || u == 0x65 }

  predicate NumberText(t: Text) {
    && t != [] && (0x30 <= t[0] <= 0x39 || t[0] == 0x2D)
    && forall i :: 0 <= i < |t| ==> NumberUnit(t[i])
  }

  predicate HasKey(members: Members, key: Text) {
    match members
    case NoMembers => false
    case Member(k, _, rest) => k == key || HasKey(rest, key)
  }

  /** Numbers print as numbers; no object names a member twice. */
  predicate WellFormed(v: Json) {
    match v
    case Num(text) => NumberText(text)
    case Arr(items) => WellFormedItems(items)
    case Obj(members) => WellFormedMembers(members)
    case _ => true
  }

  predicate WellFormedItems(items: Items) {
    match items
    case NoItems => true
    case Item(head, tail) => WellFormed(head) && WellFormedItems(tail)
  }

  predicate WellFormedMembers(members: Members) {
    match members
    case NoMembers => true
    case Member(key, value, rest) => WellFormed(value) && !HasKey(rest, key) && WellFormedMembers(rest)
  }

  // ------------------------------------------------------------------ strings, RFC 8259 section 7

  predicate HighSurrogate(u: CodeUnit) { 0xD800 <= u <= 0xDBFF }
  predicate LowSurrogate(u: CodeUnit) { 0xDC00 <= u <= 0xDFFF }
  predicate StartsWithPair(s: Text) { |s| >= 2 && HighSurrogate(s[0]) && LowSurrogate(s[1]) }

  function HexDigit(n: int): CodeUnit { if n < 10 then 0x30 + n else 0x57 + n }

  function UnicodeEscape(u: CodeUnit): Text {
    [BACKSLASH, 0x75, HexDigit(u / 4096 % 16), HexDigit(u / 256 % 16), HexDigit(u / 16 % 16), HexDigit(u % 16)]
  }

  /** The letter after the backslash, for the seven units that have one. */
  function ShortEscape(u: CodeUnit): Option<CodeUnit> {
    if u == QUOTE || u == BACKSLASH then Some(u)
    else if u == 0x08 then Some(0x62)
    else if u == 0x09 then Some(0x74)
    else if u == 0x0A then Some(0x6E)
    else if u == 0x0C then Some(0x66)
    else if u == 0x0D then Some(0x72)
    else None
  }

  /** One unit that is not half of a surrogate pair. */
  function EscapeUnit(u: CodeUnit): Text {
    if ShortEscape(u).Some? then [BACKSLASH, ShortEscape(u).value]
    else if 0 <= u < 0x20 || HighSurrogate(u) || LowSurrogate(u) then UnicodeEscape(u)
    else [u]
  }

  /** The escaped string, its closing quotation mark, and whatever follows. */
  function EscapeThen(s: Text, x: Text): Text {
    if s == [] then [QUOTE] + x
    else if StartsWithPair(s) then [s[0]] + ([s[1]] + EscapeThen(s[2..], x))
    else EscapeUnit(s[0]) + EscapeThen(s[1..], x)
  }

  function QuoteThen(s: Text, x: Text): Text { [QUOTE] + EscapeThen(s, x) }

  lemma HeadTells(c: CodeUnit, d: CodeUnit, x: Text, y: Text)
    requires [c] + x == [d] + y
    ensures c == d && x == y
  {
    var t := [c] + x;
    assert t[0] == c && t[0] == d && t[1..] == x && t[1..] == y;
  }

  lemma HexDigitsDiffer(m: int, n: int)
    requires 0 <= m < 16 && 0 <= n < 16 && HexDigit(m) == HexDigit(n)
    ensures m == n
  {
  }

  lemma UnicodeEscapeTells(u: CodeUnit, v: CodeUnit)
    requires 0 <= u < 0x1_0000 && 0 <= v < 0x1_0000 && UnicodeEscape(u) == UnicodeEscape(v)
    ensures u == v
  {
    var a, b := UnicodeEscape(u), UnicodeEscape(v);
    assert a[2] == b[2] && a[3] == b[3] && a[4] == b[4] && a[5] == b[5];
    HexDigitsDiffer(u / 4096 % 16, v / 4096 % 16);
    HexDigitsDiffer(u / 256 % 16, v / 256 % 16);
    HexDigitsDiffer(u / 16 % 16, v / 16 % 16);
    HexDigitsDiffer(u % 16, v % 16);
    FourDigits(u);
    FourDigits(v);
  }

  lemma FourDigits(u: CodeUnit)
    requires 0 <= u < 0x1_0000
    ensures u == u / 4096 % 16 * 4096 + u / 256 % 16 * 256 + u / 16 % 16 * 16 + u % 16
  {
    assert u / 256 == u / 16 / 16 && u / 4096 == u / 256 / 16;
  }

  /** No escaped unit is the beginning of another's text. */
  lemma EscapedUnitTells(u: CodeUnit, v: CodeUnit, x: Text, y: Text)
    requires EscapeUnit(u) + x == EscapeUnit(v) + y
    ensures u == v && x == y
  {
    var a, b := EscapeUnit(u), EscapeUnit(v);
    var t := a + x;
    assert t[0] == a[0] == b[0];
    if a[0] == BACKSLASH {
      assert t[1] == a[1] == b[1];
      if |a| == 6 {
        assert a == t[..6] && b == t[..6];
        UnicodeEscapeTells(u, v);
      }
    }
    assert x == t[|a|..] && y == t[|b|..];
  }

  /** How escaped text begins: the end mark, a raw pair, or one unit's escape. */
  lemma EscapeBegins(s: Text, x: Text)
    ensures var t := EscapeThen(s, x);
            && |t| > 0
            && (t[0] == QUOTE <==> s == [])
            && (HighSurrogate(t[0]) <==> StartsWithPair(s))
  {
  }

  /** An escaped string ends at the first bare quotation mark, so what follows cannot be mistaken for it. */
  lemma {:induction false} EscapedStringTells(s: Text, t: Text, x: Text, y: Text)
    requires EscapeThen(s, x) == EscapeThen(t, y)
    ensures s == t && x == y
    decreases |s|
  {
    EscapeBegins(s, x);
    EscapeBegins(t, y);
    if s == [] {
      HeadTells(QUOTE, QUOTE, x, y);
    } else if StartsWithPair(s) {
      HeadTells(s[0], t[0], [s[1]] + EscapeThen(s[2..], x), [t[1]] + EscapeThen(t[2..], y));
      HeadTells(s[1], t[1], EscapeThen(s[2..], x), EscapeThen(t[2..], y));
      EscapedStringTells(s[2..], t[2..], x, y);
      assert s == [s[0], s[1]] + s[2..] && t == [t[0], t[1]] + t[2..];
    } else {
      EscapedUnitTells(s[0], t[0], EscapeThen(s[1..], x), EscapeThen(t[1..], y));
      EscapedStringTells(s[1..], t[1..], x, y);
      assert s == [s[0]] + s[1..] && t == [t[0]] + t[1..];
    }
  }

  // ------------------------------------------------------------------ values

  const NULL_TEXT: Text := [0x6E, 0x75, 0x6C, 0x6C]
  const TRUE_TEXT: Text := [0x74, 0x72, 0x75, 0x65]
  const FALSE_TEXT: Text := [0x66, 0x61, 0x6C, 0x73, 0x65]

  /** The JSON text of a value, members in the order they are stored, and whatever follows it. */
  function PrintThen(v: Json, x: Text): Text {
    match v
    case Undefined => NULL_TEXT + x
    case Null => NULL_TEXT + x
    case Bool(b) => (if b then TRUE_TEXT else FALSE_TEXT) + x
    case Num(text) => text + x
    case Str(s) => QuoteThen(s, x)
    case Arr(items) => [OPEN_BRACKET] + (if items.NoItems? then [CLOSE_BRACKET] + x else ItemsThen(items, x))
    case Obj(members) => [OPEN_BRACE] + (if members.NoMembers? then [CLOSE_BRACE] + x else MembersThen(members, x))
  }

  /** From the next item to the closing bracket, and whatever follows it. */
  function ItemsThen(items: Items, x: Text): Text
    requires items.Item?
  {
    PrintThen(items.head, if items.tail.NoItems? then [CLOSE_BRACKET] + x else [COMMA] + ItemsThen(items.tail, x))
  }

  function MembersThen(members: Members, x: Text): Text
    requires members.Member?
  {
    QuoteThen(members.key, [COLON] + PrintThen(members.value,
      if members.rest.NoMembers? then [CLOSE_BRACE] + x else [COMMA] + MembersThen(members.rest, x)))
  }

  /** Key order: code unit by code unit, as `<` compares strings. */
  predicate Before(a: Text, b: Text) {
    if b == [] then false
    else if a == [] then true
    else if a[0] != b[0] then a[0] < b[0]
    else Before(a[1..], b[1..])
  }

  function Insert(key: Text, value: Json, sorted: Members): Members {
    match sorted
    case NoMembers => Member(key, value, NoMembers)
    case Member(k, v, rest) =>
      if Before(key, k) then Member(key, value, sorted) else Member(k, v, Insert(key, value, rest))
  }

  /** Members sorted at every level, `undefined` members dropped, `undefined` elsewhere made null. */
  function Normal(v: Json): Json {
    match v
    case Undefined => Null
    case Arr(items) => Arr(NormalItems(items))
    case Obj(members) => Obj(NormalMembers(members))
    case _ => v
  }

  function NormalItems(items: Items): Items {
    match items
    case NoItems => NoItems
    case Item(head, tail) => Item(Normal(head), NormalItems(tail))
  }

  function NormalMembers(members: Members): Members {
    match members
    case NoMembers => NoMembers
    case Member(key, value, rest) =>
      if value.Undefined? then NormalMembers(rest) else Insert(key, Normal(value), NormalMembers(rest))
  }

  /** `canonicalJson`. */
  function Canonical(v: Json): Text { PrintThen(Normal(v), []) }

  // ------------------------------------------------------------------ text tells values apart

  /** What may follow a printed value. */
  predicate Delimited(x: Text) { x == [] || !NumberUnit(x[0]) }

  datatype Kind = KNull | KTrue | KFalse | KNum | KStr | KArr | KObj

  function KindOf(v: Json): Kind {
    match v
    case Undefined => KNull
    case Null => KNull
    case Bool(b) => if b then KTrue else KFalse
    case Num(_) => KNum
    case Str(_) => KStr
    case Arr(_) => KArr
    case Obj(_) => KObj
  }

  function KindOfUnit(u: CodeUnit): Kind {
    if u == 0x6E then KNull
    else if u == 0x74 then KTrue
    else if u == 0x66 then KFalse
    else if u == QUOTE then KStr
    else if u == OPEN_BRACKET then KArr
    else if u == OPEN_BRACE then KObj
    else KNum
  }

  lemma FirstUnitTellsKind(v: Json, x: Text)
    requires WellFormed(v)
    ensures PrintThen(v, x) != [] && KindOfUnit(PrintThen(v, x)[0]) == KindOf(v)
    ensures PrintThen(v, x)[0] != CLOSE_BRACKET
  {
  }

  /** How many number units a text begins with. */
  function NumberRun(t: Text): nat {
    if t == [] || !NumberUnit(t[0]) then 0 else 1 + NumberRun(t[1..])
  }

  lemma {:induction false} NumberEnds(a: Text, x: Text)
    requires (forall i :: 0 <= i < |a| ==> NumberUnit(a[i])) && Delimited(x)
    ensures NumberRun(a + x) == |a|
  {
    if a == [] {
      assert a + x == x;
    } else {
      assert (a + x)[1..] == a[1..] + x;
      NumberEnds(a[1..], x);
    }
  }

  lemma NumbersTell(a: Text, b: Text, x: Text, y: Text)
    requires NumberText(a) && NumberText(b) && Delimited(x) && Delimited(y) && a + x == b + y
    ensures a == b && x == y
  {
    NumberEnds(a, x);
    NumberEnds(b, y);
    SplitTells(a, b, x, y);
  }

  lemma SplitTells(a: Text, b: Text, x: Text, y: Text)
    requires |a| == |b| && a + x == b + y
    ensures a == b && x == y
  {
    assert a == (a + x)[..|a|] && b == (b + y)[..|a|] && x == (a + x)[|a|..] && y == (b + y)[|a|..];
  }

  /** No `undefined` left. */
  predicate Plain(v: Json) {
    match v
    case Undefined => false
    case Arr(items) => PlainItems(items)
    case Obj(members) => PlainMembers(members)
    case _ => true
  }

  predicate PlainItems(items: Items) {
    match items
    case NoItems => true
    case Item(head, tail) => Plain(head) && PlainItems(tail)
  }

  predicate PlainMembers(members: Members) {
    match members
    case NoMembers => true
    case Member(_, value, rest) => Plain(value) && PlainMembers(rest)
  }

  /** A printed value cannot be mistaken for another, whatever follows either of them. */
  lemma {:induction false} PrintTells(a: Json, b: Json, x: Text, y: Text)
    requires WellFormed(a) && WellFormed(b) && Plain(a) && Plain(b) && Delimited(x) && Delimited(y)
    requires PrintThen(a, x) == PrintThen(b, y)
    ensures a == b && x == y
    decreases a
  {
    FirstUnitTellsKind(a, x);
    FirstUnitTellsKind(b, y);
    match a
    case Null => SplitTells(NULL_TEXT, NULL_TEXT, x, y);
    case Bool(t) => SplitTells(if t then TRUE_TEXT else FALSE_TEXT, if t then TRUE_TEXT else FALSE_TEXT, x, y);
    case Num(t) => NumbersTell(t, b.text, x, y);
    case Str(s) =>
      HeadTells(QUOTE, QUOTE, EscapeThen(s, x), EscapeThen(b.s, y));
      EscapedStringTells(s, b.s, x, y);
    case Arr(items) => ArraysTell(items, b.items, x, y);
    case Obj(members) => ObjectsTell(members, b.members, x, y);
  }

  lemma {:induction false} ArraysTell(a: Items, b: Items, x: Text, y: Text)
    requires WellFormedItems(a) && WellFormedItems(b) && PlainItems(a) && PlainItems(b)
    requires PrintThen(Arr(a), x) == PrintThen(Arr(b), y)
    ensures a == b && x == y
    decreases a, 1
  {
    var r := if a.NoItems? then [CLOSE_BRACKET] + x else ItemsThen(a, x);
    var q := if b.NoItems? then [CLOSE_BRACKET] + y else ItemsThen(b, y);
    HeadTells(OPEN_BRACKET, OPEN_BRACKET, r, q);
    if a.Item? { FirstUnitTellsKind(a.head, ItemsAfter(a.tail, x)); }
    if b.Item? { FirstUnitTellsKind(b.head, ItemsAfter(b.tail, y)); }
    if a.NoItems? { HeadTells(CLOSE_BRACKET, CLOSE_BRACKET, x, y); } else { ItemsTell(a, b, x, y); }
  }

  /** What stands between one item and the rest: a comma or the closing bracket. */
  function ItemsAfter(items: Items, x: Text): Text {
    if items.NoItems? then [CLOSE_BRACKET] + x else [COMMA] + ItemsThen(items, x)
  }

  lemma {:induction false} ItemsTell(a: Items, b: Items, x: Text, y: Text)
    requires a.Item? && b.Item? && WellFormedItems(a) && WellFormedItems(b) && PlainItems(a) && PlainItems(b)
    requires ItemsThen(a, x) == ItemsThen(b, y)
    ensures a == b && x == y
    decreases a, 0
  {
    PrintTells(a.head, b.head, ItemsAfter(a.tail, x), ItemsAfter(b.tail, y));
    assert ItemsAfter(a.tail, x)[0] == ItemsAfter(b.tail, y)[0];
    if a.tail.NoItems? {
      HeadTells(CLOSE_BRACKET, CLOSE_BRACKET, x, y);
    } else {
      HeadTells(COMMA, COMMA, ItemsThen(a.tail, x), ItemsThen(b.tail, y));
      ItemsTell(a.tail, b.tail, x, y);
    }
  }

  lemma {:induction false} ObjectsTell(a: Members, b: Members, x: Text, y: Text)
    requires WellFormedMembers(a) && WellFormedMembers(b) && PlainMembers(a) && PlainMembers(b)
    requires PrintThen(Obj(a), x) == PrintThen(Obj(b), y)
    ensures a == b && x == y
    decreases a, 1
  {
    var r := if a.NoMembers? then [CLOSE_BRACE] + x else MembersThen(a, x);
    var q := if b.NoMembers? then [CLOSE_BRACE] + y else MembersThen(b, y);
    HeadTells(OPEN_BRACE, OPEN_BRACE, r, q);
    assert r[0] == q[0];
    if a.NoMembers? { HeadTells(CLOSE_BRACE, CLOSE_BRACE, x, y); } else { MembersTell(a, b, x, y); }
  }

  function MembersAfter(members: Members, x: Text): Text {
    if members.NoMembers? then [CLOSE_BRACE] + x else [COMMA] + MembersThen(members, x)
  }

  lemma {:induction false} MembersTell(a: Members, b: Members, x: Text, y: Text)
    requires a.Member? && b.Member? && WellFormedMembers(a) && WellFormedMembers(b) && PlainMembers(a) && PlainMembers(b)
    requires MembersThen(a, x) == MembersThen(b, y)
    ensures a == b && x == y
    decreases a, 0
  {
    var u, v := PrintThen(a.value, MembersAfter(a.rest, x)), PrintThen(b.value, MembersAfter(b.rest, y));
    HeadTells(QUOTE, QUOTE, EscapeThen(a.key, [COLON] + u), EscapeThen(b.key, [COLON] + v));
    EscapedStringTells(a.key, b.key, [COLON] + u, [COLON] + v);
    HeadTells(COLON, COLON, u, v);
    PrintTells(a.value, b.value, MembersAfter(a.rest, x), MembersAfter(b.rest, y));
    assert MembersAfter(a.rest, x)[0] == MembersAfter(b.rest, y)[0];
    if a.rest.NoMembers? {
      HeadTells(CLOSE_BRACE, CLOSE_BRACE, x, y);
    } else {
      HeadTells(COMMA, COMMA, MembersThen(a.rest, x), MembersThen(b.rest, y));
      MembersTell(a.rest, b.rest, x, y);
    }
  }

  // ------------------------------------------------------------------ sorting members

  /** Strict order: exactly one of before, equal, after. */
  lemma {:induction false} BeforeIsTotal(a: Text, b: Text)
    ensures Before(a, b) ==> !Before(b, a) && a != b
    ensures a != b ==> Before(a, b) || Before(b, a)
  {
    if a != [] && b != [] && a[0] == b[0] {
      BeforeIsTotal(a[1..], b[1..]);
      assert a == [a[0]] + a[1..] && b == [b[0]] + b[1..];
    }
  }

  lemma {:induction false} BeforeIsTransitive(a: Text, b: Text, c: Text)
    requires Before(a, b) && Before(b, c)
    ensures Before(a, c)
  {
    if a != [] && a[0] == b[0] == c[0] { BeforeIsTransitive(a[1..], b[1..], c[1..]); }
  }

  /** Keys strictly ascending. */
  predicate Ascending(members: Members) {
    match members
    case NoMembers => true
    case Member(key, _, rest) => (rest.Member? ==> Before(key, rest.key)) && Ascending(rest)
  }

  lemma {:induction false} AscendingFirst(members: Members, key: Text)
    requires Ascending(members) && members.Member? && HasKey(members.rest, key)
    ensures Before(members.key, key)
  {
    if members.rest.key != key {
      AscendingFirst(members.rest, key);
      BeforeIsTransitive(members.key, members.rest.key, key);
    }
  }

  /** The fields of plain members, value by value. */
  function Fields(members: Members): map<Text, Json> {
    match members
    case NoMembers => map[]
    case Member(key, value, rest) => Fields(rest)[key := value]
  }

  lemma {:induction false} FieldsHaveKeys(members: Members)
    ensures forall k :: k in Fields(members) <==> HasKey(members, k)
  {
    if members.Member? { FieldsHaveKeys(members.rest); }
  }

  lemma {:induction false} InsertFits(key: Text, value: Json, sorted: Members)
    requires Ascending(sorted) && !HasKey(sorted, key)
    ensures Ascending(Insert(key, value, sorted)) && Fields(Insert(key, value, sorted)) == Fields(sorted)[key := value]
    ensures Insert(key, value, sorted).key == key || (sorted.Member? && Insert(key, value, sorted).key == sorted.key)
    ensures forall k :: HasKey(Insert(key, value, sorted), k) <==> k == key || HasKey(sorted, k)
  {
    if sorted.Member? && !Before(key, sorted.key) {
      BeforeIsTotal(key, sorted.key);
      InsertFits(key, value, sorted.rest);
    }
  }

  /** Ascending members are determined by their fields. */
  lemma {:induction false} AscendingTells(a: Members, b: Members)
    requires Ascending(a) && Ascending(b) && Fields(a) == Fields(b)
    ensures a == b
    decreases a
  {
    FieldsHaveKeys(a);
    FieldsHaveKeys(b);
    FirstIsField(a);
    FirstIsField(b);
    if a.Member? {
      assert HasKey(a, a.key) && HasKey(b, a.key);
      assert HasKey(b, b.key) && HasKey(a, b.key);
      if a.key != b.key {
        AscendingFirst(a, b.key);
        AscendingFirst(b, a.key);
        BeforeIsTotal(a.key, b.key);
      }
      assert a.key == b.key;
      assert a.value == Fields(a)[a.key] == Fields(b)[b.key] == b.value;
      FirstOnlyOnce(a);
      FirstOnlyOnce(b);
      AscendingTells(a.rest, b.rest);
    }
  }

  lemma FirstIsField(a: Members)
    ensures a.Member? ==> a.key in Fields(a)
    ensures a.NoMembers? ==> Fields(a) == map[]
  {
  }

  lemma FirstOnlyOnce(a: Members)
    requires Ascending(a) && a.Member?
    ensures !HasKey(a.rest, a.key) && Fields(a.rest) == Fields(a) - {a.key}
  {
    FieldsHaveKeys(a.rest);
    if HasKey(a.rest, a.key) {
      AscendingFirst(a, a.key);
      BeforeIsTotal(a.key, a.key);
    }
  }

  // ------------------------------------------------------------------ normal forms

  ghost predicate Tidy(v: Json) { WellFormed(v) && Plain(v) }

  lemma {:induction false} NormalIsTidy(v: Json)
    requires WellFormed(v)
    ensures Tidy(Normal(v))
    decreases v
  {
    match v
    case Arr(items) => NormalItemsTidy(items);
    case Obj(members) => NormalMembersTidy(members);
    case _ =>
  }

  lemma {:induction false} NormalItemsTidy(items: Items)
    requires WellFormedItems(items)
    ensures WellFormedItems(NormalItems(items)) && PlainItems(NormalItems(items))
    decreases items
  {
    if items.Item? {
      NormalIsTidy(items.head);
      NormalItemsTidy(items.tail);
    }
  }

  lemma {:induction false} InsertTidy(key: Text, value: Json, sorted: Members)
    requires Tidy(value) && WellFormedMembers(sorted) && PlainMembers(sorted) && !HasKey(sorted, key) && Ascending(sorted)
    ensures WellFormedMembers(Insert(key, value, sorted)) && PlainMembers(Insert(key, value, sorted))
  {
    if sorted.Member? && !Before(key, sorted.key) {
      InsertTidy(key, value, sorted.rest);
      BeforeIsTotal(key, sorted.key);
      InsertFits(key, value, sorted.rest);
    }
  }

  lemma {:induction false} NormalMembersTidy(members: Members)
    requires WellFormedMembers(members)
    ensures WellFormedMembers(NormalMembers(members)) && PlainMembers(NormalMembers(members)) && Ascending(NormalMembers(members))
    ensures forall k :: HasKey(NormalMembers(members), k) ==> HasKey(members, k)
    decreases members
  {
    if members.Member? {
      NormalMembersTidy(members.rest);
      if !members.value.Undefined? {
        NormalIsTidy(members.value);
        InsertFits(members.key, Normal(members.value), NormalMembers(members.rest));
        InsertTidy(members.key, Normal(members.value), NormalMembers(members.rest));
      }
    }
  }

  lemma {:induction false} MeaningOfInsert(key: Text, value: Json, sorted: Members)
    requires !value.Undefined? && PlainMembers(sorted) && !HasKey(sorted, key)
    ensures FieldMeanings(Insert(key, value, sorted)) == FieldMeanings(sorted)[key := Meaning(value)]
  {
    if sorted.Member? && !Before(key, sorted.key) { MeaningOfInsert(key, value, sorted.rest); }
  }

  /** Sorting and dropping say nothing new. */
  lemma {:induction false} MeaningOfNormal(v: Json)
    requires WellFormed(v)
    ensures Meaning(Normal(v)) == Meaning(v)
    decreases v
  {
    match v
    case Arr(items) => MeaningOfNormalItems(items);
    case Obj(members) => MeaningOfNormalMembers(members);
    case _ =>
  }

  lemma {:induction false} MeaningOfNormalItems(items: Items)
    requires WellFormedItems(items)
    ensures ItemMeanings(NormalItems(items)) == ItemMeanings(items)
    decreases items
  {
    if items.Item? {
      MeaningOfNormal(items.head);
      MeaningOfNormalItems(items.tail);
    }
  }

  lemma {:induction false} MeaningOfNormalMembers(members: Members)
    requires WellFormedMembers(members)
    ensures FieldMeanings(NormalMembers(members)) == FieldMeanings(members)
    decreases members
  {
    if members.Member? {
      MeaningOfNormalMembers(members.rest);
      if !members.value.Undefined? {
        MeaningOfNormal(members.value);
        NormalMembersTidy(members.rest);
        NormalIsTidy(members.value);
        MeaningOfInsert(members.key, Normal(members.value), NormalMembers(members.rest));
      }
    }
  }

  /** Values that say the same have the same normal form. */
  lemma {:induction false} SameMeaningSameNormal(a: Json, b: Json)
    requires WellFormed(a) && WellFormed(b) && Meaning(a) == Meaning(b)
    ensures Normal(a) == Normal(b)
    decreases a, 1
  {
    match a
    case Arr(items) => SameItemsSameNormal(items, b.items);
    case Obj(members) => SameFieldsSameNormal(members, b.members);
    case _ =>
  }

  lemma {:induction false} SameItemsSameNormal(a: Items, b: Items)
    requires WellFormedItems(a) && WellFormedItems(b) && ItemMeanings(a) == ItemMeanings(b)
    ensures NormalItems(a) == NormalItems(b)
    decreases a, 0
  {
    assert |ItemMeanings(a)| == |ItemMeanings(b)|;
    if a.Item? {
      assert ItemMeanings(a)[0] == ItemMeanings(b)[0];
      assert ItemMeanings(a.tail) == ItemMeanings(a)[1..] && ItemMeanings(b.tail) == ItemMeanings(b)[1..];
      SameMeaningSameNormal(a.head, b.head);
      SameItemsSameNormal(a.tail, b.tail);
    }
  }

  /** The value of the member with this name. */
  function Get(members: Members, key: Text): (v: Json)
    requires WellFormedMembers(members) && key in FieldMeanings(members)
    ensures WellFormed(v) && !v.Undefined? && Meaning(v) == FieldMeanings(members)[key]
  {
    if members.key == key && !members.value.Undefined? then members.value else Get(members.rest, key)
  }

  /** The normal form's fields are the named values' normal forms. */
  lemma {:induction false} NormalField(members: Members, key: Text)
    requires WellFormedMembers(members)
    ensures key in Fields(NormalMembers(members)) <==> key in FieldMeanings(members)
    ensures key in FieldMeanings(members) ==> Fields(NormalMembers(members))[key] == Normal(Get(members, key))
    decreases members
  {
    if members.Member? {
      NormalField(members.rest, key);
      NormalMembersTidy(members.rest);
      OnlyItsKeys(members.rest, members.key);
      if !members.value.Undefined? { InsertFits(members.key, Normal(members.value), NormalMembers(members.rest)); }
    }
  }

  lemma {:induction false} OnlyItsKeys(members: Members, key: Text)
    ensures key in FieldMeanings(members) ==> HasKey(members, key)
  {
    if members.Member? { OnlyItsKeys(members.rest, key); }
  }

  lemma {:induction false} FieldTells(members: Members, key: Text, w: Json)
    requires WellFormedMembers(members) && key in FieldMeanings(members)
    requires WellFormed(w) && Meaning(w) == FieldMeanings(members)[key]
    ensures Normal(Get(members, key)) == Normal(w)
    decreases members, 0
  {
    if members.key == key && !members.value.Undefined? {
      SameMeaningSameNormal(members.value, w);
    } else {
      FieldTells(members.rest, key, w);
    }
  }

  lemma {:induction false} SameFieldsSameNormal(a: Members, b: Members)
    requires WellFormedMembers(a) && WellFormedMembers(b) && FieldMeanings(a) == FieldMeanings(b)
    ensures NormalMembers(a) == NormalMembers(b)
    decreases a, 1
  {
    var m, n := Fields(NormalMembers(a)), Fields(NormalMembers(b));
    forall k ensures (k in m <==> k in n) && (k in m ==> m[k] == n[k]) {
      NormalField(a, k);
      NormalField(b, k);
      if k in m { FieldTells(a, k, Get(b, k)); }
    }
    assert m == n;
    NormalMembersTidy(a);
    NormalMembersTidy(b);
    AscendingTells(NormalMembers(a), NormalMembers(b));
  }

  /** Canonical text is equal exactly when the content is: whatever order members were written in, and
      nothing but order is forgotten. */
  lemma CanonicalTextIsContent(a: Json, b: Json)
    requires WellFormed(a) && WellFormed(b)
    ensures Canonical(a) == Canonical(b) <==> Meaning(a) == Meaning(b)
  {
    if Canonical(a) == Canonical(b) {
      NormalIsTidy(a);
      NormalIsTidy(b);
      PrintTells(Normal(a), Normal(b), [], []);
      MeaningOfNormal(a);
      MeaningOfNormal(b);
    }
    if Meaning(a) == Meaning(b) { SameMeaningSameNormal(a, b); }
  }
}
