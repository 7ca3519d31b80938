/** Wall-clock times: which instants show a local time, and what a date-time field reads back. */
module LocalTime {
  import opened Options

  const SECOND := 1000
  const DAY := 86_400_000

  /** Local time minus UTC, in milliseconds, at an instant. */
  type Offset = int -> int

  /** Offsets are whole seconds under a day, and change on whole seconds only. */
  ghost predicate ZoneOk(offset: Offset) {
    && (forall t :: offset(t) % SECOND == 0 && -DAY < offset(t) < DAY)
    && (forall s, t :: s / SECOND == t / SECOND ==> offset(s) == offset(t))
  }

  /** In the 48 hours around the wall time the offset changes at most once. */
  ghost predicate OneChange(offset: Offset, wall: int) {
    exists c :: ChangesAt(offset, wall, c)
  }

  ghost predicate ChangesAt(offset: Offset, wall: int, c: int) {
    forall t :: wall - DAY <= t <= wall + DAY ==> offset(t) == if t < c then offset(wall - DAY) else offset(wall + DAY)
  }

  function Floor(t: int, unit: int): int
    requires unit > 0
  {
    t / unit * unit
  }

  /** The zone's wall clock at an instant, to the second, written as if it were UTC. */
  function WallClock(offset: Offset, t: int): int { Floor(t + offset(t), SECOND) }

  // ------------------------------------------------------------------ resolving

  datatype Choice = Earlier | Later
  datatype Resolution = Resolved(instant: int) | Nonexistent | Ambiguous(earlier: int, later: int)

  function Probes(offset: Offset, wall: int): seq<int> {
    var a := WallClock(offset, wall - DAY) - (wall - DAY);
    var b := WallClock(offset, wall + DAY) - (wall + DAY);
    if a == b then [wall - a] else [wall - a, wall - b]
  }

  function Showing(offset: Offset, wall: int, instants: seq<int>): seq<int> {
    if instants == [] then []
    else (if WallClock(offset, instants[0]) == wall then [instants[0]] else []) + Showing(offset, wall, instants[1..])
  }

  function Sorted(instants: seq<int>): seq<int> {
    if |instants| == 2 && instants[1] < instants[0] then [instants[1], instants[0]] else instants
  }

  /** Two probes, a day either side; the offsets found there, tried on the wall time. */
  function ResolveLocalTime(offset: Offset, wall: int, choose: Option<Choice>): Resolution {
    var instants := Sorted(Showing(offset, wall, Probes(offset, wall)));
    if |instants| == 0 then Nonexistent
    else if |instants| == 1 then Resolved(instants[0])
    else if choose.Some? then Resolved(if choose.value.Earlier? then instants[0] else instants[1])
    else Ambiguous(instants[0], instants[1])
  }

  /** A whole second at which the zone's clock shows `wall`. */
  ghost predicate Preimage(offset: Offset, wall: int, t: int) { t % SECOND == 0 && WallClock(offset, t) == wall }

  lemma WholeSeconds(offset: Offset, t: int)
    requires ZoneOk(offset) && t % SECOND == 0
    ensures WallClock(offset, t) == t + offset(t)
  {
    WholeSum(t, offset(t));
  }

  lemma WholeSum(a: int, b: int)
    requires a % SECOND == 0 && b % SECOND == 0
    ensures Floor(a + b, SECOND) == a + b
  {
  }

  /** The answer, spelled out over the two probed instants. */
  lemma ResolveCases(offset: Offset, wall: int, x: int, y: int)
    requires x == wall - (WallClock(offset, wall - DAY) - (wall - DAY)) && y == wall - (WallClock(offset, wall + DAY) - (wall + DAY))
    ensures var sx, sy := WallClock(offset, x) == wall, WallClock(offset, y) == wall;
            ResolveLocalTime(offset, wall, None)
            == if sx && sy && x < y then Ambiguous(x, y)
               else if sx && sy && y < x then Ambiguous(y, x)
               else if sx then Resolved(x)
               else if sy then Resolved(y)
               else Nonexistent
  {
    var probes := Probes(offset, wall);
    assert Showing(offset, wall, []) == [];
    if x == y {
      assert probes == [x] && probes[1..] == [];
    } else {
      assert probes == [x, y] && probes[1..] == [y] && [y][1..] == [];
      assert Showing(offset, wall, [y]) == if WallClock(offset, y) == wall then [y] else [];
      assert Showing(offset, wall, probes) == (if WallClock(offset, x) == wall then [x] else []) + Showing(offset, wall, [y]);
    }
  }

  lemma ProbedInstants(offset: Offset, wall: int) returns (x: int, y: int)
    requires ZoneOk(offset) && wall % SECOND == 0
    ensures x == wall - (WallClock(offset, wall - DAY) - (wall - DAY)) && y == wall - (WallClock(offset, wall + DAY) - (wall + DAY))
    ensures x == wall - offset(wall - DAY) && y == wall - offset(wall + DAY) && x % SECOND == 0 && y % SECOND == 0
    ensures wall - DAY < x < wall + DAY && wall - DAY < y < wall + DAY
  {
    WholeDifference(wall, DAY);
    WholeDifference(wall, -DAY);
    WholeSeconds(offset, wall - DAY);
    WholeSeconds(offset, wall + DAY);
    x, y := wall - offset(wall - DAY), wall - offset(wall + DAY);
    WholeDifference(wall, offset(wall - DAY));
    WholeDifference(wall, offset(wall + DAY));
  }

  lemma WholeDifference(a: int, b: int)
    requires a % SECOND == 0 && b % SECOND == 0
    ensures (a - b) % SECOND == 0
  {
  }

  /** Whatever shows the wall time is within a day of it, so one of the two probes knows its offset. */
  lemma PreimageIsProbed(offset: Offset, wall: int, t: int)
    requires ZoneOk(offset) && OneChange(offset, wall) && Preimage(offset, wall, t)
    ensures t == wall - offset(wall - DAY) || t == wall - offset(wall + DAY)
  {
    WholeSeconds(offset, t);
    var c :| ChangesAt(offset, wall, c);
    assert wall - DAY <= t <= wall + DAY;
  }

  /** Without a choice, the answer lists exactly the instants that show the wall time: none, the one,
      or the two in order. */
  lemma ResolvesExactly(offset: Offset, wall: int)
    requires ZoneOk(offset) && OneChange(offset, wall) && wall % SECOND == 0
    ensures match ResolveLocalTime(offset, wall, None)
            case Nonexistent => forall t :: !Preimage(offset, wall, t)
            case Resolved(u) => forall t :: Preimage(offset, wall, t) <==> t == u
            case Ambiguous(u, v) => u < v && forall t :: Preimage(offset, wall, t) <==> t == u || t == v
  {
    var x, y := ProbedInstants(offset, wall);
    ResolveCases(offset, wall, x, y);
    forall t | Preimage(offset, wall, t) ensures t == x || t == y {
      PreimageIsProbed(offset, wall, t);
    }
    ListsExactly(offset, wall, x, y, ResolveLocalTime(offset, wall, None));
  }

  lemma ListsExactly(offset: Offset, wall: int, x: int, y: int, r: Resolution)
    requires x % SECOND == 0 && y % SECOND == 0 && forall t :: Preimage(offset, wall, t) ==> t == x || t == y
    requires r == if Preimage(offset, wall, x) && Preimage(offset, wall, y) && x < y then Ambiguous(x, y)
                  else if Preimage(offset, wall, x) && Preimage(offset, wall, y) && y < x then Ambiguous(y, x)
                  else if Preimage(offset, wall, x) then Resolved(x)
                  else if Preimage(offset, wall, y) then Resolved(y)
                  else Nonexistent
    ensures match r
            case Nonexistent => forall t :: !Preimage(offset, wall, t)
            case Resolved(u) => forall t :: Preimage(offset, wall, t) <==> t == u
            case Ambiguous(u, v) => u < v && forall t :: Preimage(offset, wall, t) <==> t == u || t == v
  {
  }

  /** With a choice the repeated time resolves to the occurrence chosen, and nothing else changes. */
  lemma ChoiceOnlyDecidesRepeats(offset: Offset, wall: int, choice: Choice)
    ensures var r := ResolveLocalTime(offset, wall, None);
            ResolveLocalTime(offset, wall, Some(choice))
            == if r.Ambiguous? then Resolved(if choice.Earlier? then r.earlier else r.later) else r
  {
  }

  /** With a choice, a wall time that is shown at all resolves, to the first or the last instant that
      shows it, as chosen. */
  lemma ChosenExactly(offset: Offset, wall: int, choice: Choice)
    requires ZoneOk(offset) && OneChange(offset, wall) && wall % SECOND == 0
    ensures match ResolveLocalTime(offset, wall, Some(choice))
            case Nonexistent => forall t :: !Preimage(offset, wall, t)
            case Resolved(u) => Preimage(offset, wall, u)
                                && forall t :: Preimage(offset, wall, t) ==> if choice.Earlier? then u <= t else t <= u
            case Ambiguous(_, _) => false
  {
    ChoiceOnlyDecidesRepeats(offset, wall, choice);
    ResolvesExactly(offset, wall);
  }

  /** Said of the clock change itself: the times it skips do not exist, the times it repeats are
      ambiguous, and all others resolve. */
  lemma GapsAndFolds(offset: Offset, wall: int, c: int)
    requires ZoneOk(offset) && ChangesAt(offset, wall, c) && wall % SECOND == 0 && wall - DAY < c <= wall + DAY
    ensures var r, before, after := ResolveLocalTime(offset, wall, None), offset(wall - DAY), offset(wall + DAY);
            && (r.Nonexistent? <==> c + before <= wall < c + after)
            && (r.Ambiguous? <==> c + after <= wall < c + before)
            && (r.Ambiguous? ==> r == Ambiguous(wall - before, wall - after))
            && (r.Resolved? ==> r.instant == wall - (if wall < c + before then before else after))
  {
    var x, y := ProbedInstants(offset, wall);
    ResolveCases(offset, wall, x, y);
    ShowsBefore(offset, wall, c, x);
    ShowsBefore(offset, wall, c, y);
  }

  /** Near the wall time, an instant shows it when the offset in force there says so. */
  lemma ShowsBefore(offset: Offset, wall: int, c: int, t: int)
    requires ZoneOk(offset) && ChangesAt(offset, wall, c) && t % SECOND == 0 && wall - DAY < t < wall + DAY
    ensures WallClock(offset, t) == wall <==> t == wall - (if t < c then offset(wall - DAY) else offset(wall + DAY))
  {
    WholeSeconds(offset, t);
  }

  // ------------------------------------------------------------------ fields

  /** A field's text: a wall time to the minute or second (counted from 1970), a full instant, or
      anything else. Civil dates are only another spelling of these numbers. */
  datatype Text = Minutes(n: int) | Seconds(n: int) | Instant(ms: int) | Garbage

  datatype Precision = ToMinute | ToSecond
  datatype Reason = InvalidLocalTime | NonexistentLocalTime | AmbiguousLocalTime
  datatype Read = Accepted(instant: int, shift: int, repeated: bool) | Refused(reason: Reason)
  datatype Repeated = Reject | First | Take(choice: Choice)

  function Unit(p: Precision): int { if p.ToSecond? then SECOND else 60_000 }

  function LocalInputValue(offset: Offset, instant: int, p: Precision): Text {
    var wall := WallClock(offset, instant);
    if p.ToSecond? then Seconds(wall / SECOND) else Minutes(wall / 60_000)
  }

  function PrecisionOf(value: Text): Precision { if value.Seconds? then ToSecond else ToMinute }

  function WallOf(value: Text): int
    requires value.Minutes? || value.Seconds?
  {
    if value.Minutes? then value.n * 60_000 else value.n * SECOND
  }

  function ReadLocalInput(offset: Offset, value: Text, repeated: Repeated): Read {
    if !value.Minutes? && !value.Seconds? then Refused(InvalidLocalTime)
    else
      var wall := WallOf(value);
      var resolved := ResolveLocalTime(offset, wall, None);
      if resolved.Nonexistent? then Refused(NonexistentLocalTime)
      else if resolved.Ambiguous? && repeated.Reject? then Refused(AmbiguousLocalTime)
      else
        var instant := if resolved.Resolved? then resolved.instant
                       else if repeated == Take(Later) then resolved.later else resolved.earlier;
        Accepted(instant, wall - instant, resolved.Ambiguous?)
  }

  /** What was picked beside the field; `Other` is a value that is neither of the two. */
  datatype Occurrence = NoneGiven | Given(choice: Choice) | Other

  function ReadDateTimeEntry(offset: Offset, value: Text, occurrence: Occurrence, original: Option<int>): Read {
    if value.Instant? then
      var local := LocalInputValue(offset, value.ms, ToSecond);
      var first := ReadLocalInput(offset, local, Take(Earlier));
      if first.Refused? then first
      else
        var later := ReadLocalInput(offset, local, Take(Later));
        var resolved := if later.Accepted? && later.instant / SECOND == value.ms / SECOND then later else first;
        resolved.(instant := value.ms)
    else if occurrence.Other? then Refused(InvalidLocalTime)
    else
      var read := ReadLocalInput(offset, value, if occurrence.Given? then Take(occurrence.choice) else Reject);
      if read.Refused? then read
      else if KeepsOriginal(offset, value, original, read.instant) then read.(instant := original.value)
      else read
  }

  /** The field still holds the recorded instant's own wall time, and reads as its own minute or second. */
  predicate KeepsOriginal(offset: Offset, value: Text, original: Option<int>, instant: int) {
    && original.Some? && LocalInputValue(offset, original.value, PrecisionOf(value)) == value
    && original.value / Unit(PrecisionOf(value)) == instant / Unit(PrecisionOf(value))
  }

  /** The second an instant falls into shows the same wall time. */
  lemma SecondShowsWall(offset: Offset, ms: int)
    requires ZoneOk(offset)
    ensures Preimage(offset, WallClock(offset, ms), Floor(ms, SECOND))
    ensures WallClock(offset, ms) == Floor(ms, SECOND) + offset(ms) && WallClock(offset, ms) % SECOND == 0
  {
    var s := Floor(ms, SECOND);
    assert s / SECOND == ms / SECOND;
    WholeSeconds(offset, s);
  }

  /** A recorded instant is read back to the millisecond, with the zone's own offset at it. */
  lemma InstantReadsBack(offset: Offset, ms: int, occurrence: Occurrence, original: Option<int>)
    requires ZoneOk(offset) && OneChange(offset, WallClock(offset, ms))
    ensures var r := ReadDateTimeEntry(offset, Instant(ms), occurrence, original);
            && r.Accepted? && r.instant == ms && r.shift == offset(ms)
            && (r.repeated <==> exists t, u :: t != u && Preimage(offset, WallClock(offset, ms), t) && Preimage(offset, WallClock(offset, ms), u))
  {
    var wall := WallClock(offset, ms);
    SecondShowsWall(offset, ms);
    ResolvesExactly(offset, wall);
    assert WallOf(LocalInputValue(offset, ms, ToSecond)) == wall;
    assert Preimage(offset, wall, Floor(ms, SECOND));
    var r := ResolveLocalTime(offset, wall, None);
    if r.Ambiguous? {
      assert Preimage(offset, wall, r.earlier) && Preimage(offset, wall, r.later);
    }
  }

  /** What reading a wall time picks, in terms of the instants that show it. */
  lemma ReadPicks(offset: Offset, value: Text, repeated: Repeated)
    requires ZoneOk(offset) && (value.Minutes? || value.Seconds?) && OneChange(offset, WallOf(value))
    ensures var read := ReadLocalInput(offset, value, repeated);
            read.Accepted? ==> Preimage(offset, WallOf(value), read.instant)
  {
    assert WallOf(value) % SECOND == 0;
    ResolvesExactly(offset, WallOf(value));
  }

  lemma PreimageText(offset: Offset, value: Text, t: int)
    requires (value.Minutes? || value.Seconds?) && Preimage(offset, WallOf(value), t)
    ensures LocalInputValue(offset, t, PrecisionOf(value)) == value
  {
  }

  /** Whatever wall time a field accepts is the wall time its instant shows: the text comes back. */
  lemma AcceptedTextComesBack(offset: Offset, value: Text, occurrence: Occurrence, original: Option<int>)
    requires ZoneOk(offset) && (value.Minutes? || value.Seconds?) && OneChange(offset, WallOf(value))
    ensures var r := ReadDateTimeEntry(offset, value, occurrence, original);
            r.Accepted? ==> LocalInputValue(offset, r.instant, PrecisionOf(value)) == value
  {
    var repeated := if occurrence.Given? then Take(occurrence.choice) else Reject;
    var read := ReadLocalInput(offset, value, repeated);
    ReadPicks(offset, value, repeated);
    if read.Accepted? {
      PreimageText(offset, value, read.instant);
    }
  }

  /** Offsets are whole units, and change on whole units only. */
  ghost predicate Aligned(offset: Offset, p: Precision) {
    && (forall t :: offset(t) % Unit(p) == 0)
    && (forall s, t :: s / Unit(p) == t / Unit(p) ==> offset(s) == offset(t))
  }

  /** The unit an instant falls into shows the wall time of its prefilled text. */
  lemma UnitShowsText(offset: Offset, ms: int, p: Precision)
    requires ZoneOk(offset) && Aligned(offset, p)
    ensures var value := LocalInputValue(offset, ms, p);
            PrecisionOf(value) == p && Preimage(offset, WallOf(value), Floor(ms, Unit(p)))
  {
    SecondShowsWall(offset, ms);
    FloorsAgree(ms, offset(ms), p);
    StartOfUnit(offset, ms, p);
  }

  lemma StartOfUnit(offset: Offset, ms: int, p: Precision)
    requires ZoneOk(offset) && Aligned(offset, p) && Floor(ms, Unit(p)) % SECOND == 0
    ensures WallClock(offset, Floor(ms, Unit(p))) == Floor(ms, Unit(p)) + offset(ms)
  {
    var s := Floor(ms, Unit(p));
    SameUnit(ms, s, p);
    WholeSeconds(offset, s);
  }

  lemma FloorsAgree(ms: int, shift: int, p: Precision)
    requires shift % Unit(p) == 0
    ensures (Floor(ms, SECOND) + shift) / Unit(p) * Unit(p) == Floor(ms, Unit(p)) + shift
    ensures Floor(ms, Unit(p)) % SECOND == 0
  {
    match p
    case ToSecond => SecondsAgree(ms, shift);
    case ToMinute => MinutesAgree(ms, shift);
  }

  lemma SecondsAgree(ms: int, shift: int)
    requires shift % 1000 == 0
    ensures (ms / 1000 * 1000 + shift) / 1000 * 1000 == ms / 1000 * 1000 + shift
  {
  }

  lemma MinutesAgree(ms: int, shift: int)
    requires shift % 60_000 == 0
    ensures (ms / 1000 * 1000 + shift) / 60_000 * 60_000 == ms / 60_000 * 60_000 + shift
    ensures ms / 60_000 * 60_000 % 1000 == 0
  {
    var q, r, k := ms / 60_000, ms % 60_000, shift / 60_000;
    assert ms / 1000 == q * 60 + r / 1000;
    assert ms / 1000 * 1000 + shift == (q + k) * 60_000 + r / 1000 * 1000;
    assert 0 <= r / 1000 * 1000 < 60_000;
  }

  /** The occurrence, if one is asked for, is the one the recorded instant lies in. */
  ghost predicate RightFold(offset: Offset, ms: int, p: Precision, occurrence: Occurrence) {
    match ResolveLocalTime(offset, WallOf(LocalInputValue(offset, ms, p)), None)
    case Resolved(_) => !occurrence.Other?
    case Nonexistent => false
    case Ambiguous(earlier, later) =>
      occurrence.Given? && Floor(ms, Unit(p)) == (if occurrence.choice.Earlier? then earlier else later)
  }

  /** An untouched prefill gives the recorded instant back to the millisecond exactly when its fold is
      right; with the wrong fold or none it never passes for it. */
  lemma PrefillReadsBack(offset: Offset, ms: int, p: Precision, occurrence: Occurrence)
    requires ZoneOk(offset) && Aligned(offset, p) && OneChange(offset, WallOf(LocalInputValue(offset, ms, p)))
    ensures var r := ReadDateTimeEntry(offset, LocalInputValue(offset, ms, p), occurrence, Some(ms));
            r.Accepted? && r.instant == ms <==> RightFold(offset, ms, p, occurrence)
  {
    var value := LocalInputValue(offset, ms, p);
    UnitShowsText(offset, ms, p);
    FoldsInUnits(offset, ms, p);
    TextIsWhole(value);
    ResolvesExactly(offset, WallOf(value));
    Narrowed(offset, WallOf(value), Floor(ms, Unit(p)), p, ResolveLocalTime(offset, WallOf(value), None));
    PrefillCases(offset, ms, p, occurrence);
  }

  lemma TextIsWhole(value: Text)
    requires value.Minutes? || value.Seconds?
    ensures WallOf(value) % SECOND == 0 && WallOf(value) % Unit(PrecisionOf(value)) == 0
  {
  }

  /** Listing exactly the preimages, all of which start a unit and one of which is `u`. */
  lemma Narrowed(offset: Offset, wall: int, u: int, p: Precision, r: Resolution)
    requires match r
             case Nonexistent => forall t :: !Preimage(offset, wall, t)
             case Resolved(v) => forall t :: Preimage(offset, wall, t) <==> t == v
             case Ambiguous(v, w) => v < w && forall t :: Preimage(offset, wall, t) <==> t == v || t == w
    requires Preimage(offset, wall, u) && forall t :: Preimage(offset, wall, t) ==> t == Floor(t, Unit(p))
    ensures match r
            case Nonexistent => false
            case Resolved(t) => t == u
            case Ambiguous(t, v) => t < v && t == Floor(t, Unit(p)) && v == Floor(v, Unit(p)) && (u == t || u == v)
  {
  }

  lemma PrefillCases(offset: Offset, ms: int, p: Precision, occurrence: Occurrence)
    requires var wall := WallOf(LocalInputValue(offset, ms, p));
             match ResolveLocalTime(offset, wall, None)
             case Nonexistent => false
             case Resolved(t) => t == Floor(ms, Unit(p))
             case Ambiguous(t, u) => t < u && t == Floor(t, Unit(p)) && u == Floor(u, Unit(p)) && (Floor(ms, Unit(p)) == t || Floor(ms, Unit(p)) == u)
    ensures var r := ReadDateTimeEntry(offset, LocalInputValue(offset, ms, p), occurrence, Some(ms));
            r.Accepted? && r.instant == ms <==> RightFold(offset, ms, p, occurrence)
  {
    SameUnit(ms, ms, p);
    match ResolveLocalTime(offset, WallOf(LocalInputValue(offset, ms, p)), None)
    case Nonexistent =>
    case Resolved(t) => SameUnit(ms, t, p);
    case Ambiguous(t, u) =>
      SameUnit(ms, t, p);
      SameUnit(ms, u, p);
  }

  lemma SameUnit(ms: int, t: int, p: Precision)
    ensures ms / Unit(p) == t / Unit(p) <==> Floor(ms, Unit(p)) == Floor(t, Unit(p))
    ensures Floor(Floor(ms, Unit(p)), Unit(p)) == Floor(ms, Unit(p))
  {
  }

  /** Every candidate of a prefilled text starts a unit, so two candidates lie in different units. */
  lemma FoldsInUnits(offset: Offset, ms: int, p: Precision)
    requires ZoneOk(offset) && Aligned(offset, p)
    ensures forall t :: Preimage(offset, WallOf(LocalInputValue(offset, ms, p)), t) ==> t == Floor(t, Unit(p))
  {
    var wall := WallOf(LocalInputValue(offset, ms, p));
    TextIsWhole(LocalInputValue(offset, ms, p));
    forall t | Preimage(offset, wall, t) ensures t == Floor(t, Unit(p)) {
      OneFold(offset, wall, t, p);
    }
  }

  lemma OneFold(offset: Offset, wall: int, t: int, p: Precision)
    requires ZoneOk(offset) && Aligned(offset, p) && Preimage(offset, wall, t) && wall % Unit(p) == 0
    ensures t == Floor(t, Unit(p))
  {
    WholeSeconds(offset, t);
    WholeUnits(wall, offset(t), p);
  }

  lemma WholeUnits(wall: int, shift: int, p: Precision)
    requires wall % Unit(p) == 0 && shift % Unit(p) == 0
    ensures wall - shift == Floor(wall - shift, Unit(p))
  {
  }

  const HOUR := 3_600_000

  /** Clocks three hours ahead that are set back to two at `c`. */
  function SetBack(c: int): Offset { (t: int) => if t < c then 3 * HOUR else 2 * HOUR }

  lemma SameSecondSameSide(s: int, t: int, k: int)
    requires s / SECOND == t / SECOND
    ensures s < SECOND * k <==> t < SECOND * k
  {
  }

  lemma SameMinuteSameSide(s: int, t: int, k: int)
    requires s / 60_000 == t / 60_000
    ensures s < 60_000 * k <==> t < 60_000 * k
  {
  }

  lemma SetBackIsZone(c: int)
    requires c % 60_000 == 0
    ensures ZoneOk(SetBack(c)) && Aligned(SetBack(c), ToMinute)
  {
    var offset, k := SetBack(c), c / 60_000;
    assert c == 60_000 * k;
    assert 3 * HOUR % SECOND == 0 && 2 * HOUR % SECOND == 0 && 3 * HOUR % 60_000 == 0 && 2 * HOUR % 60_000 == 0;
    forall s, t | s / SECOND == t / SECOND ensures offset(s) == offset(t) { SameSecondSameSide(s, t, 60 * k); }
    forall s, t | s / 60_000 == t / 60_000 ensures offset(s) == offset(t) { SameMinuteSameSide(s, t, k); }
  }

  lemma SetBackChanges(c: int, wall: int)
    requires wall - DAY < c <= wall + DAY
    ensures ChangesAt(SetBack(c), wall, c)
  {
  }

  /** What a prefilled field shows in that zone, and the two instants it may stand for. */
  lemma SetBackRepeats(c: int, ms: int)
    requires c % 60_000 == 0 && c <= ms < c + HOUR
    ensures var offset := SetBack(c);
            var value := LocalInputValue(offset, ms, ToMinute);
            && value.Minutes? && WallOf(value) == Floor(ms, 60_000) + 2 * HOUR
            && ResolveLocalTime(offset, WallOf(value), None) == Ambiguous(Floor(ms, 60_000) - HOUR, Floor(ms, 60_000))
  {
    var offset := SetBack(c);
    var value := LocalInputValue(offset, ms, ToMinute);
    SetBackIsZone(c);
    SetBackValue(c, ms);
    var wall := WallOf(value);
    TextIsWhole(value);
    FloorStays(c, ms);
    SetBackChanges(c, wall);
    GapsAndFolds(offset, wall, c);
  }

  lemma SetBackValue(c: int, ms: int)
    requires c % 60_000 == 0 && c <= ms < c + HOUR && ZoneOk(SetBack(c)) && Aligned(SetBack(c), ToMinute)
    ensures var value := LocalInputValue(SetBack(c), ms, ToMinute);
            value.Minutes? && WallOf(value) == Floor(ms, 60_000) + 2 * HOUR
  {
    SecondShowsWall(SetBack(c), ms);
    FloorsAgree(ms, 2 * HOUR, ToMinute);
  }

  lemma FloorStays(c: int, ms: int)
    requires c % 60_000 == 0 && c <= ms < c + HOUR
    ensures c <= Floor(ms, 60_000) <= ms < c + HOUR
  {
    assert c == 60_000 * (c / 60_000);
  }

  /** In the hour after the clocks go back the wall time is one that was shown an hour before. Left
      without a choice the prefilled field is refused, with the earlier occurrence chosen it reads as
      an instant an hour too early, and only with the later one as the recorded instant. */
  lemma WrongFoldExample(c: int, ms: int)
    requires c % 60_000 == 0 && c <= ms < c + HOUR
    ensures var offset := SetBack(c);
            var value := LocalInputValue(offset, ms, ToMinute);
            && ReadDateTimeEntry(offset, value, NoneGiven, Some(ms)) == Refused(AmbiguousLocalTime)
            && ReadDateTimeEntry(offset, value, Given(Earlier), Some(ms)) == Accepted(Floor(ms, 60_000) - HOUR, 3 * HOUR, true)
            && ReadDateTimeEntry(offset, value, Given(Later), Some(ms)) == Accepted(ms, 2 * HOUR, true)
  {
    SetBackRepeats(c, ms);
    SameUnit(ms, Floor(ms, 60_000), ToMinute);
    SameUnit(ms, Floor(ms, 60_000) - HOUR, ToMinute);
    HourApart(Floor(ms, 60_000));
  }

  lemma HourApart(t: int)
    requires t % 60_000 == 0
    ensures Floor(t - HOUR, 60_000) == t - HOUR
  {
  }

  // ------------------------------------------------------------------ the formatter cache

  datatype Formatter = Formatter(timeZone: string)

  const CACHE_SIZE := 16

  /** Formatters by zone; the oldest makes room for the seventeenth. */
  class FormatCache {
    var formats: map<string, Formatter>
    var order: seq<string>

    ghost predicate Valid()
      reads this
    {
      && |order| <= CACHE_SIZE
      && (forall i, j :: 0 <= i < j < |order| ==> order[i] != order[j])
      && (forall z :: z in formats <==> z in order)
      && (forall z :: z in formats ==> formats[z] == Formatter(z))
    }

    constructor ()
      ensures Valid() && order == []
    {
      formats, order := map[], [];
    }

    method ZonePartFormat(timeZone: string) returns (f: Formatter)
      requires Valid()
      modifies this
      ensures Valid() && f == Formatter(timeZone) && timeZone in formats
      ensures old(timeZone in formats) ==> order == old(order)
      ensures !old(timeZone in formats) ==> order == (if |old(order)| < CACHE_SIZE then old(order) else old(order)[1..]) + [timeZone]
    {
      if timeZone in formats { return formats[timeZone]; }
      f := Formatter(timeZone);
      if |order| >= CACHE_SIZE {
        formats := formats - {order[0]};
        order := order[1..];
      }
      formats := formats[timeZone := f];
      order := order + [timeZone];
    }
  }
}
