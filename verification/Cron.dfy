/** The day-of-week field of a crontab line, rewritten as weekday names. Text is ASCII. */
module Cron {
  import opened Prelude

  datatype Refusal = EmptyEntry | InvalidStep | NotAWeekday

  datatype Parsed<T> = Accepted(value: T) | Refused(why: Refusal)

  type Day = d: nat | d < 7

  type Days = set<Day>

  const EVERY_DAY: Days := {0, 1, 2, 3, 4, 5, 6}

  /** Crontab numbers the week from Sunday. */
  const NAMES: seq<string> := ["sun", "mon", "tue", "wed", "thu", "fri", "sat"]

  /** The order in which the scheduler lists the week. */
  const LISTING: seq<Day> := [1, 2, 3, 4, 5, 6, 0]

  // ---- text ----------------------------------------------------------------------------

  predicate IsSpace(c: char) { c == ' ' || '\t' <= c <= '\r' || '\U{1C}' <= c <= '\U{1F}' }

  predicate IsDigit(c: char) { '0' <= c <= '9' }

  function LowerChar(c: char): char {
    if 'A' <= c <= 'Z' then (c as int - 'A' as int + 'a' as int) as char else c
  }

  function Lower(s: string): string { seq(|s|, i requires 0 <= i < |s| => LowerChar(s[i])) }

  function StripLeft(s: string): string {
    if s != "" && IsSpace(s[0]) then StripLeft(s[1..]) else s
  }

  function StripRight(s: string): string {
    if s != "" && IsSpace(s[|s| - 1]) then StripRight(s[..|s| - 1]) else s
  }

  function Strip(s: string): string { StripRight(StripLeft(s)) }

  predicate AllDigits(s: string) { s != "" && forall i :: 0 <= i < |s| ==> IsDigit(s[i]) }

  function ToNat(s: string): nat
    requires forall i :: 0 <= i < |s| ==> IsDigit(s[i])
  {
    if s == "" then 0
    else
      assert IsDigit(s[|s| - 1]);
      10 * ToNat(s[..|s| - 1]) + (s[|s| - 1] as int - '0' as int)
  }

  /** Where a character first occurs, or the length. */
  function Find(s: string, c: char): (k: nat)
    ensures k <= |s| && c !in s[..k] && (k < |s| ==> s[k] == c)
  {
    if s == "" || s[0] == c then 0 else 1 + Find(s[1..], c)
  }

  /** The text before the first occurrence, and the text after it if there is one. */
  function Partition(s: string, c: char): (string, Option<string>) {
    var k := Find(s, c);
    if k == |s| then (s, None) else (s[..k], Some(s[k + 1..]))
  }

  function Split(s: string, c: char): (parts: seq<string>)
    ensures parts != []
    decreases |s|
  {
    var k := Find(s, c);
    if k == |s| then [s] else [s[..k]] + Split(s[k + 1..], c)
  }

  function Join(parts: seq<string>, c: char): string {
    if parts == [] then ""
    else if |parts| == 1 then parts[0]
    else parts[0] + [c] + Join(parts[1..], c)
  }

  // ---- one weekday, one entry ----------------------------------------------------------

  function NameIndex(name: string): (k: nat)
    ensures k <= 7 && (k < 7 ==> NAMES[k] == name) && (k == 7 ==> name !in NAMES)
  {
    if name == NAMES[0] then 0
    else if name == NAMES[1] then 1
    else if name == NAMES[2] then 2
    else if name == NAMES[3] then 3
    else if name == NAMES[4] then 4
    else if name == NAMES[5] then 5
    else if name == NAMES[6] then 6
    else 7
  }

  function WeekdayValue(token: string): Parsed<Day> {
    var cleaned := Lower(Strip(token));
    if AllDigits(cleaned) then
      var value := ToNat(cleaned);
      if value > 7 then Refused(NotAWeekday) else Accepted(if value == 7 then 0 else value)
    else
      var k := NameIndex(cleaned);
      if k < 7 then Accepted(k) else Refused(NotAWeekday)
  }

  /** The days from `a` up to and including `b`. */
  function Span(a: nat, b: nat): (s: seq<Day>)
    requires b < 7
    ensures |s| == if a <= b then b - a + 1 else 0
    ensures forall i :: 0 <= i < |s| ==> s[i] == a + i
    decreases 7 - a
  {
    if a > b then [] else [a] + Span(a + 1, b)
  }

  /** Every `step`-th element, starting with the first. */
  function Slice(s: seq<Day>, step: nat): seq<Day>
    requires step >= 1
    decreases |s|
  {
    if s == [] then [] else [s[0]] + Slice(if step <= |s| then s[step..] else [], step)
  }

  function SetOf(s: seq<Day>): Days { set d | d in s }

  function Step(text: Option<string>): Parsed<nat> {
    if text.None? then Accepted(1)
    else if !AllDigits(text.value) || ToNat(text.value) < 1 then Refused(InvalidStep)
    else Accepted(ToNat(text.value))
  }

  /** The days of a base, in order, before stepping through them. */
  function Ordered(base: string, step: nat): Parsed<seq<Day>> {
    if base == "*" then Accepted(Span(0, 6))
    else if '-' in base then
      var ends := Partition(base, '-');
      var first, last := WeekdayValue(ends.0), WeekdayValue(OrEmpty(ends.1));
      if first.Refused? then Refused(first.why)
      else if last.Refused? then Refused(last.why)
      else if first.value <= last.value then Accepted(Span(first.value, last.value))
      else Accepted(Span(first.value, 6) + Span(0, last.value))
    else
      var first := WeekdayValue(base);
      if first.Refused? then Refused(first.why)
      else Accepted(if step > 1 then Span(first.value, 6) else [first.value])
  }

  function OrEmpty(o: Option<string>): string { if o.Some? then o.value else "" }

  function WeekdayToken(token: string): Parsed<Days> {
    var (base, text) := Partition(Strip(token), '/');
    var step := Step(text);
    if step.Refused? then Refused(step.why)
    else
      var ordered := Ordered(Strip(base), step.value);
      if ordered.Refused? then Refused(ordered.why)
      else if step.value >= 1 then Accepted(SetOf(Slice(ordered.value, step.value)))
      else Refused(InvalidStep)
  }

  // ---- a whole field -------------------------------------------------------------------

  function PartDays(part: string): Parsed<Days> {
    if Strip(part) == "" then Refused(EmptyEntry) else WeekdayToken(part)
  }

  /** The union of the parts; the first part that is refused refuses the field. */
  function PartsDays(parts: seq<string>): Parsed<Days> {
    if parts == [] then Accepted({})
    else
      var before := PartsDays(parts[..|parts| - 1]);
      if before.Refused? then before
      else
        var here := PartDays(parts[|parts| - 1]);
        if here.Refused? then here else Accepted(before.value + here.value)
  }

  function FieldDays(field: string): Parsed<Days> {
    if Strip(field) == "*" then Accepted(EVERY_DAY) else PartsDays(Split(field, ','))
  }

  function Listed(days: Days, order: seq<Day>): seq<string> {
    if order == [] then [] else (if order[0] in days then [NAMES[order[0]]] else []) + Listed(days, order[1..])
  }

  function Render(days: Days): string {
    if days == EVERY_DAY then "*" else Join(Listed(days, LISTING), ',')
  }

  function Translate(field: string): Parsed<string> {
    var days := FieldDays(field);
    if days.Refused? then Refused(days.why) else Accepted(Render(days.value))
  }

  /** Collect the days of the parts, stopping at the first that is refused. */
  method CollectDays(parts: seq<string>) returns (result: Parsed<Days>)
    ensures result == PartsDays(parts)
  {
    var days: Days := {};
    for i := 0 to |parts|
      invariant PartsDays(parts[..i]) == Accepted(days)
    {
      assert parts[..i + 1][..i] == parts[..i];
      var here: Parsed<Days> := if Strip(parts[i]) == "" then Refused(EmptyEntry) else WeekdayToken(parts[i]);
      if here.Refused? {
        RefusalSticks(parts, i + 1);
        return here;
      }
      days := days + here.value;
    }
    assert parts[..|parts|] == parts;
    return Accepted(days);
  }

  method ListNames(days: Days, order: seq<Day>) returns (names: seq<string>)
    ensures names == Listed(days, order)
  {
    names := [];
    for i := 0 to |order|
      invariant names + Listed(days, order[i..]) == Listed(days, order)
    {
      ListedAt(days, order, i);
      if order[i] in days { names := names + [NAMES[order[i]]]; }
    }
  }

  lemma {:induction false} ListedAt(days: Days, order: seq<Day>, i: nat)
    requires i < |order|
    ensures Listed(days, order[i..])
      == (if order[i] in days then [NAMES[order[i]]] else []) + Listed(days, order[i + 1..])
  {
    assert order[i..][1..] == order[i + 1..];
  }

  method TranslateDayOfWeek(field: string) returns (result: Parsed<string>)
    ensures result == Translate(field)
  {
    if Strip(field) == "*" { return Accepted("*"); }
    var days := CollectDays(Split(field, ','));
    if days.Refused? { return Refused(days.why); }
    SevenIff(days.value);
    if |days.value| == 7 { return Accepted("*"); }
    var names := ListNames(days.value, LISTING);
    return Accepted(Join(names, ','));
  }

  lemma {:induction false} RefusalSticks(parts: seq<string>, i: nat)
    requires i <= |parts| && PartsDays(parts[..i]).Refused?
    ensures PartsDays(parts) == PartsDays(parts[..i])
    decreases |parts| - i
  {
    if i < |parts| {
      assert parts[..i + 1][..i] == parts[..i];
      RefusalSticks(parts, i + 1);
    } else {
      assert parts[..i] == parts;
    }
  }

  lemma SevenIff(days: Days)
    ensures |days| == 7 <==> days == EVERY_DAY
  {
    assert |EVERY_DAY| == 7;
    assert forall d: Day :: d in EVERY_DAY;
    if |days| == 7 { FullSubset(days, EVERY_DAY); }
  }

  // ---- what a step selects -------------------------------------------------------------

  /** The day `i` days after `a`. */
  function DayAfter(a: Day, i: nat): Day { (a + i) % 7 }

  /** `s` runs forward from `a`, day by day. */
  ghost predicate Runs(s: seq<Day>, a: Day) { forall i :: 0 <= i < |s| ==> s[i] == DayAfter(a, i) }

  lemma {:induction false} SliceSelects(s: seq<Day>, step: nat, d: Day)
    requires step >= 1
    ensures d in Slice(s, step) <==> exists i :: 0 <= i < |s| && i % step == 0 && s[i] == d
    decreases |s|
  {
    if s != [] {
      var rest := if step <= |s| then s[step..] else [];
      SliceSelects(rest, step, d);
      if i :| 0 <= i < |rest| && i % step == 0 && rest[i] == d {
        ModShift(i, step);
        assert s[i + step] == d;
      }
      if i :| 0 <= i < |s| && i % step == 0 && s[i] == d {
        if i > 0 {
          MultipleReaches(i, step);
          ModShift(i - step, step);
          assert rest[i - step] == d;
        }
      }
      assert 0 % step == 0;
    }
  }

  lemma ModShift(i: nat, step: nat)
    requires step >= 1
    ensures (i + step) % step == i % step
  {
    var q, r := i / step, i % step;
    assert i == step * q + r;
    assert i + step == step * (q + 1) + r;
    QuotientIs(i + step, step, q + 1, r);
  }

  lemma QuotientIs(n: nat, step: nat, q: nat, r: nat)
    requires step >= 1 && n == step * q + r && r < step
    ensures n % step == r
  {
    var p, t := n / step, n % step;
    assert n == step * p + t;
    assert step * (p - q) == r - t;
    SmallMultiple(step, p - q);
  }

  /** A multiple of `step` that is smaller than it in size is zero. */
  lemma SmallMultiple(step: int, k: int)
    requires -step < step * k < step
    ensures k == 0
  {
  }

  lemma MultipleReaches(i: nat, step: nat)
    requires step >= 1 && i > 0 && i % step == 0
    ensures i >= step
  {
  }

  /** The closed form of a range: the days at most (b - a) mod 7 days after `a`, every `step`-th. */
  ghost function RangeDays(a: Day, b: Day, step: nat): Days
    requires step >= 1
  {
    set d: Day | d in EVERY_DAY && (d - a) % 7 <= (b - a) % 7 && ((d - a) % 7) % step == 0
  }

  function Around(a: Day, b: Day): seq<Day> {
    if a <= b then Span(a, b) else Span(a, 6) + Span(0, b)
  }

  lemma AroundRuns(a: Day, b: Day)
    ensures |Around(a, b)| == (b - a) % 7 + 1 && Runs(Around(a, b), a)
  {
    if a > b { WrappingRuns(a, b); }
  }

  lemma WrappingRuns(a: Day, b: Day)
    requires a > b
    ensures |Around(a, b)| == 8 + b - a == (b - a) % 7 + 1 && Runs(Around(a, b), a)
  {
    var s := Around(a, b);
    assert |s| == 8 + b - a;
    forall i | 0 <= i < |s| ensures s[i] == DayAfter(a, i) {
      assert s[i] == if i < 7 - a then a + i else i - (7 - a);
      DayAfterIs(a, i);
    }
  }

  lemma DayAfterIs(a: Day, i: nat)
    requires i < 7
    ensures DayAfter(a, i) == if a + i < 7 then a + i else a + i - 7
  {
  }

  lemma OffsetOf(a: Day, i: nat)
    requires i < 7
    ensures (DayAfter(a, i) - a) % 7 == i
  {
  }

  lemma DayAtOffset(a: Day, d: Day)
    ensures DayAfter(a, (d - a) % 7) == d && 0 <= (d - a) % 7 < 7
  {
  }

  lemma {:induction false} RunHas(s: seq<Day>, a: Day, step: nat, d: Day)
    requires step >= 1 && Runs(s, a) && |s| <= 7
    ensures d in Slice(s, step) <==> (d - a) % 7 < |s| && ((d - a) % 7) % step == 0
  {
    SliceSelects(s, step, d);
    DayAtOffset(a, d);
    var o := (d - a) % 7;
    if o < |s| { assert s[o] == d; }
    if i :| 0 <= i < |s| && i % step == 0 && s[i] == d { OffsetOf(a, i); }
  }

  /** Stepping through a run of days selects the closed form. */
  lemma {:induction false} RunSelects(s: seq<Day>, a: Day, b: Day, step: nat)
    requires step >= 1 && Runs(s, a) && |s| == (b - a) % 7 + 1
    ensures SetOf(Slice(s, step)) == RangeDays(a, b, step)
  {
    forall d: Day ensures d in SetOf(Slice(s, step)) <==> d in RangeDays(a, b, step) {
      RunHas(s, a, step, d);
      assert d in EVERY_DAY;
    }
  }

  // ---- what a field selects ------------------------------------------------------------

  /** An entry as the crontab format describes it. */
  datatype Entry =
    | Every(step: nat)
    | Range(first: Day, last: Day, step: nat)
    | From(first: Day, step: nat)
    | Single(day: Day)

  /** Reading the part before the step. Seven is Sunday already here, so `0-7` is the range from
      Sunday to Sunday. */
  function ReadBase(base: string, step: nat): Parsed<Entry> {
    if base == "*" then Accepted(Every(step))
    else if '-' in base then
      var ends := Partition(base, '-');
      var first, last := WeekdayValue(ends.0), WeekdayValue(OrEmpty(ends.1));
      if first.Refused? then Refused(first.why)
      else if last.Refused? then Refused(last.why)
      else Accepted(Range(first.value, last.value, step))
    else
      var first := WeekdayValue(base);
      if first.Refused? then Refused(first.why)
      else Accepted(if step > 1 then From(first.value, step) else Single(first.value))
  }

  function ReadEntry(token: string): Parsed<Entry> {
    var (text, stepText) := Partition(Strip(token), '/');
    var step := Step(stepText);
    if step.Refused? then Refused(step.why) else ReadBase(Strip(text), step.value)
  }

  ghost predicate WellStepped(e: Entry) {
    match e
    case Every(step) => step >= 1
    case Range(_, _, step) => step >= 1
    case From(_, step) => step >= 1
    case Single(_) => true
  }

  /** The days an entry stands for: `*` and `n/step` run to the end of the week, a range runs
      forward to its last day, around the end of the week if need be. */
  ghost function Chosen(e: Entry): Days
    requires WellStepped(e)
  {
    match e
    case Every(step) => RangeDays(0, 6, step)
    case Range(first, last, step) => RangeDays(first, last, step)
    case From(first, step) => RangeDays(first, 6, step)
    case Single(day) => {day}
  }

  /** The days of an entry in the order they are stepped through. */
  function InOrder(e: Entry): seq<Day> {
    match e
    case Every(_) => Span(0, 6)
    case Range(first, last, _) => Around(first, last)
    case From(first, _) => Span(first, 6)
    case Single(day) => [day]
  }

  lemma {:induction false} SlicesChoose(e: Entry, step: nat)
    requires step >= 1 && (e.Single? ==> step == 1) && (!e.Single? ==> e.step == step)
    ensures SetOf(Slice(InOrder(e), step)) == Chosen(e)
  {
    match e
    case Every(_) =>
      AroundRuns(0, 6);
      RunSelects(Around(0, 6), 0, 6, step);
    case Range(first, last, _) =>
      AroundRuns(first, last);
      RunSelects(Around(first, last), first, last, step);
    case From(first, _) =>
      AroundRuns(first, 6);
      RunSelects(Around(first, 6), first, 6, step);
    case Single(day) =>
      assert Slice([day], 1) == [day];
  }

  lemma BaseReads(base: string, step: nat)
    requires step >= 1
    ensures Ordered(base, step) == if ReadBase(base, step).Refused? then Refused(ReadBase(base, step).why)
                                   else Accepted(InOrder(ReadBase(base, step).value))
    ensures ReadBase(base, step).Accepted? ==>
      var e := ReadBase(base, step).value; (e.Single? ==> step == 1) && (!e.Single? ==> e.step == step)
  {
  }

  /** The computation by slices agrees with the description, in what it refuses as well. */
  lemma TokenMeansEntry(token: string)
    ensures ReadEntry(token).Accepted? ==> WellStepped(ReadEntry(token).value)
    ensures WeekdayToken(token) == if ReadEntry(token).Refused? then Refused(ReadEntry(token).why)
                                   else Accepted(Chosen(ReadEntry(token).value))
  {
    var (text, stepText) := Partition(Strip(token), '/');
    var step := Step(stepText);
    if step.Accepted? {
      BaseReads(Strip(text), step.value);
      var e := ReadBase(Strip(text), step.value);
      if e.Accepted? { SlicesChoose(e.value, step.value); }
    }
  }

  lemma ChosenIsNotEmpty(e: Entry)
    requires WellStepped(e)
    ensures Chosen(e) != {}
  {
    var first: Day :=
      match e
      case Every(_) => 0
      case Range(first, _, _) => first
      case From(first, _) => first
      case Single(day) => day;
    assert first in EVERY_DAY;
    assert first in Chosen(e);
  }

  ghost predicate Selected(part: string, d: Day) {
    PartDays(part).Accepted? && d in PartDays(part).value
  }

  lemma {:induction false} PartsAccepted(parts: seq<string>)
    ensures PartsDays(parts).Accepted? <==> forall p :: p in parts ==> PartDays(p).Accepted?
  {
    if parts != [] {
      var before, last := parts[..|parts| - 1], parts[|parts| - 1];
      PartsAccepted(before);
      assert forall p :: p in parts <==> p in before || p == last;
    }
  }

  ghost predicate SelectedIn(parts: seq<string>, d: Day) { exists p :: p in parts && Selected(p, d) }

  lemma {:induction false} PartsAreUnited(parts: seq<string>, d: Day)
    requires PartsDays(parts).Accepted?
    ensures d in PartsDays(parts).value <==> SelectedIn(parts, d)
  {
    if parts != [] {
      var before, last := parts[..|parts| - 1], parts[|parts| - 1];
      PartsAreUnited(before, d);
      assert forall p :: p in parts <==> p in before || p == last;
      assert SelectedIn(parts, d) <==> SelectedIn(before, d) || Selected(last, d);
    }
  }

  lemma PartIsEntry(p: string)
    ensures PartDays(p).Accepted? <==> Strip(p) != "" && ReadEntry(p).Accepted?
    ensures PartDays(p).Accepted? ==>
      WellStepped(ReadEntry(p).value) && PartDays(p).value == Chosen(ReadEntry(p).value) && PartDays(p).value != {}
  {
    TokenMeansEntry(p);
    if ReadEntry(p).Accepted? { ChosenIsNotEmpty(ReadEntry(p).value); }
  }

  /** A part of the field that is not blank and reads as an entry standing for this day. */
  ghost predicate Names(p: string, d: Day) {
    && Strip(p) != "" && ReadEntry(p).Accepted? && WellStepped(ReadEntry(p).value)
    && d in Chosen(ReadEntry(p).value)
  }

  /** An accepted field selects exactly the union of its parts, and at least one day; a field is
      refused exactly when one of its parts is blank or cannot be read. */
  lemma {:induction false} FieldIsUnion(field: string, d: Day)
    requires Strip(field) != "*"
    ensures FieldDays(field).Accepted? <==>
      forall p :: p in Split(field, ',') ==> Strip(p) != "" && ReadEntry(p).Accepted?
    ensures FieldDays(field).Accepted? ==> FieldDays(field).value != {}
    ensures FieldDays(field).Accepted? ==>
      (d in FieldDays(field).value <==> exists p :: p in Split(field, ',') && Names(p, d))
  {
    var parts := Split(field, ',');
    PartsAccepted(parts);
    forall p: string ensures PartDays(p).Accepted? <==> Strip(p) != "" && ReadEntry(p).Accepted? { PartIsEntry(p); }
    if FieldDays(field).Accepted? {
      PartsAreUnited(parts, d);
      forall p: string ensures Selected(p, d) <==> Names(p, d) { PartIsEntry(p); }
      assert parts[0] in parts;
      PartIsEntry(parts[0]);
      var e :| e in PartDays(parts[0]).value;
      PartsAreUnited(parts, e);
      assert Selected(parts[0], e);
    }
  }

  // ---- reading the translation back ----------------------------------------------------

  predicate Plain(s: string) { |s| == 3 && forall i :: 0 <= i < 3 ==> 'a' <= s[i] <= 'z' }

  lemma NamesArePlain(d: Day)
    ensures Plain(NAMES[d])
  {
  }

  lemma NamesDiffer(d: Day, e: Day)
    requires NAMES[d] == NAMES[e]
    ensures d == e
  {
    assert NAMES[0][0] == 's' && NAMES[0][1] == 'u' && NAMES[1][0] == 'm' && NAMES[2][0] == 't' && NAMES[2][1] == 'u';
    assert NAMES[3][0] == 'w' && NAMES[4][0] == 't' && NAMES[4][1] == 'h' && NAMES[5][0] == 'f';
    assert NAMES[6][0] == 's' && NAMES[6][1] == 'a';
    assert NAMES[d][0] == NAMES[e][0] && NAMES[d][1] == NAMES[e][1];
  }

  lemma PlainReads(s: string, c: char)
    requires Plain(s) && !('a' <= c <= 'z')
    ensures Strip(s) == s && Lower(s) == s && !AllDigits(s) && Partition(s, c) == (s, None) && c !in s
  {
    assert s[0] in s && s[2] in s;
  }

  lemma NameReads(d: Day)
    ensures PartDays(NAMES[d]) == Accepted({d})
  {
    var s := NAMES[d];
    NamesArePlain(d);
    PlainReads(s, '/');
    PlainReads(s, '-');
    var k := NameIndex(s);
    assert s in NAMES;
    NamesDiffer(k, d);
    assert WeekdayValue(s) == Accepted(d);
    assert Slice([d], 1) == [d];
    assert SetOf([d]) == {d};
  }

  /** Which name is which day: crontab counts from Sunday. */
  lemma DaysByName()
    ensures WeekdayValue("sun") == Accepted(0) && WeekdayValue("mon") == Accepted(1)
    ensures WeekdayValue("tue") == Accepted(2) && WeekdayValue("wed") == Accepted(3)
    ensures WeekdayValue("thu") == Accepted(4) && WeekdayValue("fri") == Accepted(5)
    ensures WeekdayValue("sat") == Accepted(6)
  {
    NameIsValue(0);
    NameIsValue(1);
    NameIsValue(2);
    NameIsValue(3);
    NameIsValue(4);
    NameIsValue(5);
    NameIsValue(6);
  }

  lemma NameIsValue(d: Day)
    ensures WeekdayValue(NAMES[d]) == Accepted(d)
  {
    var s := NAMES[d];
    NamesArePlain(d);
    PlainReads(s, '/');
    NamesDiffer(NameIndex(s), d);
  }

  /** Case and surrounding white space do not matter. */
  lemma NamesIgnoreCase(token: string, other: string)
    requires |Strip(token)| == |Strip(other)|
    requires forall i :: 0 <= i < |Strip(token)| ==>
      var a, b := Strip(token)[i], Strip(other)[i];
      || a == b
      || ('A' <= a <= 'Z' && 'a' <= b <= 'z' && b as int - a as int == 32)
      || ('A' <= b <= 'Z' && 'a' <= a <= 'z' && a as int - b as int == 32)
    ensures WeekdayValue(token) == WeekdayValue(other)
  {
    assert Lower(Strip(token)) == Lower(Strip(other));
  }

  /** What stripping leaves: the text between the first and the last character that is not a space,
      a tab, another line or column break, or one of the four separators. */
  lemma {:induction false} StripKeeps(s: string) returns (a: nat, b: nat)
    ensures a <= b <= |s| && Strip(s) == s[a..b]
    ensures forall i :: 0 <= i < |s| && !(a <= i < b) ==> Blank(s[i])
    ensures a < b ==> !Blank(s[a]) && !Blank(s[b - 1])
  {
    a := StripLeftKeeps(s);
    var rest := s[a..];
    var n := StripRightKeeps(rest);
    b := a + n;
    forall i | b <= i < |s| ensures Blank(s[i]) { assert rest[i - a] == s[i]; }
    if n > 0 { assert rest[0] == s[a] && rest[n - 1] == s[b - 1]; }
  }

  predicate Blank(c: char) { c in " \t\n\r" || c in ['\U{0B}', '\U{0C}', '\U{1C}', '\U{1D}', '\U{1E}', '\U{1F}'] }

  lemma {:induction false} StripLeftKeeps(s: string) returns (a: nat)
    ensures a <= |s| && StripLeft(s) == s[a..] && (a < |s| ==> !Blank(s[a])) && forall i :: 0 <= i < a ==> Blank(s[i])
  {
    if s != "" && IsSpace(s[0]) {
      a := StripLeftKeeps(s[1..]);
      a := a + 1;
    } else {
      a := 0;
    }
  }

  lemma {:induction false} StripRightKeeps(s: string) returns (n: nat)
    ensures n <= |s| && StripRight(s) == s[..n] && (n > 0 ==> !Blank(s[n - 1]))
    ensures forall i :: n <= i < |s| ==> Blank(s[i])
  {
    if s != "" && IsSpace(s[|s| - 1]) { n := StripRightKeeps(s[..|s| - 1]); } else { n := |s|; }
  }

  /** The scheduler's list starts on Monday. */
  lemma ListedFromMonday(days: Days)
    ensures Render(days) ==
      if days == {0, 1, 2, 3, 4, 5, 6} then "*"
      else Join((if 1 in days then ["mon"] else []) + ((if 2 in days then ["tue"] else [])
                + ((if 3 in days then ["wed"] else []) + ((if 4 in days then ["thu"] else [])
                + ((if 5 in days then ["fri"] else []) + ((if 6 in days then ["sat"] else [])
                + ((if 0 in days then ["sun"] else []) + [])))))), ',')
  {
    for i := 7 downto 0
      invariant Listed(days, LISTING[i..]) == FromMonday(days, i)
    {
      ListedAt(days, LISTING, i);
    }
    assert LISTING[0..] == LISTING;
  }

  function FromMonday(days: Days, i: nat): seq<string>
    requires i <= 7
    decreases 7 - i
  {
    if i == 7 then [] else (if LISTING[i] in days then [NAMES[LISTING[i]]] else []) + FromMonday(days, i + 1)
  }

  lemma {:induction false} SplitJoin(parts: seq<string>, c: char)
    requires parts != [] && forall p :: p in parts ==> c !in p
    ensures Split(Join(parts, c), c) == parts
  {
    if |parts| == 1 {
      assert parts[0] in parts;
    } else {
      var rest := Join(parts[1..], c);
      var all := parts[0] + [c] + rest;
      assert parts[0] in parts;
      FindAfter(parts[0], c, rest);
      assert all[..|parts[0]|] == parts[0] && all[|parts[0]| + 1..] == rest;
      SplitJoin(parts[1..], c);
    }
  }

  lemma {:induction false} FindAfter(s: string, c: char, rest: string)
    requires c !in s
    ensures Find(s + [c] + rest, c) == |s|
  {
    if s != "" {
      assert s[0] in s;
      assert (s + [c] + rest)[1..] == s[1..] + [c] + rest;
      FindAfter(s[1..], c, rest);
    }
  }

  lemma {:induction false} ListedAre(days: Days, order: seq<Day>)
    ensures forall p :: p in Listed(days, order) <==> exists d: Day :: d in order && d in days && NAMES[d] == p
  {
    if order != [] {
      ListedAre(days, order[1..]);
      assert forall d: Day :: d in order <==> d == order[0] || d in order[1..];
    }
  }

  /** A list of names begins and ends with a letter and is longer than one character. */
  lemma {:induction false} JoinIsTrimmed(parts: seq<string>)
    requires parts != [] && forall p :: p in parts ==> Plain(p)
    ensures var s := Join(parts, ','); |s| >= 3 && !IsSpace(s[0]) && !IsSpace(s[|s| - 1])
  {
    assert parts[0] in parts;
    if |parts| > 1 { JoinIsTrimmed(parts[1..]); }
  }

  lemma EveryDayListed(d: Day)
    ensures d in LISTING
  {
    assert LISTING[0] == 1 && LISTING[1] == 2 && LISTING[2] == 3 && LISTING[3] == 4 && LISTING[4] == 5
        && LISTING[5] == 6 && LISTING[6] == 0;
  }

  /** The translation reads back as the very same days. */
  lemma TranslationReadsBack(days: Days)
    requires days != {}
    ensures FieldDays(Render(days)) == Accepted(days)
  {
    if days != EVERY_DAY {
      var parts := Listed(days, LISTING);
      ListedAre(days, LISTING);
      var some :| some in days;
      EveryDayListed(some);
      assert NAMES[some] in parts;
      forall p | p in parts ensures Plain(p) && ',' !in p {
        var d: Day :| d in LISTING && d in days && NAMES[d] == p;
        NamesArePlain(d);
        PlainReads(p, ',');
      }
      JoinIsTrimmed(parts);
      SplitJoin(parts, ',');
      NamesUnite(days, parts);
    }
  }

  lemma {:induction false} NamesUnite(days: Days, parts: seq<string>)
    requires forall p :: p in parts <==> exists d: Day :: d in LISTING && d in days && NAMES[d] == p
    ensures PartsDays(parts) == Accepted(days)
  {
    PartsAccepted(parts);
    forall p | p in parts ensures PartDays(p).Accepted? {
      var d: Day :| d in LISTING && d in days && NAMES[d] == p;
      NameReads(d);
    }
    forall e: Day ensures e in PartsDays(parts).value <==> e in days {
      PartsAreUnited(parts, e);
      OnlyOwnName(days, parts, e);
    }
    assert PartsDays(parts).value == days;
  }

  lemma OnlyOwnName(days: Days, parts: seq<string>, e: Day)
    requires forall p :: p in parts <==> exists d: Day :: d in LISTING && d in days && NAMES[d] == p
    ensures SelectedIn(parts, e) <==> e in days
  {
    if e in days {
      EveryDayListed(e);
      NameReads(e);
      assert NAMES[e] in parts && Selected(NAMES[e], e);
    }
    if SelectedIn(parts, e) {
      var p :| p in parts && Selected(p, e);
      var d: Day :| d in LISTING && d in days && NAMES[d] == p;
      NameReads(d);
    }
  }

  /** Translating twice changes nothing, and two fields translate alike exactly when they select
      the same days. */
  lemma TranslationIsCanonical(f: string, g: string)
    requires FieldDays(f).Accepted? && FieldDays(g).Accepted?
    ensures Translate(Translate(f).value) == Translate(f)
    ensures Translate(f) == Translate(g) <==> FieldDays(f) == FieldDays(g)
  {
    SomeDay(f);
    SomeDay(g);
    TranslationReadsBack(FieldDays(f).value);
    TranslationReadsBack(FieldDays(g).value);
  }

  lemma SomeDay(field: string)
    requires FieldDays(field).Accepted?
    ensures FieldDays(field).value != {}
  {
    if Strip(field) == "*" { assert 0 in EVERY_DAY; } else { FieldIsUnion(field, 0); }
  }

  /** Sunday may end a range as 7 only in the sense of 0: `0-7` selects Sunday alone. */
  lemma ZeroToSevenIsSunday()
    ensures ReadBase("0-7", 1) == Accepted(Range(0, 0, 1))
    ensures Chosen(Range(0, 0, 1)) == {0}
  {
    var base := "0-7";
    assert base[0] == '0' && base[1] == '-' && base[2] == '7';
    assert Find(base, '-') == 1;
    assert base[..1] == "0" && base[2..] == "7";
    DigitReads('0');
    DigitReads('7');
    assert base[1] in base;
    forall d: Day ensures d in Chosen(Range(0, 0, 1)) <==> d == 0 { assert d in EVERY_DAY; }
  }

  /** A range of numbers as crontab means it: every `step`-th from `a` up to `b`, seven being Sunday. */
  ghost function Written(a: nat, b: nat, step: nat): Days
    requires step >= 1
  {
    set k: nat | a <= k <= b && (k - a) % step == 0 :: k % 7
  }

  lemma WrittenHas(a: nat, b: nat, step: nat, d: Day)
    requires a <= b <= 7 && step >= 1
    ensures d in Written(a, b, step) <==>
      (a <= d <= b && (d - a) % step == 0) || (d == 0 && b == 7 && (7 - a) % step == 0)
  {
    if d in Written(a, b, step) {
      var k: nat :| a <= k <= b && (k - a) % step == 0 && k % 7 == d;
      assert k == d || k == 7;
    }
    if a <= d <= b && (d - a) % step == 0 { assert d % 7 == d; }
    if d == 0 && b == 7 && (7 - a) % step == 0 { assert 7 % 7 == 0; }
  }

  lemma SmallModulus(k: nat, step: nat)
    requires k < step
    ensures k % step == k
  {
  }

  /** A range of numbers selects the days it is written for, except from 0 to 7 by a step of less
      than a week. */
  lemma WrittenRangeIff(a: nat, b: nat, step: nat)
    requires a <= b <= 7 && step >= 1
    ensures RangeDays(a % 7, b % 7, step) == Written(a, b, step) <==> !(a == 0 && b == 7 && step < 7)
  {
    if a == 0 && b == 7 {
      FullWeek(step);
    } else {
      forall d: Day ensures d in RangeDays(a % 7, b % 7, step) <==> d in Written(a, b, step) {
        WrittenHas(a, b, step, d);
        assert d in EVERY_DAY;
        RangeHas(a, b, step, d);
      }
    }
  }

  /** How far a range of numbers reaches, and how far a day is from its start. */
  lemma Reach(a: nat, b: nat)
    requires a <= b <= 7 && !(a == 0 && b == 7)
    ensures (b % 7 - a % 7) % 7 == b - a
  {
    if a == 7 {
    } else if b == 7 {
      assert b % 7 == 0 && a % 7 == a;
    } else {
      assert b % 7 == b && a % 7 == a;
    }
  }

  lemma Offset(a: nat, d: Day)
    requires a <= 7
    ensures (d - a % 7) % 7 == if a == 7 then d else if d >= a then d - a else d - a + 7
  {
    if a < 7 { assert a % 7 == a; }
  }

  lemma RangeHas(a: nat, b: nat, step: nat, d: Day)
    requires a <= b <= 7 && step >= 1 && !(a == 0 && b == 7)
    ensures (d - a % 7) % 7 <= (b % 7 - a % 7) % 7 && ((d - a % 7) % 7) % step == 0 <==>
      (a <= d <= b && (d - a) % step == 0) || (d == 0 && b == 7 && (7 - a) % step == 0)
  {
    Reach(a, b);
    Offset(a, d);
    if a == 7 { SmallModulus(0, step); }
  }

  lemma FullWeek(step: nat)
    requires step >= 1
    ensures RangeDays(0, 0, step) == Written(0, 7, step) <==> step >= 7
  {
    forall d: Day ensures d in RangeDays(0, 0, step) <==> d == 0 { assert d in EVERY_DAY; }
    forall d: Day { WrittenHas(0, 7, step, d); }
    if step < 7 {
      WrittenHas(0, 7, step, step);
      QuotientIs(step, step, 1, 0);
      assert step in Written(0, 7, step) && step !in RangeDays(0, 0, step);
    } else {
      forall d: Day ensures d in Written(0, 7, step) <==> d == 0 {
        WrittenHas(0, 7, step, d);
        if d > 0 { SmallModulus(d, step); }
      }
    }
  }

  /** A day with a step is read as the days from it to the end of the week, every `step`-th, except
      that an explicit step of one leaves the day alone. */
  lemma StepFromDayIff(token: string, text: string, stepText: string)
    requires Partition(Strip(token), '/') == (text, Some(stepText)) && Step(Some(stepText)).Accepted?
    requires Strip(text) != "*" && '-' !in Strip(text) && WeekdayValue(Strip(text)).Accepted?
    ensures WeekdayToken(token).Accepted?
    ensures var first, step := WeekdayValue(Strip(text)).value, Step(Some(stepText)).value;
      WeekdayToken(token).value == RangeDays(first, 6, step) <==> step > 1 || first == 6
  {
    var first, step := WeekdayValue(Strip(text)).value, Step(Some(stepText)).value;
    TokenMeansEntry(token);
    assert ReadEntry(token) == Accepted(if step > 1 then From(first, step) else Single(first));
    if step == 1 {
      forall d: Day ensures d in RangeDays(first, 6, 1) <==> d >= first { assert d in EVERY_DAY; ToSaturday(first, d); }
      assert (6 as Day) in RangeDays(first, 6, 1);
      if first == 6 { assert RangeDays(6, 6, 1) == {6}; }
    }
  }

  lemma ToSaturday(first: Day, d: Day)
    ensures (d - first) % 7 <= (6 - first) % 7 <==> d >= first
    ensures ((d - first) % 7) % 1 == 0
  {
    assert (6 - first) % 7 == 6 - first;
    assert (d - first) % 7 == if d >= first then d - first else d - first + 7;
  }

  function Digit(n: nat): char
    requires n <= 9
  {
    "0123456789"[n]
  }

  /** How such a range is read from its text. */
  lemma DigitRangeReads(a: nat, b: nat, step: nat)
    requires a <= 7 && b <= 7 && step >= 1
    ensures ReadBase([Digit(a), '-', Digit(b)], step) == Accepted(Range(a % 7, b % 7, step))
  {
    DigitIs(a);
    DigitIs(b);
    DashParts(Digit(a), Digit(b));
    DigitReads(Digit(a));
    DigitReads(Digit(b));
  }

  lemma DigitIs(n: nat)
    requires n <= 9
    ensures IsDigit(Digit(n)) && Digit(n) as int - '0' as int == n
  {
  }

  lemma DashParts(x: char, y: char)
    requires x != '-'
    ensures '-' in [x, '-', y] && Partition([x, '-', y], '-') == ([x], Some([y]))
  {
    var base := [x, '-', y];
    assert base[1] == '-' && base[1..][0] == '-';
    assert Find(base, '-') == 1;
    assert base[..1] == [x] && base[2..] == [y];
  }

  lemma DigitReads(c: char)
    requires IsDigit(c)
    ensures WeekdayValue([c]) == if c as int - '0' as int > 7 then Refused(NotAWeekday)
                                 else Accepted(if c == '7' then 0 else c as int - '0' as int)
  {
    var s := [c];
    assert Strip(s) == s && Lower(s) == s;
    assert ToNat(s) == 10 * ToNat(s[..0]) + (c as int - '0' as int);
  }
}
