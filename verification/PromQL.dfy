/** The PromQL duration printer and the threshold evaluation (internal/rollout/promql.go). */
module PromQL {
  import opened Options
  import opened Durations

  // ---------------------------------------------------------------------------
  // The duration printer and the grammar it prints into
  // ---------------------------------------------------------------------------

  datatype Unit = Year | Week | Day | Hours | Minutes | Seconds | Millis

  /** One number-and-unit component of a PromQL duration. */
  datatype Term = Term(count: nat, unit: Unit)

  function Nanos(u: Unit): int {
    match u
    case Year => 365 * 24 * HOUR
    case Week => 7 * 24 * HOUR
    case Day => 24 * HOUR
    case Hours => HOUR
    case Minutes => MINUTE
    case Seconds => SECOND
    case Millis => MILLISECOND
  }

  /** Units must appear from the largest to the smallest, each at most once. */
  function Rank(u: Unit): nat {
    match u
    case Year => 1
    case Week => 2
    case Day => 3
    case Hours => 4
    case Minutes => 5
    case Seconds => 6
    case Millis => 7
  }

  function Suffix(u: Unit): string {
    match u
    case Year => "y"
    case Week => "w"
    case Day => "d"
    case Hours => "h"
    case Minutes => "m"
    case Seconds => "s"
    case Millis => "ms"
  }

  function Total(ts: seq<Term>): int {
    if ts == [] then 0 else ts[0].count * Nanos(ts[0].unit) + Total(ts[1..])
  }

  predicate IsDigit(c: char) {
    '0' <= c <= '9'
  }

  function Digit(n: nat): (c: char)
    requires n < 10
    ensures IsDigit(c)
  {
    '0' + n as char
  }

  /** Go's %d verb on a non-negative number. */
  function Decimal(n: nat): (s: string)
    ensures |s| > 0
    ensures forall i :: 0 <= i < |s| ==> IsDigit(s[i])
  {
    if n < 10 then [Digit(n)] else Decimal(n / 10) + [Digit(n % 10)]
  }

  function DecimalValue(s: string): nat
    requires forall i :: 0 <= i < |s| ==> IsDigit(s[i])
  {
    if s == "" then 0
    else
      assert IsDigit(s[|s| - 1]);
      DecimalValue(s[..|s| - 1]) * 10 + (s[|s| - 1] as int - '0' as int)
  }

  /** The length of the longest prefix of digits. */
  function DigitRun(s: string): (n: nat)
    ensures n <= |s|
    ensures forall i :: 0 <= i < n ==> IsDigit(s[i])
    ensures n < |s| ==> !IsDigit(s[n])
  {
    if s == "" || !IsDigit(s[0]) then 0 else 1 + DigitRun(s[1..])
  }

  /** The unit a string starts with; "ms" is read before "m". */
  function UnitAt(s: string): (u: Option<Unit>)
    ensures u.Some? ==> Suffix(u.value) <= s
  {
    if s == "" then None
    else if s[0] == 'y' then Some(Year)
    else if s[0] == 'w' then Some(Week)
    else if s[0] == 'd' then Some(Day)
    else if s[0] == 'h' then Some(Hours)
    else if s[0] == 'm' && |s| > 1 && s[1] == 's' then Some(Millis)
    else if s[0] == 'm' then Some(Minutes)
    else if s[0] == 's' then Some(Seconds)
    else None
  }

  /** Prometheus' duration grammar: components in strictly decreasing units. */
  function ParseTerms(s: string, rank: nat): Option<seq<Term>>
    decreases |s|
  {
    if s == "" then Some([])
    else
      var n := DigitRun(s);
      if n == 0 then None
      else
        var unit := UnitAt(s[n..]);
        if unit.None? || Rank(unit.value) <= rank then None
        else
          var rest := ParseTerms(s[n + |Suffix(unit.value)|..], Rank(unit.value));
          if rest.None? then None
          else Some([Term(DecimalValue(s[..n]), unit.value)] + rest.value)
  }

  function Parse(s: string): Option<seq<Term>> {
    if s == "" then None else ParseTerms(s, 0)
  }

  function TermIf(count: nat, u: Unit): seq<Term> {
    if count > 0 then [Term(count, u)] else []
  }

  /** What promDuration prints for a positive duration, as components. */
  function Terms(d: int): seq<Term>
    requires d > 0 && d % MILLISECOND == 0
  {
    if d % SECOND != 0 then [Term(d / MILLISECOND, Millis)]
    else TermIf(d / HOUR, Hours) + TermIf(d % HOUR / MINUTE, Minutes) + TermIf(d % MINUTE / SECOND, Seconds)
  }

  function Print(ts: seq<Term>): string {
    if ts == [] then "" else Decimal(ts[0].count) + Suffix(ts[0].unit) + Print(ts[1..])
  }

  /** The durations PromQL can express; promDuration reports an error on the others. */
  predicate Representable(d: int) {
    d <= 0 || d % MILLISECOND == 0
  }

  /** promDuration: None stands for the sub-millisecond error. */
  function Rendered(d: int): Option<string> {
    if d <= 0 then Some("0s")
    else if d % MILLISECOND != 0 then None
    else Some(Print(Terms(d)))
  }

  lemma PrintAppend(a: seq<Term>, b: seq<Term>)
    ensures Print(a + b) == Print(a) + Print(b)
  {
    if a == [] {
      assert a + b == b;
    } else {
      assert (a + b)[1..] == a[1..] + b;
      PrintAppend(a[1..], b);
    }
  }

  lemma PrintTermIf(count: nat, u: Unit)
    ensures Print(TermIf(count, u)) == if count > 0 then Decimal(count) + Suffix(u) else ""
  {
    if count > 0 {
      assert TermIf(count, u)[1..] == [];
      assert Print([Term(count, u)]) == Decimal(count) + Suffix(u) + Print([]);
    }
  }

  lemma WholeMinutes(d: int, q: int, r: int)
    requires d == q * MINUTE + r && 0 <= r < MINUTE
    ensures d / MINUTE == q && d % MINUTE == r
  {
  }

  lemma WholeSeconds(d: int, q: int)
    requires d == q * SECOND
    ensures d / SECOND == q && d % SECOND == 0
  {
  }

  /** The components of a whole number of seconds. */
  lemma SplitDuration(d: int) returns (h: int, m: int, s: int)
    requires d > 0 && d % SECOND == 0
    ensures h == d / HOUR && m == d % HOUR / MINUTE && s == d % MINUTE / SECOND
    ensures d == h * HOUR + m * MINUTE + s * SECOND && d % HOUR == m * MINUTE + s * SECOND
    ensures 0 <= h && 0 <= m < 60 && 0 <= s < 60
  {
    var n, r := d / SECOND, d % HOUR;
    h := d / HOUR;
    m := r / MINUTE;
    var x := r % MINUTE;
    WholeMinutes(d, 60 * h + m, x);
    s := n - 60 * (60 * h + m);
    WholeSeconds(x, s);
  }

  lemma WholeMillis(d: int)
    requires d % SECOND == 0
    ensures d % MILLISECOND == 0
  {
    assert d == d / SECOND * 1000 * MILLISECOND;
  }

  lemma WholeHours(d: int, h: int, r: int)
    requires h == d / HOUR && r == d % HOUR
    ensures d - h * HOUR == r
  {
  }

  /** Repeated subtraction leaves the quotients of the component formula. */
  lemma SubtractedParts(d: int)
    requires d > 0 && d % SECOND == 0
    ensures d % MILLISECOND == 0
    ensures var d1 := d - d / HOUR * HOUR;
            var d2 := d1 - d1 / MINUTE * MINUTE;
            0 <= d / HOUR && d1 / MINUTE == d % HOUR / MINUTE && d2 / SECOND == d % MINUTE / SECOND
  {
    WholeMillis(d);
    var h, m, s := SplitDuration(d);
    WholeHours(d, h, m * MINUTE + s * SECOND);
    WholeMinutes(m * MINUTE + s * SECOND, m, s * SECOND);
    WholeSeconds(s * SECOND, s);
  }

  /** The text the builder receives for one component. */
  function Piece(count: nat, u: Unit): string {
    if count > 0 then Decimal(count) + Suffix(u) else ""
  }

  lemma PrintWhole(h: nat, m: nat, s: nat)
    ensures Print(TermIf(h, Hours) + TermIf(m, Minutes) + TermIf(s, Seconds)) ==
            Piece(h, Hours) + Piece(m, Minutes) + Piece(s, Seconds)
  {
    PrintAppend(TermIf(h, Hours) + TermIf(m, Minutes), TermIf(s, Seconds));
    PrintAppend(TermIf(h, Hours), TermIf(m, Minutes));
    PrintTermIf(h, Hours);
    PrintTermIf(m, Minutes);
    PrintTermIf(s, Seconds);
  }

  /** promDuration itself: repeated subtraction into a string builder. */
  method PromDuration(duration: int) returns (r: Option<string>)
    ensures r == Rendered(duration)
    ensures r.Some? <==> Representable(duration)
  {
    var d := duration;
    if d <= 0 {
      return Some("0s");
    }
    if d % SECOND != 0 {
      if d % MILLISECOND == 0 {
        PrintTermIf(d / MILLISECOND, Millis);
        return Some(Decimal(d / MILLISECOND) + "ms");
      }
      return None;
    }
    SubtractedParts(d);
    var hours := d / HOUR;
    d := d - hours * HOUR;
    var mins := d / MINUTE;
    d := d - mins * MINUTE;
    var secs := d / SECOND;
    var b := BuildWhole(hours, mins, secs);
    r := Some(b);
  }

  /** The string builder of promDuration. */
  method BuildWhole(hours: nat, mins: nat, secs: nat) returns (b: string)
    ensures b == Print(TermIf(hours, Hours) + TermIf(mins, Minutes) + TermIf(secs, Seconds))
  {
    PrintWhole(hours, mins, secs);
    b := "";
    if hours > 0 {
      b := b + (Decimal(hours) + "h");
    }
    assert b == Piece(hours, Hours);
    if mins > 0 {
      b := b + (Decimal(mins) + "m");
    }
    assert b == Piece(hours, Hours) + Piece(mins, Minutes);
    if secs > 0 {
      b := b + (Decimal(secs) + "s");
    }
    assert b == Piece(hours, Hours) + Piece(mins, Minutes) + Piece(secs, Seconds);
  }

  lemma {:induction false} DecimalRoundTrip(n: nat)
    ensures DecimalValue(Decimal(n)) == n
  {
    if n < 10 {
      assert Decimal(n)[..0] == "";
    } else {
      DecimalRoundTrip(n / 10);
      assert Decimal(n)[..|Decimal(n)| - 1] == Decimal(n / 10);
    }
  }

  lemma {:induction false} DigitRunStops(digits: string, rest: string)
    requires forall i :: 0 <= i < |digits| ==> IsDigit(digits[i])
    requires rest != "" && !IsDigit(rest[0])
    ensures DigitRun(digits + rest) == |digits|
  {
    if digits == "" {
      assert digits + rest == rest;
    } else {
      assert (digits + rest)[1..] == digits[1..] + rest;
      DigitRunStops(digits[1..], rest);
    }
  }

  /** Positive counts, in strictly decreasing units, all after a given rank. */
  ghost predicate Canonical(ts: seq<Term>, rank: nat) {
    ts == [] || (ts[0].count > 0 && Rank(ts[0].unit) > rank && Canonical(ts[1..], Rank(ts[0].unit)))
  }

  lemma PrintStartsWithDigit(ts: seq<Term>)
    requires ts != []
    ensures Print(ts) != "" && IsDigit(Print(ts)[0])
  {
    assert Print(ts)[0] == Decimal(ts[0].count)[0];
  }

  /** A unit suffix is recognised in front of anything that cannot turn "m" into "ms". */
  lemma UnitAtSuffix(u: Unit, rest: string)
    requires rest == "" || IsDigit(rest[0])
    ensures UnitAt(Suffix(u) + rest) == Some(u)
  {
    var s := Suffix(u) + rest;
    assert s[0] == Suffix(u)[0];
    if u.Millis? {
      assert s[1] == 's';
    } else if |s| > 1 {
      assert s[1] == rest[0];
    }
  }

  /** Reading one printed component off the front of a text. */
  lemma ParseOne(t: Term, rest: string, rank: nat)
    requires Rank(t.unit) > rank
    requires rest == "" || IsDigit(rest[0])
    ensures ParseTerms(Decimal(t.count) + Suffix(t.unit) + rest, rank) ==
            var tail := ParseTerms(rest, Rank(t.unit));
            if tail.None? then None else Some([t] + tail.value)
  {
    var digits := Decimal(t.count);
    var s := digits + Suffix(t.unit) + rest;
    assert s == digits + (Suffix(t.unit) + rest);
    DigitRunStops(digits, Suffix(t.unit) + rest);
    assert s[|digits|..] == Suffix(t.unit) + rest;
    UnitAtSuffix(t.unit, rest);
    assert s[|digits| + |Suffix(t.unit)|..] == rest;
    assert s[..|digits|] == digits;
    DecimalRoundTrip(t.count);
  }

  /** One printed component in front of a text that is read back as the rest. */
  lemma ParseInFront(t: Term, tail: string, rest: seq<Term>, rank: nat)
    requires Rank(t.unit) > rank && (tail == "" || IsDigit(tail[0])) && ParseTerms(tail, Rank(t.unit)) == Some(rest)
    ensures ParseTerms(Decimal(t.count) + Suffix(t.unit) + tail, rank) == Some([t] + rest)
  {
    ParseOne(t, tail, rank);
  }

  lemma PrintCons(first: Term, rest: seq<Term>)
    ensures Print([first] + rest) == Decimal(first.count) + Suffix(first.unit) + Print(rest)
  {
    assert ([first] + rest)[1..] == rest;
  }

  lemma {:induction false} ParsePrint(ts: seq<Term>, rank: nat)
    requires Canonical(ts, rank)
    ensures ParseTerms(Print(ts), rank) == Some(ts)
    decreases |ts|
  {
    if ts == [] {
      assert Print(ts) == "";
    } else {
      var first, rest := ts[0], ts[1..];
      assert ts == [first] + rest;
      ParsePrint(rest, Rank(first.unit));
      PrintedNext(rest);
      PrintCons(first, rest);
      ParseInFront(first, Print(rest), rest, rank);
    }
  }

  lemma PrintedNext(ts: seq<Term>)
    ensures Print(ts) == "" || IsDigit(Print(ts)[0])
  {
    if ts != [] {
      PrintStartsWithDigit(ts);
    }
  }

  /** Putting an optional component in front of a canonical list. */
  lemma TermIfInFront(count: nat, u: Unit, ts: seq<Term>, rank: nat)
    requires rank < Rank(u) && Canonical(ts, Rank(u))
    ensures Canonical(TermIf(count, u) + ts, rank)
    ensures Total(TermIf(count, u) + ts) == count * Nanos(u) + Total(ts)
  {
    var all := TermIf(count, u) + ts;
    if count > 0 {
      assert all[0] == Term(count, u) && all[1..] == ts;
    } else {
      assert all == ts;
    }
  }

  /** The components add up to the duration and are in canonical form. */
  lemma TermsCanonical(d: int)
    requires d > 0 && d % MILLISECOND == 0
    ensures Canonical(Terms(d), 0) && Terms(d) != [] && Total(Terms(d)) == d
    ensures forall i :: 0 <= i < |Terms(d)| && Terms(d)[i].unit in {Minutes, Seconds} ==> Terms(d)[i].count < 60
  {
    if d % SECOND != 0 {
      TermIfInFront(d / MILLISECOND, Millis, [], 0);
      assert TermIf(d / MILLISECOND, Millis) + [] == Terms(d);
    } else {
      var h, m, s := SplitDuration(d);
      TermIfInFront(s, Seconds, [], 5);
      var t := TermIf(s, Seconds);
      assert t + [] == t;
      TermIfInFront(m, Minutes, t, 4);
      TermIfInFront(h, Hours, TermIf(m, Minutes) + t, 0);
      assert Terms(d) == TermIf(h, Hours) + (TermIf(m, Minutes) + t);
    }
  }

  /**
   A duration is printed unless it is positive and not of whole milliseconds. Parsing
   the text returns it, or zero for a negative one; the text of a positive one has no zero
   component, and minutes and seconds stay below sixty.
   */
  lemma DurationRoundTrip(d: int)
    ensures Rendered(d).Some? <==> d <= 0 || d % MILLISECOND == 0
    ensures Rendered(d).Some? ==> Parse(Rendered(d).value).Some? && Total(Parse(Rendered(d).value).value) == if d > 0 then d else 0
    ensures Rendered(d).Some? && d > 0 ==>
              var ts := Parse(Rendered(d).value).value;
              && (forall i :: 0 <= i < |ts| ==> ts[i].count > 0)
              && (forall i :: 0 <= i < |ts| && ts[i].unit in {Minutes, Seconds} ==> ts[i].count < 60)
  {
    if d <= 0 {
      ZeroRoundTrip();
    } else if d % MILLISECOND == 0 {
      TermsCanonical(d);
      ParsePrint(Terms(d), 0);
      PrintStartsWithDigit(Terms(d));
      CanonicalCounts(Terms(d), 0);
    }
  }

  lemma ZeroRoundTrip()
    ensures Parse("0s") == Some([Term(0, Seconds)]) && Total([Term(0, Seconds)]) == 0
  {
    assert Decimal(0) == "0" && "0s" == Decimal(0) + Suffix(Seconds) + "";
    ParseInFront(Term(0, Seconds), "", [], 0);
    assert [Term(0, Seconds)] + [] == [Term(0, Seconds)];
    assert Total([Term(0, Seconds)][1..]) == 0;
  }

  lemma {:induction false} CanonicalCounts(ts: seq<Term>, rank: nat)
    requires Canonical(ts, rank)
    ensures forall i :: 0 <= i < |ts| ==> ts[i].count > 0
    decreases |ts|
  {
    if ts == [] {
    } else {
      CanonicalCounts(ts[1..], Rank(ts[0].unit));
      assert forall i :: 1 <= i < |ts| ==> ts[i] == ts[1..][i - 1];
    }
  }

  lemma DurationInjective(d: int, e: int)
    requires d > 0 && d % MILLISECOND == 0 && e > 0 && e % MILLISECOND == 0
    requires Rendered(d) == Rendered(e)
    ensures d == e
  {
    DurationRoundTrip(d);
    DurationRoundTrip(e);
  }

  // ---------------------------------------------------------------------------
  // Threshold evaluation
  // ---------------------------------------------------------------------------

  /** A float64 as far as comparisons are concerned. */
  datatype Reading = NaN | MinusInf | Finite(r: real) | PlusInf

  /** IEEE less-than: false whenever either side is NaN. */
  predicate Less(a: Reading, b: Reading) {
    match (a, b)
    case (NaN, _) => false
    case (_, NaN) => false
    case (Finite(x), Finite(y)) => x < y
    case (MinusInf, y) => !y.MinusInf?
    case (PlusInf, _) => false
    case (Finite(_), y) => y.PlusInf?
  }

  /** spec.rollout.rollback.maxErrorRate after ParseErrorRate. */
  datatype Rate = Unset | Malformed | Fraction(f: real)

  datatype Policy = Policy(maxErrorRate: Rate, maxP99LatencyMs: int, minRequestSample: int)

  /** The answers of the three queries; None is an unreachable or malformed answer. */
  datatype Answers = Answers(count: Option<Reading>, errorRate: Option<Reading>, p99: Option<Reading>)

  datatype Verdict = Unreachable | SampleTooSmall | Breached | Healthy

  function MinSample(p: Policy): Reading {
    if p.minRequestSample <= 0 then Finite(100.0) else Finite(p.minRequestSample as real)
  }

  function MaxP99(p: Policy): Reading {
    if p.maxP99LatencyMs <= 0 then Finite(500.0) else Finite(p.maxP99LatencyMs as real)
  }

  function MaxRate(p: Policy): Reading
    requires !p.maxErrorRate.Malformed?
  {
    if p.maxErrorRate.Unset? then Finite(0.01) else Finite(p.maxErrorRate.f)
  }

  ghost predicate Below(r: Reading, limit: real) {
    r.MinusInf? || (r.Finite? && r.r < limit)
  }

  ghost predicate Above(r: Reading, limit: real) {
    r.PlusInf? || (r.Finite? && r.r > limit)
  }

  /** Fewer requests than asked for, or than 100. */
  ghost predicate TooFew(p: Policy, a: Answers) {
    a.count.Some? && Below(a.count.value, if p.minRequestSample > 0 then p.minRequestSample as real else 100.0)
  }

  /** A higher error rate than allowed, or than one percent; a malformed limit allows none at all. */
  ghost predicate TooManyErrors(p: Policy, a: Answers) {
    && a.errorRate.Some?
    && match p.maxErrorRate
       case Malformed => true
       case Unset => Above(a.errorRate.value, 0.01)
       case Fraction(limit) => Above(a.errorRate.value, limit)
  }

  /** A higher latency than allowed, or than half a second. */
  ghost predicate TooSlow(p: Policy, a: Answers) {
    a.p99.Some? && Above(a.p99.value, if p.maxP99LatencyMs > 0 then p.maxP99LatencyMs as real else 500.0)
  }

  /** All three queries answered, enough requests seen, neither threshold exceeded. */
  ghost predicate WithinThresholds(p: Policy, a: Answers) {
    && a.count.Some? && a.errorRate.Some? && a.p99.Some?
    && !TooFew(p, a) && !TooManyErrors(p, a) && !TooSlow(p, a)
  }

  /** Enough requests seen, and a threshold exceeded by an answer the evaluation gets to. */
  ghost predicate Exceeds(p: Policy, a: Answers) {
    && a.count.Some? && a.errorRate.Some?
    && !TooFew(p, a) && (TooManyErrors(p, a) || TooSlow(p, a))
  }

  /** A query that the verdict depends on is not answered. */
  ghost predicate Unanswered(p: Policy, a: Answers) {
    a.count.None? || (!TooFew(p, a) && (a.errorRate.None? || (!TooManyErrors(p, a) && a.p99.None?)))
  }

  /**
   Evaluate: the sample gate first, then error rate, then latency. A NaN reading,
   which Prometheus returns for an empty histogram, exceeds no threshold; a window
   finer than a millisecond never yields a verdict at all.
   */
  function Evaluate(p: Policy, window: int, a: Answers): Verdict {
    if !Representable(window) || a.count.None? then Unreachable
    else if Less(a.count.value, MinSample(p)) then SampleTooSmall
    else if a.errorRate.None? then Unreachable
    else if p.maxErrorRate.Malformed? || Less(MaxRate(p), a.errorRate.value) then Breached
    else if a.p99.None? then Unreachable
    else if Less(MaxP99(p), a.p99.value) then Breached
    else Healthy
  }

  /** Exactly when each verdict is given, from policy, window and answers. */
  lemma VerdictIff(p: Policy, window: int, a: Answers)
    ensures var v := Evaluate(p, window, a);
            && (v == Healthy <==> Representable(window) && WithinThresholds(p, a))
            && (v == SampleTooSmall <==> Representable(window) && TooFew(p, a))
            && (v == Breached <==> Representable(window) && Exceeds(p, a))
            && (v == Unreachable <==> !Representable(window) || Unanswered(p, a))
  {
  }
}
