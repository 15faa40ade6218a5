/**
 * How a node chooses its refresh schedule (src/ical-events.ts:39-65): an
 * interval "every N seconds/minutes/hours/days" is turned into a six-field
 * cron string (second minute hour day-of-month month day-of-week), and an
 * explicit cron expression, when one is configured, replaces it.
 *
 * The configured timeout is the text the node editor stores; the source tests
 * it with JavaScript's `parseInt` and pastes the text itself into the cron
 * string, so both are modelled on the text.
 */
module Trigger {
  import opened Wrappers

  // ---------------------------------------------------------------------
  // JavaScript parseInt(s) with no radix
  // ---------------------------------------------------------------------

  /** The white-space characters parseInt skips before the number. */
  predicate IsSpace(c: char)
  {
    c == ' ' || c == '\t' || c == '\n' || c == '\r' || c == '\U{000B}' || c == '\U{000C}'
    || c == '\U{00A0}' || c == '\U{FEFF}'
  }

  function TrimStart(s: string): (r: string)
    ensures |r| <= |s| && r == s[|s| - |r|..]
    ensures r == [] || !IsSpace(r[0])
    ensures forall i :: 0 <= i < |s| - |r| ==> IsSpace(s[i])
  {
    if s != [] && IsSpace(s[0]) then TrimStart(s[1..]) else s
  }

  predicate IsDigit(c: char, hex: bool)
  {
    ('0' <= c <= '9') || (hex && (('a' <= c <= 'f') || ('A' <= c <= 'F')))
  }

  function DigitValue(c: char): (d: nat)
    ensures d < 16
  {
    if '0' <= c <= '9' then (c - '0') as nat
    else if 'a' <= c <= 'f' then (c - 'a') as nat + 10
    else if 'A' <= c <= 'F' then (c - 'A') as nat + 10
    else 0
  }

  /** Length of the longest prefix of `s` made of digits. */
  function DigitRun(s: string, hex: bool): (n: nat)
    ensures n <= |s|
    ensures forall i :: 0 <= i < n ==> IsDigit(s[i], hex)
    ensures n < |s| ==> !IsDigit(s[n], hex)
  {
    if s != [] && IsDigit(s[0], hex) then 1 + DigitRun(s[1..], hex) else 0
  }

  /** The number a digit string denotes in the given radix. */
  function Numeral(ds: string, radix: nat): nat
  {
    if ds == [] then 0 else Numeral(ds[..|ds| - 1], radix) * radix + DigitValue(ds[|ds| - 1])
  }

  /** The magnitude after the sign: decimal, or hexadecimal after `0x`/`0X`. */
  function ParseMagnitude(s: string): Option<nat>
  {
    if |s| >= 2 && s[0] == '0' && (s[1] == 'x' || s[1] == 'X') then
      var n := DigitRun(s[2..], true);
      if n == 0 then None else Some(Numeral(s[2..][..n], 16))
    else
      var n := DigitRun(s, false);
      if n == 0 then None else Some(Numeral(s[..n], 10))
  }

  /**
   * `parseInt(s)`; `None` stands for NaN.  A number is read only when a
   * decimal digit follows the leading white space and an optional sign, and
   * it is negative only after a `-`.
   */
  function ParseInt(s: string): (r: Option<int>)
    ensures r.Some? ==> TrimStart(s) != []
    ensures r.Some? ==> var t := TrimStart(s);
      var u := if t[0] == '-' || t[0] == '+' then t[1..] else t;
      u != [] && '0' <= u[0] <= '9'
    ensures r.Some? && r.value < 0 ==> TrimStart(s)[0] == '-'
  {
    var t := TrimStart(s);
    if t != [] && t[0] == '-' then
      match ParseMagnitude(t[1..])
      case None => None
      case Some(m) => Some(-(m as int))
    else if t != [] && t[0] == '+' then
      match ParseMagnitude(t[1..])
      case None => None
      case Some(m) => Some(m as int)
    else
      match ParseMagnitude(t)
      case None => None
      case Some(m) => Some(m as int)
  }

  /** A run of decimal digits reads back as its own value. */
  lemma {:induction false} ParseDecimal(ds: string)
    requires ds != [] && ds[0] != '0'
    requires forall i :: 0 <= i < |ds| ==> '0' <= ds[i] <= '9'
    ensures ParseInt(ds) == Some(Numeral(ds, 10) as int)
    ensures Numeral(ds, 10) > 0
  {
    assert !IsSpace(ds[0]) && ds[0] != '-' && ds[0] != '+';
    assert TrimStart(ds) == ds;
    DecimalMagnitude(ds);
    LeadingDigitPositive(ds);
  }

  lemma DecimalMagnitude(ds: string)
    requires ds != [] && ds[0] != '0'
    requires forall i :: 0 <= i < |ds| ==> '0' <= ds[i] <= '9'
    ensures ParseMagnitude(ds) == Some(Numeral(ds, 10))
  {
    DecimalRunIsWhole(ds);
    assert ds[..|ds|] == ds;
  }

  lemma {:induction false} DecimalRunIsWhole(ds: string)
    requires forall i :: 0 <= i < |ds| ==> '0' <= ds[i] <= '9'
    ensures DigitRun(ds, false) == |ds|
  {
    if ds != [] {
      DecimalRunIsWhole(ds[1..]);
    }
  }

  lemma {:induction false} LeadingDigitPositive(ds: string)
    requires ds != [] && '1' <= ds[0] <= '9'
    requires forall i :: 0 <= i < |ds| ==> '0' <= ds[i] <= '9'
    ensures Numeral(ds, 10) > 0
  {
    if |ds| > 1 {
      LeadingDigitPositive(ds[..|ds| - 1]);
    }
  }

  // ---------------------------------------------------------------------
  // Interval -> cron string
  // ---------------------------------------------------------------------

  /** The guard of src/ical-events.ts:41: a non-empty timeout that parses to a positive number, and a unit. */
  predicate IntervalConfigured(timeout: string, units: string)
  {
    timeout != [] && units != [] && ParseInt(timeout).Some? && ParseInt(timeout).value > 0
  }

  /** Which of the six cron fields carries the step, per unit; other units have none. */
  function StepField(units: string): Option<nat>
  {
    if units == "seconds" then Some(0)
    else if units == "minutes" then Some(1)
    else if units == "hours" then Some(2)
    else if units == "days" then Some(3)
    else None
  }

  /** The cron string the interval configuration yields ('' when none). */
  function IntervalCron(timeout: string, units: string): (cron: string)
    ensures cron != [] <==> IntervalConfigured(timeout, units) && StepField(units).Some?
  {
    if !IntervalConfigured(timeout, units) then ""
    else if units == "seconds" then "*/" + timeout + " * * * * *"
    else if units == "minutes" then "0 */" + timeout + " * * * *"
    else if units == "hours" then "0 0 */" + timeout + " * * *"
    else if units == "days" then "0 0 0 */" + timeout + " * *"
    else ""
  }

  // The six fields a step in field p gives: the step (star, slash, N) in
  // field p, "0" in every finer field (so the trigger fires on the boundary
  // of the unit), "*" in every coarser one.
  function StepFields(timeout: string, p: nat): (fs: seq<string>)
    requires p < 6
    ensures |fs| == 6
  {
    seq(6, i => if i < p then "0" else if i == p then "*/" + timeout else "*")
  }

  /** Fields joined by single spaces, as a cron string is written. */
  function Join(fs: seq<string>): string
  {
    if fs == [] then "" else if |fs| == 1 then fs[0] else fs[0] + " " + Join(fs[1..])
  }

  /** Index of the first space, or |s| when there is none. */
  function SpaceAt(s: string): (i: nat)
    ensures i <= |s|
    ensures forall j :: 0 <= j < i ==> s[j] != ' '
    ensures i < |s| ==> s[i] == ' '
  {
    if s == [] || s[0] == ' ' then 0 else 1 + SpaceAt(s[1..])
  }

  /** A cron string cut at single spaces into its fields. */
  function Split(s: string): seq<string>
    decreases |s|
  {
    var i := SpaceAt(s);
    if i == |s| then [s] else [s[..i]] + Split(s[i + 1..])
  }

  /** Splitting undoes joining, for fields without spaces. */
  lemma {:induction false} SplitJoin(fs: seq<string>)
    requires fs != []
    requires forall k :: 0 <= k < |fs| ==> ' ' !in fs[k]
    ensures Split(Join(fs)) == fs
  {
    if |fs| == 1 {
      assert SpaceAt(fs[0]) == |fs[0]|;
    } else {
      var s := Join(fs);
      var rest := Join(fs[1..]);
      assert s == fs[0] + " " + rest;
      assert SpaceAt(s) == |fs[0]| by {
        SpaceAfterWord(fs[0], rest);
      }
      assert s[..|fs[0]|] == fs[0];
      assert s[|fs[0]| + 1..] == rest;
      SplitJoin(fs[1..]);
      assert fs == [fs[0]] + fs[1..];
    }
  }

  lemma {:induction false} SpaceAfterWord(w: string, rest: string)
    requires ' ' !in w
    ensures SpaceAt(w + " " + rest) == |w|
  {
    if w != [] {
      assert (w + " " + rest)[1..] == w[1..] + " " + rest;
      SpaceAfterWord(w[1..], rest);
    }
  }

  lemma JoinSix(a: string, b: string, c: string, d: string, e: string, f: string)
    ensures Join([a, b, c, d, e, f]) == a + " " + b + " " + c + " " + d + " " + e + " " + f
  {
    assert [e, f][1..] == [f];
    assert Join([e, f]) == e + " " + f;
    assert [d, e, f][1..] == [e, f];
    assert Join([d, e, f]) == d + " " + Join([e, f]);
    assert [c, d, e, f][1..] == [d, e, f];
    assert Join([c, d, e, f]) == c + " " + Join([d, e, f]);
    assert [b, c, d, e, f][1..] == [c, d, e, f];
    assert Join([b, c, d, e, f]) == b + " " + Join([c, d, e, f]);
    assert [a, b, c, d, e, f][1..] == [b, c, d, e, f];
    assert Join([a, b, c, d, e, f]) == a + " " + Join([b, c, d, e, f]);
  }

  /**
   * Every configured interval yields a six-field cron string whose step sits
   * in the unit's field, with `0` below it and `*` above it.
   */
  lemma IntervalCronFields(timeout: string, units: string)
    requires IntervalCron(timeout, units) != []
    requires ' ' !in timeout
    ensures Split(IntervalCron(timeout, units)) == StepFields(timeout, StepField(units).value)
  {
    var fs := StepFields(timeout, StepField(units).value);
    IntervalCronIsJoin(timeout, units);
    StepFieldsHaveNoSpace(timeout, StepField(units).value);
    SplitJoin(fs);
  }

  lemma StepFieldsHaveNoSpace(timeout: string, p: nat)
    requires p < 6
    requires ' ' !in timeout
    ensures forall k :: 0 <= k < 6 ==> ' ' !in StepFields(timeout, p)[k]
  {
    var fs := StepFields(timeout, p);
    forall k | 0 <= k < 6 ensures ' ' !in fs[k] {
      if k == p {
        StepHasNoSpace(timeout);
      }
    }
  }

  lemma StepHasNoSpace(timeout: string)
    requires ' ' !in timeout
    ensures ' ' !in "*/" + timeout
  {
    var st := "*/" + timeout;
    forall j | 0 <= j < |st| ensures st[j] != ' ' {
      if j >= 2 { assert st[j] == timeout[j - 2]; }
    }
  }

  /** The source's string templates are the step fields joined by spaces. */
  lemma IntervalCronIsJoin(timeout: string, units: string)
    requires IntervalCron(timeout, units) != []
    ensures IntervalCron(timeout, units) == Join(StepFields(timeout, StepField(units).value))
  {
    if units == "seconds" {
      SecondsTemplate(timeout);
    } else if units == "minutes" {
      MinutesTemplate(timeout);
    } else if units == "hours" {
      HoursTemplate(timeout);
    } else {
      DaysTemplate(timeout);
    }
  }

  lemma SecondsTemplate(timeout: string)
    ensures "*/" + timeout + " * * * * *" == Join(StepFields(timeout, 0))
  {
    var st := "*/" + timeout;
    assert StepFields(timeout, 0) == [st, "*", "*", "*", "*", "*"];
    JoinSix(st, "*", "*", "*", "*", "*");
  }

  lemma MinutesTemplate(timeout: string)
    ensures "0 */" + timeout + " * * * *" == Join(StepFields(timeout, 1))
  {
    var st := "*/" + timeout;
    assert StepFields(timeout, 1) == ["0", st, "*", "*", "*", "*"];
    JoinSix("0", st, "*", "*", "*", "*");
  }

  lemma HoursTemplate(timeout: string)
    ensures "0 0 */" + timeout + " * * *" == Join(StepFields(timeout, 2))
  {
    var st := "*/" + timeout;
    assert StepFields(timeout, 2) == ["0", "0", st, "*", "*", "*"];
    JoinSix("0", "0", st, "*", "*", "*");
  }

  lemma DaysTemplate(timeout: string)
    ensures "0 0 0 */" + timeout + " * *" == Join(StepFields(timeout, 3))
  {
    var st := "*/" + timeout;
    assert StepFields(timeout, 3) == ["0", "0", "0", st, "*", "*"];
    JoinSix("0", "0", "0", st, "*", "*");
  }

  // ---------------------------------------------------------------------
  // Choosing the refresh schedule
  // ---------------------------------------------------------------------

  /** The calendar window the fetch uses when the interval is configured (src/ical-events.ts:58-59). */
  datatype Preview = Preview(window: string, units: string)

  /**
   * The resolved refresh schedule: the cron string ('' means no refresh job
   * is created, src/ical-events.ts:67) and the preview window override.
   */
  datatype Refresh = Refresh(cron: string, preview: Option<Preview>)

  /**
   * The schedule a node configuration yields.  `cronParses` is the verdict of
   * the foreign cron-expression parser on `cronExpr`; when it rejects a
   * non-empty expression the parser throws and the node reports the error.
   */
  function ResolveRefresh(timeout: string, timeoutUnits: string, cronExpr: string, cronParses: bool): (r: Result<Refresh>)
    ensures r.Err? <==> cronExpr != [] && !cronParses
    ensures r.Ok? && cronExpr != [] ==> r.value.cron == cronExpr
    ensures r.Ok? && cronExpr == [] ==> r.value.cron == IntervalCron(timeout, timeoutUnits)
    ensures r.Ok? ==> (r.value.preview == Some(Preview(timeout, timeoutUnits)) <==> IntervalConfigured(timeout, timeoutUnits))
    ensures r.Ok? && r.value.preview.Some? ==> r.value.preview == Some(Preview(timeout, timeoutUnits))
  {
    var cron := IntervalCron(timeout, timeoutUnits);
    var preview := if IntervalConfigured(timeout, timeoutUnits) then Some(Preview(timeout, timeoutUnits)) else None;
    if cronExpr != [] then
      if cronParses then Ok(Refresh(cronExpr, preview)) else Err(cronExpr)
    else
      Ok(Refresh(cron, preview))
  }
}
