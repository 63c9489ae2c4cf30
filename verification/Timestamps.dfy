/** Fixed-width timestamps: writing and reading them, and string order as time order. */
module Timestamps {
  import opened Databags

  // ----- decimal fields -----

  function Ten(width: nat): (r: nat)
    ensures r >= 1
  {
    if width == 0 then 1 else 10 * Ten(width - 1)
  }

  function Pad(n: nat, width: nat): (s: string)
    ensures |s| == width
  {
    if width == 0 then "" else Pad(n / 10, width - 1) + ["0123456789"[n % 10]]
  }

  predicate AllDigits(s: string) {
    forall i :: 0 <= i < |s| ==> '0' <= s[i] <= '9'
  }

  function Number(s: string): nat
    requires AllDigits(s)
  {
    if s == "" then 0 else 10 * Number(s[..|s| - 1]) + (s[|s| - 1] as int - '0' as int)
  }

  lemma AppendDigit(s: string, d: nat)
    requires AllDigits(s) && d < 10
    ensures AllDigits(s + ["0123456789"[d]]) && Number(s + ["0123456789"[d]]) == 10 * Number(s) + d
  {
    var t := s + ["0123456789"[d]];
    assert t[..|t| - 1] == s;
    DigitOrder(d, d);
  }

  lemma {:induction false} NumberOfPad(n: nat, width: nat)
    requires n < Ten(width)
    ensures AllDigits(Pad(n, width)) && Number(Pad(n, width)) == n
  {
    if width > 0 {
      var q, d := n / 10, n % 10;
      assert n == 10 * q + d;
      NumberOfPad(q, width - 1);
      AppendDigit(Pad(q, width - 1), d);
    }
  }

  lemma {:induction false} PadOfNumber(s: string)
    requires AllDigits(s)
    ensures Number(s) < Ten(|s|) && Pad(Number(s), |s|) == s
  {
    if s != "" {
      var last := s[|s| - 1] as int - '0' as int;
      PadOfNumber(s[..|s| - 1]);
      assert Number(s) / 10 == Number(s[..|s| - 1]) && Number(s) % 10 == last;
      assert "0123456789"[last] == s[|s| - 1];
      assert s == s[..|s| - 1] + [s[|s| - 1]];
    }
  }

  // ----- string order -----

  predicate Less(s: string, t: string) {
    t != [] && (s == [] || s[0] < t[0] || (s[0] == t[0] && Less(s[1..], t[1..])))
  }

  lemma {:induction false} LessConcat(a: string, b: string, x: string, y: string)
    requires |a| == |b|
    ensures Less(a + x, b + y) <==> Less(a, b) || (a == b && Less(x, y))
  {
    if a == [] {
      assert a + x == x && b + y == y;
    } else {
      LessConcat(a[1..], b[1..], x, y);
      assert (a + x)[1..] == a[1..] + x && (b + y)[1..] == b[1..] + y;
      assert a == [a[0]] + a[1..] && b == [b[0]] + b[1..];
    }
  }

  lemma DigitOrder(i: nat, j: nat)
    requires i < 10 && j < 10
    ensures "0123456789"[i] as int == '0' as int + i && "0123456789"[j] as int == '0' as int + j
  {
  }

  lemma TensOrder(m: nat, n: nat)
    ensures m < n <==> m / 10 < n / 10 || (m / 10 == n / 10 && m % 10 < n % 10)
    ensures m == n <==> m / 10 == n / 10 && m % 10 == n % 10
  {
    assert m == 10 * (m / 10) + m % 10 && n == 10 * (n / 10) + n % 10;
  }

  lemma AppendDiffers(a: string, b: string, c: char, d: char)
    requires |a| == |b|
    ensures a + [c] == b + [d] <==> a == b && c == d
    ensures Less(a + [c], b + [d]) <==> Less(a, b) || (a == b && c < d)
  {
    LessConcat(a, b, [c], [d]);
    assert (a + [c])[..|a|] == a && (b + [d])[..|b|] == b;
    assert (a + [c])[|a|] == c && (b + [d])[|b|] == d;
  }

  lemma {:induction false} PadOrder(m: nat, n: nat, width: nat)
    requires m < Ten(width) && n < Ten(width)
    ensures Less(Pad(m, width), Pad(n, width)) <==> m < n
    ensures Pad(m, width) == Pad(n, width) <==> m == n
  {
    if width > 0 {
      PadOrder(m / 10, n / 10, width - 1);
      TensOrder(m, n);
      DigitOrder(m % 10, n % 10);
      AppendDiffers(Pad(m / 10, width - 1), Pad(n / 10, width - 1), "0123456789"[m % 10], "0123456789"[n % 10]);
    }
  }

  // ----- any layout of fixed-width fields -----

  /** A zero-padded number and the literal text behind it. */
  datatype Part = Part(width: nat, sep: string)

  predicate Fits(values: seq<nat>, layout: seq<Part>) {
    |values| == |layout| && forall i :: 0 <= i < |layout| ==> values[i] < Ten(layout[i].width)
  }

  function Format(values: seq<nat>, layout: seq<Part>): string
    requires |values| == |layout|
  {
    if layout == [] then "" else Pad(values[0], layout[0].width) + layout[0].sep + Format(values[1..], layout[1..])
  }

  function Scan(s: string, layout: seq<Part>): Option<seq<nat>> {
    if layout == [] then
      if s == "" then Some([]) else None
    else
      var w, sep := layout[0].width, layout[0].sep;
      if |s| < w + |sep| || !AllDigits(s[..w]) || s[w..w + |sep|] != sep then None
      else
        match Scan(s[w + |sep|..], layout[1..])
        case None => None
        case Some(values) => Some([Number(s[..w])] + values)
  }

  /** Tuple order. */
  predicate Earlier(v: seq<nat>, w: seq<nat>)
    requires |v| == |w|
  {
    v != [] && (v[0] < w[0] || (v[0] == w[0] && Earlier(v[1..], w[1..])))
  }

  lemma {:induction false} ScanFormat(values: seq<nat>, layout: seq<Part>)
    requires Fits(values, layout)
    ensures Scan(Format(values, layout), layout) == Some(values)
  {
    if layout != [] {
      var w, sep := layout[0].width, layout[0].sep;
      var s, rest := Format(values, layout), Format(values[1..], layout[1..]);
      ScanFormat(values[1..], layout[1..]);
      NumberOfPad(values[0], w);
      assert s[..w] == Pad(values[0], w) && s[w..w + |sep|] == sep && s[w + |sep|..] == rest;
      assert [values[0]] + values[1..] == values;
    }
  }

  lemma {:induction false} FormatScan(s: string, layout: seq<Part>)
    requires Scan(s, layout).Some?
    ensures Fits(Scan(s, layout).value, layout) && Format(Scan(s, layout).value, layout) == s
  {
    if layout != [] {
      var w, sep := layout[0].width, layout[0].sep;
      FormatScan(s[w + |sep|..], layout[1..]);
      PadOfNumber(s[..w]);
      var values := Scan(s, layout).value;
      assert values[1..] == Scan(s[w + |sep|..], layout[1..]).value;
      assert s == s[..w] + s[w..w + |sep|] + s[w + |sep|..];
    }
  }

  lemma PartOrder(m: nat, n: nat, part: Part, x: string, y: string)
    requires m < Ten(part.width) && n < Ten(part.width)
    ensures Less(Pad(m, part.width) + part.sep + x, Pad(n, part.width) + part.sep + y)
            <==> (m < n || (m == n && Less(x, y)))
  {
    PadOrder(m, n, part.width);
    LessConcat(part.sep, part.sep, x, y);
    NeverLess(part.sep);
    LessConcat(Pad(m, part.width), Pad(n, part.width), part.sep + x, part.sep + y);
    assert Pad(m, part.width) + part.sep + x == Pad(m, part.width) + (part.sep + x);
    assert Pad(n, part.width) + part.sep + y == Pad(n, part.width) + (part.sep + y);
  }

  /** With the same layout, string order is tuple order. */
  lemma {:induction false} FormatOrder(v: seq<nat>, w: seq<nat>, layout: seq<Part>)
    requires Fits(v, layout) && Fits(w, layout)
    ensures Less(Format(v, layout), Format(w, layout)) <==> Earlier(v, w)
  {
    if layout != [] {
      FormatOrder(v[1..], w[1..], layout[1..]);
      PartOrder(v[0], w[0], layout[0], Format(v[1..], layout[1..]), Format(w[1..], layout[1..]));
    }
  }

  lemma NeverLess(s: string)
    ensures !Less(s, s)
  {
  }

  // ----- dates -----

  datatype DateTime = DateTime(year: nat, month: nat, day: nat, hour: nat, minute: nat, second: nat) {
    /** A calendar date with a four-digit year. */
    predicate Valid() {
      && 1000 <= year <= 9999 && 1 <= month <= 12 && 1 <= day <= DaysIn(year, month)
      && hour < 24 && minute < 60 && second < 60
    }

    function Values(): seq<nat> {
      [year, month, day, hour, minute, second]
    }

    predicate Before(that: DateTime) {
      Earlier(Values(), that.Values())
    }
  }

  function DaysIn(year: nat, month: nat): nat {
    if month == 2 then if year % 4 == 0 && (year % 100 != 0 || year % 400 == 0) then 29 else 28
    else if month in {4, 6, 9, 11} then 30
    else 31
  }

  /** The days of all years before this one, from year 1 on. */
  function DaysBefore(year: nat): int
    requires year > 0
  {
    365 * (year - 1) + (year - 1) / 4 - (year - 1) / 100 + (year - 1) / 400
  }

  function DaysOf(year: nat): int {
    DaysIn(year, 1) + DaysIn(year, 2) + DaysIn(year, 3) + DaysIn(year, 4) + DaysIn(year, 5) + DaysIn(year, 6)
    + DaysIn(year, 7) + DaysIn(year, 8) + DaysIn(year, 9) + DaysIn(year, 10) + DaysIn(year, 11) + DaysIn(year, 12)
  }

  lemma NextQuotients(n: nat)
    ensures (n + 1) / 4 - n / 4 == if (n + 1) % 4 == 0 then 1 else 0
    ensures (n + 1) / 100 - n / 100 == if (n + 1) % 100 == 0 then 1 else 0
    ensures (n + 1) / 400 - n / 400 == if (n + 1) % 400 == 0 then 1 else 0
  {
  }

  lemma LeapYears(year: nat)
    ensures DaysOf(year) == 365 + (if year % 4 == 0 then 1 else 0) - (if year % 100 == 0 then 1 else 0)
                            + (if year % 400 == 0 then 1 else 0)
  {
    assert DaysOf(year) == 337 + DaysIn(year, 2);
  }

  /** The calendar: the months add up to the years, and apart from February the longer months and the shorter ones
      alternate, with July and August both long. */
  lemma MonthsAddUp(year: nat, month: nat)
    requires year > 0 && 1 <= month <= 12 && month != 2
    ensures DaysOf(year) == DaysBefore(year + 1) - DaysBefore(year)
    ensures DaysIn(year, month) == if month < 8 then 30 + month % 2 else 31 - month % 2
  {
    LeapYears(year);
    NextQuotients(year - 1);
  }

  const ISO := [Part(4, "-"), Part(2, "-"), Part(2, "T"), Part(2, ":"), Part(2, ":"), Part(2, "Z")]
  const COMPACT := [Part(4, ""), Part(2, ""), Part(2, "-"), Part(2, ""), Part(2, ""), Part(2, "")]

  function Iso(d: DateTime): string {
    Format(d.Values(), ISO)
  }

  function Compact(d: DateTime): string {
    Format(d.Values(), COMPACT)
  }

  function Parse(s: string, layout: seq<Part>): Option<DateTime> {
    match Scan(s, layout)
    case None => None
    case Some(v) =>
      if |v| != 6 then None
      else
        var d := DateTime(v[0], v[1], v[2], v[3], v[4], v[5]);
        if d.Valid() then Some(d) else None
  }

  lemma ValidFits(d: DateTime)
    requires d.Valid()
    ensures Fits(d.Values(), ISO) && Fits(d.Values(), COMPACT)
  {
    assert Ten(2) == 100 && Ten(4) == 10000 by {
      assert Ten(1) == 10 && Ten(3) == 1000;
    }
  }

  /** Both notations read back as the date they were written from. */
  lemma ParseWritten(d: DateTime)
    requires d.Valid()
    ensures Parse(Iso(d), ISO) == Some(d) && Parse(Compact(d), COMPACT) == Some(d)
  {
    ValidFits(d);
    ScanFormat(d.Values(), ISO);
    ScanFormat(d.Values(), COMPACT);
  }

  /** Only written dates can be read. */
  lemma WrittenParsed(s: string)
    ensures Parse(s, ISO).Some? ==> Parse(s, ISO).value.Valid() && Iso(Parse(s, ISO).value) == s
    ensures Parse(s, COMPACT).Some? ==> Parse(s, COMPACT).value.Valid() && Compact(Parse(s, COMPACT).value) == s
  {
    WrittenScanned(s, ISO);
    WrittenScanned(s, COMPACT);
  }

  lemma WrittenScanned(s: string, layout: seq<Part>)
    requires |layout| == 6
    ensures Parse(s, layout).Some? ==>
              Parse(s, layout).value.Valid() && Format(Parse(s, layout).value.Values(), layout) == s
  {
    if Scan(s, layout).Some? {
      FormatScan(s, layout);
      var v := Scan(s, layout).value;
      assert v == [v[0], v[1], v[2], v[3], v[4], v[5]];
    }
  }

  /** Among four-digit years, ordering the strings orders the dates. */
  lemma StringOrderIsTimeOrder(d: DateTime, e: DateTime)
    requires d.Valid() && e.Valid()
    ensures Less(Iso(d), Iso(e)) <==> d.Before(e)
    ensures Less(Compact(d), Compact(e)) <==> d.Before(e)
  {
    ValidFits(d);
    ValidFits(e);
    FormatOrder(d.Values(), e.Values(), ISO);
    FormatOrder(d.Values(), e.Values(), COMPACT);
  }

  lemma {:induction false} EarlierTotal(v: seq<nat>, w: seq<nat>)
    requires |v| == |w|
    ensures Earlier(v, w) || v == w || Earlier(w, v)
    ensures !(Earlier(v, w) && Earlier(w, v)) && !Earlier(v, v)
  {
    if v != [] {
      EarlierTotal(v[1..], w[1..]);
      assert v == [v[0]] + v[1..] && w == [w[0]] + w[1..];
    }
  }

  lemma {:induction false} EarlierTransitive(u: seq<nat>, v: seq<nat>, w: seq<nat>)
    requires |u| == |v| == |w| && Earlier(u, v) && Earlier(v, w)
    ensures Earlier(u, w)
  {
    if u[0] == v[0] == w[0] {
      EarlierTransitive(u[1..], v[1..], w[1..]);
    }
  }
}
