// The timestamp helpers: the local `YYYY-MM-DD HH:MM:SS` rendering shown to
// the assistant, and the parse of that rendering back into the numbers a
// local `Date` is built from. The time zone, the `Date` constructor's
// normalisation and `toISOString()` belong to the environment: the
// rendering takes the local fields, and the parse stops at the numbers.
module LocalTime {
  import opened Common
  import SnapshotContext

  /** A date's local fields; `month` is `getMonth() + 1`. */
  datatype LocalFields = LocalFields(year: int, month: nat, day: nat, hour: nat, minute: nat, second: nat)

  /** What `formatToLocalTime` prints for an invalid date: every getter is `NaN`. */
  const InvalidRendering := "NaN-NaN-NaN NaN:NaN:NaN"

  /** `formatToLocalTime`: the year as `String` prints it, every other field padded to two digits. */
  function Format(date: Option<LocalFields>): (s: string)
  {
    match date
    case None => InvalidRendering
    case Some(f) =>
      IntToString(f.year) + "-" + Pad2(f.month) + "-" + Pad2(f.day) + " "
        + Pad2(f.hour) + ":" + Pad2(f.minute) + ":" + Pad2(f.second)
  }

  /** Fields a real local date has; the year must print as four digits. */
  predicate InRange(f: LocalFields)
  {
    1000 <= f.year <= 9999 && 1 <= f.month <= 12 && 1 <= f.day <= 31
      && f.hour < 24 && f.minute < 60 && f.second < 60
  }

  /**
   * `Number(s)` on the pieces a split can yield: the empty string is 0, a
   * run of digits its value, a minus sign and digits its negation; `None`
   * is `NaN`.
   */
  function NumberOf(s: string): (r: Option<int>)
    ensures AllDigits(s) ==> r == Some(DigitsValue(s))
  {
    if AllDigits(s) then Some(DigitsValue(s))
    else if |s| > 1 && s[0] == '-' && AllDigits(s[1..]) then Some(0 - DigitsValue(s[1..]) as int)
    else None
  }

  /** Element `k` of a split, read by `NumberOf`; a missing element is `undefined`, which is `NaN`. */
  function NumberAt(parts: seq<string>, k: nat): (r: Option<int>)
    ensures k >= |parts| ==> r.None?
    ensures k < |parts| ==> r == NumberOf(parts[k])
  {
    if k < |parts| then NumberOf(parts[k]) else None
  }

  /** The arguments of `new Date(year, month - 1, day, hour, minute, second)`. */
  datatype DateArgs = DateArgs(year: int, monthIndex: int, day: int, hour: int, minute: int, second: int)

  /**
   * `parseLocalTimeToUTC` up to the `Date` constructor. `None` when the
   * call throws: there is no time part to split, or a number is `NaN` and
   * `toISOString()` refuses the invalid date.
   */
  function ParseLocal(s: string): (r: Option<DateArgs>)
    ensures r.Some? ==> |SplitOn(s, " ")| >= 2
  {
    var halves := SplitOn(s, " ");
    if |halves| < 2 then None
    else
      var date, time := SplitOn(halves[0], "-"), SplitOn(halves[1], ":");
      var y, mo, d := NumberAt(date, 0), NumberAt(date, 1), NumberAt(date, 2);
      var h, mi, se := NumberAt(time, 0), NumberAt(time, 1), NumberAt(time, 2);
      if y.Some? && mo.Some? && d.Some? && h.Some? && mi.Some? && se.Some? then
        Some(DateArgs(y.value, mo.value - 1, d.value, h.value, mi.value, se.value))
      else None
  }

  lemma DigitsLack(s: string, c: char)
    requires AllDigits(s) && !IsDigit(c)
    ensures Lacks(s, c)
  {
  }

  /** A rendered field reads back as its number. */
  lemma Pad2Number(n: nat)
    requires n < 100
    ensures NumberOf(Pad2(n)) == Some(n)
  {
    Pad2Value(n);
  }

  lemma YearNumber(y: nat)
    ensures AllDigits(IntToString(y)) && NumberOf(IntToString(y)) == Some(y)
  {
    DigitsValueOfNatToString(y);
  }

  /** The two halves of a rendering and their fields. */
  lemma FormatParts(f: LocalFields)
    requires f.year >= 0 && f.month < 100 && f.day < 100 && f.hour < 100 && f.minute < 100 && f.second < 100
    ensures var date := [IntToString(f.year), Pad2(f.month), Pad2(f.day)];
            var time := [Pad2(f.hour), Pad2(f.minute), Pad2(f.second)];
            Format(Some(f)) == Join([Join(date, "-"), Join(time, ":")], " ")
  {
    var date := [IntToString(f.year), Pad2(f.month), Pad2(f.day)];
    var time := [Pad2(f.hour), Pad2(f.minute), Pad2(f.second)];
    assert Join(date, "-") == date[0] + "-" + (date[1] + "-" + date[2]) by {
      assert Join(date[1..], "-") == date[1] + "-" + date[2] by {
        assert date[1..][1..] == [date[2]];
      }
    }
    assert Join(time, ":") == time[0] + ":" + (time[1] + ":" + time[2]) by {
      assert Join(time[1..], ":") == time[1] + ":" + time[2] by {
        assert time[1..][1..] == [time[2]];
      }
    }
    assert [Join(date, "-"), Join(time, ":")][1..] == [Join(time, ":")];
  }

  /**
   * The parse undoes the rendering: a date shown to the assistant and
   * passed back to a tool rebuilds the same local fields.
   */
  lemma ParseFormatRoundTrip(f: LocalFields)
    requires InRange(f)
    ensures ParseLocal(Format(Some(f))) == Some(DateArgs(f.year, f.month - 1, f.day, f.hour, f.minute, f.second))
  {
    var date := [IntToString(f.year), Pad2(f.month), Pad2(f.day)];
    var time := [Pad2(f.hour), Pad2(f.minute), Pad2(f.second)];
    FormatParts(f);
    YearNumber(f.year);
    Pad2Number(f.month);
    Pad2Number(f.day);
    Pad2Number(f.hour);
    Pad2Number(f.minute);
    Pad2Number(f.second);
    forall k | 0 <= k < 3 ensures Lacks(date[k], '-') && Lacks(date[k], ' ') && Lacks(time[k], ':') && Lacks(time[k], ' ') {
      DigitsLack(date[k], '-');
      DigitsLack(date[k], ' ');
      DigitsLack(time[k], ':');
      DigitsLack(time[k], ' ');
    }
    SplitOnJoin(date, "-");
    SplitOnJoin(time, ":");
    var dj, tj := Join(date, "-"), Join(time, ":");
    JoinSplitOn(dj, "-");
    assert Lacks(dj, ' ') by {
      SplitOnPartsLack(dj, '-');
      JoinLacks(date, "-", ' ');
    }
    assert Lacks(tj, ' ') by {
      JoinLacks(time, ":", ' ');
    }
    SplitOnJoin([dj, tj], " ");
  }

  /** A join of parts and a separator that all lack a character lacks it too. */
  lemma {:induction false} JoinLacks(parts: seq<string>, sep: string, c: char)
    requires Lacks(sep, c) && forall k :: 0 <= k < |parts| ==> Lacks(parts[k], c)
    ensures Lacks(Join(parts, sep), c)
  {
    if |parts| > 1 {
      JoinLacks(parts[1..], sep, c);
    }
  }

  /**
   * A rendering of real local fields has the 19-character shape
   * `get_snapshot_context` checks, so the timeline's timestamps pass it.
   */
  lemma FormatHasTimestampShape(f: LocalFields)
    requires InRange(f)
    ensures SnapshotContext.TimestampShape(Format(Some(f)))
  {
    var y := IntToString(f.year);
    assert |y| == 4 by {
      var n := f.year;
      assert Pow10(4) == 10000;
      NatToStringShort(n, 4);
      assert n >= 10 && n / 10 >= 10 && n / 10 / 10 >= 10;
      assert |NatToString(n)| == |NatToString(n / 10)| + 1;
      assert |NatToString(n / 10)| == |NatToString(n / 10 / 10)| + 1;
      assert |NatToString(n / 10 / 10)| == |NatToString(n / 10 / 10 / 10)| + 1;
    }
    var s := Format(Some(f));
    assert s == y + "-" + Pad2(f.month) + "-" + Pad2(f.day) + " " + Pad2(f.hour) + ":" + Pad2(f.minute) + ":" + Pad2(f.second);
    assert |s| == 19;
    forall k | 0 <= k < |s| ensures SnapshotContext.ShapeAt(s[k], k) {
      if k < 4 { assert s[k] == y[k]; }
      else if 4 < k < 7 { assert s[k] == Pad2(f.month)[k - 5]; }
      else if 7 < k < 10 { assert s[k] == Pad2(f.day)[k - 8]; }
      else if 10 < k < 13 { assert s[k] == Pad2(f.hour)[k - 11]; }
      else if 13 < k < 16 { assert s[k] == Pad2(f.minute)[k - 14]; }
      else if 16 < k { assert s[k] == Pad2(f.second)[k - 17]; }
    }
  }

  /** An invalid date renders as `NaN` fields, which the timestamp guard refuses. */
  lemma InvalidRenderingRefused()
    ensures !SnapshotContext.TimestampShape(Format(None))
  {
    assert !SnapshotContext.ShapeAt(InvalidRendering[0], 0);
  }
}
