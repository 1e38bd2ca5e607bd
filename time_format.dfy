/** Rendering a number of seconds as `m:ss`, as the playlists page and the search
    page do for song durations (`formatDuration`) and the mini player does for the
    position and the length of the current song (`formatTime`). */
module TimeFormat {
  import opened JsString
  import opened JsNumber

  /** `${minutes}:${seconds.toString().padStart(2, '0')}`: for whole minutes and
      seconds below 60, the clock text of their total. */
  function FormatClock(minutes: int, seconds: int): (r: string)
    ensures 0 <= minutes && 0 <= seconds < 60 ==> IsClockText(r, minutes * 60 + seconds)
  {
    var r := IntToString(minutes) + ":" + PadStart(IntToString(seconds), 2, '0');
    if 0 <= minutes && 0 <= seconds < 60 then
      var m := Decimal(minutes);
      var p := PaddedSeconds(seconds);
      assert r == m + ":" + p;
      ClockShape(m, p, minutes, seconds);
      r
    else r
  }

  /** Padding one or two digits to two keeps them digits and keeps their value. */
  lemma PadTwoDigits(s: string)
    requires AllDigits(s) && 1 <= |s| <= 2
    ensures |PadStart(s, 2, '0')| == 2 && AllDigits(PadStart(s, 2, '0'))
    ensures DecimalValue(PadStart(s, 2, '0')) == DecimalValue(s)
  {
    var p := PadStart(s, 2, '0');
    if |s| == 1 {
      assert p == ['0'] + s;
      assert p[..1] == ['0'];
      assert DecimalValue(p[..1]) == 0;
      assert s[..0] == [];
    }
  }

  /** `r` is clock text for `d` seconds: minutes with no leading zero, a colon, and
      exactly two digits of seconds below 60, with minutes * 60 + seconds == d. */
  predicate IsClockText(r: string, d: nat)
  {
    && 4 <= |r| && r[|r| - 3] == ':'
    && AllDigits(r[..|r| - 3]) && AllDigits(r[|r| - 2..])
    && (|r| == 4 || r[0] != '0')
    && DecimalValue(r[|r| - 2..]) < 60
    && DecimalValue(r[..|r| - 3]) * 60 + DecimalValue(r[|r| - 2..]) == d
  }

  /** `formatDuration(d)` for a whole number of seconds:
      `Math.floor(d / 60)` minutes and `Math.floor(d % 60)` seconds. */
  function FormatDuration(d: nat): (r: string)
    ensures IsClockText(r, d)
  {
    DivMod60(d);
    FormatClock(d / 60, d % 60)
  }

  /** A canonical numeral, a colon and two digits below 60 form clock text. */
  lemma ClockShape(m: string, p: string, minutes: nat, seconds: nat)
    requires 1 <= |m| && AllDigits(m) && DecimalValue(m) == minutes && (|m| == 1 || m[0] != '0')
    requires |p| == 2 && AllDigits(p) && DecimalValue(p) == seconds && seconds < 60
    ensures IsClockText(m + ":" + p, minutes * 60 + seconds)
  {
    var r := m + ":" + p;
    SplitAtColon(m, p);
    if |r| != 4 {
      assert r[0] == m[0];
    }
  }

  /** The seconds' numeral padded to two: two digits worth the seconds. */
  function PaddedSeconds(seconds: nat): (p: string)
    requires seconds < 60
    ensures p == PadStart(IntToString(seconds), 2, '0')
    ensures |p| == 2 && AllDigits(p) && DecimalValue(p) == seconds
  {
    var sec := Decimal(seconds);
    DecimalBelow100(seconds);
    PadTwoDigits(sec);
    PadStart(sec, 2, '0')
  }

  /** Proof helper: the quotient and remainder by 60 recompose `d`. */
  lemma DivMod60(d: nat)
    ensures 0 <= d % 60 < 60 && (d / 60) * 60 + d % 60 == d
  {
  }

  /** Proof helper: where the parts of `m + ":" + p` sit. */
  lemma SplitAtColon(m: string, p: string)
    requires |p| == 2
    ensures var r := m + ":" + p;
      |r| == |m| + 3 && r[|r| - 3] == ':' && r[..|r| - 3] == m && r[|r| - 2..] == p
  {
  }

  /** `formatTime(t)` for any number of seconds `t` (negative ones keep JavaScript's
      floor and truncating remainder). For `t >= 0` it is the duration format of the
      whole seconds of `t`. */
  function FormatTime(t: real): (r: string)
    ensures t >= 0.0 ==> r == FormatDuration(t.Floor)
  {
    var minutes := (t / 60.0).Floor;
    var seconds := JsRemReal(t, 60.0).Floor;
    if t >= 0.0 then
      FloorSplit(t);
      FormatClock(minutes, seconds)
    else
      FormatClock(minutes, seconds)
  }

  /** For `t >= 0`, the floor of `t / 60` and of `t % 60` are the quotient and the
      remainder of the whole seconds of `t` by 60. */
  lemma FloorSplit(t: real)
    requires t >= 0.0
    ensures (t / 60.0).Floor == t.Floor / 60
    ensures JsRemReal(t, 60.0).Floor == t.Floor % 60
  {
    var m := (t / 60.0).Floor;
    var f := t.Floor;
    assert m as real <= t / 60.0 < m as real + 1.0;
    assert 60.0 * m as real <= t < 60.0 * m as real + 60.0;
    assert 60 * m <= f < 60 * m + 60;
    assert JsRemReal(t, 60.0) == t - 60.0 * m as real;
    assert (t - 60.0 * m as real).Floor == f - 60 * m;
  }
}
