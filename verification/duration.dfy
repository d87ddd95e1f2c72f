/**
 Durations (utils.py `parse_duration`) and the minute rounding the routes
 apply to them: `max(1, round(seconds / 60))` with Python's
 round-half-to-even.
 */
module Duration {
  import opened Values
  import opened Text

  /** Length of the run of ASCII digits starting at `k`. */
  function DigitRun(s: string, k: nat): (n: nat)
    requires k <= |s|
    decreases |s| - k
    ensures k + n <= |s|
    ensures forall t :: k <= t < k + n ==> IsDigit(s[t])
    ensures k + n == |s| || !IsDigit(s[k + n])
  {
    if k == |s| || !IsDigit(s[k]) then 0 else 1 + DigitRun(s, k + 1)
  }

  /**
   One optional group `(?:(\d+)U)?` at position `k`: the digits count only
   when the whole digit run is followed by the unit letter; otherwise the
   group is skipped and nothing is consumed.
   */
  function Component(s: string, k: nat, unit: char): (r: (nat, nat))
    requires k <= |s|
    ensures k <= r.1 <= |s|
  {
    var n := DigitRun(s, k);
    if n > 0 && k + n < |s| && s[k + n] == unit then
      assert AllDigits(s[k..k + n]);
      (DigitsValue(s[k..k + n]), k + n + 1)
    else (0, k)
  }

  /**
   `parse_duration`: `PT(?:(\d+)H)?(?:(\d+)M)?(?:(\d+)S)?` matched from the
   start of the string; anything after the match is ignored.
   */
  function ParseDuration(d: string): (seconds: nat)
    ensures !LitAt(d, 0, "PT") ==> seconds == 0
  {
    if d == "" then 0
    else if !LitAt(d, 0, "PT") then 0
    else
      var (h, k1) := Component(d, 2, 'H');
      var (m, k2) := Component(d, k1, 'M');
      var (sec, _) := Component(d, k2, 'S');
      h * 3600 + m * 60 + sec
  }

  // ---------------------------------------------------------------------------
  // The duration text a provider writes, and reading it back.

  function ComponentText(v: Option<nat>, unit: char): string {
    match v
    case None => ""
    case Some(n) => NatToDigits(n) + [unit]
  }

  function OrZero(v: Option<nat>): nat {
    match v
    case None => 0
    case Some(n) => n
  }

  /** `PT#H#M#S` with each component present or left out. */
  function DurationText(h: Option<nat>, m: Option<nat>, s: Option<nat>): string {
    "PT" + ComponentText(h, 'H') + ComponentText(m, 'M') + ComponentText(s, 'S')
  }

  lemma DigitRunOver(s: string, k: nat, ds: string)
    requires LitAt(s, k, ds) && AllDigits(ds)
    requires k + |ds| == |s| || !IsDigit(s[k + |ds|])
    ensures DigitRun(s, k) == |ds|
    decreases |ds|
  {
    if ds != [] {
      LitChar(s, k, ds, 0);
      LitInside(s, k, ds, 1, ds[1..]);
      DigitRunOver(s, k + 1, ds[1..]);
    }
  }

  /** A component written at `k` is read back by its own group and skipped by the others. */
  lemma ComponentPresent(s: string, k: nat, n: nat, unit: char, reader: char)
    requires unit in "HMS" && reader in "HMS"
    requires LitAt(s, k, NatToDigits(n) + [unit])
    ensures reader == unit ==> Component(s, k, reader) == (n, k + |NatToDigits(n)| + 1)
    ensures reader != unit ==> Component(s, k, reader) == (0, k)
  {
    var ds := NatToDigits(n);
    LitConcat(s, k, ds, [unit]);
    LitChar(s, k + |ds|, [unit], 0);
    DigitRunOver(s, k, ds);
    DigitsRoundTrip(n);
  }

  /** No group reads anything where no digit starts. */
  lemma ComponentAbsent(s: string, k: nat, reader: char)
    requires k <= |s| && (k == |s| || !IsDigit(s[k]))
    ensures Component(s, k, reader) == (0, k)
  {
  }

  lemma ComponentStep(s: string, k: nat, v: Option<nat>, unit: char, reader: char, rest: string)
    requires unit in "HMS" && reader in "HMS"
    requires LitAt(s, k, ComponentText(v, unit) + rest)
    requires v.Some? || k == |s| || !IsDigit(s[k])
    ensures reader == unit ==> Component(s, k, reader) == (OrZero(v), k + |ComponentText(v, unit)|)
    ensures reader != unit ==> Component(s, k, reader) == (0, k)
  {
    LitConcat(s, k, ComponentText(v, unit), rest);
    if v.Some? {
      ComponentPresent(s, k, v.value, unit, reader);
    } else {
      ComponentAbsent(s, k, reader);
    }
  }

  /** Where each written component begins inside `PT` + components + trailer. */
  lemma Layout(d: string, th: string, tm: string, ts: string, trailer: string)
    requires d == "PT" + th + tm + ts + trailer
    ensures LitAt(d, 0, "PT")
    ensures LitAt(d, 2, th + (tm + (ts + trailer)))
    ensures LitAt(d, 2 + |th|, tm + (ts + trailer))
    ensures LitAt(d, 2 + |th| + |tm|, ts + trailer)
    ensures LitAt(d, 2 + |th| + |tm| + |ts|, trailer)
    ensures |d| == 2 + |th| + |tm| + |ts| + |trailer|
  {
    assert d == "PT" + (th + (tm + (ts + trailer)));
    LitConcat(d, 0, "PT", th + (tm + (ts + trailer)));
    LitConcat(d, 2, th, tm + (ts + trailer));
    LitConcat(d, 2 + |th|, tm, ts + trailer);
    LitConcat(d, 2 + |th| + |tm|, ts, trailer);
  }

  /** What a position holds when the component written there is absent: whatever follows. */
  lemma NextStart(d: string, k: nat, v: Option<nat>, unit: char, rest: string)
    requires LitAt(d, k, ComponentText(v, unit) + rest) && k + |ComponentText(v, unit) + rest| == |d|
    requires rest == "" || !IsDigit(rest[0]) || v.Some?
    ensures k == |d| || !IsDigit(d[k]) || v.Some?
    ensures v.Some? ==> k < |d| && IsDigit(d[k])
  {
    var t := ComponentText(v, unit) + rest;
    if t != "" {
      LitChar(d, k, t, 0);
    }
    if v.Some? {
      assert t[0] == NatToDigits(v.value)[0];
    } else {
      assert t == rest;
    }
  }

  /**
   Reading back a written duration gives `3600·H + 60·M + S`, whatever text
   follows, provided that text cannot be mistaken for a further component
   (it is empty, starts with a non-digit, or follows the seconds).
   */
  lemma {:induction false} DurationRoundTrip(h: Option<nat>, m: Option<nat>, sec: Option<nat>, trailer: string)
    requires sec.Some? || trailer == "" || !IsDigit(trailer[0])
    ensures ParseDuration(DurationText(h, m, sec) + trailer) == 3600 * OrZero(h) + 60 * OrZero(m) + OrZero(sec)
  {
    var th, tm, ts := ComponentText(h, 'H'), ComponentText(m, 'M'), ComponentText(sec, 'S');
    var d := DurationText(h, m, sec) + trailer;
    Layout(d, th, tm, ts, trailer);
    ReadBack(d, h, m, sec, trailer);
  }

  /** The round trip over any text laid out as `PT`, the three components and the trailer. */
  lemma ReadBack(d: string, h: Option<nat>, m: Option<nat>, sec: Option<nat>, trailer: string)
    requires sec.Some? || trailer == "" || !IsDigit(trailer[0])
    requires LitAt(d, 0, "PT")
    requires LitAt(d, 2, ComponentText(h, 'H') + (ComponentText(m, 'M') + (ComponentText(sec, 'S') + trailer)))
    requires LitAt(d, 2 + |ComponentText(h, 'H')|, ComponentText(m, 'M') + (ComponentText(sec, 'S') + trailer))
    requires LitAt(d, 2 + |ComponentText(h, 'H')| + |ComponentText(m, 'M')|, ComponentText(sec, 'S') + trailer)
    requires |d| == 2 + |ComponentText(h, 'H')| + |ComponentText(m, 'M')| + |ComponentText(sec, 'S')| + |trailer|
    ensures ParseDuration(d) == 3600 * OrZero(h) + 60 * OrZero(m) + OrZero(sec)
  {
    var th, tm, ts := ComponentText(h, 'H'), ComponentText(m, 'M'), ComponentText(sec, 'S');
    var k1 := 2 + |th|;
    var k2 := k1 + |tm|;
    NextStart(d, k2, sec, 'S', trailer);
    ComponentStep(d, k2, sec, 'S', 'S', trailer);
    MinutesGroup(d, k1, m, sec, trailer);
    HoursGroup(d, h, m, sec, trailer);
    ParseSteps(d, OrZero(h), k1, OrZero(m), k2, OrZero(sec));
  }

  /** The minutes group reads its own text, or else nothing from whatever the seconds position holds. */
  lemma MinutesGroup(d: string, k1: nat, m: Option<nat>, sec: Option<nat>, trailer: string)
    requires sec.Some? || trailer == "" || !IsDigit(trailer[0])
    requires LitAt(d, k1, ComponentText(m, 'M') + (ComponentText(sec, 'S') + trailer))
    requires LitAt(d, k1 + |ComponentText(m, 'M')|, ComponentText(sec, 'S') + trailer)
    requires |d| == k1 + |ComponentText(m, 'M')| + |ComponentText(sec, 'S')| + |trailer|
    ensures Component(d, k1, 'M') == (OrZero(m), k1 + |ComponentText(m, 'M')|)
  {
    if m.Some? {
      ComponentStep(d, k1, m, 'M', 'M', ComponentText(sec, 'S') + trailer);
    } else {
      NextStart(d, k1, sec, 'S', trailer);
      ComponentStep(d, k1, sec, 'S', 'M', trailer);
    }
  }

  /** The hours group reads its own text, or else nothing from whichever later component comes first. */
  lemma HoursGroup(d: string, h: Option<nat>, m: Option<nat>, sec: Option<nat>, trailer: string)
    requires sec.Some? || trailer == "" || !IsDigit(trailer[0])
    requires LitAt(d, 2, ComponentText(h, 'H') + (ComponentText(m, 'M') + (ComponentText(sec, 'S') + trailer)))
    requires LitAt(d, 2 + |ComponentText(h, 'H')|, ComponentText(m, 'M') + (ComponentText(sec, 'S') + trailer))
    requires LitAt(d, 2 + |ComponentText(h, 'H')| + |ComponentText(m, 'M')|, ComponentText(sec, 'S') + trailer)
    requires |d| == 2 + |ComponentText(h, 'H')| + |ComponentText(m, 'M')| + |ComponentText(sec, 'S')| + |trailer|
    ensures Component(d, 2, 'H') == (OrZero(h), 2 + |ComponentText(h, 'H')|)
  {
    var tm, ts := ComponentText(m, 'M'), ComponentText(sec, 'S');
    if h.Some? {
      ComponentStep(d, 2, h, 'H', 'H', tm + (ts + trailer));
    } else if m.Some? {
      ComponentStep(d, 2, m, 'M', 'H', ts + trailer);
    } else {
      NextStart(d, 2, sec, 'S', trailer);
      ComponentStep(d, 2, sec, 'S', 'H', trailer);
    }
  }

  /** `ParseDuration` from what each of its three groups reads. */
  lemma ParseSteps(d: string, h: nat, k1: nat, m: nat, k2: nat, sec: nat)
    requires LitAt(d, 0, "PT") && k1 <= |d| && k2 <= |d|
    requires Component(d, 2, 'H') == (h, k1)
    requires Component(d, k1, 'M') == (m, k2)
    requires Component(d, k2, 'S').0 == sec
    ensures ParseDuration(d) == 3600 * h + 60 * m + sec
  {
  }

  // ---------------------------------------------------------------------------
  // Minute rounding.

  function Abs(x: int): nat {
    if x < 0 then -x else x
  }

  /** Python's `round(a / 60)` for whole seconds: nearest integer, ties to even. */
  function RoundMinutes(a: nat): (r: nat)
    ensures 2 * Abs(60 * r - a) <= 60
    ensures 2 * Abs(60 * r - a) == 60 ==> r % 2 == 0
  {
    var q, rem := a / 60, a % 60;
    if rem < 30 then q
    else if rem > 30 then q + 1
    else if q % 2 == 0 then q
    else q + 1
  }

  /** The two conditions above single out one integer: the rounding is fully determined. */
  lemma RoundingUnique(a: nat, k: int)
    requires 2 * Abs(60 * k - a) <= 60
    requires 2 * Abs(60 * k - a) == 60 ==> k % 2 == 0
    ensures k == RoundMinutes(a)
  {
  }

  /** Minutes charged for a duration: `max(1, round(seconds / 60))`. */
  function ChargedMinutes(seconds: nat): (minutes: nat)
    ensures minutes >= 1
    ensures seconds >= 30 ==> 2 * Abs(60 * minutes - seconds) <= 60
    ensures seconds > 30 && 2 * Abs(60 * minutes - seconds) == 60 ==> minutes % 2 == 0
    ensures seconds < 90 ==> minutes == 1
  {
    var r := RoundMinutes(seconds);
    if r < 1 then 1 else r
  }

  // ---------------------------------------------------------------------------
  // Examples the source's docstring and callers rely on.

  lemma DurationExamples()
    ensures ParseDuration("") == 0
    ensures ParseDuration("PT1H30M15S") == 5415
    ensures ParseDuration("PT45S") == 45
  {
    FullExample();
    SecondsOnlyExample();
  }

  lemma FullExample()
    ensures ParseDuration("PT1H30M15S") == 5415
  {
    var t := DurationText(Some(1), Some(30), Some(15));
    assert NatToDigits(30) == "30" by { assert NatToDigits(3) == "3"; }
    assert NatToDigits(15) == "15" by { assert NatToDigits(1) == "1"; }
    assert t == "PT1H30M15S";
    DurationRoundTrip(Some(1), Some(30), Some(15), "");
    assert t + "" == t;
  }

  lemma SecondsOnlyExample()
    ensures ParseDuration("PT45S") == 45
  {
    var t := DurationText(None, None, Some(45));
    assert NatToDigits(45) == "45" by { assert NatToDigits(4) == "4"; }
    assert t == "PT45S";
    DurationRoundTrip(None, None, Some(45), "");
    assert t + "" == t;
  }
}
