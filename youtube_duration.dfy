/** src/voice/youtube.rs, `parse_duration`: the YouTube API's ISO 8601 durations
  * (designator form, section 4.4.3.2 of ISO 8601:2004, e.g. "PT1H2M3S") to seconds. */
module YouTubeDuration {
  import opened Strings

  /** The two accumulators of the loop: seconds already added, and the number being read. */
  datatype Scan = Scan(total: nat, current: nat)

  /** One character of the loop body. */
  function Step(st: Scan, c: char): Scan {
    if c == 'P' || c == 'T' then st
    else if c == 'H' then Scan(st.total + st.current * 3600, 0)
    else if c == 'M' then Scan(st.total + st.current * 60, 0)
    else if c == 'S' then Scan(st.total + st.current, 0)
    else if IsDigit(c) then Scan(st.total, st.current * 10 + DigitValue(c))
    else st
  }

  /** The loop over `s`, started in state `st`. */
  function Run(st: Scan, s: string): Scan
    decreases |s|
  {
    if s == [] then st else Run(Step(st, s[0]), s[1..])
  }

  /** The value `parse_duration` returns. */
  function Duration(s: string): nat {
    Run(Scan(0, 0), s).total
  }

  /** `parse_duration`, with its loop. */
  method ParseDuration(duration: string) returns (total: nat)
    ensures total == Duration(duration)
  {
    total := 0;
    var current: nat := 0;
    var i := 0;
    while i < |duration|
      invariant 0 <= i <= |duration|
      invariant Run(Scan(total, current), duration[i..]) == Run(Scan(0, 0), duration)
    {
      var c := duration[i];
      assert duration[i..][1..] == duration[i + 1..];
      if c == 'P' || c == 'T' {
      } else if c == 'H' {
        total := total + current * 3600;
        current := 0;
      } else if c == 'M' {
        total := total + current * 60;
        current := 0;
      } else if c == 'S' {
        total := total + current;
        current := 0;
      } else if IsDigit(c) {
        current := current * 10 + DigitValue(c);
      }
      i := i + 1;
    }
  }

  /** Scanning a concatenation is scanning one part after the other. */
  lemma {:induction false} RunConcat(st: Scan, a: string, b: string)
    ensures Run(st, a + b) == Run(Run(st, a), b)
    decreases |a|
  {
    if a == [] {
      assert a + b == b;
    } else {
      assert (a + b)[1..] == a[1..] + b;
      RunConcat(Step(st, a[0]), a[1..], b);
    }
  }

  /** Reading the decimal form of `n` right after a designator leaves `n` pending. */
  lemma {:induction false} ReadNumber(total: nat, n: nat)
    ensures Run(Scan(total, 0), NatToString(n)) == Scan(total, n)
    decreases n
  {
    if n >= 10 {
      var d := [DigitChar(n % 10)];
      ReadNumber(total, n / 10);
      RunConcat(Scan(total, 0), NatToString(n / 10), d);
    }
  }

  /** Digits only change the pending number: digits after the last designator are dropped. */
  lemma {:induction false} DigitsKeepTotal(st: Scan, ds: string)
    requires AllDigits(ds)
    ensures Run(st, ds).total == st.total
    decreases |ds|
  {
    if ds != [] {
      DigitsKeepTotal(Step(st, ds[0]), ds[1..]);
    }
  }

  lemma TrailingDigitsDropped(s: string, ds: string)
    requires AllDigits(ds)
    ensures Duration(s + ds) == Duration(s)
  {
    RunConcat(Scan(0, 0), s, ds);
    DigitsKeepTotal(Run(Scan(0, 0), s), ds);
  }

  /** The ISO 8601 designator form for hours, minutes and seconds. */
  function FormatDuration(h: nat, m: nat, sec: nat): string {
    "PT" + NatToString(h) + "H" + NatToString(m) + "M" + NatToString(sec) + "S"
  }

  /** Every "PT<h>H<m>M<s>S" parses to the seconds it denotes. */
  lemma ParseFormatted(h: nat, m: nat, sec: nat)
    ensures Duration(FormatDuration(h, m, sec)) == 3600 * h + 60 * m + sec
  {
    var hs, ms, ss := NatToString(h), NatToString(m), NatToString(sec);
    var s0 := Scan(0, 0);
    RunConcat(s0, "PT", hs);
    ReadNumber(0, h);
    var s1 := Run(s0, "PT" + hs);
    RunConcat(s0, "PT" + hs, "H");
    var s2 := Run(s0, "PT" + hs + "H");
    assert s2 == Scan(3600 * h, 0);
    RunConcat(s0, "PT" + hs + "H", ms);
    ReadNumber(3600 * h, m);
    RunConcat(s0, "PT" + hs + "H" + ms, "M");
    var s4 := Run(s0, "PT" + hs + "H" + ms + "M");
    assert s4 == Scan(3600 * h + 60 * m, 0);
    RunConcat(s0, "PT" + hs + "H" + ms + "M", ss);
    ReadNumber(3600 * h + 60 * m, sec);
    RunConcat(s0, "PT" + hs + "H" + ms + "M" + ss, "S");
  }

  /** Worked cases: "PT1H2M3S", the empty string, trailing digits, and "P1M" read as minutes. */
  lemma DurationExamples()
    ensures Duration("PT1H2M3S") == 3723
    ensures Duration("") == 0
    ensures Duration("PT5") == 0
    ensures Duration("PT1M5") == 60
    ensures Duration("P1M") == 60
  {
  }
}
