/** The encoder-log listener of the MP4 export: it picks the `frame=\s*(\d+)` token, or
    failing that the `time=(\d+):(\d+):(\d+\.\d+)` token, out of a log line and turns it
    into a completion percentage. Numbers are exact (`int`, `real`) instead of IEEE doubles;
    the two non-finite results a double gives when the clip's duration is 0 are kept. */
module ProgressParser {
  import opened Base
  import opened Text

  /** The published progress value: a percentage, or NaN. */
  datatype Progress = Pct(value: real) | NaN

  /** JavaScript's `\s`: white space and line terminators. */
  predicate IsSpace(c: char)
  {
    c == ' ' || c == '\t' || c == '\n' || c == '\r' || c == '\U{B}' || c == '\U{C}'
    || c == '\U{A0}' || c == '\U{1680}' || ('\U{2000}' <= c <= '\U{200A}')
    || c == '\U{2028}' || c == '\U{2029}' || c == '\U{202F}' || c == '\U{205F}'
    || c == '\U{3000}' || c == '\U{FEFF}'
  }

  datatype CharClass = Digits | Spaces

  predicate InClass(cls: CharClass, c: char)
  {
    match cls
    case Digits => IsDigit(c)
    case Spaces => IsSpace(c)
  }

  /** Length of the longest run of `cls` characters starting at `i` (what a greedy
      `\d+`, `\d*` or `\s*` consumes there). */
  function Run(s: string, i: nat, cls: CharClass): (n: nat)
    requires i <= |s|
    ensures i + n <= |s|
    decreases |s| - i
  {
    if i < |s| && InClass(cls, s[i]) then 1 + Run(s, i + 1, cls) else 0
  }

  /** A run is greedy: every character in it is in the class, and the character after it,
      if any, is not. */
  lemma {:induction false} RunFacts(s: string, i: nat, cls: CharClass)
    requires i <= |s|
    ensures forall k :: i <= k < i + Run(s, i, cls) ==> InClass(cls, s[k])
    ensures i + Run(s, i, cls) < |s| ==> !InClass(cls, s[i + Run(s, i, cls)])
    decreases |s| - i
  {
    if i < |s| && InClass(cls, s[i]) {
      RunFacts(s, i + 1, cls);
    }
  }

  datatype Pattern = FramePattern | TimePattern

  /** The one-character literal `c` of a pattern, matched at index `i`. */
  predicate CharAt(s: string, i: nat, c: char)
  {
    i < |s| && s[i] == c
  }

  /** The capture groups of `p` matched by the text starting exactly at `i`, if it matches
      there. Each digit class before a literal or at the end is greedy and the literal that
      follows is not in its class, so at most one match starts at any index. */
  function MatchAt(p: Pattern, s: string, i: nat): (r: Option<seq<string>>)
    ensures r.Some? ==> OccursAt(s, if p == FramePattern then "frame=" else "time=", i)
    ensures r.Some? && p == FramePattern ==> |r.value| == 1 && |r.value[0]| > 0 && AllDigits(r.value[0])
    ensures r.Some? && p == TimePattern ==>
              && |r.value| == 3 && |r.value[0]| > 0 && AllDigits(r.value[0])
              && |r.value[1]| > 0 && AllDigits(r.value[1]) && IsDecimal(r.value[2])
  {
    match p
    case FramePattern =>
      // frame=\s*(\d+)
      if !OccursAt(s, "frame=", i) then None
      else
        var j := i + 6 + Run(s, i + 6, Spaces);
        var d := Run(s, j, Digits);
        if d == 0 then None
        else
          RunFacts(s, j, Digits);
          Some([s[j..j + d]])
    case TimePattern =>
      // time=(\d+):(\d+):(\d+\.\d+)
      if !OccursAt(s, "time=", i) then None
      else
        var h0 := i + 5;
        var h := Run(s, h0, Digits);
        if h == 0 || !CharAt(s, h0 + h, ':') then None
        else
          var m0 := h0 + h + 1;
          var m := Run(s, m0, Digits);
          if m == 0 || !CharAt(s, m0 + m, ':') then None
          else match DecimalAt(s, m0 + m + 1)
            case None => None
            case Some(sec) =>
              RunFacts(s, h0, Digits);
              RunFacts(s, m0, Digits);
              Some([s[h0..h0 + h], s[m0..m0 + m], sec])
  }

  /** The text matched by `\d+\.\d+` starting exactly at `s0`, if it matches there. */
  function DecimalAt(s: string, s0: nat): (r: Option<string>)
    requires s0 <= |s|
    ensures r.Some? ==> IsDecimal(r.value)
    ensures r.Some? ==> s0 + |r.value| <= |s| && s[s0..s0 + |r.value|] == r.value
    ensures r.Some? ==> s0 + |r.value| == |s| || !IsDigit(s[s0 + |r.value|])
  {
    var w := Run(s, s0, Digits);
    if w == 0 || !CharAt(s, s0 + w, '.') then None
    else
      var f := Run(s, s0 + w + 1, Digits);
      if f == 0 then None
      else
        DecimalSlice(s, s0, w, f);
        RunFacts(s, s0 + w + 1, Digits);
        Some(s[s0..s0 + w + 1 + f])
  }

  /** `s.match(p)`: the groups of the leftmost match at or after `from`. */
  function Exec(p: Pattern, s: string, from: nat): (r: Option<seq<string>>)
    ensures r.Some? ==> exists i :: from <= i && MatchAt(p, s, i) == r &&
                                    forall j :: from <= j < i ==> MatchAt(p, s, j).None?
    ensures r.None? ==> forall i :: from <= i ==> MatchAt(p, s, i).None?
    decreases |s| - from
  {
    if from > |s| then None
    else if MatchAt(p, s, from).Some? then MatchAt(p, s, from)
    else Exec(p, s, from + 1)
  }

  /** A decimal numeral "ddd.ddd" as matched by `\d+\.\d+`. */
  predicate IsDecimal(s: string)
  {
    var k := Run(s, 0, Digits);
    0 < k && k + 1 < |s| && s[k] == '.' && AllDigits(s[k + 1..])
  }

  function Pow10(n: nat): (r: nat)
    ensures r >= 1
  {
    if n == 0 then 1 else 10 * Pow10(n - 1)
  }

  /** `parseFloat` of a decimal numeral. */
  function DecimalValue(s: string): (r: real)
    requires IsDecimal(s)
    ensures r >= 0.0
  {
    var k := Run(s, 0, Digits);
    RunFacts(s, 0, Digits);
    assert AllDigits(s[..k]);
    DigitsValue(s[..k]) as real + DigitsValue(s[k + 1..]) as real / Pow10(|s| - k - 1) as real
  }

  lemma {:induction false} DecimalSlice(s: string, s0: nat, w: nat, f: nat)
    requires s0 + w + 1 <= |s| && w == Run(s, s0, Digits) && w > 0 && CharAt(s, s0 + w, '.')
    requires f == Run(s, s0 + w + 1, Digits) && f > 0
    ensures IsDecimal(s[s0..s0 + w + 1 + f])
  {
    var sec := s[s0..s0 + w + 1 + f];
    RunFacts(s, s0 + w + 1, Digits);
    RunOfSlice(s, s0, s0 + w + 1 + f, w);
    assert sec[w] == s[s0 + w];
    assert sec[w + 1..] == s[s0 + w + 1..s0 + w + 1 + f];
  }

  /** A digit run of a slice is the digit run of the string, cut at the slice's end. */
  lemma {:induction false} RunOfSlice(s: string, lo: nat, hi: nat, n: nat)
    requires lo <= hi <= |s| && lo + n < hi
    requires n == Run(s, lo, Digits)
    ensures Run(s[lo..hi], 0, Digits) == n
    decreases n
  {
    if n > 0 {
      RunOfSlice(s, lo + 1, hi, n - 1);
      var t := s[lo..hi];
      assert t[1..] == s[lo + 1..hi];
      RunShift(t, 1, n - 1);
    }
  }

  /** Dropping the first character shifts the runs by one. */
  lemma {:induction false} RunShift(t: string, i: nat, n: nat)
    requires 1 <= i <= |t|
    requires Run(t[1..], i - 1, Digits) == n
    ensures Run(t, i, Digits) == n
    decreases n
  {
    if n > 0 {
      assert t[1..][i - 1] == t[i];
      RunShift(t, i + 1, n - 1);
    } else if i < |t| {
      assert t[1..][i - 1] == t[i];
    }
  }

  /** `Math.max(1, duration * fps)`, the expected number of encoded frames. */
  function TotalFrames(duration: nat, fps: nat): (t: nat)
    ensures t >= 1 && t >= duration * fps
    ensures t == 1 || t == duration * fps
  {
    if duration * fps > 1 then duration * fps else 1
  }

  /** `Math.min(x, 100)`. */
  function Min100(x: real): real
  {
    if x < 100.0 then x else 100.0
  }

  /** The frame-based percentage. */
  function FramePercent(frame: nat, totalFrames: nat): (r: real)
    requires totalFrames >= 1
    ensures 0.0 <= r <= 100.0
    ensures frame >= totalFrames ==> r == 100.0
    ensures frame < totalFrames ==> r * (totalFrames as real) == (frame as real) * 100.0
  {
    Min100(frame as real / totalFrames as real * 100.0)
  }

  /** The time-based percentage against the clip duration. A zero duration divides by
      zero: a positive time gives +Infinity, clamped to 100 by `Math.min`, and a zero time
      gives NaN, which `Math.min` passes through. */
  function TimePercent(seconds: real, duration: nat): (r: Progress)
    requires seconds >= 0.0
    ensures r.Pct? ==> 0.0 <= r.value <= 100.0
    ensures r.NaN? <==> duration == 0 && seconds == 0.0
    ensures duration == 0 && seconds > 0.0 ==> r == Pct(100.0)
    ensures duration > 0 && seconds >= duration as real ==> r == Pct(100.0)
    ensures duration > 0 && seconds < duration as real ==> r.Pct? && r.value * (duration as real) == seconds * 100.0
  {
    if duration > 0 then Pct(Min100(seconds / duration as real * 100.0))
    else if seconds > 0.0 then Pct(100.0)
    else NaN
  }

  /** Seconds of a `time=` capture: h * 3600 + m * 60 + s. */
  function TokenSeconds(groups: seq<string>): (r: real)
    requires |groups| == 3 && AllDigits(groups[0]) && AllDigits(groups[1]) && IsDecimal(groups[2])
    ensures r >= 0.0
  {
    (DigitsValue(groups[0]) * 3600 + DigitsValue(groups[1]) * 60) as real + DecimalValue(groups[2])
  }

  /** What one log line does to the published progress: None leaves it as it is, Some(p)
      overwrites it with p. */
  function LineProgress(line: string, duration: nat, totalFrames: nat): (r: Option<Progress>)
    requires totalFrames >= 1
    ensures r.Some? ==> Includes(line, "frame=") && Includes(line, "time=")
    ensures r.Some? && r.value.Pct? ==> 0.0 <= r.value.value <= 100.0
    ensures r == Some(NaN) ==> duration == 0 && Exec(FramePattern, line, 0).None?
    ensures Includes(line, "frame=") && Includes(line, "time=") && Exec(FramePattern, line, 0).Some?
            ==> r.Some? && r.value.Pct?
    ensures Exec(FramePattern, line, 0).None? && Exec(TimePattern, line, 0).None? ==> r.None?
  {
    if !(Includes(line, "frame=") && Includes(line, "time=")) then None
    else match Exec(FramePattern, line, 0)
      case Some(groups) =>
        ExecShape(FramePattern, line);
        Some(Pct(FramePercent(DigitsValue(groups[0]), totalFrames)))
      case None =>
        match Exec(TimePattern, line, 0)
        case Some(groups) =>
          ExecShape(TimePattern, line);
          Some(TimePercent(TokenSeconds(groups), duration))
        case None => None
  }

  /** A block of `cls` characters ended by the end of the text or by another character
      is one run. */
  lemma {:induction false} RunOfBlock(s: string, i: nat, n: nat, cls: CharClass)
    requires i + n <= |s|
    requires forall k :: i <= k < i + n ==> InClass(cls, s[k])
    requires i + n < |s| ==> !InClass(cls, s[i + n])
    ensures Run(s, i, cls) == n
    decreases n
  {
    if n > 0 {
      RunOfBlock(s, i + 1, n - 1, cls);
    }
  }

  /** `parseFloat` of "w.f" is the whole part plus the fraction digits over ten to their
      number. */
  lemma DecimalValueOf(w: string, f: string)
    requires |w| > 0 && AllDigits(w) && |f| > 0 && AllDigits(f)
    ensures IsDecimal(w + "." + f)
    ensures DecimalValue(w + "." + f) == DigitsValue(w) as real + DigitsValue(f) as real / Pow10(|f|) as real
  {
    var s := w + "." + f;
    RunOfBlock(s, 0, |w|, Digits);
    assert s[..|w|] == w;
    assert s[|w| + 1..] == f;
  }

  /** When the leftmost match of `p` from `from` starts at `k`, `match` yields its groups. */
  lemma ExecFinds(p: Pattern, s: string, from: nat, k: nat)
    requires from <= k && MatchAt(p, s, k).Some?
    requires forall j :: from <= j < k ==> MatchAt(p, s, j).None?
    ensures Exec(p, s, from) == MatchAt(p, s, k)
  {
    var r := Exec(p, s, from);
    assert r.Some?;
    var i :| from <= i && MatchAt(p, s, i) == r && forall j :: from <= j < i ==> MatchAt(p, s, j).None?;
    assert i >= k;
    assert i <= k;
  }

  lemma ExecShape(p: Pattern, s: string)
    requires Exec(p, s, 0).Some?
    ensures p == FramePattern ==> |Exec(p, s, 0).value| == 1 && AllDigits(Exec(p, s, 0).value[0])
    ensures p == TimePattern ==> |Exec(p, s, 0).value| == 3 && AllDigits(Exec(p, s, 0).value[0])
                                 && AllDigits(Exec(p, s, 0).value[1]) && IsDecimal(Exec(p, s, 0).value[2])
  {
    var i :| 0 <= i && MatchAt(p, s, i) == Exec(p, s, 0);
  }
}

module ProgressExamples {
  import opened Base
  import opened Text
  import opened ProgressParser

  lemma IncludesAt(s: string, pat: string, i: nat)
    requires OccursAt(s, pat, i)
    ensures Includes(s, pat)
  {
  }

  lemma IncludesInSuffix(prefix: string, rest: string, pat: string)
    requires Includes(rest, pat)
    ensures Includes(prefix + rest, pat)
  {
    var j := IndexOf(rest, pat, 0).value;
    var s := prefix + rest;
    assert s[|prefix| + j..|prefix| + j + |pat|] == rest[j..j + |pat|];
    assert OccursAt(s, pat, |prefix| + j);
  }

  /** Any line that starts with a frame token, "frame=", optional white space and a frame
      number, and that mentions "time=" later, sets the progress to the frame-based
      percentage of that number. */
  lemma FrameLine(sp: string, digits: string, rest: string, duration: nat, totalFrames: nat)
    requires forall k :: 0 <= k < |sp| ==> IsSpace(sp[k])
    requires |digits| > 0 && AllDigits(digits)
    requires |rest| > 0 && !IsDigit(rest[0]) && Includes(rest, "time=")
    requires totalFrames >= 1
    ensures LineProgress("frame=" + sp + digits + rest, duration, totalFrames)
            == Some(Pct(FramePercent(DigitsValue(digits), totalFrames)))
  {
    var line := "frame=" + sp + digits + rest;
    assert line[..6] == "frame=";
    assert OccursAt(line, "frame=", 0);
    var j := 6 + |sp|;
    assert line[j..j + |digits|] == digits;
    assert line[j + |digits|] == rest[0];
    if |digits| > 0 {
      assert line[j] == digits[0];
    }
    RunOfBlock(line, 6, |sp|, Spaces);
    RunOfBlock(line, j, |digits|, Digits);
    assert MatchAt(FramePattern, line, 0) == Some([digits]);
    IncludesAt(line, "frame=", 0);
    IncludesInSuffix("frame=" + sp + digits, rest, "time=");
  }

  /** Any line whose frame pattern matches, wherever the match lies, reports the frame-based
      percentage of the captured number. */
  lemma FrameMatchLine(line: string, d: string, duration: nat, totalFrames: nat)
    requires Includes(line, "frame=") && Includes(line, "time=")
    requires Exec(FramePattern, line, 0) == Some([d]) && totalFrames >= 1
    ensures AllDigits(d)
    ensures LineProgress(line, duration, totalFrames)
            == Some(Pct(FramePercent(DigitsValue(d), totalFrames)))
  {
    ExecShape(FramePattern, line);
  }

  /** A digit block ended by the end of the text or by a non-digit is the digit run there. */
  lemma DigitBlock(s: string, o: nat, d: string)
    requires o + |d| <= |s| && s[o..o + |d|] == d && AllDigits(d)
    requires o + |d| < |s| ==> !IsDigit(s[o + |d|])
    ensures Run(s, o, Digits) == |d|
  {
    forall k | o <= k < o + |d|
      ensures InClass(Digits, s[k])
    {
      assert s[k] == s[o..o + |d|][k - o];
    }
    RunOfBlock(s, o, |d|, Digits);
  }

  /** The seconds a clock "hh:mm:w.f" stands for: hours times 3600, plus minutes times
      60, plus the whole seconds and the fraction digits over ten to their number. */
  function ClockValue(hh: string, mm: string, w: string, f: string): (r: real)
    requires AllDigits(hh) && AllDigits(mm) && AllDigits(w) && AllDigits(f)
    ensures r >= 0.0
  {
    (DigitsValue(hh) * 3600 + DigitsValue(mm) * 60) as real
    + (DigitsValue(w) as real + DigitsValue(f) as real / Pow10(|f|) as real)
  }

  /** The text holds the clock token "time=hh:mm:w.f" at `t0`, its last digit block ended
      by the end of the text or by a non-digit. */
  predicate ClockAt(s: string, t0: nat, hh: string, mm: string, w: string, f: string)
  {
    var h0, m0, w0, f0 := t0 + 5, t0 + 6 + |hh|, t0 + 7 + |hh| + |mm|, t0 + 8 + |hh| + |mm| + |w|;
    && OccursAt(s, "time=", t0)
    && f0 + |f| <= |s|
    && s[h0..h0 + |hh|] == hh && CharAt(s, h0 + |hh|, ':')
    && s[m0..m0 + |mm|] == mm && CharAt(s, m0 + |mm|, ':')
    && s[w0..w0 + |w|] == w && CharAt(s, w0 + |w|, '.')
    && s[f0..f0 + |f|] == f
    && (f0 + |f| == |s| || !IsDigit(s[f0 + |f|]))
  }

  /** A well-formed clock token matches the time pattern where it starts, with its hours,
      minutes and seconds as the groups. */
  lemma ClockMatch(s: string, t0: nat, hh: string, mm: string, w: string, f: string)
    requires |hh| > 0 && AllDigits(hh) && |mm| > 0 && AllDigits(mm)
    requires |w| > 0 && AllDigits(w) && |f| > 0 && AllDigits(f)
    requires ClockAt(s, t0, hh, mm, w, f)
    ensures MatchAt(TimePattern, s, t0) == Some([hh, mm, w + "." + f])
  {
    ClockRuns(s, t0, hh, mm, w, f);
    TimeAtBlocks(s, t0, |hh|, |mm|, t0 + 7 + |hh| + |mm|, w + "." + f);
  }

  /** The digit runs and the decimal of a clock token's blocks. */
  lemma ClockRuns(s: string, t0: nat, hh: string, mm: string, w: string, f: string)
    requires |hh| > 0 && AllDigits(hh) && |mm| > 0 && AllDigits(mm)
    requires |w| > 0 && AllDigits(w) && |f| > 0 && AllDigits(f)
    requires ClockAt(s, t0, hh, mm, w, f)
    ensures Run(s, t0 + 5, Digits) == |hh| && Run(s, t0 + 6 + |hh|, Digits) == |mm|
    ensures DecimalAt(s, t0 + 7 + |hh| + |mm|) == Some(w + "." + f)
  {
    var h0, m0, w0, f0 := t0 + 5, t0 + 6 + |hh|, t0 + 7 + |hh| + |mm|, t0 + 8 + |hh| + |mm| + |w|;
    DigitBlock(s, h0, hh);
    DigitBlock(s, m0, mm);
    DigitBlock(s, w0, w);
    DigitBlock(s, f0, f);
    DecimalAtBlocks(s, w0, w, f);
  }

  /** Digits, a point and digits, each block ended by a non-digit, are a decimal there. */
  lemma DecimalAtBlocks(s: string, o: nat, w: string, f: string)
    requires |w| > 0 && |f| > 0 && o + |w| + 1 + |f| <= |s|
    requires s[o..o + |w|] == w && s[o + |w|] == '.' && s[o + |w| + 1..o + |w| + 1 + |f|] == f
    requires Run(s, o, Digits) == |w| && Run(s, o + |w| + 1, Digits) == |f|
    ensures DecimalAt(s, o) == Some(w + "." + f)
  {
    assert s[o..o + |w| + 1 + |f|] == w + "." + f;
  }

  /** "time=", a digit run ended by ":", a digit run ended by ":" and a decimal are a
      match of the time pattern. */
  lemma TimeAtBlocks(s: string, t0: nat, h: nat, m: nat, d0: nat, sec: string)
    requires d0 == t0 + 5 + h + 1 + m + 1 <= |s| && h > 0 && m > 0
    requires OccursAt(s, "time=", t0)
    requires Run(s, t0 + 5, Digits) == h && CharAt(s, t0 + 5 + h, ':')
    requires Run(s, t0 + 5 + h + 1, Digits) == m && CharAt(s, t0 + 5 + h + 1 + m, ':')
    requires DecimalAt(s, d0) == Some(sec)
    ensures MatchAt(TimePattern, s, t0) == Some([s[t0 + 5..t0 + 5 + h], s[t0 + 5 + h + 1..t0 + 5 + h + 1 + m], sec])
  {
    var h0 := t0 + 5;
    var m0 := h0 + h + 1;
    assert Run(s, h0, Digits) == h && CharAt(s, h0 + h, ':');
    assert Run(s, m0, Digits) == m && CharAt(s, m0 + m, ':');
    assert DecimalAt(s, m0 + m + 1) == Some(sec);
  }

  /** Any line that mentions "frame=" without a frame number, and whose first "time="
      token is a well-formed "hh:mm:w.f" clock, sets the progress to the time-based
      percentage of that clock. */
  lemma TimeLine(line: string, t0: nat, hh: string, mm: string, w: string, f: string,
                 duration: nat, totalFrames: nat)
    requires |hh| > 0 && AllDigits(hh) && |mm| > 0 && AllDigits(mm)
    requires |w| > 0 && AllDigits(w) && |f| > 0 && AllDigits(f)
    requires Includes(line, "frame=") && Exec(FramePattern, line, 0).None?
    requires ClockAt(line, t0, hh, mm, w, f)
    requires forall i :: 0 <= i < t0 ==> !OccursAt(line, "time=", i)
    requires totalFrames >= 1
    ensures LineProgress(line, duration, totalFrames) == Some(TimePercent(ClockValue(hh, mm, w, f), duration))
  {
    ClockMatch(line, t0, hh, mm, w, f);
    NoMatchBefore(line, t0);
    ExecFinds(TimePattern, line, 0, t0);
    IncludesAt(line, "time=", t0);
    TimeFallback(line, duration, totalFrames, hh, mm, w, f);
  }

  /** Where "time=" does not occur, the time pattern does not match. */
  lemma NoMatchBefore(s: string, k: nat)
    requires forall i :: 0 <= i < k ==> !OccursAt(s, "time=", i)
    ensures forall i :: 0 <= i < k ==> MatchAt(TimePattern, s, i).None?
  {
  }

  /** A line with both tokens and no frame number takes the time-based percentage. */
  lemma TimeFallback(line: string, duration: nat, totalFrames: nat, hh: string, mm: string, w: string, f: string)
    requires totalFrames >= 1
    requires Includes(line, "frame=") && Includes(line, "time=")
    requires |hh| > 0 && AllDigits(hh) && |mm| > 0 && AllDigits(mm)
    requires |w| > 0 && AllDigits(w) && |f| > 0 && AllDigits(f)
    requires Exec(FramePattern, line, 0).None?
    requires Exec(TimePattern, line, 0) == Some([hh, mm, w + "." + f])
    ensures LineProgress(line, duration, totalFrames)
            == Some(TimePercent(ClockValue(hh, mm, w, f), duration))
  {
    var groups := Exec(TimePattern, line, 0).value;
    ExecShape(TimePattern, line);
    ClockPercent(groups, hh, mm, w, f, duration);
  }

  /** The seconds, and so the percentage, of a clock "hh:mm:w.f". */
  lemma ClockPercent(groups: seq<string>, hh: string, mm: string, w: string, f: string, duration: nat)
    requires |groups| == 3 && groups[0] == hh && groups[1] == mm && groups[2] == w + "." + f
    requires |hh| > 0 && AllDigits(hh) && |mm| > 0 && AllDigits(mm)
    requires |w| > 0 && AllDigits(w) && |f| > 0 && AllDigits(f)
    ensures IsDecimal(groups[2])
    ensures TokenSeconds(groups) == ClockValue(hh, mm, w, f)
    ensures TimePercent(TokenSeconds(groups), duration)
            == TimePercent(ClockValue(hh, mm, w, f), duration)
  {
    DecimalValueOf(w, f);
  }

  lemma TwoDigits(s: string, v: nat)
    requires |s| == 2 && IsDigit(s[0]) && IsDigit(s[1])
    requires v == DigitValue(s[0]) * 10 + DigitValue(s[1])
    ensures AllDigits(s) && DigitsValue(s) == v
  {
    assert s[..1][..0] == [];
    assert s[..1][0] == s[0];
    assert DigitsValue(s[..1]) == DigitValue(s[0]);
  }

  /** The frame percentage at frame 45 of 90 is one half. */
  lemma HalfWay()
    ensures FramePercent(45, TotalFrames(3, 30)) == 50.0
  {
  }

  /** The encoder's progress line for frame 45 of a 3-second clip at 30 fps reads 50%. */
  lemma FrameExample()
    ensures LineProgress("frame=" + "   " + "45" + (" fps=0 q=28.0 size=N/A " + "time=00:00:01.50"),
                         3, TotalFrames(3, 30)) == Some(Pct(50.0))
  {
    var stats, time := " fps=0 q=28.0 size=N/A ", "time=00:00:01.50";
    assert time[..5] == "time=";
    IncludesAt(time, "time=", 0);
    IncludesInSuffix(stats, time, "time=");
    TwoDigits("45", 45);
    HalfWay();
    FrameLine("   ", "45", stats + time, 3, TotalFrames(3, 30));
  }

  /** A line whose "frame=" token carries "N/A" falls back on its clock: 1.5 seconds of a
      3-second clip read 50%. */
  lemma TimeExample()
    ensures LineProgress("frame=N/A " + "time=00:00:01.50", 3, TotalFrames(3, 30)) == Some(Pct(50.0))
  {
    var line := "frame=N/A " + "time=00:00:01.50";
    assert line[..6] == "frame=";
    IncludesAt(line, "frame=", 0);
    NoFrameNumber(line);
    ExampleClock(line);
    NoTimeBefore(line);
    ExampleSeconds();
    TimeLine(line, 10, "00", "00", "01", "50", 3, TotalFrames(3, 30));
  }

  /** The clock of "frame=N/A time=00:00:01.50" starts at 10. */
  lemma ExampleClock(line: string)
    requires line == "frame=N/A " + "time=00:00:01.50"
    ensures ClockAt(line, 10, "00", "00", "01", "50")
  {
    assert line[10..15] == "time=";
    assert line[15..17] == "00" && line[18..20] == "00";
    assert line[21..23] == "01" && line[24..26] == "50";
  }

  /** "frame=N/A " has no 't', so no "time=" starts before the clock. */
  lemma NoTimeBefore(line: string)
    requires line == "frame=N/A " + "time=00:00:01.50"
    ensures forall i :: 0 <= i < 10 ==> !OccursAt(line, "time=", i)
  {
    var pre := "frame=N/A ";
    assert line[..10] == pre;
    assert 't' !in pre;
    forall i | 0 <= i < 10
      ensures !OccursAt(line, "time=", i)
    {
      assert line[i..i + 5][0] == pre[i];
    }
  }

  /** 00:00:01.50 is 1.5 seconds, half of a 3-second clip. */
  lemma ExampleSeconds()
    ensures ClockValue("00", "00", "01", "50") == 1.5
    ensures TimePercent(ClockValue("00", "00", "01", "50"), 3) == Pct(50.0)
  {
    TwoDigits("00", 0);
    TwoDigits("01", 1);
    TwoDigits("50", 50);
    assert Pow10(2) == 100;
  }

  /** "frame=N/A ..." has no frame number: "frame=" occurs only at 0, followed by 'N'. */
  lemma NoFrameNumber(line: string)
    requires line == "frame=N/A " + "time=00:00:01.50"
    ensures Exec(FramePattern, line, 0).None?
  {
    assert line[..6] == "frame=" && line[6] == 'N';
    FrameWithoutNumber(line, 0);
    NoFrameAfter(line);
  }

  /** "frame=" followed by neither white space nor a digit is not a frame token. */
  lemma FrameWithoutNumber(s: string, i: nat)
    requires OccursAt(s, "frame=", i) && i + 6 < |s| && !IsSpace(s[i + 6]) && !IsDigit(s[i + 6])
    ensures MatchAt(FramePattern, s, i).None?
  {
  }

  /** The only 'f' of "frame=N/A ..." is its first character. */
  lemma NoFrameAfter(line: string)
    requires line == "frame=N/A " + "time=00:00:01.50"
    ensures forall i :: 0 < i ==> MatchAt(FramePattern, line, i).None?
  {
    var tail := "rame=N/A time=00:00:01.50";
    assert line == "f" + tail;
    assert 'f' !in tail;
    forall i | 0 < i
      ensures MatchAt(FramePattern, line, i).None?
    {
      if i + 6 <= |line| {
        assert line[i..i + 6][0] == tail[i - 1];
      }
    }
  }

  /** Each line overwrites the shown percentage: a later line with a smaller frame count
      lowers it, so the displayed progress is not monotone. */
  lemma ProgressCanDecrease()
    ensures LineProgress("frame=" + "" + "60" + (" " + "time=00:00:02.00"), 3, 90) == Some(Pct(200.0 / 3.0))
    ensures LineProgress("frame=" + "" + "30" + (" " + "time=00:00:01.00"), 3, 90) == Some(Pct(100.0 / 3.0))
  {
    var t2, t1 := "time=00:00:02.00", "time=00:00:01.00";
    assert t2[..5] == "time=";
    assert t1[..5] == "time=";
    IncludesAt(t2, "time=", 0);
    IncludesAt(t1, "time=", 0);
    IncludesInSuffix(" ", t2, "time=");
    IncludesInSuffix(" ", t1, "time=");
    TwoDigits("60", 60);
    TwoDigits("30", 30);
    FrameLine("", "60", " " + t2, 3, 90);
    FrameLine("", "30", " " + t1, 3, 90);
  }
}
