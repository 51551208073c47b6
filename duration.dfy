/**
 * The duration probe's text parsing: the first match of
 * `/Duration: (\d+):(\d+):(\d+\.\d+)/` in ffmpeg's diagnostic output,
 * converted to whole milliseconds as
 * `parseInt(h) * 3600 * 1000 + parseInt(m) * 60 * 1000 + Math.round(parseFloat(s) * 1000)`.
 *
 * Each group of the pattern is a greedy digit run that must be followed by
 * `:` or `.` (or, for the last one, by nothing in particular), so a match at a
 * position always takes the maximal digit runs there; the regular expression
 * returns the leftmost position at which such a match exists. Seconds are
 * kept as an exact decimal: integer digits plus fraction digits.
 */
module Duration {
  import opened Wrappers

  const Label: string := "Duration: "

  predicate IsDigit(c: char) {
    '0' <= c <= '9'
  }

  predicate AllDigits(s: string) {
    forall i :: 0 <= i < |s| ==> IsDigit(s[i])
  }

  function DigitValue(c: char): nat
    requires IsDigit(c)
  {
    (c as int - '0' as int) as nat
  }

  function Pow10(k: nat): (r: nat)
    ensures r >= 1
  {
    if k == 0 then 1 else 10 * Pow10(k - 1)
  }

  /** `parseInt` of a string of decimal digits (leading zeros allowed). */
  function DecimalValue(ds: string): (r: nat)
    requires AllDigits(ds)
    ensures r < Pow10(|ds|)
  {
    if ds == [] then 0
    else DecimalValue(ds[..|ds| - 1]) * 10 + DigitValue(ds[|ds| - 1])
  }

  /** The length of the maximal run of digits at the start of `t`. */
  function LeadingDigits(t: string): (n: nat)
    ensures n <= |t|
    ensures forall k :: 0 <= k < n ==> IsDigit(t[k])
    ensures n == |t| || !IsDigit(t[n])
  {
    if t != [] && IsDigit(t[0]) then 1 + LeadingDigits(t[1..]) else 0
  }

  /** The four captured groups of one match: hours, minutes, whole seconds, fraction. */
  datatype Fields = Fields(hours: string, minutes: string, seconds: string, fraction: string)

  predicate WellFormed(f: Fields) {
    && |f.hours| > 0 && AllDigits(f.hours)
    && |f.minutes| > 0 && AllDigits(f.minutes)
    && |f.seconds| > 0 && AllDigits(f.seconds)
    && |f.fraction| > 0 && AllDigits(f.fraction)
  }

  predicate StartsWithLabel(t: string) {
    |Label| <= |t| && t[..|Label|] == Label
  }

  predicate LabelAt(s: string, p: nat) {
    p <= |s| && StartsWithLabel(s[p..])
  }

  predicate ContainsLabel(s: string) {
    exists p: nat :: p <= |s| && LabelAt(s, p)
  }

  /**
   * A greedy group `(\d+)` at the start of `t` followed by `sep`: the digits
   * and the text after the separator. The maximal run must be followed by
   * `sep`; a shorter run would be followed by a digit, never by `sep`.
   */
  function Group(t: string, sep: char): (r: Option<(string, string)>)
    ensures r.Some? ==> |r.value.0| > 0 && AllDigits(r.value.0) && t == r.value.0 + [sep] + r.value.1
  {
    var n := LeadingDigits(t);
    if 0 < n < |t| && t[n] == sep then
      assert t == t[..n] + [sep] + t[n + 1..];
      Some((t[..n], t[n + 1..]))
    else None
  }

  /** The regular expression anchored at the start of `t`. */
  function MatchPrefix(t: string): (r: Option<Fields>)
    ensures r.Some? ==> StartsWithLabel(t) && WellFormed(r.value)
  {
    if !StartsWithLabel(t) then None
    else
      match Group(t[|Label|..], ':')
      case None => None
      case Some((h, r1)) =>
        match Group(r1, ':')
        case None => None
        case Some((m, r2)) =>
          match Group(r2, '.')
          case None => None
          case Some((sec, r3)) =>
            var n := LeadingDigits(r3);
            if n == 0 then None else Some(Fields(h, m, sec, r3[..n]))
  }

  /** The regular expression anchored at position `p` of `s`. */
  function MatchAt(s: string, p: nat): (r: Option<Fields>)
    requires p <= |s|
    ensures r.Some? ==> LabelAt(s, p) && WellFormed(r.value)
  {
    MatchPrefix(s[p..])
  }

  /** The leftmost position at or after `p` where the pattern matches. */
  function FirstMatchFrom(s: string, p: nat): (r: Option<nat>)
    requires p <= |s|
    ensures r.Some? ==> p <= r.value <= |s| && MatchAt(s, r.value).Some?
    decreases |s| - p
  {
    if MatchAt(s, p).Some? then Some(p)
    else if p == |s| then None
    else FirstMatchFrom(s, p + 1)
  }

  /** The position found is the leftmost match; None means no position from `p` on matches. */
  lemma {:induction false} FirstMatchLeftmost(s: string, p: nat)
    requires p <= |s|
    ensures var r := FirstMatchFrom(s, p);
      && (r.Some? ==> forall q :: p <= q < r.value ==> MatchAt(s, q).None?)
      && (r.None? ==> forall q :: p <= q <= |s| ==> MatchAt(s, q).None?)
    decreases |s| - p
  {
    var here := MatchAt(s, p);
    if here.None? && p < |s| {
      var r := FirstMatchFrom(s, p + 1);
      assert FirstMatchFrom(s, p) == r;
      FirstMatchLeftmost(s, p + 1);
      if r.Some? {
        forall q | p <= q < r.value ensures MatchAt(s, q).None? {
          if q == p {
            assert MatchAt(s, q) == here;
          }
        }
      } else {
        forall q | p <= q <= |s| ensures MatchAt(s, q).None? {
          if q == p {
            assert MatchAt(s, q) == here;
          }
        }
      }
    }
  }

  /**
   * Floor division `a / b` of naturals by repeated subtraction; written
   * recursively so that the solver meets it one step at a time.
   */
  function Quotient(a: nat, b: nat): nat
    requires b > 0
    decreases a
  {
    if a < b then 0 else 1 + Quotient(a - b, b)
  }

  lemma {:induction false} QuotientBounds(a: nat, b: nat)
    requires b > 0
    ensures b * Quotient(a, b) <= a < b * (Quotient(a, b) + 1)
    decreases a
  {
    if a >= b {
      QuotientBounds(a - b, b);
    }
  }

  /** `Math.round(num / den)` for non-negative values: halves round up. */
  function RoundHalfUp(num: nat, den: nat): nat
    requires den > 0
  {
    Quotient(2 * num + den, 2 * den)
  }

  /** `RoundHalfUp(num, den)` is the integer nearest to `num / den`, halves going up. */
  lemma {:induction false} RoundHalfUpNearest(num: nat, den: nat)
    requires den > 0
    ensures var r := RoundHalfUp(num, den);
      2 * den * r <= 2 * num + den < 2 * den * (r + 1)
  {
    QuotientBounds(2 * num + den, 2 * den);
  }

  /** The seconds group `ss.ff` in milliseconds, rounded to the nearest one. */
  function SecondsMillis(seconds: string, fraction: string): nat
    requires AllDigits(seconds) && AllDigits(fraction)
  {
    DecimalValue(seconds) * 1000 + RoundHalfUp(DecimalValue(fraction) * 1000, Pow10(|fraction|))
  }

  lemma {:induction false} ScaleLess(c: nat, a: nat, b: nat)
    requires c > 0 && c * a < c * b
    ensures a < b
  {
  }

  lemma {:induction false} ScaleLeq(c: nat, a: nat, b: nat)
    requires a <= b
    ensures c * a <= c * b
  {
  }

  /** The fraction of a second contributes between 0 and 1000 milliseconds. */
  lemma {:induction false} FractionMillisBound(fraction: string)
    requires AllDigits(fraction)
    ensures RoundHalfUp(DecimalValue(fraction) * 1000, Pow10(|fraction|)) <= 1000
  {
    var f, d := DecimalValue(fraction), Pow10(|fraction|);
    var r := RoundHalfUp(f * 1000, d);
    RoundHalfUpNearest(f * 1000, d);
    ScaleLeq(2000, f, d - 1);
    assert 2 * d * r < 2 * d * 1001;
    ScaleLess(2 * d, r, 1001);
  }

  function ToMillis(f: Fields): nat
    requires WellFormed(f)
  {
    DecimalValue(f.hours) * 3600000 + DecimalValue(f.minutes) * 60000
      + SecondsMillis(f.seconds, f.fraction)
  }

  /**
   * The probe's parse: the milliseconds of the first `Duration:` match, or
   * None when there is no match (the metadata record then stays undefined).
   */
  function ParseDuration(text: string): Option<nat> {
    match FirstMatchFrom(text, 0)
    case None => None
    case Some(p) => Some(ToMillis(MatchAt(text, p).value))
  }

  /** A duration is found exactly when the pattern matches somewhere, and only where the label occurs. */
  lemma {:induction false} ParseDurationFound(text: string)
    ensures ParseDuration(text).Some? <==> exists p: nat :: p <= |text| && MatchAt(text, p).Some?
    ensures ParseDuration(text).Some? ==> ContainsLabel(text)
  {
    FirstMatchLeftmost(text, 0);
    match FirstMatchFrom(text, 0)
    case None =>
    case Some(p) =>
      assert LabelAt(text, p);
  }

  /** Text without the label yields no duration. */
  lemma {:induction false} NoLabelNoDuration(text: string)
    requires !ContainsLabel(text)
    ensures ParseDuration(text) == None
  {
    ParseDurationFound(text);
  }

  /** A parsed duration lies within the whole seconds the match names, plus one second. */
  lemma {:induction false} ParseDurationBounds(text: string)
    requires ParseDuration(text).Some?
    ensures var f := MatchAt(text, FirstMatchFrom(text, 0).value).value;
      var base := DecimalValue(f.hours) * 3600000 + DecimalValue(f.minutes) * 60000
        + DecimalValue(f.seconds) * 1000;
      base <= ParseDuration(text).value <= base + 1000
  {
    var f := MatchAt(text, FirstMatchFrom(text, 0).value).value;
    FractionMillisBound(f.fraction);
  }

  /** A maximal digit run is recognised by its length. */
  lemma {:induction false} LeadingDigitsOf(ds: string, rest: string)
    requires AllDigits(ds)
    requires rest == [] || !IsDigit(rest[0])
    ensures LeadingDigits(ds + rest) == |ds|
  {
    var t := ds + rest;
    assert forall k :: 0 <= k < |ds| ==> t[k] == ds[k];
    assert |ds| < |t| ==> t[|ds|] == rest[0];
  }

  lemma {:induction false} GroupOf(ds: string, sep: char, rest: string)
    requires |ds| > 0 && AllDigits(ds) && !IsDigit(sep)
    ensures Group(ds + ([sep] + rest), sep) == Some((ds, rest))
  {
    var t := ds + ([sep] + rest);
    LeadingDigitsOf(ds, [sep] + rest);
    assert t[..|ds|] == ds && t[|ds| + 1..] == rest;
  }

  /** The text ffmpeg prints for a duration: `Duration: <h>:<m>:<s>.<f>`. */
  function DurationText(f: Fields): string {
    Label + f.hours + ":" + f.minutes + ":" + f.seconds + "." + f.fraction
  }

  /** The text after the label, grouped the way the pattern reads it. */
  function Tail(f: Fields, post: string): string {
    f.hours + (":" + (f.minutes + (":" + (f.seconds + ("." + (f.fraction + post))))))
  }

  lemma {:induction false} DurationTextTail(f: Fields, post: string)
    ensures DurationText(f) + post == Label + Tail(f, post)
  {
  }

  /** The three separated groups and the fraction's digit run, read off the tail. */
  lemma {:induction false} GroupsOfTail(f: Fields, post: string)
    requires WellFormed(f)
    requires post == [] || !IsDigit(post[0])
    ensures var r3 := f.fraction + post;
      var r2 := f.seconds + ("." + r3);
      var r1 := f.minutes + (":" + r2);
      && Group(Tail(f, post), ':') == Some((f.hours, r1))
      && Group(r1, ':') == Some((f.minutes, r2))
      && Group(r2, '.') == Some((f.seconds, r3))
      && LeadingDigits(r3) == |f.fraction| && r3[..|f.fraction|] == f.fraction
  {
    var r3 := f.fraction + post;
    var r2 := f.seconds + ("." + r3);
    var r1 := f.minutes + (":" + r2);
    GroupOf(f.hours, ':', r1);
    GroupOf(f.minutes, ':', r2);
    GroupOf(f.seconds, '.', r3);
    LeadingDigitsOf(f.fraction, post);
  }

  /** The pattern matches a duration text followed by anything but another digit. */
  lemma {:induction false} MatchPrefixOf(f: Fields, post: string)
    requires WellFormed(f)
    requires post == [] || !IsDigit(post[0])
    ensures MatchPrefix(DurationText(f) + post) == Some(f)
  {
    var t := Label + Tail(f, post);
    DurationTextTail(f, post);
    assert t[..|Label|] == Label && t[|Label|..] == Tail(f, post);
    GroupsOfTail(f, post);
  }

  /** No match can start inside a prefix free of the label that is followed by the label. */
  lemma {:induction false} NoMatchBefore(pre: string, t: string)
    requires StartsWithLabel(t)
    requires !ContainsLabel(pre)
    ensures forall q :: 0 <= q < |pre| ==> MatchAt(pre + t, q).None?
  {
    var s := pre + t;
    forall q | 0 <= q < |pre| ensures !LabelAt(s, q) {
      if q + |Label| <= |pre| {
        assert s[q..][..|Label|] == pre[q..][..|Label|];
        assert !LabelAt(pre, q);
      } else {
        // the label starting at |pre| would overlap this one, but `D` occurs in it only once
        var d := |pre| - q;
        assert s[|pre|] == t[0] == 'D';
        assert Label[d] != 'D';
        assert |Label| <= |s[q..]| ==> s[q..][..|Label|][d] == s[|pre|];
      }
    }
  }

  lemma {:induction false} FirstMatchIs(s: string, p: nat, a: nat)
    requires p <= a <= |s| && MatchAt(s, a).Some?
    requires forall q :: p <= q < a ==> MatchAt(s, q).None?
    ensures FirstMatchFrom(s, p) == Some(a)
    decreases a - p
  {
    if p < a {
      FirstMatchIs(s, p + 1, a);
      assert MatchAt(s, p).None?;
      assert FirstMatchFrom(s, p) == FirstMatchFrom(s, p + 1);
    }
  }

  /**
   * The parse of a text whose first match reads
   * `Duration: <hours>:<minutes>:<seconds>.<fraction>` is the conversion of
   * exactly those digit groups. Text before it may hold the label, as long as
   * no full match starts there (an unmeasured `Duration: N/A`, say).
   */
  lemma {:induction false} ParseFirstDuration(pre: string, f: Fields, post: string)
    requires WellFormed(f)
    requires forall q :: 0 <= q < |pre| ==> MatchAt(pre + DurationText(f) + post, q).None?
    requires post == [] || !IsDigit(post[0])
    ensures ParseDuration(pre + DurationText(f) + post) == Some(ToMillis(f))
  {
    var t := DurationText(f) + post;
    var s := pre + t;
    assert pre + DurationText(f) + post == s;
    MatchPrefixOf(f, post);
    assert s[|pre|..] == t;
    FirstMatchIs(s, 0, |pre|);
  }

  /** Digit groups glued back together with their separators form a `Tail`. */
  lemma {:induction false} Reassemble(f: Fields, post: string, rest: string, r1: string, r2: string, r3: string)
    requires rest == f.hours + [':'] + r1
    requires r1 == f.minutes + [':'] + r2
    requires r2 == f.seconds + ['.'] + r3
    requires r3 == f.fraction + post
    ensures rest == Tail(f, post)
  {
    assert r2 == f.seconds + ("." + (f.fraction + post));
    assert r1 == f.minutes + (":" + (f.seconds + ("." + (f.fraction + post))));
  }

  lemma {:induction false} SplitPrefix(t: string, n: nat)
    requires n <= |t|
    ensures t == t[..n] + t[n..]
  {
  }

  /** The digit groups a match at the start of `t` reads, and what follows them. */
  lemma {:induction false} MatchPrefixParts(t: string) returns (post: string)
    requires MatchPrefix(t).Some?
    ensures t == Label + Tail(MatchPrefix(t).value, post)
    ensures post == [] || !IsDigit(post[0])
  {
    var rest := t[|Label|..];
    var g1 := Group(rest, ':').value;
    var g2 := Group(g1.1, ':').value;
    var g3 := Group(g2.1, '.').value;
    var k := LeadingDigits(g3.1);
    var f := Fields(g1.0, g2.0, g3.0, g3.1[..k]);
    assert MatchPrefix(t) == Some(f);
    post := g3.1[k..];
    SplitPrefix(g3.1, k);
    Reassemble(f, post, rest, g1.1, g2.1, g3.1);
    SplitPrefix(t, |Label|);
  }

  /** A match at the start of `t` is a printed duration followed by a non-digit or the end. */
  lemma {:induction false} MatchPrefixSound(t: string)
    requires MatchPrefix(t).Some?
    ensures var f := MatchPrefix(t).value;
      var n := |DurationText(f)|;
      && n <= |t| && t[..n] == DurationText(f)
      && (n == |t| || !IsDigit(t[n]))
  {
    var f := MatchPrefix(t).value;
    var post := MatchPrefixParts(t);
    DurationTextTail(f, post);
    assert t == DurationText(f) + post;
    assert t[..|DurationText(f)|] == DurationText(f);
    assert t[|DurationText(f)|..] == post;
  }

  lemma {:induction false} SuffixPrefix(s: string, p: nat, d: string)
    requires p <= |s| && |d| <= |s| - p && s[p..][..|d|] == d
    requires |d| == |s| - p || !IsDigit(s[p..][|d|])
    ensures s[p..p + |d|] == d && (p + |d| == |s| || !IsDigit(s[p + |d|]))
  {
    assert s[p..][..|d|] == s[p..p + |d|];
  }

  /** `MatchPrefixSound` at an offset of a longer text. */
  lemma {:induction false} MatchAtSound(s: string, p: nat)
    requires p <= |s| && MatchAt(s, p).Some?
    ensures var f := MatchAt(s, p).value;
      var n := |DurationText(f)|;
      && p + n <= |s| && s[p..p + n] == DurationText(f)
      && s == s[..p] + DurationText(f) + s[p + n..]
      && (p + n == |s| || !IsDigit(s[p + n]))
  {
    MatchPrefixSound(s[p..]);
    SuffixPrefix(s, p, DurationText(MatchAt(s, p).value));
    Splice(s, p, DurationText(MatchAt(s, p).value));
  }

  lemma {:induction false} Splice(s: string, i: nat, d: string)
    requires i + |d| <= |s| && s[i..i + |d|] == d
    ensures s == s[..i] + d + s[i + |d|..]
  {
    assert s[..i] + s[i..i + |d|] == s[..i + |d|];
  }

  /**
   * The first match splits the text into a part where no match starts, a
   * printed duration, and a rest that does not start with a digit.
   */
  lemma {:induction false} FirstMatchSound(text: string, p: nat)
    requires FirstMatchFrom(text, 0) == Some(p)
    ensures var f := MatchAt(text, p).value;
      var n := |DurationText(f)|;
      && WellFormed(f)
      && p + n <= |text|
      && text == text[..p] + DurationText(f) + text[p + n..]
      && (p + n == |text| || !IsDigit(text[p + n]))
      && (forall q :: 0 <= q < p ==> MatchAt(text, q).None?)
  {
    FirstMatchLeftmost(text, 0);
    MatchAtSound(text, p);
  }

  /**
   * The converse of `ParseFirstDuration`: a successful parse splits the text
   * into a part where no match starts, a printed duration, and a rest that
   * does not start with a digit; the result is that duration's conversion.
   */
  lemma {:induction false} ParseDurationSound(text: string, ms: nat)
    requires ParseDuration(text) == Some(ms)
    ensures FirstMatchFrom(text, 0).Some?
    ensures var p := FirstMatchFrom(text, 0).value;
      var f := MatchAt(text, p).value;
      var n := |DurationText(f)|;
      && WellFormed(f)
      && p + n <= |text|
      && text == text[..p] + DurationText(f) + text[p + n..]
      && (p + n == |text| || !IsDigit(text[p + n]))
      && (forall q :: 0 <= q < p ==> MatchAt(text, q).None?)
      && ms == ToMillis(f)
  {
    var p := FirstMatchFrom(text, 0).value;
    assert ms == ToMillis(MatchAt(text, p).value);
    FirstMatchSound(text, p);
  }

  // ---------------------------------------------------------------------
  // The format ffmpeg prints, `HH:MM:SS.cc`, as the parser's inverse.

  function DigitChar(d: nat): (c: char)
    requires d < 10
    ensures IsDigit(c) && DigitValue(c) == d
  {
    ('0' as int + d) as char
  }

  /** The decimal digits of `n`, most significant first, without leading zeros. */
  function NatToDigits(n: nat): (r: string)
    ensures |r| > 0 && AllDigits(r)
    ensures DecimalValue(r) == n
    ensures n < 10 ==> |r| == 1
    ensures 10 <= n < 100 ==> |r| == 2
  {
    if n < 10 then [DigitChar(n)]
    else
      var r := NatToDigits(n / 10) + [DigitChar(n % 10)];
      assert r[..|r| - 1] == NatToDigits(n / 10);
      r
  }

  lemma {:induction false} LeadingZero(ds: string)
    requires AllDigits(ds)
    ensures AllDigits("0" + ds) && DecimalValue("0" + ds) == DecimalValue(ds)
  {
    if ds != [] {
      assert ("0" + ds)[..|ds|] == "0" + ds[..|ds| - 1];
      LeadingZero(ds[..|ds| - 1]);
    }
  }

  /** A number printed with at least two digits, as ffmpeg prints each field. */
  function TwoDigits(n: nat): (r: string)
    ensures |r| >= 2 && AllDigits(r) && DecimalValue(r) == n
    ensures n < 100 ==> |r| == 2
  {
    if n < 10 then
      LeadingZero(NatToDigits(n));
      "0" + NatToDigits(n)
    else NatToDigits(n)
  }

  /** The fields ffmpeg prints for a duration of `hours:minutes:seconds` and `centis` hundredths. */
  function Render(hours: nat, minutes: nat, seconds: nat, centis: nat): (f: Fields)
    requires centis < 100
    ensures WellFormed(f) && |f.fraction| == 2
    ensures DecimalValue(f.hours) == hours && DecimalValue(f.minutes) == minutes
    ensures DecimalValue(f.seconds) == seconds && DecimalValue(f.fraction) == centis
  {
    Fields(TwoDigits(hours), TwoDigits(minutes), TwoDigits(seconds), TwoDigits(centis))
  }

  /** Two fraction digits are whole hundredths: rounding them to milliseconds is exact. */
  lemma {:induction false} CentisMillis(centis: nat)
    requires centis < 100
    ensures RoundHalfUp(centis * 1000, 100) == 10 * centis
  {
    var r := RoundHalfUp(centis * 1000, 100);
    RoundHalfUpNearest(centis * 1000, 100);
    assert 200 * r <= 2000 * centis + 100 < 200 * (r + 1);
  }

  /** Fields with a two-digit fraction convert exactly, with no rounding. */
  lemma {:induction false} TwoDigitMillis(f: Fields, hours: nat, minutes: nat, seconds: nat, centis: nat)
    requires WellFormed(f) && |f.fraction| == 2
    requires DecimalValue(f.hours) == hours && DecimalValue(f.minutes) == minutes
    requires DecimalValue(f.seconds) == seconds && DecimalValue(f.fraction) == centis
    ensures ToMillis(f) == hours * 3600000 + minutes * 60000 + seconds * 1000 + centis * 10
  {
    assert Pow10(|f.fraction|) == 100;
    CentisMillis(centis);
  }

  /**
   * Parsing a duration printed in ffmpeg's two-digit-fraction form (such as the
   * fields `Render` produces) gives that duration back in milliseconds.
   */
  lemma {:induction false} RenderRoundTrip(pre: string, f: Fields, post: string,
                                           hours: nat, minutes: nat, seconds: nat, centis: nat, ms: nat)
    requires WellFormed(f) && |f.fraction| == 2
    requires DecimalValue(f.hours) == hours && DecimalValue(f.minutes) == minutes
    requires DecimalValue(f.seconds) == seconds && DecimalValue(f.fraction) == centis
    requires ms == hours * 3600000 + minutes * 60000 + seconds * 1000 + centis * 10
    requires forall q :: 0 <= q < |pre| ==> MatchAt(pre + DurationText(f) + post, q).None?
    requires post == [] || !IsDigit(post[0])
    ensures ParseDuration(pre + DurationText(f) + post) == Some(ms)
  {
    TwoDigitMillis(f, hours, minutes, seconds, centis);
    assert ToMillis(f) == ms;
    ParseFirstDuration(pre, f, post);
  }

  /** The fields of an example probe line print as `Duration: 00:02:03.50`. */
  lemma ExampleFields()
    ensures DurationText(Fields("00", "02", "03", "50")) == "Duration: 00:02:03.50"
  {
  }

  /** Only splits the long probe-line literal in two, so that `ExampleText` stays cheap to prove. */
  lemma ExampleLine()
    ensures "  " + "Duration: 00:02:03.50" + ", start: 0.025057" == "  Duration: 00:02:03.50, start: 0.025057"
  {
  }

  /** How an example probe line splits around its duration. */
  lemma {:induction false} ExampleText()
    ensures "  " + DurationText(Fields("00", "02", "03", "50")) + ", start: 0.025057"
      == "  Duration: 00:02:03.50, start: 0.025057"
  {
    ExampleFields();
    ExampleLine();
  }

  /** An example probe line: `Duration: 00:02:03.50` is 123500 milliseconds. */
  lemma {:induction false} ExampleDuration(text: string)
    requires text == "  Duration: 00:02:03.50, start: 0.025057"
    ensures ParseDuration(text) == Some(123500)
  {
    var pre := "  ";
    assert !ContainsLabel(pre) by {
      forall p: nat | p <= |pre| ensures !LabelAt(pre, p) {
      }
    }
    var f := Fields("00", "02", "03", "50");
    assert DecimalValue("00") == 0 && DecimalValue("02") == 2;
    assert DecimalValue("03") == 3 && DecimalValue("50") == 50;
    var post := ", start: 0.025057";
    NoMatchBefore(pre, DurationText(f) + post);
    assert pre + DurationText(f) + post == pre + (DurationText(f) + post);
    ExampleText();
    RenderRoundTrip(pre, f, post, 0, 2, 3, 50, 123500);
  }
}
