/** The two number extractors applied to the hardware table's display strings:
    the decimal one, `s.match(/(\d+\.?\d*)/)` followed by `parseFloat`, and the integer
    one, `s.match(/(\d+)/)` followed by `parseInt`; both fall back to 0 when nothing matches.
    Values are exact: `real` for the decimal extractor, `nat` for the integer one. */
module NumericExtract {
  import opened Optional

  predicate IsDigit(c: char) {
    '0' <= c <= '9'
  }

  function DigitValue(c: char): (d: nat)
    requires IsDigit(c)
    ensures d <= 9
  {
    c as int - '0' as int
  }

  predicate AllDigits(t: seq<char>) {
    forall i :: 0 <= i < |t| ==> IsDigit(t[i])
  }

  predicate HasDigit(s: seq<char>) {
    exists i :: 0 <= i < |s| && IsDigit(s[i])
  }

  /** The value of a string of decimal digits, most significant first (0 when empty). */
  function DigitsValue(t: seq<char>): nat
    requires AllDigits(t)
  {
    if |t| == 0 then 0 else 10 * DigitsValue(t[..|t| - 1]) + DigitValue(t[|t| - 1])
  }

  // ---------------------------------------------------------------------------
  // The languages of the two patterns, and what "the first match" means

  /** The strings `\d+` matches. */
  predicate IsIntegerNumeral(t: seq<char>) {
    |t| > 0 && AllDigits(t)
  }

  /** The strings `\d+\.?\d*` matches: a leading digit, then digits and at most one point. */
  predicate IsDecimalNumeral(t: seq<char>) {
    && |t| > 0
    && IsDigit(t[0])
    && (forall i :: 0 <= i < |t| ==> IsDigit(t[i]) || t[i] == '.')
    && (forall i, j :: 0 <= i < j < |t| && t[i] == '.' ==> t[j] != '.')
  }

  /** The half-open index range `[start, end)` of a match. */
  datatype Span = Span(start: nat, end: nat)

  /** `sp` is the match JavaScript's `match` reports for `\d+`: no match starts further
      left, and the match at `sp.start` is the longest one there (greedy `+`). */
  predicate IsFirstIntegerMatch(s: seq<char>, sp: Span) {
    && sp.start < sp.end <= |s|
    && IsIntegerNumeral(s[sp.start..sp.end])
    && (forall p, q :: 0 <= p < sp.start && p < q <= |s| ==> !IsIntegerNumeral(s[p..q]))
    && (forall q :: sp.end < q <= |s| ==> !IsIntegerNumeral(s[sp.start..q]))
  }

  /** The same for `\d+\.?\d*`. Greedy matching of this pattern never backtracks, so the
      match it reports at the leftmost start is the longest one there. */
  predicate IsFirstDecimalMatch(s: seq<char>, sp: Span) {
    && sp.start < sp.end <= |s|
    && IsDecimalNumeral(s[sp.start..sp.end])
    && (forall p, q :: 0 <= p < sp.start && p < q <= |s| ==> !IsDecimalNumeral(s[p..q]))
    && (forall q :: sp.end < q <= |s| ==> !IsDecimalNumeral(s[sp.start..q]))
  }

  // ---------------------------------------------------------------------------
  // Scanning

  /** The index of the first digit of `s`, if there is one. */
  function FirstDigit(s: seq<char>): (r: Option<nat>)
    ensures r.Some? ==> r.value < |s| && IsDigit(s[r.value])
    ensures r.Some? ==> forall j :: 0 <= j < r.value ==> !IsDigit(s[j])
    ensures r.None? ==> forall j :: 0 <= j < |s| ==> !IsDigit(s[j])
  {
    if |s| == 0 then None
    else if IsDigit(s[0]) then Some(0)
    else match FirstDigit(s[1..])
      case None => None
      case Some(k) => Some(k + 1)
  }

  /** The length of the maximal run of digits at the front of `s`. */
  function DigitRun(s: seq<char>): (n: nat)
    ensures n <= |s|
    ensures forall i :: 0 <= i < n ==> IsDigit(s[i])
    ensures n < |s| ==> !IsDigit(s[n])
  {
    if |s| == 0 || !IsDigit(s[0]) then 0 else 1 + DigitRun(s[1..])
  }

  /** No numeral of either pattern starts at a position holding a non-digit. */
  lemma NoMatchBefore(s: seq<char>, start: nat)
    requires start <= |s|
    requires forall j :: 0 <= j < start ==> !IsDigit(s[j])
    ensures forall p, q :: 0 <= p < start && p < q <= |s| ==> !IsIntegerNumeral(s[p..q])
    ensures forall p, q :: 0 <= p < start && p < q <= |s| ==> !IsDecimalNumeral(s[p..q])
  {
    forall p, q | 0 <= p < start && p < q <= |s|
      ensures !IsIntegerNumeral(s[p..q]) && !IsDecimalNumeral(s[p..q])
    {
      assert s[p..q][0] == s[p];
    }
  }

  /** The length of the greedy `\d+\.?\d*` match at the front of `t`: its digit run,
      then a point and the digit run after it when a point follows. */
  function DecimalLength(t: seq<char>): (n: nat)
    ensures DigitRun(t) <= n <= |t|
  {
    var e := DigitRun(t);
    if e < |t| && t[e] == '.' then e + 1 + DigitRun(t[e + 1..]) else e
  }

  /** The span of the first match of `\d+` in `s`; `None` exactly when `s` has no digit. */
  function MatchInteger(s: seq<char>): (m: Option<Span>)
    ensures m.None? <==> !HasDigit(s)
    ensures m.Some? ==> IsFirstIntegerMatch(s, m.value)
  {
    match FirstDigit(s)
    case None => None
    case Some(p) =>
      var e := p + DigitRun(s[p..]);
      NoMatchBefore(s, p);
      assert s[p..e] == s[p..][..e - p];
      assert forall q :: e < q <= |s| ==> s[p..q][e - p] == s[e];
      Some(Span(p, e))
  }

  /** The span of the first match of `\d+\.?\d*` in `s`; `None` exactly when `s` has no digit. */
  function MatchDecimal(s: seq<char>): (m: Option<Span>)
    ensures m.None? <==> !HasDigit(s)
    ensures m.Some? ==> IsFirstDecimalMatch(s, m.value)
  {
    match FirstDigit(s)
    case None => None
    case Some(p) =>
      DecimalMatchAt(s, p);
      Some(Span(p, p + DecimalLength(s[p..])))
  }

  /** Greedy matching from the first digit yields the first decimal match. */
  lemma DecimalMatchAt(s: seq<char>, p: nat)
    requires p < |s| && IsDigit(s[p])
    requires forall j :: 0 <= j < p ==> !IsDigit(s[j])
    ensures IsFirstDecimalMatch(s, Span(p, p + DecimalLength(s[p..])))
  {
    var n := p + DecimalLength(s[p..]);
    DecimalLengthAt(s, p);
    DecimalNumeralEndsAt(s, p, n);
    NoMatchBefore(s, p);
    FirstDecimalMatchIntro(s, Span(p, n));
  }

  /** The numeral `DecimalLength` measures at `p` is the longest decimal numeral there. */
  lemma DecimalNumeralEndsAt(s: seq<char>, p: nat, n: nat)
    requires p < |s| && IsDigit(s[p])
    requires var e := p + DigitRun(s[p..]);
      n == if e < |s| && s[e] == '.' then e + 1 + DigitRun(s[e + 1..]) else e
    ensures p < n <= |s|
    ensures IsDecimalNumeral(s[p..n])
    ensures forall q :: n < q <= |s| ==> !IsDecimalNumeral(s[p..q])
  {
    var e := p + DigitRun(s[p..]);
    DigitRunAt(s, p);
    assert s[p..][0] == s[p];
    if e < |s| && s[e] == '.' {
      DigitRunAt(s, e + 1);
      PointedMatchIsLongest(s, p, e, n);
    } else {
      PlainMatchIsLongest(s, p, n);
    }
  }

  lemma FirstDecimalMatchIntro(s: seq<char>, sp: Span)
    requires sp.start < sp.end <= |s|
    requires IsDecimalNumeral(s[sp.start..sp.end])
    requires forall p, q :: 0 <= p < sp.start && p < q <= |s| ==> !IsDecimalNumeral(s[p..q])
    requires forall q :: sp.end < q <= |s| ==> !IsDecimalNumeral(s[sp.start..q])
    ensures IsFirstDecimalMatch(s, sp)
  {
  }

  /** The digit run starting at `p`, in the indices of `s`. */
  lemma DigitRunAt(s: seq<char>, p: nat)
    requires p <= |s|
    ensures p + DigitRun(s[p..]) <= |s|
    ensures forall i :: p <= i < p + DigitRun(s[p..]) ==> IsDigit(s[i])
    ensures p + DigitRun(s[p..]) < |s| ==> !IsDigit(s[p + DigitRun(s[p..])])
  {
    var r := s[p..];
    assert forall i :: p <= i < |s| ==> s[i] == r[i - p];
  }

  /** The decimal numeral starting at `p`, in the indices of `s`. */
  lemma DecimalLengthAt(s: seq<char>, p: nat)
    requires p <= |s|
    ensures var e := p + DigitRun(s[p..]);
      p + DecimalLength(s[p..])
        == if e < |s| && s[e] == '.' then e + 1 + DigitRun(s[e + 1..]) else e
  {
    var r := s[p..];
    var e := DigitRun(r);
    if p + e < |s| {
      assert r[e] == s[p + e];
      assert r[e + 1..] == s[p + e + 1..];
    }
  }

  /** A digit run that neither a digit nor a point extends is the longest decimal
      numeral at its start. */
  lemma PlainMatchIsLongest(s: seq<char>, p: nat, e: nat)
    requires p < e <= |s|
    requires forall i :: p <= i < e ==> IsDigit(s[i])
    requires e < |s| ==> !IsDigit(s[e]) && s[e] != '.'
    ensures IsDecimalNumeral(s[p..e])
    ensures forall q :: e < q <= |s| ==> !IsDecimalNumeral(s[p..q])
  {
    var t := s[p..e];
    assert forall i :: 0 <= i < |t| ==> t[i] == s[p + i];
    forall q | e < q <= |s|
      ensures !IsDecimalNumeral(s[p..q])
    {
      assert s[p..q][e - p] == s[e];
    }
  }

  /** A numeral of digits, one point and digits, that no further digit or point extends,
      is the longest decimal numeral at its start. */
  lemma PointedMatchIsLongest(s: seq<char>, p: nat, e: nat, f: nat)
    requires p < e < f <= |s| && s[e] == '.'
    requires forall i :: p <= i < e ==> IsDigit(s[i])
    requires forall i :: e < i < f ==> IsDigit(s[i])
    requires f < |s| ==> !IsDigit(s[f])
    ensures IsDecimalNumeral(s[p..f])
    ensures forall q :: f < q <= |s| ==> !IsDecimalNumeral(s[p..q])
  {
    var t := s[p..f];
    assert forall i :: 0 <= i < |t| ==> t[i] == s[p + i];
    forall q | f < q <= |s|
      ensures !IsDecimalNumeral(s[p..q])
    {
      var u := s[p..q];
      assert u[e - p] == '.' && u[f - p] == s[f];
    }
  }

  // ---------------------------------------------------------------------------
  // The numeral values and the two extractors

  /** The digits after the point, read as the fraction 0.d1d2...dk, built from the
      front as (d1 + 0.d2...dk) / 10, which is the digits' value over 10^k. */
  function FractionValue(f: seq<char>): (v: real)
    requires AllDigits(f)
    ensures 0.0 <= v < 1.0
  {
    if |f| == 0 then 0.0
    else
      assert AllDigits(f[1..]) by {
        assert forall i :: 0 <= i < |f[1..]| ==> f[1..][i] == f[i + 1];
      }
      (DigitValue(f[0]) as real + FractionValue(f[1..])) / 10.0
  }

  /** `parseFloat` of a decimal numeral: integer part plus the fraction digits over 10^k.
      The fraction adds less than one to the integer part. */
  function NumeralValue(t: seq<char>): (v: real)
    requires IsDecimalNumeral(t)
    ensures DigitsValue(t[..DigitRun(t)]) as real <= v < DigitsValue(t[..DigitRun(t)]) as real + 1.0
  {
    var k := DigitRun(t);
    if k == |t| then
      assert t[..k] == t;
      DigitsValue(t) as real
    else
      assert t[k] == '.';
      var frac := t[k + 1..];
      assert AllDigits(frac) by {
        forall i | 0 <= i < |frac| ensures IsDigit(frac[i]) {
          assert frac[i] == t[k + 1 + i];
        }
      }
      DigitsValue(t[..k]) as real + FractionValue(frac)
  }

  /** The greedy decimal match at the front of `r` is a decimal numeral. */
  lemma FrontIsNumeral(r: seq<char>)
    requires |r| > 0 && IsDigit(r[0])
    ensures IsDecimalNumeral(r[..DecimalLength(r)])
  {
    DecimalMatchAt(r, 0);
    assert r[0..DecimalLength(r)] == r[..DecimalLength(r)];
  }

  /** `parseInt` applied to the digit run at the front of `r`. */
  function IntegerAtFront(r: seq<char>): nat {
    var e := DigitRun(r);
    assert AllDigits(r[..e]) by {
      assert forall i :: 0 <= i < e ==> r[..e][i] == r[i];
    }
    DigitsValue(r[..e])
  }

  /** The digit run at the front of `t`, read as the digits after a point. */
  function FractionAtFront(t: seq<char>): (v: real)
    ensures 0.0 <= v < 1.0
  {
    var f := DigitRun(t);
    assert AllDigits(t[..f]) by {
      assert forall i :: 0 <= i < f ==> t[..f][i] == t[i];
    }
    FractionValue(t[..f])
  }

  /** `parseFloat` applied to the greedy match at the front of `r`: the value of the
      digit run, plus the digits after it as a fraction when a point follows. The
      fraction adds less than one to what `parseInt` reads there. */
  function DecimalAtFront(r: seq<char>): (v: real)
    ensures IntegerAtFront(r) as real <= v < IntegerAtFront(r) as real + 1.0
  {
    var e := DigitRun(r);
    IntegerAtFront(r) as real + (if e < |r| && r[e] == '.' then FractionAtFront(r[e + 1..]) else 0.0)
  }

  /** What `DecimalAtFront` reads is the value of the greedy match there, taken as a
      numeral on its own. */
  lemma DecimalAtFrontReadsNumeral(r: seq<char>)
    requires |r| > 0 && IsDigit(r[0])
    ensures IsDecimalNumeral(r[..DecimalLength(r)])
    ensures DecimalAtFront(r) == NumeralValue(r[..DecimalLength(r)])
  {
    FrontIsNumeral(r);
    var e := DigitRun(r);
    var len := DecimalLength(r);
    var t := r[..len];
    DigitRunOfPrefix(r, len);
    assert t[..e] == r[..e];
    if e < |r| && r[e] == '.' {
      var tail := r[e + 1..];
      var f := DigitRun(tail);
      assert t[e + 1..] == tail[..f];
      assert NumeralValue(t) == DigitsValue(t[..e]) as real + FractionValue(t[e + 1..]);
    } else {
      assert t == r[..e];
      assert NumeralValue(t) == DigitsValue(t[..e]) as real;
    }
  }

  /** The decimal extractor: the value of the greedy `\d+\.?\d*` match at the first
      digit, or 0 when there is no digit. The scan skips non-digits one at a time. */
  function ExtractDecimal(s: seq<char>): (v: real)
    ensures v >= 0.0
  {
    if |s| == 0 then 0.0
    else if IsDigit(s[0]) then DecimalAtFront(s)
    else ExtractDecimal(s[1..])
  }

  /** The integer extractor: the value of the digit run at the first digit, or 0 when
      there is no digit. It agrees with the decimal extractor on the integer part: the
      decimal one adds a fraction below one to what this one returns. */
  function ExtractInteger(s: seq<char>): (n: nat)
    ensures n as real <= ExtractDecimal(s) < n as real + 1.0
  {
    if |s| == 0 then 0
    else if IsDigit(s[0]) then IntegerAtFront(s)
    else ExtractInteger(s[1..])
  }

  /** Without a digit in the string both extractors fall back to 0. */
  lemma {:induction false} NoDigitFallsBackToZero(s: seq<char>)
    requires !HasDigit(s)
    ensures ExtractDecimal(s) == 0.0 && ExtractInteger(s) == 0
  {
    if |s| > 0 {
      assert !IsDigit(s[0]);
      assert !HasDigit(s[1..]) by {
        forall i | 0 <= i < |s[1..]|
          ensures !IsDigit(s[1..][i])
        {
          assert s[1..][i] == s[i + 1];
        }
      }
      NoDigitFallsBackToZero(s[1..]);
    }
  }

  /** At a leading digit both extractors read the numeral at the front. */
  lemma ExtractorsAtDigit(s: seq<char>)
    requires |s| > 0 && IsDigit(s[0])
    ensures ExtractDecimal(s) == DecimalAtFront(s)
    ensures ExtractInteger(s) == IntegerAtFront(s)
  {
  }

  /** Both extractors read at the first digit of `s`, the place `FirstDigit` finds. */
  lemma {:induction false} ExtractorsReadAtFirstDigit(s: seq<char>)
    ensures FirstDigit(s).None? ==> ExtractDecimal(s) == 0.0 && ExtractInteger(s) == 0
    ensures FirstDigit(s).Some? ==>
      && ExtractDecimal(s) == DecimalAtFront(s[FirstDigit(s).value..])
      && ExtractInteger(s) == IntegerAtFront(s[FirstDigit(s).value..])
  {
    if |s| > 0 {
      if IsDigit(s[0]) {
        assert s[0..] == s;
      } else {
        ExtractorsReadAtFirstDigit(s[1..]);
        if FirstDigit(s[1..]).Some? {
          var k := FirstDigit(s[1..]).value;
          assert s[1..][k..] == s[k + 1..];
        }
      }
    }
  }

  // ---------------------------------------------------------------------------
  // Properties

  /** The first match is determined by the string: two spans that both satisfy the
      first-match description of `\d+\.?\d*` coincide. */
  lemma FirstDecimalMatchUnique(s: seq<char>, a: Span, b: Span)
    requires IsFirstDecimalMatch(s, a) && IsFirstDecimalMatch(s, b)
    ensures a == b
  {
  }

  /** The same for `\d+`. */
  lemma FirstIntegerMatchUnique(s: seq<char>, a: Span, b: Span)
    requires IsFirstIntegerMatch(s, a) && IsFirstIntegerMatch(s, b)
    ensures a == b
  {
  }

  /** The decimal extractor returns the value of the first match as the pattern's
      semantics describes it, however that match is found. */
  lemma ExtractDecimalReadsFirstMatch(s: seq<char>, sp: Span)
    requires IsFirstDecimalMatch(s, sp)
    ensures ExtractDecimal(s) == NumeralValue(s[sp.start..sp.end])
  {
    var m := MatchDecimal(s);
    FirstDecimalMatchUnique(s, m.value, sp);
    ExtractorsReadAtFirstDigit(s);
    var p := sp.start;
    assert s[p..sp.end] == s[p..][..DecimalLength(s[p..])];
    DecimalAtFrontReadsNumeral(s[p..]);
  }

  /** The same for the integer extractor. */
  lemma ExtractIntegerReadsFirstMatch(s: seq<char>, sp: Span)
    requires IsFirstIntegerMatch(s, sp)
    ensures ExtractInteger(s) == DigitsValue(s[sp.start..sp.end])
  {
    assert s[sp.start..sp.end][0] == s[sp.start];
    var m := MatchInteger(s);
    FirstIntegerMatchUnique(s, m.value, sp);
    ExtractorsReadAtFirstDigit(s);
    var p := sp.start;
    assert s[p..sp.end] == s[p..][..DigitRun(s[p..])];
  }

  /** Leading characters without a digit (a `>` or a label) are skipped by both
      extractors: the match is searched for anywhere, not anchored at the start. */
  lemma {:induction false} NonDigitPrefixIgnored(pre: seq<char>, s: seq<char>)
    requires !HasDigit(pre)
    ensures ExtractDecimal(pre + s) == ExtractDecimal(s)
    ensures ExtractInteger(pre + s) == ExtractInteger(s)
  {
    if |pre| > 0 {
      assert (pre + s)[0] == pre[0];
      assert (pre + s)[1..] == pre[1..] + s;
      assert !HasDigit(pre[1..]) by {
        forall i | 0 <= i < |pre[1..]|
          ensures !IsDigit(pre[1..][i])
        {
          assert pre[1..][i] == pre[i + 1];
        }
      }
      NonDigitPrefixIgnored(pre[1..], s);
    } else {
      assert pre + s == s;
    }
  }

  /** Unit text after a run of digits is ignored by the integer extractor. */
  lemma IntegerBeforeUnit(d: seq<char>, u: seq<char>)
    requires IsIntegerNumeral(d)
    requires |u| == 0 || !IsDigit(u[0])
    ensures ExtractInteger(d + u) == DigitsValue(d)
  {
    assert (d + u)[0] == d[0];
    IntegerAtFrontOf(d, u);
  }

  /** Unit text after a run of digits is ignored by the decimal extractor, unless
      it begins with a point. */
  lemma DecimalBeforeUnit(d: seq<char>, u: seq<char>)
    requires IsIntegerNumeral(d)
    requires |u| == 0 || (!IsDigit(u[0]) && u[0] != '.')
    ensures ExtractDecimal(d + u) == DigitsValue(d) as real
  {
    var w := d + u;
    assert w[0] == d[0];
    IntegerAtFrontOf(d, u);
    DigitRunBeforeNonDigit(d, u);
    if |u| > 0 {
      assert w[|d|] == u[0];
    }
  }

  /** `digits.fraction unit` extracts to the integer part plus the fraction digits
      over 10^k; the unit text is ignored. */
  lemma DecimalWithFractionBeforeUnit(d: seq<char>, f: seq<char>, u: seq<char>)
    requires IsIntegerNumeral(d) && AllDigits(f)
    requires |u| == 0 || !IsDigit(u[0])
    ensures ExtractDecimal(d + "." + f + u)
         == DigitsValue(d) as real + FractionValue(f)
  {
    var w := d + "." + f + u;
    assert w[0] == d[0];
    PointedFront(d, f, u);
  }

  /** The pieces `DecimalAtFront` reads from `digits.fraction unit`. */
  lemma PointedFront(d: seq<char>, f: seq<char>, u: seq<char>)
    requires AllDigits(d) && AllDigits(f)
    requires |u| == 0 || !IsDigit(u[0])
    ensures DecimalAtFront(d + "." + f + u) == DigitsValue(d) as real + FractionValue(f)
  {
    var w := d + "." + f + u;
    var e := |d|;
    var k := e + 1 + |f|;
    assert w[..e] == d;
    assert w[e] == '.';
    assert w[e + 1..k] == f;
    if k < |w| {
      assert w[k] == u[0];
    }
    PointedAt(w, e, k);
  }

  /** `DecimalAtFront` on a string with digits before index `e`, a point at `e`, and
      digits from there up to `k`, where no digit follows. */
  lemma PointedAt(w: seq<char>, e: nat, k: nat)
    requires e < k <= |w| && w[e] == '.'
    requires AllDigits(w[..e]) && AllDigits(w[e + 1..k])
    requires k == |w| || !IsDigit(w[k])
    ensures DecimalAtFront(w) == DigitsValue(w[..e]) as real + FractionValue(w[e + 1..k])
  {
    assert w == w[..e] + w[e..];
    DigitRunBeforeNonDigit(w[..e], w[e..]);
    var tail := w[e + 1..];
    assert tail == w[e + 1..k] + w[k..];
    DigitRunBeforeNonDigit(w[e + 1..k], w[k..]);
  }

  /** `parseInt` at the front of digits followed by a non-digit reads those digits. */
  lemma IntegerAtFrontOf(d: seq<char>, u: seq<char>)
    requires AllDigits(d)
    requires |u| == 0 || !IsDigit(u[0])
    ensures IntegerAtFront(d + u) == DigitsValue(d)
  {
    DigitRunBeforeNonDigit(d, u);
  }

  /** The digit run of digits followed by text that starts with a non-digit is those
      digits. */
  lemma DigitRunBeforeNonDigit(d: seq<char>, u: seq<char>)
    requires AllDigits(d)
    requires |u| == 0 || !IsDigit(u[0])
    ensures DigitRun(d + u) == |d|
    ensures (d + u)[..|d|] == d
  {
    if |u| > 0 {
      assert (d + u)[|d|] == u[0];
    }
  }

  /** Cutting a string after its digit run and a point leaves the run unchanged. */
  lemma DigitRunOfPrefix(t: seq<char>, len: nat)
    requires DigitRun(t) <= len <= |t|
    requires DigitRun(t) < len ==> t[DigitRun(t)] == '.'
    ensures DigitRun(t[..len]) == DigitRun(t)
  {
    var e := DigitRun(t);
    if e < len {
      assert t[..len][e] == '.';
    }
  }
}

/** Working out the figure the extractors read from a given string, one piece of the
    string at a time. */
module ReadNumerals {
  import opened NumericExtract

  /** Value of a digit string, peeled one digit at a time. */
  lemma DigitsValueOfAppend(t: seq<char>, c: char)
    requires AllDigits(t) && IsDigit(c)
    ensures AllDigits(t + [c])
    ensures DigitsValue(t + [c]) == 10 * DigitsValue(t) + DigitValue(c)
  {
    assert (t + [c])[..|t|] == t;
  }

  /** `s` starts with the digits `d`, followed by neither a digit nor a point. */
  lemma DecimalOfLeadingDigits(s: string, d: string, v: real)
    requires IsIntegerNumeral(d) && |d| <= |s| && s[..|d|] == d
    requires |d| == |s| || (!IsDigit(s[|d|]) && s[|d|] != '.')
    requires v == DigitsValue(d) as real
    ensures ExtractDecimal(s) == v
  {
    assert s == d + s[|d|..];
    DecimalBeforeUnit(d, s[|d|..]);
  }

  /** `s` starts with the digits `d`, a point and the digits `f`, followed by no digit. */
  lemma DecimalOfLeadingFraction(s: string, d: string, f: string)
    requires IsIntegerNumeral(d) && AllDigits(f) && |d| + 1 + |f| <= |s|
    requires s[..|d|] == d && s[|d|] == '.' && s[|d| + 1..|d| + 1 + |f|] == f
    requires |d| + 1 + |f| == |s| || !IsDigit(s[|d| + 1 + |f|])
    ensures ExtractDecimal(s) == DigitsValue(d) as real + FractionValue(f)
  {
    assert IsDigit(s[0]) by {
      assert s[0] == s[..|d|][0];
    }
    ExtractorsAtDigit(s);
    LeadingFractionAtFront(s, d, f);
  }

  lemma LeadingFractionAtFront(s: string, d: string, f: string)
    requires AllDigits(d) && AllDigits(f) && |d| + 1 + |f| <= |s|
    requires s[..|d|] == d && s[|d|] == '.' && s[|d| + 1..|d| + 1 + |f|] == f
    requires |d| + 1 + |f| == |s| || !IsDigit(s[|d| + 1 + |f|])
    ensures DecimalAtFront(s) == DigitsValue(d) as real + FractionValue(f)
  {
    PointedAt(s, |d|, |d| + 1 + |f|);
  }

  /** `s` starts with the digits `d`, followed by no digit. */
  lemma IntegerOfLeadingDigits(s: string, d: string, v: nat)
    requires IsIntegerNumeral(d) && |d| <= |s| && s[..|d|] == d
    requires |d| == |s| || !IsDigit(s[|d|])
    requires v == DigitsValue(d)
    ensures ExtractInteger(s) == v
  {
    assert s == d + s[|d|..];
    IntegerBeforeUnit(d, s[|d|..]);
  }
}
