/**
 * The part of the base form agent every schedule shares: the citation,
 * error and warning logs, the response record built from them, the
 * line-to-source map the schedules publish, and the reading of a number out
 * of free text.
 */
module FormAgents {
  import opened TaxTypes

  /**
   * An agent's audit state. The logs start empty and are only ever appended
   * to, so an agent that processes several returns accumulates the entries
   * of all of them.
   */
  class FormAgent {
    const formName: string
    const enableCitations: bool
    var citations: seq<Citation>
    var errors: seq<string>
    var warnings: seq<string>

    constructor (formName: string, enableCitations: bool)
      ensures this.formName == formName && this.enableCitations == enableCitations
      ensures citations == [] && errors == [] && warnings == []
    {
      this.formName := formName;
      this.enableCitations := enableCitations;
      citations := [];
      errors := [];
      warnings := [];
    }

    /** What `cite` appends: one citation of this form when citations are enabled, nothing otherwise. */
    function Entry(line: string, source: string, reasoning: string): seq<Citation>
    {
      if enableCitations then [Citation(formName, line, source, reasoning)] else []
    }

    /** `cite`: record where a line's value comes from. */
    method Cite(line: string, source: string, reasoning: string)
      modifies this
      ensures citations == old(citations) + Entry(line, source, reasoning)
      ensures errors == old(errors) && warnings == old(warnings)
    {
      if enableCitations {
        citations := citations + [Citation(formName, line, source, reasoning)];
      }
    }

    /** `add_error`: append one message to the error log. */
    method AddError(message: string)
      modifies this
      ensures errors == old(errors) + [message]
      ensures citations == old(citations) && warnings == old(warnings)
    {
      errors := errors + [message];
    }

    /** `add_warning`: append one message to the warning log. */
    method AddWarning(message: string)
      modifies this
      ensures warnings == old(warnings) + [message]
      ensures citations == old(citations) && errors == old(errors)
    {
      warnings := warnings + [message];
    }

    /** `create_response`: the outputs together with the form name and the three logs as they stand. */
    function CreateResponse<T>(outputs: T): (r: AgentResponse<T>)
      reads this
      ensures r.formName == formName && r.outputs == outputs
      ensures r.citations == citations && r.errors == errors && r.warnings == warnings
    {
      AgentResponse(formName, outputs, citations, errors, warnings)
    }
  }

  // ------------------------------------------------------------ citation map

  /**
   * `{c.line: c.source for c in citations}`: one key per cited line. When a
   * line is cited more than once, the later citation's source wins.
   */
  function CitationMap(cs: seq<Citation>): (m: map<string, string>)
    ensures forall i | 0 <= i < |cs| :: cs[i].line in m
    ensures forall k | k in m :: exists i | 0 <= i < |cs| :: cs[i].line == k && m[k] == cs[i].source
  {
    if cs == [] then map[]
    else
      var prefix := cs[..|cs| - 1];
      var last := cs[|cs| - 1];
      var m := CitationMap(prefix);
      assert forall i | 0 <= i < |prefix| :: prefix[i] == cs[i];
      m[last.line := last.source]
  }

  /** The map gives, for each line, the source of the last citation of that line. */
  lemma {:induction false} CitationMapLastWins(cs: seq<Citation>, i: nat)
    requires i < |cs|
    requires forall j | i < j < |cs| :: cs[j].line != cs[i].line
    ensures CitationMap(cs)[cs[i].line] == cs[i].source
  {
    if i < |cs| - 1 {
      var prefix := cs[..|cs| - 1];
      assert forall j | i < j < |prefix| :: prefix[j] == cs[j];
      CitationMapLastWins(prefix, i);
    }
  }

  /** The map's keys are exactly the cited lines. */
  lemma CitationMapKeys(cs: seq<Citation>)
    ensures CitationMap(cs).Keys == set i | 0 <= i < |cs| :: cs[i].line
  {
  }

  /** Appending to a log in two steps is appending the two parts at once. */
  lemma LogAppend<T>(log: seq<T>, first: seq<T>, second: seq<T>)
    ensures log + first + second == log + (first + second)
  {
  }

  // ------------------------------------------------------ number extraction

  predicate IsDigit(c: char) { '0' <= c <= '9' }

  function DigitValue(c: char): nat
    requires IsDigit(c)
  {
    c as nat - '0' as nat
  }

  /** `text.replace('$', '').replace(',', '')`. */
  function RemoveCurrency(s: string): (r: string)
    ensures forall i | 0 <= i < |r| :: r[i] != '$' && r[i] != ','
    ensures |r| <= |s|
    ensures (forall i | 0 <= i < |s| :: s[i] != '$' && s[i] != ',') ==> r == s
  {
    if s == [] then []
    else (if s[0] == '$' || s[0] == ',' then [] else [s[0]]) + RemoveCurrency(s[1..])
  }

  /** Where a match of `-?\d+\.?\d*` can begin: at a digit, or at a minus sign right before one. */
  predicate MatchStartsAt(s: string, p: nat)
    requires p < |s|
  {
    IsDigit(s[p]) || (s[p] == '-' && p + 1 < |s| && IsDigit(s[p + 1]))
  }

  /** The leftmost place at or after `p` where a match begins, as `re.search` finds it. */
  function FindMatch(s: string, p: nat): (r: Option<nat>)
    requires p <= |s|
    ensures r.Some? ==> p <= r.value < |s| && MatchStartsAt(s, r.value)
    ensures r.Some? ==> forall q | p <= q < r.value :: !MatchStartsAt(s, q)
    ensures r.None? ==> forall q | p <= q < |s| :: !MatchStartsAt(s, q)
    decreases |s| - p
  {
    if p == |s| then None
    else if MatchStartsAt(s, p) then Some(p)
    else FindMatch(s, p + 1)
  }

  /** The length of the run of digits starting at `p` (greedy `\d*`). */
  function DigitRun(s: string, p: nat): (n: nat)
    requires p <= |s|
    ensures p + n <= |s|
    ensures forall q | p <= q < p + n :: IsDigit(s[q])
    ensures p + n == |s| || !IsDigit(s[p + n])
    decreases |s| - p
  {
    if p < |s| && IsDigit(s[p]) then 1 + DigitRun(s, p + 1) else 0
  }

  /** The number a string of decimal digits denotes. */
  function DigitsValue(ds: string): nat
    requires forall i | 0 <= i < |ds| :: IsDigit(ds[i])
  {
    if ds == [] then 0 else DigitsValue(ds[..|ds| - 1]) * 10 + DigitValue(ds[|ds| - 1])
  }

  function Pow10(n: nat): (r: nat)
    ensures r >= 1
  {
    if n == 0 then 1 else 10 * Pow10(n - 1)
  }

  /** The value of the digit run starting at `q`. */
  function WholeValue(s: string, q: nat): real
    requires q <= |s|
  {
    DigitsValue(s[q..q + DigitRun(s, q)]) as real
  }

  /** The value of the digits after a decimal point: "25" is a quarter. */
  function FractionDigitsValue(ds: string): real
    requires forall i | 0 <= i < |ds| :: IsDigit(ds[i])
  {
    DigitsValue(ds) as real / Pow10(|ds|) as real
  }

  /** The value of the fraction after the point at `r`, if there is one there. */
  function FractionValue(s: string, r: nat): real
    requires r <= |s|
  {
    if r < |s| && s[r] == '.' then
      FractionDigitsValue(s[r + 1..r + 1 + DigitRun(s, r + 1)])
    else 0.0
  }

  /** `float(match.group())` for the match beginning at `p`: sign, whole digits, then an optional fraction. */
  function MatchValue(s: string, p: nat): real
    requires p < |s| && MatchStartsAt(s, p)
  {
    var negative := s[p] == '-';
    var q := if negative then p + 1 else p;
    var magnitude := WholeValue(s, q) + FractionValue(s, q + DigitRun(s, q));
    if negative then -magnitude else magnitude
  }

  /**
   * `_extract_number`: drop dollar signs and commas, then read the first
   * number in the text; 0 when there is none. Stripping surrounding
   * whitespace does not change where the first number is, so it is not
   * modelled as a separate step.
   */
  function ExtractNumber(text: string): (r: real)
    ensures (forall i | 0 <= i < |text| :: !IsDigit(text[i])) ==> r == 0.0
  {
    var s := RemoveCurrency(text);
    NoDigitsSurvive(text);
    match FindMatch(s, 0)
    case None => 0.0
    case Some(p) => MatchValue(s, p)
  }

  /** Removing symbols adds no digits. */
  lemma {:induction false} NoDigitsSurvive(text: string)
    ensures (forall i | 0 <= i < |text| :: !IsDigit(text[i])) ==>
      forall i | 0 <= i < |RemoveCurrency(text)| :: !IsDigit(RemoveCurrency(text)[i])
  {
    if text != [] && forall i | 0 <= i < |text| :: !IsDigit(text[i]) {
      assert forall i | 0 <= i < |text[1..]| :: text[1..][i] == text[i + 1];
      NoDigitsSurvive(text[1..]);
    }
  }

  /** The decimal spelling of a natural number. */
  function NatText(n: nat): (s: string)
    ensures |s| >= 1
    ensures forall i | 0 <= i < |s| :: IsDigit(s[i])
  {
    if n < 10 then [('0' as int + n) as char]
    else NatText(n / 10) + [('0' as int + n % 10) as char]
  }

  /** Reading back a spelled-out number gives the number. */
  lemma {:induction false} NatTextValue(n: nat)
    ensures DigitsValue(NatText(n)) == n
  {
    var s := NatText(n);
    if n >= 10 {
      assert s[..|s| - 1] == NatText(n / 10);
      NatTextValue(n / 10);
    } else {
      assert s[..0] == [];
    }
  }

  /** Text without digits, minus signs, dollar signs or commas. */
  predicate PlainProse(s: string) {
    forall i | 0 <= i < |s| :: !IsDigit(s[i]) && s[i] != '-' && s[i] != '$' && s[i] != ','
  }

  /** `RemoveCurrency` distributes over concatenation. */
  lemma {:induction false} RemoveCurrencyAppend(a: string, b: string)
    ensures RemoveCurrency(a + b) == RemoveCurrency(a) + RemoveCurrency(b)
  {
    if a != [] {
      assert (a + b)[1..] == a[1..] + b;
      RemoveCurrencyAppend(a[1..], b);
    } else {
      assert a + b == b;
    }
  }

  /** A dollar sign anywhere in the text is dropped. */
  lemma RemoveCurrencyDollar(a: string, b: string)
    ensures RemoveCurrency(a + ['$'] + b) == RemoveCurrency(a) + RemoveCurrency(b)
  {
    RemoveCurrencyAppend(a + ['$'], b);
    RemoveCurrencyAppend(a, ['$']);
  }

  /** A comma anywhere in the text is dropped. */
  lemma RemoveCurrencyComma(a: string, b: string)
    ensures RemoveCurrency(a + [','] + b) == RemoveCurrency(a) + RemoveCurrency(b)
  {
    RemoveCurrencyAppend(a + [','], b);
    RemoveCurrencyAppend(a, [',']);
  }

  /** Any other character is kept, in its place. */
  lemma RemoveCurrencyOther(a: string, c: char, b: string)
    requires c != '$' && c != ','
    ensures RemoveCurrency(a + [c] + b) == RemoveCurrency(a) + [c] + RemoveCurrency(b)
  {
    RemoveCurrencyAppend(a + [c], b);
    RemoveCurrencyAppend(a, [c]);
  }

  /** Where a currency symbol sits does not change the number read. */
  lemma ExtractNumberIgnoresCurrency(a: string, c: char, b: string)
    requires c == '$' || c == ','
    ensures ExtractNumber(a + [c] + b) == ExtractNumber(a + b)
  {
    if c == '$' { RemoveCurrencyDollar(a, b); } else { RemoveCurrencyComma(a, b); }
    RemoveCurrencyAppend(a, b);
  }

  /** Text that, once `$` and `,` are dropped, is a non-empty run of digits, as in "1,234" or "$12". */
  predicate CurrencyDigits(w: string) {
    var t := RemoveCurrency(w);
    |t| >= 1 && forall i | 0 <= i < |t| :: IsDigit(t[i])
  }

  /**
   * Text before a number: once `$` and `,` are dropped, it has no digit, and
   * it does not end in a minus sign unless the number is negative itself
   * (a lone `-` there would sign the number).
   */
  predicate ProseBefore(prose: string, negative: bool) {
    var t := RemoveCurrency(prose);
    (forall i | 0 <= i < |t| :: !IsDigit(t[i])) && (negative || t == [] || t[|t| - 1] != '-')
  }

  /** Text after a number: once cleaned, it does not go on with a digit, or with a point if none was written. */
  predicate ProseAfter(suffix: string, point: bool) {
    var t := RemoveCurrency(suffix);
    t == [] || (!IsDigit(t[0]) && (point || t[0] != '.'))
  }

  function SignText(negative: bool): string { if negative then "-" else "" }

  function PointText(point: bool): string { if point then "." else "" }

  /** The decimal number with whole digits `whole`, fraction digits `frac`, and the given sign. */
  function DecimalValue(negative: bool, whole: string, frac: string): real
    requires forall i | 0 <= i < |whole| :: IsDigit(whole[i])
    requires forall i | 0 <= i < |frac| :: IsDigit(frac[i])
  {
    var magnitude := DigitsValue(whole) as real + FractionDigitsValue(frac);
    if negative then -magnitude else magnitude
  }

  /**
   * The first number in a text is read with its sign, its whole part (any
   * `$` and thousands commas in it dropped) and its fraction, whatever prose
   * comes before and after it.
   */
  lemma ExtractNumberReads(prose: string, negative: bool, whole: string, point: bool, frac: string, suffix: string)
    requires ProseBefore(prose, negative)
    requires CurrencyDigits(whole)
    requires point || frac == []
    requires forall i | 0 <= i < |frac| :: IsDigit(frac[i])
    requires ProseAfter(suffix, point)
    ensures ExtractNumber(prose + SignText(negative) + whole + PointText(point) + frac + suffix)
      == DecimalValue(negative, RemoveCurrency(whole), frac)
  {
    RemoveCurrencyNumber(prose, negative, whole, point, frac, suffix);
    CleanNumberValue(RemoveCurrency(prose), negative, RemoveCurrency(whole), point, frac, RemoveCurrency(suffix));
  }

  /** Cleaning the text of a number cleans its prose, its whole part and its suffix, and leaves the rest. */
  lemma RemoveCurrencyNumber(prose: string, negative: bool, whole: string, point: bool, frac: string, suffix: string)
    requires forall i | 0 <= i < |frac| :: IsDigit(frac[i])
    ensures RemoveCurrency(prose + SignText(negative) + whole + PointText(point) + frac + suffix)
      == RemoveCurrency(prose) + SignText(negative) + RemoveCurrency(whole) + PointText(point) + frac + RemoveCurrency(suffix)
  {
    var sg, pt := SignText(negative), PointText(point);
    calc {
      RemoveCurrency(prose + sg + whole + pt + frac + suffix);
    == { RemoveCurrencyAppend(prose + sg + whole + pt + frac, suffix); }
      RemoveCurrency(prose + sg + whole + pt + frac) + RemoveCurrency(suffix);
    == { RemoveCurrencyAppend(prose + sg + whole + pt, frac); KeptByCleaning(frac); }
      RemoveCurrency(prose + sg + whole + pt) + frac + RemoveCurrency(suffix);
    == { RemoveCurrencyAppend(prose + sg + whole, pt); KeptByCleaning(pt); }
      RemoveCurrency(prose + sg + whole) + pt + frac + RemoveCurrency(suffix);
    == { RemoveCurrencyAppend(prose + sg, whole); }
      RemoveCurrency(prose + sg) + RemoveCurrency(whole) + pt + frac + RemoveCurrency(suffix);
    == { RemoveCurrencyAppend(prose, sg); KeptByCleaning(sg); }
      RemoveCurrency(prose) + sg + RemoveCurrency(whole) + pt + frac + RemoveCurrency(suffix);
    }
  }

  /** Text made only of digits, points and minus signs is kept whole. */
  lemma KeptByCleaning(s: string)
    requires forall i | 0 <= i < |s| :: IsDigit(s[i]) || s[i] == '.' || s[i] == '-'
    ensures RemoveCurrency(s) == s
  {
  }

  /** The same reading on text that has no `$` or `,` left. */
  lemma CleanNumberValue(t: string, negative: bool, w: string, point: bool, frac: string, e: string)
    requires forall i | 0 <= i < |t| :: !IsDigit(t[i])
    requires negative || t == [] || t[|t| - 1] != '-'
    requires |w| >= 1 && forall i | 0 <= i < |w| :: IsDigit(w[i])
    requires point || frac == []
    requires forall i | 0 <= i < |frac| :: IsDigit(frac[i])
    requires e == [] || (!IsDigit(e[0]) && (point || e[0] != '.'))
    ensures FindMatch(t + SignText(negative) + w + PointText(point) + frac + e, 0) == Some(|t|)
    ensures MatchValue(t + SignText(negative) + w + PointText(point) + frac + e, |t|)
      == DecimalValue(negative, w, frac)
  {
    var s := t + SignText(negative) + w + PointText(point) + frac + e;
    var x := t + SignText(negative);
    CleanMatchStart(t, negative, w, point, frac, e);
    CleanWhole(t, negative, w, point, frac, e);
    CleanFraction(t, negative, w, point, frac, e);
    MatchValueOf(s, |t|, |x|, |x + w|, negative, w, frac);
  }

  /** The clean number is the first match, and it starts with a minus sign exactly when negative. */
  lemma CleanMatchStart(t: string, negative: bool, w: string, point: bool, frac: string, e: string)
    requires forall i | 0 <= i < |t| :: !IsDigit(t[i])
    requires negative || t == [] || t[|t| - 1] != '-'
    requires |w| >= 1 && forall i | 0 <= i < |w| :: IsDigit(w[i])
    ensures FindMatch(t + SignText(negative) + w + PointText(point) + frac + e, 0) == Some(|t|)
    ensures ((t + SignText(negative) + w + PointText(point) + frac + e)[|t|] == '-') == negative
  {
    var sg, pt := SignText(negative), PointText(point);
    var z := pt + frac + e;
    Regroup(t, sg, w, pt, frac, e);
    SignedStart(negative, w, z);
    FirstMatchAfter(t, sg + w + z, negative);
  }

  /** The whole part of the clean number is exactly `w`. */
  lemma CleanWhole(t: string, negative: bool, w: string, point: bool, frac: string, e: string)
    requires forall i | 0 <= i < |w| :: IsDigit(w[i])
    requires point || frac == []
    requires e == [] || (!IsDigit(e[0]) && (point || e[0] != '.'))
    ensures var x := t + SignText(negative);
      DigitRun(t + SignText(negative) + w + PointText(point) + frac + e, |x|) == |w| &&
      WholeValue(t + SignText(negative) + w + PointText(point) + frac + e, |x|) == DigitsValue(w) as real
  {
    var sg, pt := SignText(negative), PointText(point);
    Regroup(t, sg, w, pt, frac, e);
    TailStart(point, frac, e);
    WholeAfter(t + sg, w, pt + frac + e);
  }

  /** The fraction of the clean number is `frac`, or none without a point. */
  lemma CleanFraction(t: string, negative: bool, w: string, point: bool, frac: string, e: string)
    requires point || frac == []
    requires forall i | 0 <= i < |frac| :: IsDigit(frac[i])
    requires e == [] || (!IsDigit(e[0]) && (point || e[0] != '.'))
    ensures var y := t + SignText(negative) + w;
      FractionValue(t + SignText(negative) + w + PointText(point) + frac + e, |y|) == FractionDigitsValue(frac)
  {
    var y := t + SignText(negative) + w;
    if point {
      assert y + PointText(point) + frac + e == y + "." + frac + e;
      FractionAfter(y, frac, e);
    } else {
      assert y + PointText(point) + frac + e == y + e;
      NoFractionAfter(y, e);
    }
  }

  lemma Regroup(t: string, sg: string, w: string, pt: string, frac: string, e: string)
    ensures t + sg + w + pt + frac + e == t + (sg + w + (pt + frac + e))
    ensures t + sg + w + pt + frac + e == t + sg + w + (pt + frac + e)
  {
  }

  /** What follows the whole part starts with a point or with no digit. */
  lemma TailStart(point: bool, frac: string, e: string)
    requires point || frac == []
    requires e == [] || (!IsDigit(e[0]) && (point || e[0] != '.'))
    ensures point ==> (PointText(point) + frac + e)[0] == '.'
    ensures !point ==> PointText(point) + frac + e == e
    ensures PointText(point) + frac + e == [] || !IsDigit((PointText(point) + frac + e)[0])
  {
  }

  /** A signed run of digits begins with a digit, or with a minus sign and then a digit. */
  lemma SignedStart(negative: bool, w: string, z: string)
    requires |w| >= 1 && IsDigit(w[0])
    ensures negative ==>
      |SignText(negative) + w + z| >= 2 && (SignText(negative) + w + z)[0] == '-' && IsDigit((SignText(negative) + w + z)[1])
    ensures !negative ==> |SignText(negative) + w + z| >= 1 && IsDigit((SignText(negative) + w + z)[0])
  {
  }

  /** After text with no digit (and no sign the number does not own), the number is the first match. */
  lemma FirstMatchAfter(t: string, m: string, negative: bool)
    requires forall i | 0 <= i < |t| :: !IsDigit(t[i])
    requires negative || t == [] || t[|t| - 1] != '-'
    requires negative ==> |m| >= 2 && m[0] == '-' && IsDigit(m[1])
    requires !negative ==> |m| >= 1 && IsDigit(m[0])
    ensures FindMatch(t + m, 0) == Some(|t|)
    ensures ((t + m)[|t|] == '-') == negative
  {
    var s := t + m;
    forall i | 0 <= i < |t| ensures !MatchStartsAt(s, i) {
      assert s[i] == t[i];
      if i + 1 < |t| { assert s[i + 1] == t[i + 1]; }
    }
    assert s[|t|] == m[0];
    assert negative ==> s[|t| + 1] == m[1];
    FindMatchFirst(s, 0, |t|);
  }

  /** A run of digits followed by no further digit is the whole part. */
  lemma WholeAfter(x: string, w: string, z: string)
    requires forall i | 0 <= i < |w| :: IsDigit(w[i])
    requires z == [] || !IsDigit(z[0])
    ensures DigitRun(x + w + z, |x|) == |w|
    ensures WholeValue(x + w + z, |x|) == DigitsValue(w) as real
  {
    var s := x + w + z;
    forall i | |x| <= i < |x| + |w| ensures IsDigit(s[i]) {
      assert s[i] == w[i - |x|];
    }
    assert z != [] ==> s[|x| + |w|] == z[0];
    DigitRunExact(s, |x|, |w|);
    assert s[|x|..|x| + |w|] == w;
  }

  /** A point and a run of digits followed by no further digit is the fraction. */
  lemma FractionAfter(y: string, frac: string, e: string)
    requires forall i | 0 <= i < |frac| :: IsDigit(frac[i])
    requires e == [] || !IsDigit(e[0])
    ensures FractionValue(y + "." + frac + e, |y|) == FractionDigitsValue(frac)
  {
    var s := y + "." + frac + e;
    WholeAfter(y + ".", frac, e);
    assert s[|y|] == '.';
    assert s[|y| + 1..|y| + 1 + |frac|] == frac;
  }

  /** Without a point right after the whole part there is no fraction. */
  lemma NoFractionAfter(y: string, e: string)
    requires e == [] || e[0] != '.'
    ensures FractionValue(y + e, |y|) == 0.0 == FractionDigitsValue([])
  {
    assert e != [] ==> (y + e)[|y|] == e[0];
    assert Pow10(0) == 1;
  }

  /** `MatchValue` from the sign and the digits of its whole and fraction parts. */
  lemma MatchValueOf(s: string, a: nat, q: nat, r: nat, negative: bool, w: string, frac: string)
    requires a < |s| && MatchStartsAt(s, a) && (s[a] == '-') == negative
    requires q == (if negative then a + 1 else a) && q <= r <= |s| && DigitRun(s, q) == r - q
    requires forall i | 0 <= i < |w| :: IsDigit(w[i])
    requires forall i | 0 <= i < |frac| :: IsDigit(frac[i])
    requires WholeValue(s, q) == DigitsValue(w) as real && FractionValue(s, r) == FractionDigitsValue(frac)
    ensures MatchValue(s, a) == DecimalValue(negative, w, frac)
  {
  }

  /** Reading back a spelled-out number, with or without a leading `$`. */
  lemma ExtractNumberAfterProse(prose: string, n: nat)
    requires PlainProse(prose)
    ensures ExtractNumber(prose + NatText(n)) == n as real
    ensures ExtractNumber("$" + prose + NatText(n)) == n as real
  {
    var digits := NatText(n);
    UnsignedWholeText(prose, digits);
    PlainProseAround(prose);
    NatTextReads(n);
    ExtractNumberReads(prose, false, digits, false, [], []);
    DollarIgnored(prose, digits);
  }

  lemma UnsignedWholeText(prose: string, digits: string)
    ensures prose + SignText(false) + digits + PointText(false) + [] + [] == prose + digits
  {
  }

  /** Plain prose may come before a number, and nothing after it is allowed too. */
  lemma PlainProseAround(prose: string)
    requires PlainProse(prose)
    ensures ProseBefore(prose, false) && ProseAfter([], false)
  {
    assert RemoveCurrency(prose) == prose;
  }

  /** A spelled-out number is a run of digits that reads back as the number. */
  lemma NatTextReads(n: nat)
    ensures CurrencyDigits(NatText(n))
    ensures DecimalValue(false, RemoveCurrency(NatText(n)), []) == n as real
  {
    assert RemoveCurrency(NatText(n)) == NatText(n);
    NatTextValue(n);
    assert Pow10(0) == 1;
  }

  /** A leading `$` does not change the number read. */
  lemma DollarIgnored(a: string, b: string)
    ensures ExtractNumber("$" + a + b) == ExtractNumber(a + b)
  {
    assert [] + ['$'] + (a + b) == "$" + a + b;
    assert [] + (a + b) == a + b;
    ExtractNumberIgnoresCurrency([], '$', a + b);
  }

  /** The fraction digits "56" are 0.56. */
  lemma FractionExample(f: string)
    requires f == "56"
    ensures FractionDigitsValue(f) == 0.56
  {
    assert f[..1] == "5" && "5"[..0] == "";
    assert DigitsValue(f) == 56;
    assert Pow10(|f|) == 100 by { assert |f| == 2; assert Pow10(1) == 10; }
  }

  /** The amount "$1,234" is the whole number 1234. */
  lemma WholeExample(w: string)
    requires w == "$1,234"
    ensures CurrencyDigits(w) && DigitsValue(RemoveCurrency(w)) == 1234
  {
    var a, b := "1", "234";
    assert RemoveCurrency(w) == RemoveCurrency(a) + RemoveCurrency(b) by {
      assert w == [] + ['$'] + (a + [','] + b);
      RemoveCurrencyDollar([], a + [','] + b);
      RemoveCurrencyComma(a, b);
    }
    assert RemoveCurrency(a) == a && RemoveCurrency(b) == b;
    assert a + b == "1234";
    DigitsExample(RemoveCurrency(w));
  }

  /** The digits "1234" are the number 1234. */
  lemma DigitsExample(d: string)
    requires d == "1234"
    ensures forall i | 0 <= i < |d| :: IsDigit(d[i])
    ensures DigitsValue(d) == 1234
  {
    assert d[..3] == "123" && "123"[..2] == "12" && "12"[..1] == "1" && "1"[..0] == "";
  }

  /** "Total: $1,234.56 owed" reads 1234.56. */
  lemma ExtractNumberExample(p: string, w: string, f: string, e: string)
    requires p == "Total: " && w == "$1,234" && f == "56" && e == " owed"
    ensures ExtractNumber(p + w + "." + f + e) == 1234.56
  {
    assert p + SignText(false) + w + PointText(true) + f + e == p + w + "." + f + e;
    assert ProseBefore(p, false) && ProseAfter(e, true) by {
      assert RemoveCurrency(p) == p;
      assert RemoveCurrency(e) == e;
    }
    WholeExample(w);
    FractionExample(f);
    ExtractNumberReads(p, false, w, true, f, e);
  }

  /** "change: -12.5%" reads -12.5. */
  lemma ExtractNegativeExample(p: string, w: string, f: string, e: string)
    requires p == "change: " && w == "12" && f == "5" && e == "%"
    ensures ExtractNumber(p + "-" + w + "." + f + e) == -12.5
  {
    assert p + SignText(true) + w + PointText(true) + f + e == p + "-" + w + "." + f + e;
    assert ProseBefore(p, true) && ProseAfter(e, true) by {
      assert RemoveCurrency(p) == p;
      assert RemoveCurrency(e) == e;
    }
    assert CurrencyDigits(w) && DigitsValue(RemoveCurrency(w)) == 12 by {
      assert RemoveCurrency(w) == w;
      assert w[..1] == "1" && "1"[..0] == "";
    }
    assert FractionDigitsValue(f) == 0.5 by {
      assert f[..0] == "";
      assert DigitsValue(f) == 5;
      assert Pow10(|f|) == 10 by { assert |f| == 1; }
    }
    ExtractNumberReads(p, true, w, true, f, e);
  }

  lemma {:induction false} DigitRunExact(s: string, p: nat, n: nat)
    requires p + n <= |s|
    requires forall q | p <= q < p + n :: IsDigit(s[q])
    requires p + n == |s| || !IsDigit(s[p + n])
    ensures DigitRun(s, p) == n
    decreases n
  {
    if n > 0 {
      DigitRunExact(s, p + 1, n - 1);
    }
  }

  lemma {:induction false} FindMatchFirst(s: string, p: nat, m: nat)
    requires p <= m < |s| && MatchStartsAt(s, m)
    requires forall q | p <= q < m :: !MatchStartsAt(s, q)
    ensures FindMatch(s, p) == Some(m)
    decreases m - p
  {
    if p < m {
      FindMatchFirst(s, p + 1, m);
    }
  }
}
