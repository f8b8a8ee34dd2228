/**
 * The string layer in front of the bracket and deduction tables: a filing
 * status arrives as text, is lower-cased and has its spaces turned into
 * underscores, and is then looked up among the five table keys.
 */
module StatusText {
  import opened TaxTypes

  function AsciiLower(c: char): (d: char)
    ensures 'A' <= c <= 'Z' ==> d as int == c as int + 32
    ensures !('A' <= c <= 'Z') ==> d == c
    ensures !('A' <= d <= 'Z')
  {
    if 'A' <= c <= 'Z' then (c as int + 32) as char else c
  }

  /** `s.lower()`, on the ASCII letters. */
  function Lower(s: string): (r: string)
    ensures |r| == |s|
    ensures forall i | 0 <= i < |s| :: r[i] == AsciiLower(s[i])
  {
    if s == [] then [] else [AsciiLower(s[0])] + Lower(s[1..])
  }

  /** `s.replace(" ", "_")`. */
  function ReplaceSpaces(s: string): (r: string)
    ensures |r| == |s|
    ensures forall i | 0 <= i < |s| :: r[i] == (if s[i] == ' ' then '_' else s[i])
  {
    if s == [] then [] else [if s[0] == ' ' then '_' else s[0]] + ReplaceSpaces(s[1..])
  }

  /** `filing_status.lower().replace(" ", "_")`: no upper-case letter and no space survives. */
  function Normalize(s: string): (r: string)
    ensures |r| == |s|
    ensures forall i | 0 <= i < |r| :: r[i] != ' ' && !('A' <= r[i] <= 'Z')
  {
    ReplaceSpaces(Lower(s))
  }

  /** Normalising twice is normalising once. */
  lemma NormalizeIdempotent(s: string)
    ensures Normalize(Normalize(s)) == Normalize(s)
  {
    var n := Normalize(s);
    NormalizedFixed(n);
  }

  /** Text with no upper-case letter and no space is its own normalisation. */
  lemma NormalizedFixed(s: string)
    requires forall i | 0 <= i < |s| :: s[i] != ' ' && !('A' <= s[i] <= 'Z')
    ensures Normalize(s) == s
  {
    var r := Normalize(s);
    assert |r| == |s|;
    forall i | 0 <= i < |s| ensures r[i] == s[i] {
      assert Lower(s)[i] == s[i];
    }
  }

  /** The table key of a filing status, if `key` is one: an exact dictionary lookup. */
  function StatusFromKey(key: string): (r: Option<FilingStatus>)
    ensures r.Some? ==> r.value.Value() == key
  {
    if key == "single" then Some(Single)
    else if key == "married_filing_jointly" then Some(MarriedFilingJointly)
    else if key == "married_filing_separately" then Some(MarriedFilingSeparately)
    else if key == "head_of_household" then Some(HeadOfHousehold)
    else if key == "qualifying_widow" then Some(QualifyingWidow)
    else None
  }

  /** Every status value is a key, and names its own status. */
  lemma StatusFromKeyComplete(st: FilingStatus)
    ensures StatusFromKey(st.Value()) == Some(st)
  {
  }

  /** Normalise the text, then look it up: `None` is the source's "Invalid filing status". */
  function ParseStatusText(text: string): (r: Option<FilingStatus>)
    ensures r.Some? ==> r.value.Value() == Normalize(text)
  {
    StatusFromKey(Normalize(text))
  }

  /** A status's own value always parses back to that status. */
  lemma ParseStatusValue(st: FilingStatus)
    ensures ParseStatusText(st.Value()) == Some(st)
  {
    ValueNormalized(st);
    NormalizedFixed(st.Value());
    StatusFromKeyComplete(st);
  }

  /** The status values are lower-case snake case: no upper-case letter, no space. */
  lemma ValueNormalized(st: FilingStatus)
    ensures forall i | 0 <= i < |st.Value()| :: st.Value()[i] != ' ' && !('A' <= st.Value()[i] <= 'Z')
  {
    match st
    case Single =>
    case MarriedFilingJointly =>
    case MarriedFilingSeparately =>
    case HeadOfHousehold =>
    case QualifyingWidow =>
  }

  /** Case and spaces do not matter: any text that normalises to a status value parses to it. */
  lemma ParseStatusTextIff(text: string, st: FilingStatus)
    ensures ParseStatusText(text) == Some(st) <==> Normalize(text) == st.Value()
  {
    StatusFromKeyComplete(st);
  }
}
