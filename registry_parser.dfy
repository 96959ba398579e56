/** The vendor and product extractors of the registry parser: a search for a marker
    followed by four hexadecimal digits, then for a word marker followed by an
    alphanumeric run, then the "UNKNOWN" fall-back. */
module RegistryParser {
  import opened Text

  /** `[A-Za-z0-9]`. */
  predicate IsAlnum(c: char) {
    ('A' <= c <= 'Z') || ('a' <= c <= 'z') || ('0' <= c <= '9')
  }

  /** `MARKER([0-9A-Fa-f]{4})` matches at `k`. */
  predicate HexMatchAt(s: string, marker: string, k: int) {
    OccursAt(s, marker, k) && k + |marker| + 4 <= |s|
    && forall t :: k + |marker| <= t < k + |marker| + 4 ==> IsHexDigit(s[t])
  }

  /** Where the alphanumeric group of `MARKER[_-]?([A-Za-z0-9]+)` starts when the
      pattern matches at `k`: right after the marker, or after one `_` or `-`. */
  function WordStart(s: string, marker: string, k: int): (r: int)
    requires OccursAt(s, marker, k)
  {
    var j := k + |marker|;
    if j < |s| && (s[j] == '_' || s[j] == '-') && j + 1 < |s| && IsAlnum(s[j + 1]) then j + 1 else j
  }

  predicate WordMatchAt(s: string, marker: string, k: int) {
    OccursAt(s, marker, k) && WordStart(s, marker, k) < |s| && IsAlnum(s[WordStart(s, marker, k)])
  }

  /** The leftmost match at or after `i`. */
  function FirstHexMatch(s: string, marker: string, i: nat): (r: Option<nat>)
    decreases |s| - i
    ensures r.Some? ==> i <= r.value && HexMatchAt(s, marker, r.value)
    ensures forall k :: i <= k && (r.None? || k < r.value) ==> !HexMatchAt(s, marker, k)
  {
    if i >= |s| then None
    else if HexMatchAt(s, marker, i) then Some(i)
    else FirstHexMatch(s, marker, i + 1)
  }

  function FirstWordMatch(s: string, marker: string, i: nat): (r: Option<nat>)
    decreases |s| - i
    ensures r.Some? ==> i <= r.value && WordMatchAt(s, marker, r.value)
    ensures forall k :: i <= k && (r.None? || k < r.value) ==> !WordMatchAt(s, marker, k)
  {
    if i >= |s| then None
    else if WordMatchAt(s, marker, i) then Some(i)
    else FirstWordMatch(s, marker, i + 1)
  }

  /** The greedy `[A-Za-z0-9]+` run starting at `j`. */
  function AlnumRun(s: string, j: nat): (r: string)
    requires j <= |s|
    decreases |s| - j
    ensures forall t :: 0 <= t < |r| ==> IsAlnum(r[t])
    ensures j + |r| <= |s| && r == s[j..j + |r|]
    ensures j + |r| == |s| || !IsAlnum(s[j + |r|])
  {
    if j < |s| && IsAlnum(s[j]) then [s[j]] + AlnumRun(s, j + 1) else ""
  }

  /** Both extractors: the hexadecimal group of the first hexadecimal match, else the
      alphanumeric group of the first word match, else "UNKNOWN". */
  function ExtractId(s: string, hexMarker: string, wordMarker: string): string {
    match FirstHexMatch(s, hexMarker, 0)
    case Some(k) => s[k + |hexMarker|..k + |hexMarker| + 4]
    case None =>
      match FirstWordMatch(s, wordMarker, 0)
      case Some(k) => AlnumRun(s, WordStart(s, wordMarker, k))
      case None => "UNKNOWN"
  }

  /** `_extract_vid`. */
  function ExtractVid(subkey: string): string {
    ExtractId(subkey, "VID_", "Ven")
  }

  /** `_extract_pid`. */
  function ExtractPid(subkey: string): string {
    ExtractId(subkey, "PID_", "Prod")
  }

  /** `r` is the four hexadecimal digits after the leftmost hexadecimal match. */
  ghost predicate HexOutcome(s: string, hexMarker: string, r: string) {
    exists k :: HexMatchAt(s, hexMarker, k) && (forall j :: 0 <= j < k ==> !HexMatchAt(s, hexMarker, j))
      && r == s[k + |hexMarker|..k + |hexMarker| + 4]
      && |r| == 4 && forall t :: 0 <= t < 4 ==> IsHexDigit(r[t])
  }

  /** There is no hexadecimal match and `r` is the whole alphanumeric run after the
      leftmost word match, which is never empty. */
  ghost predicate WordOutcome(s: string, hexMarker: string, wordMarker: string, r: string) {
    && (forall k :: !HexMatchAt(s, hexMarker, k))
    && exists k :: WordMatchAt(s, wordMarker, k) && (forall j :: 0 <= j < k ==> !WordMatchAt(s, wordMarker, j))
         && r == AlnumRun(s, WordStart(s, wordMarker, k)) && |r| >= 1
  }

  /** There is no match at all and `r` is "UNKNOWN". */
  ghost predicate UnknownOutcome(s: string, hexMarker: string, wordMarker: string, r: string) {
    (forall k :: !HexMatchAt(s, hexMarker, k)) && (forall k :: !WordMatchAt(s, wordMarker, k))
    && r == "UNKNOWN"
  }

  /** The three outcomes of an extractor, each characterised by the matches there
      are. */
  lemma ExtractIdCases(s: string, hexMarker: string, wordMarker: string)
    ensures var r := ExtractId(s, hexMarker, wordMarker);
      HexOutcome(s, hexMarker, r) || WordOutcome(s, hexMarker, wordMarker, r)
      || UnknownOutcome(s, hexMarker, wordMarker, r)
  {
    match FirstHexMatch(s, hexMarker, 0)
    case Some(k) => HexCase(s, hexMarker, wordMarker, k);
    case None =>
      match FirstWordMatch(s, wordMarker, 0)
      case Some(k) => WordCase(s, hexMarker, wordMarker, k);
      case None =>
        assert UnknownOutcome(s, hexMarker, wordMarker, ExtractId(s, hexMarker, wordMarker));
  }

  lemma HexCase(s: string, hexMarker: string, wordMarker: string, k: nat)
    requires FirstHexMatch(s, hexMarker, 0) == Some(k)
    ensures HexOutcome(s, hexMarker, ExtractId(s, hexMarker, wordMarker))
  {
    var r := ExtractId(s, hexMarker, wordMarker);
    assert forall t :: 0 <= t < 4 ==> r[t] == s[k + |hexMarker| + t];
    assert HexMatchAt(s, hexMarker, k) && (forall j :: 0 <= j < k ==> !HexMatchAt(s, hexMarker, j));
  }

  lemma WordCase(s: string, hexMarker: string, wordMarker: string, k: nat)
    requires FirstHexMatch(s, hexMarker, 0).None? && FirstWordMatch(s, wordMarker, 0) == Some(k)
    ensures WordOutcome(s, hexMarker, wordMarker, ExtractId(s, hexMarker, wordMarker))
  {
    var j := WordStart(s, wordMarker, k);
    assert ExtractId(s, hexMarker, wordMarker) == AlnumRun(s, j) && IsAlnum(s[j]);
    assert WordMatchAt(s, wordMarker, k) && (forall j :: 0 <= j < k ==> !WordMatchAt(s, wordMarker, j));
  }

  /** Whenever the marker is somewhere followed by four hexadecimal digits, the
      result is four hexadecimal digits (for `_extract_vid` and `_extract_pid`
      alike). */
  lemma HexBranchShape(s: string, hexMarker: string, wordMarker: string)
    requires exists k :: HexMatchAt(s, hexMarker, k)
    ensures var r := ExtractId(s, hexMarker, wordMarker);
      |r| == 4 && forall t :: 0 <= t < 4 ==> IsHexDigit(r[t])
  {
    var k :| HexMatchAt(s, hexMarker, k);
    var m := FirstHexMatch(s, hexMarker, 0);
    assert m.Some?;
    assert forall t :: 0 <= t < 4 ==> ExtractId(s, hexMarker, wordMarker)[t] == s[m.value + |hexMarker| + t];
  }

  /** Without any match of either pattern the extractors answer "UNKNOWN". */
  lemma NoMatchUnknown(s: string)
    requires forall k :: !HexMatchAt(s, "PID_", k) && !WordMatchAt(s, "Prod", k)
    ensures ExtractPid(s) == "UNKNOWN"
  {
  }
}
