/** The spatial-reference code both providers derive from a CRS identifier with
    `re.search(r'(\d{4,5})$', crs)`, and the fallbacks around it. */
module CrsCode {
  import opened Text
  import opened PyJson

  /** Length of the run of digits at the end of `s`. */
  function TrailingDigitCount(s: string): (n: nat)
    ensures n <= |s|
    decreases |s|
  {
    if s == [] || !IsDigit(s[|s| - 1]) then 0 else 1 + TrailingDigitCount(s[..|s| - 1])
  }

  /** The pattern `(\d{4,5})$` tried at position `i`: the greedy `\d{4,5}` first
      takes five digits, then backs off to four, and `$` needs the end of the string. */
  function MatchAt(s: string, i: nat): Option<string>
    requires i <= |s|
  {
    if i + 5 == |s| && AllDigits(s[i..]) then Some(s[i..])
    else if i + 4 == |s| && AllDigits(s[i..]) then Some(s[i..])
    else None
  }

  /** `re.search` from position `i` on: the leftmost position where the pattern matches. */
  function SearchFrom(s: string, i: nat): Option<string>
    requires i <= |s|
    decreases |s| - i
  {
    match MatchAt(s, i)
    case Some(g) => Some(g)
    case None => if i == |s| then None else SearchFrom(s, i + 1)
  }

  /** `m.group(1)` of `re.search(r'(\d{4,5})$', s)`, None when there is no match. */
  function TrailingCode(s: string): Option<string> {
    SearchFrom(s, 0)
  }

  /** The last k characters are all digits exactly when the trailing run is at least k long. */
  lemma {:induction false} TrailingDigits(s: string, k: nat)
    requires k <= |s|
    ensures AllDigits(s[|s| - k..]) <==> TrailingDigitCount(s) >= k
    decreases |s|
  {
    if k > 0 {
      var t := s[..|s| - 1];
      TrailingDigits(t, k - 1);
      assert s[|s| - k..] == t[|t| - (k - 1)..] + [s[|s| - 1]];
      AllDigitsAppend(t[|t| - (k - 1)..], [s[|s| - 1]]);
      assert AllDigits([s[|s| - 1]]) <==> IsDigit(s[|s| - 1]);
    }
  }

  lemma {:induction false} SearchFromShape(s: string, i: nat)
    requires i <= |s|
    ensures SearchFrom(s, i) ==
      if i + 5 <= |s| && TrailingDigitCount(s) >= 5 then Some(s[|s| - 5..])
      else if i + 4 <= |s| && TrailingDigitCount(s) >= 4 then Some(s[|s| - 4..])
      else None
    decreases |s| - i
  {
    if i + 5 == |s| {
      TrailingDigits(s, 5);
      if !AllDigits(s[i..]) {
        SearchFromShape(s, i + 1);
      }
    } else if i + 4 == |s| {
      TrailingDigits(s, 4);
      if !AllDigits(s[i..]) {
        SearchFromShape(s, i + 1);
      }
    } else if i < |s| {
      SearchFromShape(s, i + 1);
    }
  }

  /** The regex finds the last five digits when the trailing digit run has five or
      more, all four when it has exactly four, and nothing otherwise. */
  lemma TrailingCodeSpec(s: string)
    ensures TrailingCode(s) ==
      if TrailingDigitCount(s) >= 5 then Some(s[|s| - 5..])
      else if TrailingDigitCount(s) == 4 then Some(s[|s| - 4..])
      else None
  {
    SearchFromShape(s, 0);
  }

  /** A match is always a 4- or 5-character digit string. */
  lemma TrailingCodeDigits(s: string)
    ensures TrailingCode(s).Some? ==>
      var g := TrailingCode(s).value;
      (|g| == 4 || |g| == 5) && AllDigits(g) && |g| <= |s| && g == s[|s| - |g|..]
  {
    TrailingCodeSpec(s);
    if TrailingCode(s).Some? {
      TrailingDigits(s, |TrailingCode(s).value|);
    }
  }

  /** `default_epsg` in arcgis_mapserver.py once a CRS value has been read: the
      matched digits (a string) for a non-empty CRS, `'4326'` for an absent or empty
      one, and None (the attribute keeps its previous value) when a non-empty CRS
      has no trailing code. */
  function TextCode(crs: Option<string>): Option<string> {
    if crs.Some? && crs.value != "" then TrailingCode(crs.value) else Some("4326")
  }

  /** `default_epsg` in arcgis_mapserver_standalone.py: the same digits through `int()`. */
  function IntCode(crs: Option<string>): Option<int> {
    if crs.Some? && crs.value != "" then
      match TrailingCode(crs.value)
      case Some(g) =>
        TrailingCodeDigits(crs.value);
        Some(ParseDigits(g) as int)
      case None => None
    else Some(4326)
  }

  /** The text code of arcgis_mapserver.py, per case. */
  lemma TextCodeCases(crs: Option<string>)
    ensures crs.None? || crs == Some("") ==> TextCode(crs) == Some("4326")
    ensures crs.Some? && crs.value != "" && TrailingDigitCount(crs.value) >= 5 ==>
      TextCode(crs) == Some(crs.value[|crs.value| - 5..])
    ensures crs.Some? && crs.value != "" && TrailingDigitCount(crs.value) == 4 ==>
      TextCode(crs) == Some(crs.value[|crs.value| - 4..])
    ensures crs.Some? && TrailingDigitCount(crs.value) < 4 && crs.value != "" ==>
      TextCode(crs) == None
  {
    if crs.Some? {
      TrailingCodeSpec(crs.value);
    }
  }

  /** The two providers read the same digits: the integer code is `int()` of the text code. */
  lemma IntCodeIsParsedTextCode(crs: Option<string>)
    ensures IntCode(crs).Some? <==> TextCode(crs).Some?
    ensures TextCode(crs).Some? ==>
      AllDigits(TextCode(crs).value) && IntCode(crs).value == ParseDigits(TextCode(crs).value) as int
  {
    if crs.Some? && crs.value != "" {
      TrailingCodeDigits(crs.value);
    } else {
      assert ParseDigits("4326") == 4326 by {
        assert "4326"[..3] == "432" && "432"[..2] == "43" && "43"[..1] == "4";
      }
    }
  }

  /** A CRS such as "urn:ogc:def:crs:EPSG::2056" yields 2056 in both providers. */
  lemma SwissCrsExample()
    ensures TextCode(Some("urn:ogc:def:crs:EPSG::2056")) == Some("2056")
    ensures IntCode(Some("urn:ogc:def:crs:EPSG::2056")) == Some(2056)
  {
    var s := "urn:ogc:def:crs:EPSG::2056";
    assert s[|s| - 4..] == "2056";
    assert s[|s| - 5] == ':' && s[|s| - 5..][0] == ':';
    TrailingDigits(s, 4);
    TrailingDigits(s, 5);
    TrailingCodeSpec(s);
    assert ParseDigits("2056") == 2056 by {
      assert "2056"[..3] == "205" && "205"[..2] == "20" && "20"[..1] == "2";
    }
  }
}
