/** The two text helpers of the image pipeline: `processText`, which fits track
    metadata into one overlay line, and `niceDate`, which turns an ISO timestamp
    into the printed date label. */
module Overlay {
  import opened JsString

  /** TEXT_MAX_LENGTH: the widest overlay line, in characters. */
  const TextMaxLength: nat := 22

  /** The single ellipsis glyph (U+2026) that marks a cut line. */
  const Ellipsis: char := '…'

  /** `processText`: upper-case the text; if it is longer than TextMaxLength, keep
      its first TextMaxLength - 1 characters and append one ellipsis. */
  function ProcessText(text: string): (r: string)
    ensures |r| <= TextMaxLength
    ensures |text| <= TextMaxLength ==> r == ToUpperCase(text)
    ensures |text| > TextMaxLength ==> |r| == TextMaxLength && r[TextMaxLength - 1] == Ellipsis
    ensures forall i :: 0 <= i < |r| && (i < TextMaxLength - 1 || |text| <= TextMaxLength) ==>
              r[i] == UpperAscii(text[i])
  {
    var upper := ToUpperCase(text);
    if |upper| <= TextMaxLength then upper
    else Substr(upper, 0, TextMaxLength - 1) + [Ellipsis]
  }

  /** A line `processText` produced comes back unchanged from a second pass. */
  lemma ProcessTextIdempotent(text: string)
    ensures ProcessText(ProcessText(text)) == ProcessText(text)
  {
    var r := ProcessText(text);
    assert |r| <= TextMaxLength;
    var rr := ProcessText(r);
    forall i | 0 <= i < |r|
      ensures rr[i] == r[i]
    {
      if i < TextMaxLength - 1 || |text| <= TextMaxLength {
        assert r[i] == UpperAscii(text[i]);
      } else {
        assert r[i] == Ellipsis;
      }
    }
  }

  /** A title longer than 22 characters that starts "a very extremely long" (as
      "a very extremely long song title indeed" does) is cut to those 21 characters,
      upper-cased, and the ellipsis. */
  lemma LongTitleIsCut(title: string)
    requires |title| > TextMaxLength && title[..21] == "a very extremely long"
    ensures ProcessText(title) == "A VERY EXTREMELY LONG…"
  {
    var r := ProcessText(title);
    var want := "A VERY EXTREMELY LONG…";
    forall i | 0 <= i < 21 ensures r[i] == want[i] {
      assert title[i] == title[..21][i];
    }
  }

  /** The run of spaces `niceDate` puts where the ISO timestamp has its 'T'. */
  const DateTimeGap: string := "                                    "

  /** `niceDate` of a timestamp: replace the first 'T' by the gap and the first 'Z'
      by one space, cut at the last ':' and trim. The clock read that supplies
      `iso` is left to the caller. */
  function NiceDate(iso: string): (r: string)
    ensures r == [] || (!IsWhiteSpace(r[0]) && !IsWhiteSpace(r[|r| - 1]))
    ensures |r| <= |iso| + |DateTimeGap|
  {
    var spaced := ReplaceFirst(ReplaceFirst(iso, 'T', DateTimeGap), 'Z', " ");
    Trim(Substr(spaced, 0, LastIndexOf(spaced, ':')))
  }

  predicate IsDigit(c: char) { '0' <= c <= '9' }

  /** Where an ISO timestamp holds '-', 'T', ':', '.' or 'Z' rather than a digit. */
  predicate IsIsoSeparatorPosition(i: int)
  {
    i == 4 || i == 7 || i == 10 || i == 13 || i == 16 || i == 19 || i == 23
  }

  /** The shape `Date.prototype.toISOString` gives for years 0 to 9999:
      YYYY-MM-DDTHH:mm:ss.sssZ. */
  predicate IsIsoTimestamp(s: string)
  {
    |s| == 24 &&
    s[4] == '-' && s[7] == '-' && s[10] == 'T' && s[13] == ':' && s[16] == ':' &&
    s[19] == '.' && s[23] == 'Z' &&
    forall i :: 0 <= i < 24 && !IsIsoSeparatorPosition(i) ==> IsDigit(s[i])
  }

  /** On a timestamp of that shape the label is the date, the gap, then the hour and
      minute: seconds, milliseconds and the 'Z' are gone. */
  lemma NiceDateOfIso(iso: string)
    requires IsIsoTimestamp(iso)
    ensures NiceDate(iso) == iso[..10] + DateTimeGap + iso[11..16]
    ensures |NiceDate(iso)| == 10 + |DateTimeGap| + 5
  {
    IsoSpaced(iso);
    IsoSpacedCut(iso);
    var t := iso[..10] + DateTimeGap + iso[11..16];
    assert t[0] == iso[0] && t[|t| - 1] == iso[15];
    TrimNoOp(t);
  }

  /** The two replacements: the 'T' becomes the gap and the 'Z' one space. */
  lemma IsoSpaced(iso: string)
    requires IsIsoTimestamp(iso)
    ensures ReplaceFirst(ReplaceFirst(iso, 'T', DateTimeGap), 'Z', " ") ==
            iso[..10] + DateTimeGap + iso[11..23] + " "
  {
    var g := |DateTimeGap|;
    var s1 := ReplaceFirst(iso, 'T', DateTimeGap);
    ReplaceFirstAt(iso, 'T', DateTimeGap, 10);
    assert s1 == iso[..10] + DateTimeGap + iso[11..];
    assert |s1| == 23 + g;
    assert forall j :: 0 <= j < 22 + g ==> s1[j] != 'Z' by {
      forall j | 0 <= j < 22 + g ensures s1[j] != 'Z' {
        if j < 10 { assert s1[j] == iso[j]; }
        else if j < 10 + g { assert s1[j] == DateTimeGap[j - 10]; }
        else { assert s1[j] == iso[j - g + 1]; }
      }
    }
    assert s1[22 + g] == 'Z';
    ReplaceFirstAt(s1, 'Z', " ", 22 + g);
    assert s1[..22 + g] == iso[..10] + DateTimeGap + iso[11..23];
  }

  /** The cut at the last ':' drops the seconds, the milliseconds and the space. */
  lemma IsoSpacedCut(iso: string)
    requires IsIsoTimestamp(iso)
    ensures var s2 := iso[..10] + DateTimeGap + iso[11..23] + " ";
            Substr(s2, 0, LastIndexOf(s2, ':')) == iso[..10] + DateTimeGap + iso[11..16]
  {
    var g := |DateTimeGap|;
    var s2 := iso[..10] + DateTimeGap + iso[11..23] + " ";
    assert s2[15 + g] == iso[16] == ':';
    forall j | 15 + g < j < |s2| ensures s2[j] != ':' {
      if j < 22 + g { assert s2[j] == iso[j - g + 1]; }
    }
    assert LastIndexOf(s2, ':') == 15 + g;
    assert s2[..15 + g] == iso[..10] + DateTimeGap + iso[11..16];
  }
}
