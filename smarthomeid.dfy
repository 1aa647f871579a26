/**
 * SmartHome ids: `CC-ZIP-STRnn-NN`, a two-letter country code, a postal code of
 * three to five digits, a three-letter street code followed by a house number of
 * one to five digits, and a two-digit sequence number. Ids are trimmed and
 * upper-cased before they are checked or split into parts.
 */
module SmartHomeId {
  import opened Wrappers
  import opened Text

  const RequiredMessage: string := "SmartHome ID is required."
  const FormatMessage: string := "Invalid format. Expected: CC-ZIPCODE-STR##-NN (e.g. DE-80331-MAR12-01)"

  /** What `validateSmartHomeId` returns. */
  datatype Verdict = Valid | Invalid(error: string)

  /** What `parseSmartHomeId` returns when the id matches. */
  datatype Parts = Parts(country: string, zip: string, streetCode: string, houseNumber: string, suffix: string)

  predicate AllUpper(s: string) {
    forall i :: 0 <= i < |s| ==> IsUpper(s[i])
  }

  /** The shape each part has in a matching id. */
  predicate WellFormed(p: Parts) {
    && |p.country| == 2 && AllUpper(p.country)
    && 3 <= |p.zip| <= 5 && AllDigits(p.zip)
    && |p.streetCode| == 3 && AllUpper(p.streetCode)
    && 1 <= |p.houseNumber| <= 5 && AllDigits(p.houseNumber)
    && |p.suffix| == 2 && AllDigits(p.suffix)
  }

  /** The id the parts are read from: `country-zip-streetCode houseNumber-suffix`. */
  function Assemble(p: Parts): string {
    p.country + "-" + p.zip + "-" + p.streetCode + p.houseNumber + "-" + p.suffix
  }

  /** `/^[A-Z]{2}-\d{3,5}-[A-Z]{3}\d{1,5}-\d{2}$/` as a set of strings: the assembled well-formed parts. */
  ghost predicate MatchesPattern(s: string) {
    exists p :: WellFormed(p) && Assemble(p) == s
  }

  // ---------------------------------------------------------------------------
  // The pattern test, position by position

  /** The characters of `s` in `[from, to)` are upper-case letters. */
  predicate UpperAt(s: string, from: nat, to: nat)
    requires from <= to <= |s|
  {
    forall i :: from <= i < to ==> IsUpper(s[i])
  }

  predicate DigitsAt(s: string, from: nat, to: nat)
    requires from <= to <= |s|
  {
    forall i :: from <= i < to ==> IsDigit(s[i])
  }

  /** `s` matches with a postal code of `zl` digits and a house number of `hl` digits. */
  predicate LayoutFits(s: string, zl: nat, hl: nat) {
    && |s| == zl + hl + 10
    && UpperAt(s, 0, 2) && s[2] == '-'
    && DigitsAt(s, 3, 3 + zl) && s[3 + zl] == '-'
    && UpperAt(s, 4 + zl, 7 + zl) && DigitsAt(s, 7 + zl, 7 + zl + hl) && s[7 + zl + hl] == '-'
    && DigitsAt(s, 8 + zl + hl, |s|)
  }

  /** `SMARTHOME_ID_REGEX.test(s)`: some length of the postal code and the house number fits. */
  predicate TestPattern(s: string) {
    exists zl, hl | 3 <= zl <= 5 && 1 <= hl <= 5 :: LayoutFits(s, zl, hl)
  }

  /** The parts read off a fitting layout. */
  function PartsAt(s: string, zl: nat, hl: nat): Parts
    requires LayoutFits(s, zl, hl)
  {
    Parts(s[..2], s[3..3 + zl], s[4 + zl..7 + zl], s[7 + zl..7 + zl + hl], s[8 + zl + hl..])
  }

  lemma LayoutAssemble(s: string, zl: nat, hl: nat)
    requires 3 <= zl <= 5 && 1 <= hl <= 5 && LayoutFits(s, zl, hl)
    ensures WellFormed(PartsAt(s, zl, hl)) && Assemble(PartsAt(s, zl, hl)) == s
  {
    var p := PartsAt(s, zl, hl);
    var a := p.country + "-" + p.zip + "-" + p.streetCode + p.houseNumber + "-" + p.suffix;
    assert |a| == |s|;
    forall i | 0 <= i < |s|
      ensures a[i] == s[i]
    {
    }
  }

  lemma AssembleLayout(p: Parts)
    requires WellFormed(p)
    ensures LayoutFits(Assemble(p), |p.zip|, |p.houseNumber|)
  {
    var s := Assemble(p);
    var zl, hl := |p.zip|, |p.houseNumber|;
    assert forall i :: 0 <= i < 2 ==> s[i] == p.country[i];
    assert forall i :: 3 <= i < 3 + zl ==> s[i] == p.zip[i - 3];
    assert forall i :: 4 + zl <= i < 7 + zl ==> s[i] == p.streetCode[i - 4 - zl];
    assert forall i :: 7 + zl <= i < 7 + zl + hl ==> s[i] == p.houseNumber[i - 7 - zl];
    assert forall i :: 8 + zl + hl <= i < |s| ==> s[i] == p.suffix[i - 8 - zl - hl];
  }

  /** The position-by-position test accepts exactly the strings of the pattern. */
  lemma TestPatternMeaning(s: string)
    ensures TestPattern(s) <==> MatchesPattern(s)
  {
    if TestPattern(s) {
      var zl, hl :| 3 <= zl <= 5 && 1 <= hl <= 5 && LayoutFits(s, zl, hl);
      LayoutAssemble(s, zl, hl);
    }
    if MatchesPattern(s) {
      var p :| WellFormed(p) && Assemble(p) == s;
      AssembleLayout(p);
    }
  }

  // ---------------------------------------------------------------------------
  // The parser, by splitting on '-'

  /** The capture groups of the parsing pattern, from the four `-`-separated pieces. */
  function ParseParts(s: string): (r: Option<Parts>)
    ensures r.Some? ==> WellFormed(r.value)
  {
    var pieces := Split(s, '-');
    if |pieces| != 4 then None
    else
      var country, zip, street, suffix := pieces[0], pieces[1], pieces[2], pieces[3];
      if |street| < 3 then None
      else
        var p := Parts(country, zip, street[..3], street[3..], suffix);
        if WellFormed(p) then Some(p) else None
  }

  lemma JoinFour(a: string, b: string, c: string, d: string)
    ensures Join([a, b, c, d], "-") == a + "-" + b + "-" + c + "-" + d
  {
    assert [a, b, c, d][1..] == [b, c, d];
    assert [b, c, d][1..] == [c, d];
    assert [c, d][1..] == [d];
    var j3 := c + "-" + d;
    assert Join([c, d], "-") == j3;
    var j2 := b + "-" + j3;
    assert Join([b, c, d], "-") == j2;
    assert Join([a, b, c, d], "-") == a + "-" + j2;
    assert a + "-" + j2 == a + "-" + b + "-" + c + "-" + d;
  }

  /** What the parser returns reassembles to its input. */
  lemma ParsePartsSound(s: string)
    requires ParseParts(s).Some?
    ensures Assemble(ParseParts(s).value) == s
  {
    var pieces := Split(s, '-');
    JoinSplit(s, '-');
    var street := pieces[2];
    assert street[..3] + street[3..] == street;
    assert pieces == [pieces[0], pieces[1], pieces[2], pieces[3]];
    JoinFour(pieces[0], pieces[1], pieces[2], pieces[3]);
  }

  lemma NoDash(s: string)
    requires AllUpper(s) || AllDigits(s)
    ensures '-' !in s
  {
  }

  /** The parser recovers the parts of any well-formed id. */
  lemma ParsePartsComplete(p: Parts)
    requires WellFormed(p)
    ensures ParseParts(Assemble(p)) == Some(p)
  {
    var street := p.streetCode + p.houseNumber;
    NoDash(p.country);
    NoDash(p.zip);
    NoDash(p.streetCode);
    NoDash(p.houseNumber);
    NoDash(p.suffix);
    assert '-' !in street;
    SplitNone(p.suffix, '-');
    var x3 := street + ['-'] + p.suffix;
    SplitFirst(street, '-', p.suffix);
    assert Split(x3, '-') == [street, p.suffix];
    var x2 := p.zip + ['-'] + x3;
    SplitFirst(p.zip, '-', x3);
    assert Split(x2, '-') == [p.zip, street, p.suffix];
    var x1 := p.country + ['-'] + x2;
    SplitFirst(p.country, '-', x2);
    assert Split(x1, '-') == [p.country, p.zip, street, p.suffix];
    assert Assemble(p) == x1;
    assert street[..3] == p.streetCode && street[3..] == p.houseNumber;
  }

  /** The parser succeeds exactly on the strings of the pattern. */
  lemma ParsePartsMeaning(s: string)
    ensures ParseParts(s).Some? <==> MatchesPattern(s)
  {
    if ParseParts(s).Some? {
      ParsePartsSound(s);
    }
    if MatchesPattern(s) {
      var p :| WellFormed(p) && Assemble(p) == s;
      ParsePartsComplete(p);
    }
  }

  // ---------------------------------------------------------------------------
  // The two exported operations

  /** `id.trim().toUpperCase()`. */
  function Normalize(id: string): string {
    Upper(Trim(id))
  }

  /**
   * `validateSmartHomeId`: a missing, empty or non-string id is required; otherwise
   * the normalised id must match the pattern. `None` stands for a value that is not
   * a string.
   */
  function ValidateSmartHomeId(id: Option<string>): (r: Verdict)
    ensures id.None? || id == Some("") ==> r == Invalid(RequiredMessage)
    ensures r.Invalid? ==> r.error in {RequiredMessage, FormatMessage}
  {
    if id.None? || id.value == "" then Invalid(RequiredMessage)
    else if !TestPattern(Normalize(id.value)) then Invalid(FormatMessage)
    else Valid
  }

  /** `parseSmartHomeId`: the parts of the normalised id, or none when it does not match. */
  function ParseSmartHomeId(id: string): (r: Option<Parts>)
    ensures r.Some? ==> WellFormed(r.value)
  {
    ParseParts(Normalize(id))
  }

  /** The validator and the parser agree on every non-empty string. */
  lemma ValidateAgreesWithParse(id: string)
    requires id != ""
    ensures ValidateSmartHomeId(Some(id)) == Valid <==> ParseSmartHomeId(id).Some?
  {
    TestPatternMeaning(Normalize(id));
    ParsePartsMeaning(Normalize(id));
  }

  /** Re-joining the parsed parts rebuilds the trimmed, upper-cased id exactly. */
  lemma ParseRoundTrip(id: string)
    requires ParseSmartHomeId(id).Some?
    ensures Assemble(ParseSmartHomeId(id).value) == Normalize(id)
  {
    ParsePartsSound(Normalize(id));
  }

  /** An assembled well-formed id is valid and parses back to its parts. */
  lemma AssembleParses(p: Parts)
    requires WellFormed(p)
    ensures ParseSmartHomeId(Assemble(p)) == Some(p)
    ensures ValidateSmartHomeId(Some(Assemble(p))) == Valid
  {
    var s := Assemble(p);
    NormalizeFixed(s, p);
    ParsePartsComplete(p);
    ValidateAgreesWithParse(s);
  }

  lemma TrimFixed(s: string)
    requires s == [] || (!IsSpace(s[0]) && !IsSpace(s[|s| - 1]))
    ensures Trim(s) == s
  {
  }

  lemma UpperFixed(s: string)
    requires forall i :: 0 <= i < |s| ==> !IsLower(s[i])
    ensures Upper(s) == s
  {
  }

  lemma LayoutNoLower(s: string, zl: nat, hl: nat)
    requires LayoutFits(s, zl, hl)
    ensures forall i :: 0 <= i < |s| ==> !IsLower(s[i])
  {
    forall i | 0 <= i < |s|
      ensures !IsLower(s[i])
    {
      if i < 2 {
        assert IsUpper(s[i]);
      } else if 3 <= i < 3 + zl {
        assert IsDigit(s[i]);
      } else if 4 + zl <= i < 7 + zl {
        assert IsUpper(s[i]);
      } else if 7 + zl <= i < 7 + zl + hl {
        assert IsDigit(s[i]);
      } else if 8 + zl + hl <= i {
        assert IsDigit(s[i]);
      }
    }
  }

  lemma NormalizeFixed(s: string, p: Parts)
    requires WellFormed(p) && s == Assemble(p)
    ensures Normalize(s) == s
  {
    AssembleLayout(p);
    TrimFixed(s);
    LayoutNoLower(s, |p.zip|, |p.houseNumber|);
    UpperFixed(s);
  }

  /** Normalising twice is normalising once: the parse of a normalised id is the parse of the id. */
  lemma NormalizeIdempotent(id: string)
    ensures Normalize(Normalize(id)) == Normalize(id)
    ensures ParseSmartHomeId(Normalize(id)) == ParseSmartHomeId(id)
  {
    var u := Upper(Trim(id));
    TrimFixed(u);
    UpperFixed(u);
  }

  /** Case and surrounding blanks never change whether an id is valid. */
  lemma ValidateNormalized(id: string)
    ensures ValidateSmartHomeId(Some(Normalize(id))).Valid? == ValidateSmartHomeId(Some(id)).Valid?
  {
    NormalizeIdempotent(id);
    var u := Normalize(id);
    if u == [] {
      assert !TestPattern(u);
    }
  }
}
