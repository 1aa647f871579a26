/**
 * The name mappers of the A-Box serializer: block type to ontology class,
 * block to instance IRI, field name to datatype property, input name to object
 * property.
 */
module Naming {
  import opened Wrappers
  import opened Text
  import opened PropertyNames

  // ---------------------------------------------------------------------------
  // Case helpers used by the proofs below

  lemma LowerIdempotent(s: string)
    ensures Lower(Lower(s)) == Lower(s)
  {
  }

  /** Lower-casing commutes with removing a character that has no case. */
  lemma {:induction false} LowerStrip(s: string, c: char)
    requires !IsUpper(c) && !IsLower(c)
    ensures Lower(Strip(s, c)) == Strip(Lower(s), c)
  {
    if s != [] {
      LowerStrip(s[1..], c);
      assert Lower(s)[1..] == Lower(s[1..]);
      LowerAppend(if s[0] == c then [] else [s[0]], Strip(s[1..], c));
    }
  }

  // ---------------------------------------------------------------------------
  // Capitals at the start of `_`-parts

  /** Position `i` of `s` begins a `_`-part: it follows an underscore, or it is the first position and `first` holds. */
  predicate PartStart(s: string, i: nat, first: bool)
    requires i < |s|
  {
    if i == 0 then first else s[i - 1] == '_'
  }

  /**
   * `s` with every character that begins a `_`-part upper-cased and every other
   * character kept; `first` says whether the first part is capitalised too.
   */
  function MarkParts(s: string, first: bool): (r: string)
    ensures |r| == |s|
    ensures forall i :: 0 <= i < |s| ==> r[i] == if PartStart(s, i, first) then UpperChar(s[i]) else s[i]
  {
    seq(|s|, i requires 0 <= i < |s| => if PartStart(s, i, first) then UpperChar(s[i]) else s[i])
  }

  lemma MarkPartsCons(s: string, first: bool)
    requires s != []
    ensures MarkParts(s, first) == [if first then UpperChar(s[0]) else s[0]] + MarkParts(s[1..], s[0] == '_')
  {
    var r := [if first then UpperChar(s[0]) else s[0]] + MarkParts(s[1..], s[0] == '_');
    forall i | 0 <= i < |s| ensures MarkParts(s, first)[i] == r[i] {
      if i > 0 {
        assert PartStart(s, i, first) == PartStart(s[1..], i - 1, s[0] == '_');
      }
    }
  }

  /**
   * Splitting on `_` and joining the parts with their first characters upper-cased
   * (every part, or every part but the first) drops the underscores and
   * capitalises exactly the characters that begin a part.
   */
  lemma {:induction false} JoinParts(s: string, first: bool)
    ensures first ==> ConcatCapitalized(Split(s, '_')) == Strip(MarkParts(s, true), '_')
    ensures !first ==> CamelJoin(Split(s, '_')) == Strip(MarkParts(s, false), '_')
  {
    if s != [] {
      MarkPartsCons(s, first);
      var rest := MarkParts(s[1..], s[0] == '_');
      assert Strip(MarkParts(s, first), '_')
        == (if s[0] == '_' then [] else [if first then UpperChar(s[0]) else s[0]]) + Strip(rest, '_');
      JoinParts(s[1..], s[0] == '_');
      var t := Split(s[1..], '_');
      if s[0] != '_' {
        var parts := Split(s, '_');
        assert parts == [[s[0]] + t[0]] + t[1..];
        assert parts[1..] == t[1..];
        if first {
          assert Capitalize(parts[0]) == [UpperChar(s[0])] + t[0];
          AppendAssoc([UpperChar(s[0])], t[0], ConcatCapitalized(t[1..]));
        } else {
          AppendAssoc([s[0]], t[0], ConcatCapitalized(t[1..]));
        }
      }
    }
  }

  // ---------------------------------------------------------------------------
  // Block type to class

  /**
   * `dhc_` types become `dhc:` followed by the PascalCase join of the `_`-parts of
   * what is left after removing the first `dhc_`; any other type has no class.
   * Up to case, the local name is that remainder with its underscores dropped.
   */
  function BlockTypeToClass(blockType: string): (r: Option<string>)
    ensures r.None? <==> !StartsWith(blockType, "dhc_")
    ensures r.Some? ==> StartsWith(r.value, "dhc:")
    ensures r.Some? ==> '_' !in r.value[4..]
    ensures r.Some? ==> Lower(r.value[4..]) == Lower(Strip(blockType[4..], '_'))
    ensures r.Some? ==> r.value[4..] == Strip(MarkParts(blockType[4..], true), '_')
  {
    if !StartsWith(blockType, "dhc_") then None
    else
      var rest := ReplaceFirst(blockType, "dhc_", "");
      assert rest == blockType[4..];
      var local := ConcatCapitalized(Split(rest, '_'));
      ConcatSplit(rest, '_');
      ConcatCapitalizedNoChar(Split(rest, '_'), '_');
      JoinParts(rest, true);
      assert ("dhc:" + local)[4..] == local;
      Some("dhc:" + local)
  }

  /** The serializer has no module-prefix table: the module name becomes part of the class. */
  lemma GtlRemainder()
    ensures ReplaceFirst("dhc_nfc15100_gtl", "dhc_", "") == "nfc15100_gtl"
  {
    var s := "dhc_nfc15100_gtl";
    assert s[..4] == "dhc_";
    assert s[4..] == "nfc15100_gtl";
  }

  lemma GtlSplit()
    ensures Split("nfc15100_gtl", '_') == ["nfc15100", "gtl"]
  {
    assert "nfc15100" + ['_'] + "gtl" == "nfc15100_gtl";
    SplitFirst("nfc15100", '_', "gtl");
    SplitNone("gtl", '_');
  }

  lemma GtlCapitalized()
    ensures ConcatCapitalized(["nfc15100", "gtl"]) == "Nfc15100Gtl"
  {
    assert ["nfc15100", "gtl"][1..] == ["gtl"];
    assert ["gtl"][1..] == [];
    assert Capitalize("gtl") == "Gtl";
    assert Capitalize("nfc15100") == "Nfc15100";
    assert "Nfc15100" + ("Gtl" + "") == "Nfc15100Gtl";
  }

  /** The serializer has no module-prefix table: the module name becomes part of the class. */
  lemma GtlClass()
    ensures BlockTypeToClass("dhc_nfc15100_gtl") == Some("dhc:Nfc15100Gtl")
  {
    var blockType := "dhc_nfc15100_gtl";
    assert BlockTypeToClass(blockType) == Some("dhc:" + "Nfc15100Gtl") by {
      assert blockType[..4] == "dhc_";
      GtlRemainder();
      GtlSplit();
      GtlCapitalized();
    }
    GtlJoin();
  }

  lemma GtlJoin()
    ensures "dhc:" + "Nfc15100Gtl" == "dhc:Nfc15100Gtl"
  {
  }

  // ---------------------------------------------------------------------------
  // Instance IRIs

  function InstanceIri(smartHomeId: string, blockType: string, blockId: string): (r: string)
    ensures StartsWith(r, "dhc-instance:")
  {
    "dhc-instance:" + smartHomeId + "/" + blockType + "/" + blockId
  }

  lemma SlashSplit(a: string, x: string, b: string, y: string)
    requires '/' !in a && '/' !in b
    requires a + "/" + x == b + "/" + y
    ensures a == b && x == y
  {
    var s := a + "/" + x;
    FirstOccurrence(a, '/', x);
    FirstOccurrence(b, '/', y);
    assert a == s[..|a|];
    assert b == s[..|b|];
    assert x == s[|a| + 1..];
    assert y == s[|b| + 1..];
  }

  /** Within one home, blocks whose type and id contain no `/` have distinct IRIs unless type and id agree. */
  lemma InstanceIriInjective(home: string, t1: string, id1: string, t2: string, id2: string)
    requires '/' !in t1 && '/' !in t2 && '/' !in id1 && '/' !in id2
    requires InstanceIri(home, t1, id1) == InstanceIri(home, t2, id2)
    ensures t1 == t2 && id1 == id2
  {
    var p := "dhc-instance:" + home + "/";
    assert InstanceIri(home, t1, id1) == p + (t1 + "/" + id1);
    assert InstanceIri(home, t2, id2) == p + (t2 + "/" + id2);
    assert t1 + "/" + id1 == t2 + "/" + id2 by {
      var u := InstanceIri(home, t1, id1);
      assert t1 + "/" + id1 == u[|p|..];
    }
    SlashSplit(t1, id1, t2, id2);
  }

  // ---------------------------------------------------------------------------
  // Field and input names to properties

  /** `parts[0]` followed by the other parts capitalised: camelCase. */
  function CamelJoin(parts: seq<string>): (r: string)
    requires |parts| >= 1
    ensures StartsWith(r, parts[0])
    ensures Lower(r) == Lower(Concat(parts))
  {
    LowerAppend(parts[0], ConcatCapitalized(parts[1..]));
    LowerAppend(parts[0], Concat(parts[1..]));
    assert (parts[0] + ConcatCapitalized(parts[1..]))[..|parts[0]|] == parts[0];
    parts[0] + ConcatCapitalized(parts[1..])
  }

  /**
   * `LABEL` becomes `rdfs:label`; any other field name becomes `dhc:` followed by
   * the camelCase of its lower-cased `_`-parts: the name lower-cased without
   * underscores, with the first part left in lower case.
   */
  function FieldToProperty(fieldName: string): (r: string)
    ensures fieldName == "LABEL" ==> r == "rdfs:label"
    ensures fieldName != "LABEL" ==> StartsWith(r, "dhc:")
    ensures fieldName != "LABEL" ==> '_' !in r[4..]
    ensures fieldName != "LABEL" ==> Lower(r[4..]) == Strip(Lower(fieldName), '_')
    ensures fieldName != "LABEL" ==> StartsWith(r[4..], Split(Lower(fieldName), '_')[0])
    ensures fieldName != "LABEL" ==> r[4..] == Strip(MarkParts(Lower(fieldName), false), '_')
  {
    if fieldName == "LABEL" then "rdfs:label"
    else
      var parts := Split(Lower(fieldName), '_');
      var camel := CamelJoin(parts);
      ConcatSplit(Lower(fieldName), '_');
      LowerStrip(Lower(fieldName), '_');
      LowerIdempotent(fieldName);
      ConcatCapitalizedNoChar(parts[1..], '_');
      JoinParts(Lower(fieldName), false);
      assert ("dhc:" + camel)[4..] == camel;
      assert camel[..|parts[0]|] == parts[0];
      "dhc:" + camel
  }

  /** `dhc:` followed by the table entry, or by the whole input name lower-cased. */
  function InputToProperty(inputName: string): (r: string)
    ensures StartsWith(r, "dhc:")
    ensures r[4..] == PropertyTable(inputName).GetOr(Lower(inputName))
  {
    var local := PropertyTable(inputName).GetOr(Lower(inputName));
    assert ("dhc:" + local)[4..] == local;
    "dhc:" + local
  }

  /** Whatever the input name, its object property is `dhc:` followed by the name up to case. */
  lemma InputToPropertyCase(inputName: string)
    ensures Lower(InputToProperty(inputName)) == "dhc:" + Lower(inputName)
  {
    var r := InputToProperty(inputName);
    assert r == "dhc:" + r[4..];
    LowerAppend("dhc:", r[4..]);
    if PropertyTable(inputName).Some? {
      PropertyTableCase(inputName);
    } else {
      LowerIdempotent(inputName);
    }
  }
}
