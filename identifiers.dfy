/**
 * Tool names become identifiers (gromacs/tools.py, make_valid_identifier):
 * every '-' is replaced by '_' and the result is capitalized, which upper-cases
 * the first character and lower-cases all the others. Dots are left alone.
 */
module Identifiers {
  import opened Text

  /** Python's `name.replace("-", "_")`. */
  function ReplaceDashes(name: string): (r: string)
    ensures |r| == |name| && '-' !in r
    ensures forall i :: 0 <= i < |name| && name[i] == '-' ==> r[i] == '_'
    ensures forall i :: 0 <= i < |name| && name[i] != '-' ==> r[i] == name[i]
  {
    seq(|name|, i requires 0 <= i < |name| => if name[i] == '-' then '_' else name[i])
  }

  /** Python's `str.capitalize()` over ASCII. */
  function Capitalize(s: string): (r: string)
    ensures |r| == |s|
    ensures s != [] ==> r[0] == Upper(s[0])
    ensures forall i :: 1 <= i < |s| ==> r[i] == Lower(s[i])
  {
    if s == [] then [] else [Upper(s[0])] + LowerStr(s[1..])
  }

  /** make_valid_identifier: as long as the name, without dashes, and
      capitalized. */
  function MakeValidIdentifier(name: string): (r: string)
    ensures |r| == |name| && '-' !in r
    ensures r != [] ==> !IsLower(r[0])
    ensures forall i :: 1 <= i < |r| ==> !IsUpper(r[i])
  {
    Capitalize(ReplaceDashes(name))
  }

  /** The identifier has the length of the name, no dash, an upper-cased first
      character and lower-cased later characters; every character that was
      neither a dash nor a letter is kept. */
  lemma IdentifierShape(name: string)
    ensures var r := MakeValidIdentifier(name);
      && |r| == |name|
      && '-' !in r
      && (name != [] ==> r[0] == Upper(if name[0] == '-' then '_' else name[0]))
      && (forall i :: 1 <= i < |name| ==> r[i] == Lower(if name[i] == '-' then '_' else name[i]))
      && (r != [] ==> !IsLower(r[0]))
      && (forall i :: 1 <= i < |r| ==> !IsUpper(r[i]))
  {
    var d := ReplaceDashes(name);
    if name != [] {
      assert d[0] == (if name[0] == '-' then '_' else name[0]);
    }
  }

  /** make_valid_identifier is idempotent. */
  lemma IdentifierIdempotent(name: string)
    ensures MakeValidIdentifier(MakeValidIdentifier(name)) == MakeValidIdentifier(name)
  {
    var r := MakeValidIdentifier(name);
    IdentifierShape(name);
    IdentifierShape(r);
    var rr := MakeValidIdentifier(r);
    forall i | 0 <= i < |r| ensures rr[i] == r[i] {
      if i == 0 {
        assert rr[0] == Upper(r[0]);
      } else {
        assert rr[i] == Lower(r[i]);
      }
    }
  }

  /** A non-empty prefix of a name yields a prefix of its identifier, because
      only the first character is upper-cased. */
  lemma IdentifierOfPrefix(p: string, name: string)
    requires p != [] && p <= name
    ensures MakeValidIdentifier(p) <= MakeValidIdentifier(name)
  {
    IdentifierShape(p);
    IdentifierShape(name);
    var a, b := MakeValidIdentifier(p), MakeValidIdentifier(name);
    forall i | 0 <= i < |a| ensures a[i] == b[i] {
      assert p[i] == name[i];
    }
  }
}
