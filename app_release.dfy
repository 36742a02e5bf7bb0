/**
 * The version classes of www/app/app.component.ts: a release string such as
 * "3.9.2" names the body classes `version-3`, `version-3-9` and `version-3-9-2`.
 * String splitting and `substring` follow JavaScript's `String.prototype`.
 */
module ReleaseVersion {

  /** JavaScript `s.split(sep)`: the fields between separators, never an empty list. */
  function Split(s: string, sep: char): (r: seq<string>)
    ensures |r| >= 1
    ensures forall i :: 0 <= i < |r| ==> sep !in r[i]
    ensures Join(r, sep) == s
    decreases |s|
  {
    if s == [] then [""]
    else
      var rest := Split(s[1..], sep);
      if s[0] == sep then [""] + rest
      else
        assert [s[0]] + Join(rest, sep) == s;
        [[s[0]] + rest[0]] + rest[1..]
  }

  /** JavaScript `parts.join(sep)`, the inverse of `Split`. */
  function Join(parts: seq<string>, sep: char): string
    requires |parts| >= 1
    decreases |parts|
  {
    if |parts| == 1 then parts[0] else parts[0] + [sep] + Join(parts[1..], sep)
  }

  /** Splitting a joined list of separator-free fields gives the fields back. */
  lemma {:induction false} SplitJoin(parts: seq<string>, sep: char)
    requires |parts| >= 1
    requires forall i :: 0 <= i < |parts| ==> sep !in parts[i]
    ensures Split(Join(parts, sep), sep) == parts
    decreases |parts|, |parts[0]|
  {
    var s := Join(parts, sep);
    if parts[0] == [] {
      if |parts| > 1 {
        assert s == [sep] + Join(parts[1..], sep);
        assert s[1..] == Join(parts[1..], sep);
        SplitJoin(parts[1..], sep);
      }
    } else {
      var shorter := [parts[0][1..]] + parts[1..];
      assert shorter[1..] == parts[1..];
      assert Join(shorter, sep) == s[1..] by {
        if |parts| > 1 {
          assert s == [parts[0][0]] + (parts[0][1..] + [sep] + Join(parts[1..], sep));
        } else {
          assert s == [parts[0][0]] + parts[0][1..];
        }
      }
      assert parts[0][0] != sep by { assert parts[0][0] in parts[0]; }
      SplitJoin(shorter, sep);
      assert parts[0] == [parts[0][0]] + parts[0][1..];
    }
  }

  /** JavaScript `s.split(sep, limit)`: only the first `limit` fields are kept. */
  function SplitLimit(s: string, sep: char, limit: nat): (r: seq<string>)
    ensures |r| <= limit && |r| <= |Split(s, sep)|
    // exactly min(limit, n) fields are kept, the leading ones
    ensures |r| == if |Split(s, sep)| <= limit then |Split(s, sep)| else limit
    ensures r == Split(s, sep)[..|r|]
    ensures limit >= 1 ==> |r| >= 1
  {
    var fields := Split(s, sep);
    if |fields| <= limit then fields else fields[..limit]
  }

  /** JavaScript `parts[i] || '0'`: a missing or empty field reads as "0". */
  function FieldOr(parts: seq<string>, i: nat): (f: string)
    ensures f != ""
    ensures i < |parts| && parts[i] != "" ==> f == parts[i]
    ensures !(i < |parts| && parts[i] != "") ==> f == "0"
  {
    if i < |parts| && parts[i] != "" then parts[i] else "0"
  }

  const VersionPrefix := "version-"

  /** The class names for a major, minor and patch field. */
  function ClassNames(major: string, minor: string, patch: string): seq<string> {
    [VersionPrefix + major, VersionPrefix + major + "-" + minor,
     VersionPrefix + major + "-" + minor + "-" + patch]
  }

  /** The three classes `addVersionClass` adds, shortest first. */
  function VersionClasses(release: string): (cs: seq<string>)
    ensures |cs| == 3
    ensures forall i :: 0 <= i < 3 ==> IsVersionClass(cs[i])
    // each class extends the previous one, so the three are distinct
    ensures cs[0] < cs[1] < cs[2]
  {
    ClassesOfParts(SplitLimit(release, '.', 3))
  }

  /** The classes for the fields of a split release, the second and third defaulted. */
  function ClassesOfParts(parts: seq<string>): (cs: seq<string>)
    requires |parts| >= 1
    ensures |cs| == 3
    ensures forall i :: 0 <= i < 3 ==> IsVersionClass(cs[i])
    ensures cs[0] < cs[1] < cs[2]
  {
    var major, minor, patch := parts[0], FieldOr(parts, 1), FieldOr(parts, 2);
    var cs := ClassNames(major, minor, patch);
    VersionClassIsPrefix(cs[0]);
    VersionClassIsPrefix(cs[1]);
    VersionClassIsPrefix(cs[2]);
    assert cs[0] < cs[1] by { assert cs[1] == cs[0] + ("-" + minor); }
    assert cs[1] < cs[2] by { assert cs[2] == cs[1] + ("-" + patch); }
    cs
  }

  /** Splitting a joined release with limit 3 keeps its first three fields. */
  lemma SplitLimitOfJoin(fields: seq<string>)
    requires |fields| >= 1
    requires forall i :: 0 <= i < |fields| ==> '.' !in fields[i]
    ensures SplitLimit(Join(fields, '.'), '.', 3) == if |fields| <= 3 then fields else fields[..3]
  {
    SplitJoin(fields, '.');
  }

  /** Keeping the first three fields does not change how the second and third read. */
  lemma FieldOrOfLeading(fields: seq<string>, i: nat)
    requires i < 3
    ensures FieldOr(if |fields| <= 3 then fields else fields[..3], i) == FieldOr(fields, i)
  {
  }

  /**
   * For a release made of the fields `fields`, the classes name its first field,
   * then its first two, then its first three; a missing or empty second or third
   * field reads as "0" and fields beyond the third play no part.
   */
  lemma VersionClassesOfFields(fields: seq<string>)
    requires |fields| >= 1
    requires forall i :: 0 <= i < |fields| ==> '.' !in fields[i]
    ensures VersionClasses(Join(fields, '.')) == ClassNames(fields[0], FieldOr(fields, 1), FieldOr(fields, 2))
  {
    var parts := SplitLimit(Join(fields, '.'), '.', 3);
    SplitLimitOfJoin(fields);
    FieldOrOfLeading(fields, 1);
    FieldOrOfLeading(fields, 2);
    assert parts[0] == fields[0];
    assert ClassesOfParts(parts) == ClassNames(fields[0], FieldOr(fields, 1), FieldOr(fields, 2));
  }

  /** The classes of "A.B.C": `version-A`, `version-A-B`, `version-A-B-C`. */
  lemma VersionClassesOfRelease(a: string, b: string, c: string)
    requires '.' !in a && '.' !in b && '.' !in c && b != "" && c != ""
    ensures VersionClasses(a + "." + b + "." + c) ==
      ["version-" + a, "version-" + a + "-" + b, "version-" + a + "-" + b + "-" + c]
  {
    var fields := [a, b, c];
    assert Join(fields, '.') == a + "." + b + "." + c by {
      assert fields[1..] == [b, c] && fields[1..][1..] == [c];
      assert Join([b, c], '.') == b + "." + c;
    }
    VersionClassesOfFields(fields);
  }

  /**
   * JavaScript `s.substring(start, end)`: both ends clamped to the string, and
   * swapped when the start lies after the end.
   */
  function Substring(s: string, start: nat, end: nat): (r: string)
    ensures |r| <= |s|
  {
    var a := if start < |s| then start else |s|;
    var b := if end < |s| then end else |s|;
    if a <= b then s[a..b] else s[b..a]
  }

  /** The test `removeVersionClass` applies to each class. */
  predicate IsVersionClass(c: string) {
    Substring(c, 0, 8) == VersionPrefix
  }

  /** The test amounts to "starts with `version-`", a string shorter than 8 never passing. */
  lemma VersionClassIsPrefix(c: string)
    ensures IsVersionClass(c) <==> VersionPrefix <= c
  {
    if |c| >= 8 {
      assert Substring(c, 0, 8) == c[..8];
    } else {
      assert |Substring(c, 0, 8)| < 8;
    }
  }

  /** The ASCII whitespace on which a class attribute is split. */
  predicate IsAsciiWhitespace(ch: char) {
    ch == ' ' || ch == '\t' || ch == '\n' || ch == '\r' || ch == '\U{C}'
  }

  /** A string `DOMTokenList.add` accepts: not empty, no ASCII whitespace. */
  predicate IsToken(t: string) {
    t != "" && forall i :: 0 <= i < |t| ==> !IsAsciiWhitespace(t[i])
  }
}
