/**
 * The JavaScript string operations the task list and the editor rely on:
 * `toLowerCase` (restricted to ASCII), `includes` and `Array.prototype.join`
 * over strings.
 */
module Text {

  /** `toLowerCase` on one character, for the ASCII letters A-Z; every other character is kept. */
  function LowerChar(c: char): char
  {
    if 'A' <= c <= 'Z' then (c as int - 'A' as int + 'a' as int) as char else c
  }

  /** `s.toLowerCase()`, character by character. */
  function ToLower(s: string): (r: string)
    ensures |r| == |s|
    ensures forall i :: 0 <= i < |r| ==> !('A' <= r[i] <= 'Z')
    ensures forall i :: 0 <= i < |r| && 'A' <= s[i] <= 'Z' ==> r[i] as int == s[i] as int + 32
    ensures forall i :: 0 <= i < |r| && !('A' <= s[i] <= 'Z') ==> r[i] == s[i]
  {
    seq(|s|, i requires 0 <= i < |s| => LowerChar(s[i]))
  }

  /** Lower-casing twice is lower-casing once. */
  lemma ToLowerIdempotent(s: string)
    ensures ToLower(ToLower(s)) == ToLower(s)
  {
  }

  /** `needle` occurs in `hay` starting at index `i`. */
  ghost predicate OccursAt(needle: string, hay: string, i: int)
  {
    0 <= i && i + |needle| <= |hay| && hay[i..i + |needle|] == needle
  }

  /** `hay.includes(needle)`: tries every start position from the left. */
  function Includes(hay: string, needle: string): bool
    decreases |hay|
  {
    if |needle| > |hay| then false
    else if hay[..|needle|] == needle then true
    else Includes(hay[1..], needle)
  }

  /** An occurrence at j >= 1 in `hay` is an occurrence at j - 1 in `hay[1..]`. */
  lemma OccursShift(needle: string, hay: string, j: int)
    requires |hay| > 0 && j >= 1
    ensures OccursAt(needle, hay, j) <==> OccursAt(needle, hay[1..], j - 1)
  {
  }

  /** `Includes` is exactly "is a substring of". */
  lemma {:induction false} IncludesIsSubstring(hay: string, needle: string)
    ensures Includes(hay, needle) <==> exists i :: OccursAt(needle, hay, i)
    decreases |hay|
  {
    if |needle| > |hay| {
    } else if hay[..|needle|] == needle {
      assert OccursAt(needle, hay, 0);
    } else {
      IncludesIsSubstring(hay[1..], needle);
      if exists i :: OccursAt(needle, hay[1..], i) {
        var i :| OccursAt(needle, hay[1..], i);
        OccursShift(needle, hay, i + 1);
      }
      if exists j :: OccursAt(needle, hay, j) {
        var j :| OccursAt(needle, hay, j);
        assert j != 0;
        OccursShift(needle, hay, j);
      }
    }
  }

  /** The empty string is included in every string. */
  lemma IncludesEmpty(hay: string)
    ensures Includes(hay, "")
  {
  }

  /** `parts.join(sep)`. */
  function Join(parts: seq<string>, sep: string): string
  {
    if |parts| == 0 then ""
    else if |parts| == 1 then parts[0]
    else parts[0] + sep + Join(parts[1..], sep)
  }

  /** The total length of all parts. */
  function TotalLength(parts: seq<string>): nat
  {
    if parts == [] then 0 else |parts[0]| + TotalLength(parts[1..])
  }

  /** A join holds every part once and one separator between each two neighbours. */
  lemma {:induction false} JoinLength(parts: seq<string>, sep: string)
    requires |parts| > 0
    ensures |Join(parts, sep)| == TotalLength(parts) + (|parts| - 1) * |sep|
  {
    if |parts| > 1 {
      JoinLength(parts[1..], sep);
    } else {
      assert parts[1..] == [];
    }
  }

  /** With a non-empty separator a join is empty exactly when there is no part or one empty part. */
  lemma JoinEmptyIff(parts: seq<string>, sep: string)
    requires sep != ""
    ensures Join(parts, sep) == "" <==> parts == [] || parts == [""]
  {
  }

  /** Every part appears, as a contiguous piece, in the join. */
  lemma {:induction false} JoinContainsPart(parts: seq<string>, sep: string, k: nat)
    requires k < |parts|
    ensures exists i :: OccursAt(parts[k], Join(parts, sep), i)
  {
    var joined := Join(parts, sep);
    if |parts| == 1 {
      assert joined[0..|parts[0]|] == parts[0];
      assert OccursAt(parts[k], joined, 0);
    } else if k == 0 {
      assert joined[0..|parts[0]|] == parts[0];
      assert OccursAt(parts[k], joined, 0);
    } else {
      JoinContainsPart(parts[1..], sep, k - 1);
      var rest := Join(parts[1..], sep);
      var i :| OccursAt(parts[1..][k - 1], rest, i);
      var off := |parts[0]| + |sep|;
      assert joined == parts[0] + sep + rest;
      assert joined[off + i..off + i + |parts[k]|] == rest[i..i + |parts[k]|];
      assert OccursAt(parts[k], joined, off + i);
    }
  }
}
