/**
 * The `java.lang.String` operations the core relies on, with their Java
 * meaning: `matches("^[0-9]{2,}$")`, `substring(0, n)`, `replaceAll` with a
 * negated character class, `toLowerCase`, `split(" ")`, and
 * `Collectors.joining`.
 */
module JavaText {

  predicate IsDigit(c: char) {
    '0' <= c <= '9'
  }

  /** `s.matches("^[0-9]{2,}$")`: two or more characters, all decimal digits. */
  predicate IsNumericId(s: string) {
    |s| >= 2 && forall i :: 0 <= i < |s| ==> IsDigit(s[i])
  }

  /** `s.substring(0, s.length() > max ? max : s.length())`. */
  function Truncate(s: string, max: nat): (r: string)
    ensures |r| == if |s| > max then max else |s|
    ensures |r| <= max && |r| <= |s|
    ensures r == s[..|r|]
    ensures |s| <= max ==> r == s
  {
    s[..if |s| > max then max else |s|]
  }

  /**
   * `s.replaceAll("[^" + allowed + "]", "")`: every character outside the
   * allowed class is deleted, the others are kept in order.
   */
  function RemoveDisallowed(s: string, allowed: set<char>): (r: string)
    ensures |r| <= |s|
    ensures forall i :: 0 <= i < |r| ==> r[i] in allowed
    ensures multiset(r) <= multiset(s)
    ensures forall c :: c in allowed ==> multiset(r)[c] == multiset(s)[c]
    ensures (forall i :: 0 <= i < |s| ==> s[i] in allowed) ==> r == s
  {
    if |s| == 0 then ""
    else
      var rest := RemoveDisallowed(s[1..], allowed);
      assert s == [s[0]] + s[1..];
      if s[0] in allowed then [s[0]] + rest else rest
  }

  /**
   * The kept characters keep their order: stripping a concatenation strips
   * each part and concatenates the results.
   */
  lemma {:induction false} RemoveDisallowedConcat(a: string, b: string, allowed: set<char>)
    ensures RemoveDisallowed(a + b, allowed) == RemoveDisallowed(a, allowed) + RemoveDisallowed(b, allowed)
  {
    if |a| > 0 {
      assert (a + b)[1..] == a[1..] + b;
      assert (a + b)[0] == a[0];
      RemoveDisallowedConcat(a[1..], b, allowed);
    } else {
      assert a + b == b;
    }
  }

  /**
   * `s.toLowerCase()` on text whose characters each lower-case to one
   * character; `lowerChar` is the per-character mapping.
   */
  function ToLowerCase(s: string, lowerChar: char -> char): (r: string)
    ensures |r| == |s|
    ensures forall i :: 0 <= i < |r| ==> r[i] == lowerChar(s[i])
  {
    seq(|s|, i requires 0 <= i < |s| => lowerChar(s[i]))
  }

  /** Concatenation of `parts` with `sep` between neighbours, as `Collectors.joining`. */
  function Join(parts: seq<string>, sep: char): string
  {
    if |parts| == 0 then ""
    else if |parts| == 1 then parts[0]
    else parts[0] + [sep] + Join(parts[1..], sep)
  }

  /**
   * The text between consecutive separators: every single `sep` separates, every
   * piece is kept.
   */
  function Pieces(s: string, sep: char): (r: seq<string>)
    ensures |r| >= 1
    ensures forall i :: 0 <= i < |r| ==> sep !in r[i] && |r[i]| <= |s|
  {
    if |s| == 0 then [""]
    else
      var rest := Pieces(s[1..], sep);
      if s[0] == sep then [""] + rest
      else [[s[0]] + rest[0]] + rest[1..]
  }

  /** The longest prefix of `parts` that does not end in an empty string. */
  function DropTrailingEmpty(parts: seq<string>): (r: seq<string>)
    ensures |r| <= |parts| && r == parts[..|r|]
    ensures forall i :: |r| <= i < |parts| ==> parts[i] == ""
    ensures |r| > 0 ==> r[|r| - 1] != ""
  {
    if |parts| > 0 && parts[|parts| - 1] == "" then DropTrailingEmpty(parts[..|parts| - 1])
    else parts
  }

  /**
   * `s.split(" ")` (limit 0): a string without a space gives itself as the only
   * element; otherwise the pieces, with trailing empty pieces removed.
   */
  function Split(s: string): (r: seq<string>)
  {
    if ' ' !in s then [s] else DropTrailingEmpty(Pieces(s, ' '))
  }

  lemma {:induction false} PiecesOfSpaceless(s: string, sep: char)
    requires sep !in s
    ensures Pieces(s, sep) == [s]
  {
    if |s| > 0 {
      assert sep !in s[1..];
      PiecesOfSpaceless(s[1..], sep);
      assert [s[0]] + s[1..] == s;
    }
  }

  /** Joining the pieces with the separator gives the string back. */
  lemma {:induction false} JoinPieces(s: string, sep: char)
    ensures Join(Pieces(s, sep), sep) == s
  {
    if |s| > 0 {
      var rest := Pieces(s[1..], sep);
      JoinPieces(s[1..], sep);
      if s[0] == sep {
        assert ([""] + rest)[1..] == rest;
      } else {
        var p := [[s[0]] + rest[0]] + rest[1..];
        if |rest| == 1 {
          assert p == [[s[0]] + s[1..]];
        } else {
          assert p[1..] == rest[1..];
          assert Join(p, sep) == [s[0]] + (rest[0] + [sep] + Join(rest[1..], sep));
        }
        assert [s[0]] + s[1..] == s;
      }
    }
  }

  lemma {:induction false} JoinConsChar(c: char, first: string, rest: seq<string>, sep: char)
    ensures Join([[c] + first] + rest, sep) == [c] + Join([first] + rest, sep)
  {
    var a := [[c] + first] + rest;
    var b := [first] + rest;
    if |rest| > 0 {
      assert a[1..] == rest && b[1..] == rest;
    }
  }

  /** Cutting a join of separator-free parts gives the parts back. */
  lemma {:induction false} PiecesJoin(parts: seq<string>, sep: char)
    requires |parts| >= 1
    requires forall i :: 0 <= i < |parts| ==> sep !in parts[i]
    ensures Pieces(Join(parts, sep), sep) == parts
    decreases |Join(parts, sep)|
  {
    var s := Join(parts, sep);
    if |parts| == 1 {
      PiecesOfSpaceless(parts[0], sep);
    } else if parts[0] == "" {
      assert s == [sep] + Join(parts[1..], sep);
      assert s[1..] == Join(parts[1..], sep);
      PiecesJoin(parts[1..], sep);
      assert [""] + parts[1..] == parts;
    } else {
      var c, first := parts[0][0], parts[0][1..];
      assert parts[0] == [c] + first;
      var shorter := [first] + parts[1..];
      assert parts == [[c] + first] + parts[1..];
      JoinConsChar(c, first, parts[1..], sep);
      assert s == [c] + Join(shorter, sep);
      assert s[1..] == Join(shorter, sep);
      forall i | 0 <= i < |shorter| ensures sep !in shorter[i] {
        if i == 0 { assert forall k :: 0 <= k < |first| ==> first[k] == parts[0][k + 1]; }
        else { assert shorter[i] == parts[i]; }
      }
      PiecesJoin(shorter, sep);
      assert s[0] == c != sep;
    }
  }

  /**
   * The Java meaning of `split(" ")`, stated against the pieces: the result is a
   * prefix of the pieces, only empty pieces are dropped, and a result taken from
   * a string with a space never ends in an empty string.
   */
  lemma SplitIsJavaSplit(s: string)
    ensures |Split(s)| <= |Pieces(s, ' ')| && Split(s) == Pieces(s, ' ')[..|Split(s)|]
    ensures forall i :: |Split(s)| <= i < |Pieces(s, ' ')| ==> Pieces(s, ' ')[i] == ""
    ensures ' ' in s && |Split(s)| > 0 ==> Split(s)[|Split(s)| - 1] != ""
    ensures ' ' !in s ==> Split(s) == [s]
  {
    if ' ' !in s {
      PiecesOfSpaceless(s, ' ');
    }
  }

  /** Every element of `split(" ")` is free of spaces and no longer than the input. */
  lemma SplitParts(s: string)
    ensures forall i :: 0 <= i < |Split(s)| ==> ' ' !in Split(s)[i] && |Split(s)[i]| <= |s|
  {
    SplitIsJavaSplit(s);
    var r, p := Split(s), Pieces(s, ' ');
    forall i | 0 <= i < |r| ensures ' ' !in r[i] && |r[i]| <= |s| {
      assert r[i] == p[i];
    }
  }

  lemma {:induction false} JoinHasSeparator(parts: seq<string>, sep: char)
    requires |parts| >= 2
    ensures |Join(parts, sep)| > |parts[0]| && Join(parts, sep)[|parts[0]|] == sep
  {
  }

  /**
   * `split(" ")` undoes joining with single spaces, as long as no part holds a
   * space and the last of several parts is not empty.
   */
  lemma SplitOfJoin(parts: seq<string>)
    requires |parts| >= 1
    requires forall i :: 0 <= i < |parts| ==> ' ' !in parts[i]
    requires |parts| >= 2 ==> parts[|parts| - 1] != ""
    ensures Split(Join(parts, ' ')) == parts
  {
    PiecesJoin(parts, ' ');
    if |parts| >= 2 {
      JoinHasSeparator(parts, ' ');
    }
  }

  /** Java's documented edge cases of `split(" ")`. */
  lemma SplitExamples()
    ensures Split("") == [""]
    ensures Split(" ") == []
    ensures Split(" a") == ["", "a"]
    ensures Split("a ") == ["a"]
    ensures Split("a  b") == ["a", "", "b"]
  {
    assert Pieces("", ' ') == [""];
    assert Pieces(" ", ' ') == ["", ""];
    PiecesOfSpaceless("a", ' ');
    assert Pieces(" a", ' ') == ["", "a"];
    assert Pieces("a ", ' ') == ["a", ""];
    PiecesOfSpaceless("b", ' ');
    assert Pieces(" b", ' ') == ["", "b"];
    assert Pieces("  b", ' ') == ["", "", "b"];
    assert Pieces("a  b", ' ') == ["a", "", "b"];
    assert ' ' in " a" && ' ' in "a " && ' ' in "a  b" && ' ' in " ";
    assert DropTrailingEmpty(["", ""]) == [];
  }
}
