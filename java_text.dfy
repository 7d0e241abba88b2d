/**
 * The few java.lang.String and android.text.TextUtils operations the recording
 * control plane relies on, over `string`. A Dafny `char` is a Unicode scalar value,
 * where a Java char is a UTF-16 code unit; the two agree on the Basic Multilingual Plane.
 * Case mapping is modelled for the ASCII letters only.
 */
module JavaText {
  import opened Wrappers

  predicate IsLowerAscii(c: char) { 'a' <= c <= 'z' }

  predicate IsUpperAscii(c: char) { 'A' <= c <= 'Z' }

  /** Character.toUpperCase restricted to ASCII: 'a'..'z' map to 'A'..'Z', everything else is kept. */
  function UpperChar(c: char): (u: char)
    ensures !IsLowerAscii(u)
    ensures IsLowerAscii(c) ==> IsUpperAscii(u) && u as int + 32 == c as int
    ensures !IsLowerAscii(c) ==> u == c
  {
    if IsLowerAscii(c) then (c as int - 32) as char else c
  }

  /** String.toUpperCase, character by character. */
  function Upper(s: string): (r: string)
    ensures |r| == |s|
    ensures forall i | 0 <= i < |s| :: r[i] == UpperChar(s[i])
  {
    if |s| == 0 then [] else [UpperChar(s[0])] + Upper(s[1..])
  }

  /** Upper-casing twice is upper-casing once, so an upper-cased key looks itself up. */
  lemma UpperIdempotent(s: string)
    ensures Upper(Upper(s)) == Upper(s)
  {
    var u := Upper(s);
    assert forall i | 0 <= i < |u| :: Upper(u)[i] == u[i];
  }

  /** Java's String.trim treats every character up to ' ' as white space. */
  predicate IsTrimmed(c: char) { c <= ' ' }

  function TrimStart(s: string): (r: string)
    ensures |r| <= |s| && r == s[|s| - |r|..]
    ensures |r| > 0 ==> !IsTrimmed(r[0])
    ensures forall i | 0 <= i < |s| - |r| :: IsTrimmed(s[i])
  {
    if |s| > 0 && IsTrimmed(s[0]) then TrimStart(s[1..]) else s
  }

  function TrimEnd(s: string): (r: string)
    ensures |r| <= |s| && r == s[..|r|]
    ensures |r| > 0 ==> !IsTrimmed(r[|r| - 1])
    ensures forall i | |r| <= i < |s| :: IsTrimmed(s[i])
  {
    if |s| > 0 && IsTrimmed(s[|s| - 1]) then TrimEnd(s[..|s| - 1]) else s
  }

  /** String.trim: leading and trailing characters up to ' ' removed. */
  function Trim(s: string): (r: string)
    ensures r == "" <==> forall i | 0 <= i < |s| :: IsTrimmed(s[i])
  {
    TrimEnd(TrimStart(s))
  }

  /** A one-character string whose character is not white space trims to itself. */
  lemma TrimSingle(c: char)
    requires !IsTrimmed(c)
    ensures Trim([c]) == [c]
  {
  }

  /** TextUtils.isEmpty: null or of length zero. */
  predicate IsEmpty(s: Option<string>) { s.None? || s.value == "" }

  /** String.contains. */
  predicate Contains(s: string, part: string) {
    |part| <= |s| && (s[..|part|] == part || Contains(s[1..], part))
  }

  /** The pieces of `s` between separators, empty pieces included (there is always at least one). */
  function SplitAll(s: string, sep: char): (parts: seq<string>)
    ensures |parts| >= 1
  {
    if |s| == 0 then [""]
    else
      var rest := SplitAll(s[1..], sep);
      if s[0] == sep then [""] + rest else [[s[0]] + rest[0]] + rest[1..]
  }

  /** No piece holds the separator, and a string without one is its own only piece. */
  lemma {:induction false} SplitAllPieces(s: string, sep: char)
    ensures forall i | 0 <= i < |SplitAll(s, sep)| :: sep !in SplitAll(s, sep)[i]
    ensures sep !in s ==> SplitAll(s, sep) == [s]
  {
    if |s| > 0 {
      SplitAllPieces(s[1..], sep);
      var rest := SplitAll(s[1..], sep);
      var parts := SplitAll(s, sep);
      if s[0] == sep {
        forall i | 0 <= i < |parts| ensures sep !in parts[i] {
          if i > 0 { assert parts[i] == rest[i - 1]; }
        }
      } else {
        assert sep !in [s[0]] + rest[0];
        forall i | 0 <= i < |parts| ensures sep !in parts[i] {
          if i > 0 { assert parts[i] == rest[i]; }
        }
        if sep !in s {
          assert sep !in s[1..];
          assert s == [s[0]] + s[1..];
        }
      }
    }
  }

  /** The pieces joined back with the separator. */
  function Join(parts: seq<string>, sep: char): string
    requires |parts| >= 1
  {
    if |parts| == 1 then parts[0] else parts[0] + [sep] + Join(parts[1..], sep)
  }

  /** Splitting at every separator loses nothing: joining the pieces gives the string back. */
  lemma {:induction false} SplitAllJoins(s: string, sep: char)
    ensures Join(SplitAll(s, sep), sep) == s
  {
    if |s| > 0 {
      var rest := SplitAll(s[1..], sep);
      SplitAllJoins(s[1..], sep);
      assert s == [s[0]] + s[1..];
      if s[0] != sep && |rest| > 1 {
        assert Join(rest, sep) == rest[0] + [sep] + Join(rest[1..], sep);
      }
    }
  }

  /** A separator-free prefix becomes the front of the first piece. */
  lemma {:induction false} SplitAllPrefix(a: string, t: string, sep: char)
    requires sep !in a
    ensures var q := SplitAll(t, sep);
      SplitAll(a + t, sep) == [a + q[0]] + q[1..]
  {
    var q := SplitAll(t, sep);
    if |a| == 0 {
      assert a + t == t && a + q[0] == q[0];
      assert q == [q[0]] + q[1..];
    } else {
      var x := a + t;
      assert x[0] == a[0] && x[0] != sep;
      assert x[1..] == a[1..] + t;
      assert sep !in a[1..] by {
        assert forall i | 0 <= i < |a[1..]| :: a[1..][i] == a[i + 1];
      }
      SplitAllPrefix(a[1..], t, sep);
      var r := SplitAll(x[1..], sep);
      assert r == [a[1..] + q[0]] + q[1..];
      assert SplitAll(x, sep) == [[x[0]] + r[0]] + r[1..];
      assert r[0] == a[1..] + q[0] && r[1..] == q[1..];
      assert a == [a[0]] + a[1..];
      assert [x[0]] + r[0] == a + q[0];
    }
  }

  /** Joining separator-free pieces and splitting again gives the pieces back. */
  lemma {:induction false} JoinSplits(parts: seq<string>, sep: char)
    requires |parts| >= 1
    requires forall i | 0 <= i < |parts| :: sep !in parts[i]
    ensures SplitAll(Join(parts, sep), sep) == parts
  {
    if |parts| > 1 {
      var u := Join(parts[1..], sep);
      var t := [sep] + u;
      JoinSplits(parts[1..], sep);
      assert t[0] == sep && t[1..] == u;
      var q := SplitAll(t, sep);
      assert q == [""] + SplitAll(u, sep);
      assert q[0] == "" && q[1..] == parts[1..];
      SplitAllPrefix(parts[0], t, sep);
      assert Join(parts, sep) == parts[0] + t;
      assert parts[0] + q[0] == parts[0];
      assert parts == [parts[0]] + parts[1..];
    } else {
      SplitAllPieces(parts[0], sep);
    }
  }

  function DropTrailingEmpty(parts: seq<string>): (r: seq<string>)
    ensures r <= parts
    ensures |r| > 0 ==> r[|r| - 1] != ""
    ensures forall i | |r| <= i < |parts| :: parts[i] == ""
  {
    if |parts| > 0 && parts[|parts| - 1] == "" then DropTrailingEmpty(parts[..|parts| - 1]) else parts
  }

  /**
   * String.split(","): when there is no comma the result is the string itself (even
   * when it is empty); otherwise the comma-separated pieces without the trailing empty ones.
   */
  function JavaSplitComma(s: string): (r: seq<string>)
    ensures forall i | 0 <= i < |r| :: ',' !in r[i]
    ensures ',' !in s ==> r == [s]
    ensures ',' in s ==>
      var parts := SplitAll(s, ',');
      && r <= parts
      && (|r| > 0 ==> r[|r| - 1] != "")
      && forall i | |r| <= i < |parts| :: parts[i] == ""
  {
    if ',' !in s then [s]
    else
      SplitAllPieces(s, ',');
      DropTrailingEmpty(SplitAll(s, ','))
  }

  /** Joining two non-empty lists of pieces puts one separator between them. */
  lemma {:induction false} JoinAppend(a: seq<string>, b: seq<string>, sep: char)
    requires |a| >= 1 && |b| >= 1
    ensures Join(a + b, sep) == Join(a, sep) + [sep] + Join(b, sep)
  {
    if |a| == 1 {
      assert (a + b)[0] == a[0] && (a + b)[1..] == b;
    } else {
      assert (a + b)[0] == a[0] && (a + b)[1..] == a[1..] + b;
      JoinAppend(a[1..], b, sep);
    }
  }

  /** Empty pieces join to separators only. */
  lemma {:induction false} JoinEmpties(e: seq<string>, sep: char)
    requires |e| >= 1
    requires forall i | 0 <= i < |e| :: e[i] == ""
    ensures forall i | 0 <= i < |Join(e, sep)| :: Join(e, sep)[i] == sep
  {
    if |e| > 1 {
      JoinEmpties(e[1..], sep);
      assert Join(e, sep) == [sep] + Join(e[1..], sep);
    }
  }

  /** Dropping trailing empty pieces drops only separators from the joined string. */
  lemma DropEmptiesRejoins(parts: seq<string>, r: seq<string>, sep: char)
    requires |parts| >= 1 && r <= parts
    requires forall i | |r| <= i < |parts| :: parts[i] == ""
    ensures var head := if |r| == 0 then "" else Join(r, sep);
      var s := Join(parts, sep);
      && head <= s
      && forall i | |head| <= i < |s| :: s[i] == sep
  {
    if |r| == 0 {
      JoinEmpties(parts, sep);
    } else if |r| < |parts| {
      var tail := parts[|r|..];
      assert parts == r + tail;
      JoinAppend(r, tail, sep);
      JoinEmpties(tail, sep);
      var head, rest := Join(r, sep), [sep] + Join(tail, sep);
      assert Join(parts, sep) == head + rest;
    } else {
      assert r == parts;
    }
  }

  /**
   * What split(",") drops is only commas: its pieces joined with commas are a prefix
   * of the string, and everything after that prefix is a comma.
   */
  lemma JavaSplitCommaRejoins(s: string)
    ensures var r := JavaSplitComma(s);
      var head := if |r| == 0 then "" else Join(r, ',');
      && head <= s
      && forall i | |head| <= i < |s| :: s[i] == ','
  {
    if ',' in s {
      SplitAllJoins(s, ',');
      DropEmptiesRejoins(SplitAll(s, ','), JavaSplitComma(s), ',');
    }
  }

  /** The cases of split(",") that differ from a plain split. */
  lemma JavaSplitCommaExamples()
    ensures JavaSplitComma("") == [""]
    ensures JavaSplitComma(",") == []
    ensures JavaSplitComma("a,,") == ["a"]
    ensures JavaSplitComma(",a") == ["", "a"]
  {
    var one, two, three := ["", ""], ["a", "", ""], ["", "a"];
    assert Join(one, ',') == "," && Join(two, ',') == "a,," && Join(three, ',') == ",a";
    JoinSplits(one, ',');
    JoinSplits(two, ',');
    JoinSplits(three, ',');
    assert DropTrailingEmpty(two[..2]) == ["a"];
  }
}
