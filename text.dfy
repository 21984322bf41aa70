/**
  The parts of Go's `strings` package the command layer relies on:
  Fields, TrimSpace and ToLower (HasPrefix is Dafny's prefix test `<=`).

  Space is Go's unicode.IsSpace, written out as character ranges.
  Lower-casing covers only the ASCII letters; Go's ToLower also maps other
  Unicode upper-case letters.
 */
module Text {

  /** unicode.IsSpace: the Latin-1 spaces '\t', '\n', '\v', '\f', '\r',
      ' ', U+0085 and U+00A0, and the other Unicode White_Space characters. */
  predicate IsSpace(c: char)
  {
    || c == ' ' || '\t' <= c <= '\r' || c == '\U{0085}' || c == '\U{00A0}'
    || c == '\U{1680}' || '\U{2000}' <= c <= '\U{200A}' || c == '\U{2028}' || c == '\U{2029}'
    || c == '\U{202F}' || c == '\U{205F}' || c == '\U{3000}'
  }

  predicate NoSpace(s: string)
  {
    forall i :: 0 <= i < |s| ==> !IsSpace(s[i])
  }

  predicate AllSpace(s: string)
  {
    forall i :: 0 <= i < |s| ==> IsSpace(s[i])
  }

  /** `s` without its leading space. */
  function SkipSpace(s: string): (r: string)
    ensures |r| <= |s| && r == s[|s| - |r|..]
    ensures r == [] || !IsSpace(r[0])
    ensures AllSpace(s[..|s| - |r|])
    decreases |s|
  {
    if s != [] && IsSpace(s[0]) then SkipSpace(s[1..]) else s
  }

  /** The length of the leading run of non-space characters of `s`. */
  function WordLen(s: string): (n: nat)
    ensures n <= |s| && NoSpace(s[..n])
    ensures n < |s| ==> IsSpace(s[n])
    decreases |s|
  {
    if s != [] && !IsSpace(s[0]) then 1 + WordLen(s[1..]) else 0
  }

  /** strings.Fields: the maximal runs of non-space characters, in order. */
  function Fields(s: string): (fields: seq<string>)
    decreases |s|
  {
    var t := SkipSpace(s);
    if t == [] then []
    else
      var n := WordLen(t);
      [t[..n]] + Fields(t[n..])
  }

  /** Every field is non-empty and free of space, and there are no fields
      exactly when the input is all space. */
  lemma FieldsShape(s: string)
    ensures forall i :: 0 <= i < |Fields(s)| ==> Fields(s)[i] != [] && NoSpace(Fields(s)[i])
    ensures Fields(s) == [] <==> AllSpace(s)
  {
    FieldsAreWords(s);
    FieldsEmpty(s);
  }

  lemma {:induction false} FieldsAreWords(s: string)
    ensures forall i :: 0 <= i < |Fields(s)| ==> Fields(s)[i] != [] && NoSpace(Fields(s)[i])
    decreases |s|
  {
    var t := SkipSpace(s);
    if t != [] {
      var n := WordLen(t);
      FieldsAreWords(t[n..]);
      var rest := Fields(t[n..]);
      var fs := [t[..n]] + rest;
      assert Fields(s) == fs;
      assert fs[0] == t[..n];
      forall i | 0 < i < |fs| ensures fs[i] != [] && NoSpace(fs[i]) {
        assert fs[i] == rest[i - 1];
      }
    }
  }

  lemma FieldsEmpty(s: string)
    ensures Fields(s) == [] <==> AllSpace(s)
  {
    var t := SkipSpace(s);
    if t == [] {
      assert s[..|s|] == s;
    } else {
      assert !IsSpace(s[|s| - |t|]);
    }
  }

  /** The words joined by single spaces: the inverse of Fields. */
  function Join(ws: seq<string>): (s: string)
  {
    if |ws| == 0 then ""
    else if |ws| == 1 then ws[0]
    else ws[0] + " " + Join(ws[1..])
  }

  /** Leading space does not change the fields. */
  lemma FieldsSkipsLeadingSpace(s: string)
    ensures Fields(" " + s) == Fields(s)
  {
    assert (" " + s)[1..] == s;
  }

  /** The leading run of a word followed by a space or by nothing is the word. */
  lemma {:induction false} WordLenOfWord(w: string, rest: string)
    requires NoSpace(w)
    requires rest == [] || IsSpace(rest[0])
    ensures WordLen(w + rest) == |w|
  {
    if w != [] {
      assert (w + rest)[1..] == w[1..] + rest;
      WordLenOfWord(w[1..], rest);
    } else {
      assert w + rest == rest;
    }
  }

  /** A word followed by a space or by nothing is read back whole. */
  lemma {:induction false} FirstField(w: string, rest: string)
    requires w != [] && NoSpace(w)
    requires rest == [] || IsSpace(rest[0])
    ensures Fields(w + rest) == [w] + Fields(rest)
  {
    var s := w + rest;
    assert SkipSpace(s) == s;
    WordLenOfWord(w, rest);
    assert s[..|w|] == w && s[|w|..] == rest;
  }

  /** Fields reads back the first word of a join and continues after it. */
  lemma {:induction false} FieldsOfJoinCons(w: string, tail: seq<string>)
    requires w != [] && NoSpace(w)
    ensures Fields(Join([w] + tail)) == [w] + Fields(Join(tail))
  {
    if tail == [] {
      assert Join([w] + tail) == w + [];
      FirstField(w, []);
    } else {
      var rest := Join(tail);
      assert ([w] + tail)[1..] == tail;
      assert Join([w] + tail) == w + (" " + rest);
      FirstField(w, " " + rest);
      FieldsSkipsLeadingSpace(rest);
    }
  }

  /** Round trip: splitting words joined by single spaces gives the words back. */
  lemma {:induction false} FieldsOfJoin(ws: seq<string>)
    requires forall i :: 0 <= i < |ws| ==> ws[i] != [] && NoSpace(ws[i])
    ensures Fields(Join(ws)) == ws
  {
    if ws != [] {
      var w, tail := ws[0], ws[1..];
      FieldsOfJoin(tail);
      FieldsOfJoinCons(w, tail);
      calc {
        Fields(Join(ws));
        { assert ws == [w] + tail; }
        Fields(Join([w] + tail));
        [w] + Fields(Join(tail));
        [w] + tail;
        ws;
      }
    }
  }

  /** strings.TrimSpace: `s` without leading and trailing space. */
  function TrimSpace(s: string): (r: string)
    decreases |s|
  {
    if s != [] && IsSpace(s[0]) then TrimSpace(s[1..])
    else if s != [] && IsSpace(s[|s| - 1]) then TrimSpace(s[..|s| - 1])
    else s
  }

  /** A word without space is its own TrimSpace; this is why the TrimSpace
      in cleanInput never changes a field. */
  lemma TrimSpaceOfWord(s: string)
    requires NoSpace(s)
    ensures TrimSpace(s) == s
  {
  }

  /** Go's ASCII lowercasing of a single character. */
  function LowerChar(c: char): (l: char)
  {
    if 'A' <= c <= 'Z' then (c as int + 32) as char else c
  }

  /** strings.ToLower, restricted to ASCII letters (other characters are kept). */
  function ToLower(s: string): (lower: string)
  {
    seq(|s|, i requires 0 <= i < |s| => LowerChar(s[i]))
  }

  predicate IsLowerWord(s: string)
  {
    forall i :: 0 <= i < |s| ==> !('A' <= s[i] <= 'Z')
  }

  /** Lowercasing keeps the length and the spaces, leaves no upper-case
      ASCII letter, and changes nothing that is already lower case. */
  lemma ToLowerLowers(s: string)
    ensures |ToLower(s)| == |s| && IsLowerWord(ToLower(s))
    ensures NoSpace(s) ==> NoSpace(ToLower(s))
    ensures IsLowerWord(s) ==> ToLower(s) == s
  {
  }
}
