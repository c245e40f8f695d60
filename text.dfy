/**
  The string built-ins the conversation view relies on: `trim`, case mapping, `includes`,
  and `split(' ')` followed by taking the first character of each piece.
 */
module Text {

  /**
    What `String.prototype.trim` strips: the ECMAScript WhiteSpace characters (tab, vertical
    tab, form feed, the byte-order mark and every space separator) and the LineTerminator
    characters.
   */
  predicate IsJsWhitespace(c: char)
  {
    || c == '\t' || c == 11 as char || c == 12 as char || c == ' '
    || c == 0xA0 as char || c == 0xFEFF as char
    || c == 0x1680 as char || (0x2000 <= c as int <= 0x200A)
    || c == 0x202F as char || c == 0x205F as char || c == 0x3000 as char
    || c == '\n' || c == '\r' || c == 0x2028 as char || c == 0x2029 as char
  }

  /** Nothing but whitespace (or nothing at all). */
  predicate IsBlank(s: string)
  {
    forall i :: 0 <= i < |s| ==> IsJsWhitespace(s[i])
  }

  /** `s` without its leading whitespace. */
  function TrimStart(s: string): (r: string)
    ensures |r| <= |s| && r == s[|s| - |r|..]
    ensures IsBlank(s[..|s| - |r|])
    ensures r == [] || !IsJsWhitespace(r[0])
  {
    if s != [] && IsJsWhitespace(s[0]) then TrimStart(s[1..]) else s
  }

  /** `s` without its trailing whitespace. */
  function TrimEnd(s: string): (r: string)
    ensures |r| <= |s| && r == s[..|r|]
    ensures IsBlank(s[|r|..])
    ensures r == [] || !IsJsWhitespace(r[|r| - 1])
  {
    if s != [] && IsJsWhitespace(s[|s| - 1]) then TrimEnd(s[..|s| - 1]) else s
  }

  /** `s.trim()`. */
  function Trim(s: string): string
  {
    TrimEnd(TrimStart(s))
  }

  /**
    `s.trim()` is the middle of `s` once a blank prefix and a blank suffix are cut off,
    and it neither starts nor ends with whitespace.
   */
  lemma TrimIsMiddle(s: string)
    ensures var r, a := Trim(s), |s| - |TrimStart(s)|;
      && a + |r| <= |s|
      && r == s[a..a + |r|]
      && IsBlank(s[..a]) && IsBlank(s[a + |r|..])
      && (r == [] || (!IsJsWhitespace(r[0]) && !IsJsWhitespace(r[|r| - 1])))
  {
    var t := TrimStart(s);
    var a := |s| - |t|;
    assert t == s[a..];
    var r := TrimEnd(t);
    assert r == Trim(s);
    var n := |r|;
    assert r == t[..n];
    assert t[..n] == s[a..a + n];
    assert t[n..] == s[a + n..];
    assert r == [] || !IsJsWhitespace(r[0]) by {
      if r != [] {
        assert r[0] == t[0];
      }
    }
  }

  /** `s.trim()` is falsy exactly when `s` is blank: the guard on sending a message. */
  lemma TrimEmptyIffBlank(s: string)
    ensures Trim(s) == "" <==> IsBlank(s)
  {
    var t := TrimStart(s);
    var a := |s| - |t|;
    if Trim(s) == "" {
      assert IsBlank(t[0..]);
      assert t == [];
      forall i | 0 <= i < |s|
        ensures IsJsWhitespace(s[i])
      {
        assert s[..a][i] == s[i];
      }
    }
  }

  /** The string with `f` applied to every character: `toLowerCase` and `toUpperCase`. */
  function MapChars(s: string, f: char -> char): string
  {
    seq(|s|, i requires 0 <= i < |s| => f(s[i]))
  }

  /** `s.includes(sub)`: `sub` occurs in `s` at some position. */
  predicate Includes(s: string, sub: string)
  {
    exists i :: 0 <= i <= |s| - |sub| && IsPrefix(sub, s[i..])
  }

  /** `sub` is a prefix of `s`. */
  predicate IsPrefix(sub: string, s: string)
  {
    |sub| <= |s| && s[..|sub|] == sub
  }

  /** Every string includes the empty string. */
  lemma IncludesEmpty(s: string)
    ensures Includes(s, "")
  {
    assert IsPrefix("", s[0..]);
  }

  /** The pieces joined back with a space between each two: `pieces.join(' ')`. */
  function JoinWithSpaces(pieces: seq<string>): string
    requires |pieces| >= 1
  {
    if |pieces| == 1 then pieces[0] else pieces[0] + " " + JoinWithSpaces(pieces[1..])
  }

  /**
    `s.split(' ')`: the pieces between the spaces, one more than there are spaces, empty
    pieces included; joining them with spaces gives back `s`.
   */
  function SplitOnSpaces(s: string): (r: seq<string>)
    ensures |r| >= 1
    ensures forall k :: 0 <= k < |r| ==> ' ' !in r[k]
    ensures JoinWithSpaces(r) == s
    decreases |s|
  {
    if s == [] then [""]
    else
      var rest := SplitOnSpaces(s[1..]);
      if s[0] == ' ' then
        var r := [""] + rest;
        assert r[1..] == rest;
        assert s == " " + s[1..];
        r
      else
        var r := [[s[0]] + rest[0]] + rest[1..];
        assert r[1..] == rest[1..];
        assert s == [s[0]] + s[1..];
        r
  }

  /**
    `pieces.map(n => n[0]).join('')`: the first character of every piece; an empty piece
    gives `undefined`, which `join` writes as nothing.
   */
  function FirstChars(pieces: seq<string>): string
  {
    if pieces == [] then ""
    else (if pieces[0] == "" then "" else [pieces[0][0]]) + FirstChars(pieces[1..])
  }

  /**
    A reference definition: the characters of `s` that start a word, that is, those that are
    not a space and come first or right after a space (`afterSpace` says whether the
    character before `s` was a space or the start).
   */
  function WordStarts(s: string, afterSpace: bool): string
  {
    if s == [] then ""
    else if s[0] == ' ' then WordStarts(s[1..], true)
    else (if afterSpace then [s[0]] else "") + WordStarts(s[1..], false)
  }

  /** The first characters of the space-separated pieces are exactly the word starts. */
  lemma {:induction false} FirstCharsOfSplit(s: string)
    ensures FirstChars(SplitOnSpaces(s)) == WordStarts(s, true)
    ensures FirstChars(SplitOnSpaces(s)[1..]) == WordStarts(s, false)
    decreases |s|
  {
    if s != [] {
      var rest := SplitOnSpaces(s[1..]);
      FirstCharsOfSplit(s[1..]);
      var r := SplitOnSpaces(s);
      if s[0] == ' ' {
        assert r == [""] + rest && r[1..] == rest;
      } else {
        assert r == [[s[0]] + rest[0]] + rest[1..] && r[1..] == rest[1..];
      }
    }
  }
}
