/**
 * The string primitives the report builders lean on, each standing for one
 * Python built-in: `str.isspace` on a character, `not s.strip()`,
 * `s.strip()`, `s.startswith(p)`, `sub in s`, `s.split()`,
 * `s.splitlines()` and `sep.join(parts)`.
 *
 * Whitespace is the ASCII whitespace Python recognises; lines are separated
 * by '\n' only.
 */
module Text {

  /** The ASCII characters Python's `str.isspace` accepts. */
  predicate IsSpace(c: char) {
    c == ' ' || c == '\t' || c == '\n' || c == '\r' || c == '\U{000B}' || c == '\U{000C}'
    || c == '\U{001C}' || c == '\U{001D}' || c == '\U{001E}' || c == '\U{001F}'
  }

  /** `not s.strip()`: the string is empty or holds whitespace only. */
  predicate IsBlank(s: string) {
    forall i :: 0 <= i < |s| ==> IsSpace(s[i])
  }

  /** `line.strip()` is truthy: the line holds something besides whitespace. */
  predicate NotBlank(line: string) {
    !IsBlank(line)
  }

  /** A whitespace-free, non-empty string: what `str.split()` yields. */
  predicate IsWord(w: string) {
    w != [] && forall i :: 0 <= i < |w| ==> !IsSpace(w[i])
  }

  /** `s.startswith(p)`. */
  predicate StartsWith(s: string, p: string) {
    p <= s
  }

  /** `s.lstrip()`: the longest suffix of `s` that does not start with whitespace. */
  function TrimLeft(s: string): (r: string)
    ensures |r| <= |s| && r == s[|s| - |r|..]
    ensures forall i :: 0 <= i < |s| - |r| ==> IsSpace(s[i])
    ensures r == [] || !IsSpace(r[0])
    decreases |s|
  {
    if s != [] && IsSpace(s[0]) then TrimLeft(s[1..]) else s
  }

  /** `s.rstrip()`: the longest prefix of `s` that does not end with whitespace. */
  function TrimRight(s: string): (r: string)
    ensures |r| <= |s| && r == s[..|r|]
    ensures forall i :: |r| <= i < |s| ==> IsSpace(s[i])
    ensures r == [] || !IsSpace(r[|r| - 1])
    decreases |s|
  {
    if s != [] && IsSpace(s[|s| - 1]) then TrimRight(s[..|s| - 1]) else s
  }

  /** `s.strip()`. */
  function Strip(s: string): (r: string)
    ensures r == [] <==> IsBlank(s)
    ensures r != [] ==> !IsSpace(r[0]) && !IsSpace(r[|r| - 1])
    ensures s != [] && !IsSpace(s[0]) ==> |r| <= |s| && r == s[..|r|]
  {
    var t := TrimLeft(s);
    assert t == [] ==> IsBlank(s);
    assert t != [] ==> s[|s| - |t|] == t[0];
    TrimRight(t)
  }

  /** Leading whitespace is all that `lstrip` removes. */
  lemma {:induction false} TrimLeftAfterBlank(p: string, s: string)
    requires IsBlank(p)
    requires s == [] || !IsSpace(s[0])
    ensures TrimLeft(p + s) == s
    decreases |p|
  {
    if p == [] {
      assert p + s == s;
    } else {
      assert (p + s)[0] == p[0];
      assert (p + s)[1..] == p[1..] + s;
      TrimLeftAfterBlank(p[1..], s);
    }
  }

  /** A string without surrounding whitespace is its own `strip`. */
  lemma StripTrimmed(s: string)
    requires s != [] && !IsSpace(s[0]) && !IsSpace(s[|s| - 1])
    ensures Strip(s) == s
  {
  }

  /** Stripping a text whose first `k` characters are its only surrounding whitespace. */
  lemma StripFrom(s: string, k: nat)
    requires k < |s|
    requires forall i :: 0 <= i < k ==> IsSpace(s[i])
    requires !IsSpace(s[k]) && !IsSpace(s[|s| - 1])
    ensures Strip(s) == s[k..]
  {
    var w := s[k..];
    assert s == s[..k] + w;
    TrimLeftAfterBlank(s[..k], w);
    TrimRightKeeps(w);
  }

  /** A string that does not end with whitespace is its own `rstrip`. */
  lemma TrimRightKeeps(w: string)
    requires w != [] && !IsSpace(w[|w| - 1])
    ensures TrimRight(w) == w
  {
  }

  /** `sub in s`: `sub` occurs somewhere in `s` as a contiguous block. */
  predicate Contains(s: string, sub: string)
    decreases |s|
  {
    StartsWith(s, sub) || (s != [] && Contains(s[1..], sub))
  }

  /** `sub` occurs in `s` at offset `i`. */
  ghost predicate OccursAt(s: string, sub: string, i: int) {
    0 <= i && i + |sub| <= |s| && s[i..i + |sub|] == sub
  }

  /** `Contains` means exactly "occurs at some offset". */
  lemma {:induction false} ContainsIffOccurs(s: string, sub: string)
    ensures Contains(s, sub) <==> exists i :: OccursAt(s, sub, i)
    decreases |s|
  {
    if StartsWith(s, sub) {
      assert OccursAt(s, sub, 0);
    } else if s == [] {
      assert forall i :: !OccursAt(s, sub, i);
    } else {
      ContainsIffOccurs(s[1..], sub);
      if Contains(s[1..], sub) {
        var i :| OccursAt(s[1..], sub, i);
        assert s[1..][i..i + |sub|] == s[i + 1..i + 1 + |sub|];
        assert OccursAt(s, sub, i + 1);
      } else {
        forall i | 0 < i && OccursAt(s, sub, i) ensures OccursAt(s[1..], sub, i - 1) {
          assert s[1..][i - 1..i - 1 + |sub|] == s[i..i + |sub|];
        }
      }
    }
  }

  /** `any(k in s for k in keys)`. */
  predicate ContainsAny(s: string, keys: seq<string>) {
    exists k :: k in keys && Contains(s, k)
  }

  /** The longest prefix of `s` without whitespace. */
  function Word(s: string): (w: string)
    ensures |w| <= |s| && w == s[..|w|]
    ensures forall i :: 0 <= i < |w| ==> !IsSpace(w[i])
    ensures |w| == |s| || IsSpace(s[|w|])
    decreases |s|
  {
    if s == [] || IsSpace(s[0]) then [] else [s[0]] + Word(s[1..])
  }

  /** `s.split()`: the maximal whitespace-free runs of `s`, in order. */
  function Tokens(s: string): seq<string>
    decreases |s|
  {
    var t := TrimLeft(s);
    if t == [] then []
    else
      var w := Word(t);
      assert w != [];
      [w] + Tokens(t[|w|..])
  }

  /** Every token is a non-empty run without whitespace. */
  lemma {:induction false} TokensAreWords(s: string)
    ensures forall k :: 0 <= k < |Tokens(s)| ==> IsWord(Tokens(s)[k])
    decreases |s|
  {
    var t := TrimLeft(s);
    if t != [] {
      var w := Word(t);
      var rest := Tokens(t[|w|..]);
      TokensAreWords(t[|w|..]);
      assert Tokens(s) == [w] + rest;
      forall k | 0 <= k < |Tokens(s)| ensures IsWord(Tokens(s)[k]) {
        if k > 0 {
          assert Tokens(s)[k] == rest[k - 1];
        }
      }
    }
  }

  /** A line has no tokens exactly when it is blank. */
  lemma TokensEmpty(s: string)
    ensures Tokens(s) == [] <==> IsBlank(s)
  {
    var t := TrimLeft(s);
    if t != [] {
      assert s[|s| - |t|] == t[0];
    }
  }

  /** `s.split()[0]` on a line that is not blank. */
  function FirstToken(s: string): (w: string)
    requires !IsBlank(s)
    ensures IsWord(w)
  {
    TokensEmpty(s);
    TokensAreWords(s);
    Tokens(s)[0]
  }

  /** `s.split()[-1]` on a line that is not blank. */
  function LastToken(s: string): (w: string)
    requires !IsBlank(s)
    ensures IsWord(w)
  {
    TokensEmpty(s);
    TokensAreWords(s);
    var ts := Tokens(s);
    ts[|ts| - 1]
  }

  /** `sep.join(parts)`. */
  function Join(parts: seq<string>, sep: string): string
    decreases |parts|
  {
    if parts == [] then ""
    else if |parts| == 1 then parts[0]
    else parts[0] + sep + Join(parts[1..], sep)
  }

  /** `s.split(sep)`: the pieces between occurrences of `sep`; always at least one. */
  function SplitOn(s: string, sep: char): (r: seq<string>)
    ensures |r| >= 1
    decreases |s|
  {
    if s == [] then [""]
    else if s[0] == sep then [""] + SplitOn(s[1..], sep)
    else
      var rest := SplitOn(s[1..], sep);
      [[s[0]] + rest[0]] + rest[1..]
  }

  /**
   * `s.splitlines()` for '\n' line ends: the pieces between line ends, where a
   * final line end does not open an empty last line and "" has no lines.
   */
  function SplitLines(s: string): seq<string> {
    if s == [] then []
    else
      var p := SplitOn(s, '\n');
      if p[|p| - 1] == [] then p[..|p| - 1] else p
  }

  // ---------------------------------------------------------------------
  // Round trips between splitting and joining

  lemma {:induction false} JoinCons(x: string, parts: seq<string>, sep: string)
    requires parts != []
    ensures Join([x] + parts, sep) == x + sep + Join(parts, sep)
  {
    assert ([x] + parts)[1..] == parts;
  }

  /** Gluing a character onto the first piece glues it onto the joined string. */
  lemma {:induction false} JoinGlue(c: char, parts: seq<string>, sep: string)
    requires parts != []
    ensures Join([[c] + parts[0]] + parts[1..], sep) == [c] + Join(parts, sep)
  {
    if |parts| > 1 {
      JoinCons([c] + parts[0], parts[1..], sep);
      JoinCons(parts[0], parts[1..], sep);
      assert parts == [parts[0]] + parts[1..];
    }
  }

  /** Joining the pieces of a split with the separator restores the string. */
  lemma {:induction false} JoinSplitOn(s: string, sep: char)
    ensures Join(SplitOn(s, sep), [sep]) == s
    decreases |s|
  {
    if s != [] {
      var rest := SplitOn(s[1..], sep);
      JoinSplitOn(s[1..], sep);
      if s[0] == sep {
        JoinCons("", rest, [sep]);
      } else {
        JoinGlue(s[0], rest, [sep]);
      }
      assert s == [s[0]] + s[1..];
    }
  }

  lemma {:induction false} SplitOnNoSep(w: string, sep: char)
    requires sep !in w
    ensures SplitOn(w, sep) == [w]
    decreases |w|
  {
    if w != [] {
      SplitOnNoSep(w[1..], sep);
      assert w == [w[0]] + w[1..];
    }
  }

  lemma {:induction false} SplitOnPiece(w: string, sep: char, rest: string)
    requires sep !in w
    ensures SplitOn(w + [sep] + rest, sep) == [w] + SplitOn(rest, sep)
    decreases |w|
  {
    var s := w + [sep] + rest;
    if w == [] {
      assert s == [sep] + rest;
      assert s[1..] == rest;
    } else {
      assert s[0] == w[0];
      assert s[1..] == w[1..] + [sep] + rest;
      SplitOnPiece(w[1..], sep, rest);
      assert w == [w[0]] + w[1..];
    }
  }

  /** Splitting a join of separator-free pieces gives the pieces back. */
  lemma {:induction false} SplitOnJoin(parts: seq<string>, sep: char)
    requires parts != []
    requires forall k :: 0 <= k < |parts| ==> sep !in parts[k]
    ensures SplitOn(Join(parts, [sep]), sep) == parts
    decreases |parts|
  {
    if |parts| == 1 {
      SplitOnNoSep(parts[0], sep);
    } else {
      SplitOnJoin(parts[1..], sep);
      SplitOnPiece(parts[0], sep, Join(parts[1..], [sep]));
      assert parts == [parts[0]] + parts[1..];
    }
  }

  /** The last piece of a split is empty exactly when the string is empty or ends with `sep`. */
  lemma {:induction false} SplitOnLastEmpty(s: string, sep: char)
    ensures var p := SplitOn(s, sep);
            p[|p| - 1] == [] <==> s == [] || s[|s| - 1] == sep
    decreases |s|
  {
    if s != [] {
      SplitOnLastEmpty(s[1..], sep);
      var rest := SplitOn(s[1..], sep);
      if s[0] != sep && |rest| == 1 {
        assert s[1..] == [] || s[|s| - 1] == s[1..][|s[1..]| - 1];
      }
    }
  }

  lemma {:induction false} JoinSnoc(parts: seq<string>, x: string, sep: string)
    requires parts != []
    ensures Join(parts + [x], sep) == Join(parts, sep) + sep + x
    decreases |parts|
  {
    if |parts| == 1 {
      assert parts + [x] == [parts[0], x];
      assert [parts[0], x][1..] == [x];
    } else {
      assert (parts + [x])[1..] == parts[1..] + [x];
      JoinSnoc(parts[1..], x, sep);
    }
  }

  /**
   * Joining the lines with "\n" restores the text, up to the one final line
   * end that `splitlines` drops.
   */
  lemma {:induction false} JoinSplitLines(s: string)
    ensures Join(SplitLines(s), "\n") + (if s != [] && s[|s| - 1] == '\n' then "\n" else "") == s
  {
    if s != [] {
      var p := SplitOn(s, '\n');
      JoinSplitOn(s, '\n');
      SplitOnLastEmpty(s, '\n');
      if p[|p| - 1] == [] {
        assert |p| != 1;
        assert p == p[..|p| - 1] + [[]];
        JoinSnoc(p[..|p| - 1], [], "\n");
      }
    }
  }

  /**
   * Splitting a "\n"-join of lines that hold no line end gives the lines back,
   * unless the last line is empty (its line end would be a final one).
   */
  lemma {:induction false} SplitLinesJoin(lines: seq<string>)
    requires forall k :: 0 <= k < |lines| ==> '\n' !in lines[k]
    requires lines == [] || lines[|lines| - 1] != []
    ensures SplitLines(Join(lines, "\n")) == lines
  {
    if lines != [] {
      SplitOnJoin(lines, '\n');
    }
  }

  // ---------------------------------------------------------------------
  // Tokens

  lemma {:induction false} WordOfPiece(w: string, tail: string)
    requires forall i :: 0 <= i < |w| ==> !IsSpace(w[i])
    requires tail == [] || IsSpace(tail[0])
    ensures Word(w + tail) == w
  {
    assert (w + tail)[..|w|] == w;
  }

  lemma {:induction false} TokensSkipSpace(c: char, s: string)
    requires IsSpace(c)
    ensures Tokens([c] + s) == Tokens(s)
  {
    assert ([c] + s)[1..] == s;
  }

  /** A word followed by nothing or by whitespace is the first token. */
  lemma {:induction false} TokensOfPiece(w: string, tail: string)
    requires IsWord(w)
    requires tail == [] || IsSpace(tail[0])
    ensures Tokens(w + tail) == [w] + Tokens(tail)
  {
    WordOfPiece(w, tail);
    assert (w + tail)[0] == w[0];
    assert (w + tail)[|w|..] == tail;
  }

  lemma {:induction false} TokensWordSpace(w: string, rest: string)
    requires IsWord(w)
    ensures Tokens(w + (" " + rest)) == [w] + Tokens(rest)
  {
    TokensOfPiece(w, " " + rest);
    TokensSkipSpace(' ', rest);
  }

  lemma {:induction false} JoinFirst(parts: seq<string>, sep: string)
    requires |parts| > 1
    ensures Join(parts, sep) == parts[0] + (sep + Join(parts[1..], sep))
  {
    JoinCons(parts[0], parts[1..], sep);
    assert parts == [parts[0]] + parts[1..];
  }

  lemma {:induction false} TokensOfWord(w: string)
    requires IsWord(w)
    ensures Tokens(w) == [w]
  {
    TokensOfPiece(w, []);
    assert w + [] == w;
    assert Tokens([]) == [];
  }

  /** Splitting words joined by single spaces yields the words. */
  lemma {:induction false} TokensJoin(ws: seq<string>)
    requires forall w :: w in ws ==> IsWord(w)
    ensures Tokens(Join(ws, " ")) == ws
    decreases |ws|
  {
    if |ws| == 1 {
      TokensOfWord(ws[0]);
    } else if |ws| > 1 {
      JoinFirst(ws, " ");
      TokensWordSpace(ws[0], Join(ws[1..], " "));
      TokensJoin(ws[1..]);
      assert ws == [ws[0]] + ws[1..];
    }
  }
}
