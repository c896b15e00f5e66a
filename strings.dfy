/** String helpers, each following the Python built-in it stands for: whitespace as
    `str.isspace` and the `\s` class of `re` see it, `str.strip`, `str.split`, `sep.join`,
    `str.replace` for one character, `in` on strings, `str.split(sep)[0]`, `str.lower`,
    `str.title` and the ordering of `<` on strings. */
module Strings {

  /** The whitespace characters of Python's `str.isspace`, which are also what `\s`
      matches in a `re` pattern over `str`. */
  predicate IsSpace(c: char) {
    ('\t' <= c <= '\r') || ('\U{1C}' <= c <= '\U{1F}') || c == ' ' || c == '\U{85}' || c == '\U{A0}'
    || c == '\U{1680}' || ('\U{2000}' <= c <= '\U{200A}') || c == '\U{2028}' || c == '\U{2029}'
    || c == '\U{202F}' || c == '\U{205F}' || c == '\U{3000}'
  }

  /** No whitespace character anywhere in `s`. */
  predicate NoSpace(s: string) {
    forall i :: 0 <= i < |s| ==> !IsSpace(s[i])
  }

  /** The whitespace of `s` consists of single blanks: every whitespace character is ' '
      and no two whitespace characters are adjacent. */
  ghost predicate SingleSpaced(s: string) {
    && (forall i :: 0 <= i < |s| && IsSpace(s[i]) ==> s[i] == ' ')
    && (forall i, j :: 0 <= i < j < |s| && j == i + 1 ==> !(IsSpace(s[i]) && IsSpace(s[j])))
  }

  /** Neither the first nor the last character is whitespace. */
  predicate Trimmed(s: string) {
    s == [] || (!IsSpace(s[0]) && !IsSpace(s[|s| - 1]))
  }

  /** The characters of `s` that are not whitespace, in order. */
  function NonSpace(s: string): string {
    if s == [] then []
    else (if IsSpace(s[0]) then [] else [s[0]]) + NonSpace(s[1..])
  }

  /** `s.lstrip()`: what is left after the longest all-whitespace prefix. */
  function TrimStart(s: string): string {
    if s != [] && IsSpace(s[0]) then TrimStart(s[1..]) else s
  }

  /** `lstrip` leaves a suffix that does not start with whitespace, and removes only
      whitespace. */
  lemma {:induction false} TrimStartShape(s: string)
    ensures |TrimStart(s)| <= |s| && TrimStart(s) == s[|s| - |TrimStart(s)|..]
    ensures TrimStart(s) == [] || !IsSpace(TrimStart(s)[0])
    ensures forall i :: 0 <= i < |s| - |TrimStart(s)| ==> IsSpace(s[i])
  {
    if s != [] && IsSpace(s[0]) {
      TrimStartShape(s[1..]);
      assert forall i :: 1 <= i < |s| ==> s[i] == s[1..][i - 1];
    }
  }

  /** `s.rstrip()`: what is left after the longest all-whitespace suffix. */
  function TrimEnd(s: string): string {
    if s != [] && IsSpace(s[|s| - 1]) then TrimEnd(s[..|s| - 1]) else s
  }

  /** `rstrip` leaves a prefix that does not end with whitespace, and removes only
      whitespace. */
  lemma {:induction false} TrimEndShape(s: string)
    ensures |TrimEnd(s)| <= |s| && TrimEnd(s) == s[..|TrimEnd(s)|]
    ensures TrimEnd(s) == [] || !IsSpace(TrimEnd(s)[|TrimEnd(s)| - 1])
    ensures forall i :: |TrimEnd(s)| <= i < |s| ==> IsSpace(s[i])
  {
    if s != [] && IsSpace(s[|s| - 1]) {
      TrimEndShape(s[..|s| - 1]);
    }
  }

  /** `s.strip()`. */
  function Strip(s: string): string {
    TrimEnd(TrimStart(s))
  }

  /** `strip` leaves no whitespace at either end and never lengthens the string. */
  lemma StripShape(s: string)
    ensures Trimmed(Strip(s)) && |Strip(s)| <= |s|
  {
    TrimStartShape(s);
    var t := TrimStart(s);
    TrimEndShape(t);
    var r := TrimEnd(t);
    if r != [] {
      assert r[0] == t[0];
    }
  }

  /** `re.sub(r"\s+", " ", s)`: every maximal run of whitespace becomes one blank. */
  function Squeeze(s: string): string
    decreases |s|
  {
    if s == [] then []
    else if IsSpace(s[0]) then
      TrimStartShape(s[1..]);
      " " + Squeeze(TrimStart(s[1..]))
    else [s[0]] + Squeeze(s[1..])
  }

  /** After the collapse, the whitespace is single blanks; the result is empty only for an
      empty input and starts with whitespace exactly when the input does. */
  lemma {:induction false} SqueezeShape(s: string)
    ensures SingleSpaced(Squeeze(s))
    ensures Squeeze(s) == [] <==> s == []
    ensures Squeeze(s) != [] ==> (IsSpace(Squeeze(s)[0]) <==> IsSpace(s[0]))
    decreases |s|
  {
    if s == [] {
    } else if IsSpace(s[0]) {
      TrimStartShape(s[1..]);
      var t := TrimStart(s[1..]);
      SqueezeShape(t);
      var u := Squeeze(t);
      var r := " " + u;
      assert r == Squeeze(s);
      assert forall i :: 1 <= i < |r| ==> r[i] == u[i - 1];
      assert u != [] ==> !IsSpace(u[0]);
    } else {
      SqueezeShape(s[1..]);
      var u := Squeeze(s[1..]);
      var r := [s[0]] + u;
      assert r == Squeeze(s);
      assert forall i :: 1 <= i < |r| ==> r[i] == u[i - 1];
    }
  }

  lemma {:induction false} NonSpaceAppend(a: string, b: string)
    ensures NonSpace(a + b) == NonSpace(a) + NonSpace(b)
  {
    if a == [] {
      assert a + b == b;
    } else {
      assert (a + b)[0] == a[0];
      assert (a + b)[1..] == a[1..] + b;
      NonSpaceAppend(a[1..], b);
    }
  }

  lemma {:induction false} NonSpaceOfSpaces(s: string)
    requires forall i :: 0 <= i < |s| ==> IsSpace(s[i])
    ensures NonSpace(s) == []
  {
    if s != [] {
      NonSpaceOfSpaces(s[1..]);
    }
  }

  lemma {:induction false} TrimStartKeepsContent(s: string)
    ensures NonSpace(TrimStart(s)) == NonSpace(s)
  {
    if s != [] && IsSpace(s[0]) {
      TrimStartKeepsContent(s[1..]);
    }
  }

  lemma {:induction false} TrimEndKeepsContent(s: string)
    ensures NonSpace(TrimEnd(s)) == NonSpace(s)
  {
    if s != [] && IsSpace(s[|s| - 1]) {
      var init := s[..|s| - 1];
      TrimEndKeepsContent(init);
      assert s == init + [s[|s| - 1]];
      NonSpaceAppend(init, [s[|s| - 1]]);
    }
  }

  /** Stripping only removes whitespace: the other characters are all kept, in order. */
  lemma StripKeepsContent(s: string)
    ensures NonSpace(Strip(s)) == NonSpace(s)
  {
    TrimStartKeepsContent(s);
    TrimEndKeepsContent(TrimStart(s));
  }

  /** Collapsing whitespace runs only touches whitespace: the other characters are all kept, in order. */
  lemma {:induction false} SqueezeKeepsContent(s: string)
    ensures NonSpace(Squeeze(s)) == NonSpace(s)
    decreases |s|
  {
    if s == [] {
    } else if IsSpace(s[0]) {
      TrimStartShape(s[1..]);
      var t := TrimStart(s[1..]);
      SqueezeKeepsContent(t);
      TrimStartKeepsContent(s[1..]);
      NonSpaceAppend(" ", Squeeze(t));
    } else {
      SqueezeKeepsContent(s[1..]);
      NonSpaceAppend([s[0]], Squeeze(s[1..]));
    }
  }

  /** A string whose whitespace is already single blanks is left alone by the collapse. */
  lemma {:induction false} SqueezeSingleSpaced(s: string)
    requires SingleSpaced(s)
    ensures Squeeze(s) == s
    decreases |s|
  {
    if s == [] {
    } else if IsSpace(s[0]) {
      assert s[0] == ' ';
      assert s[1..] == [] || !IsSpace(s[1..][0]);
      assert TrimStart(s[1..]) == s[1..];
      SqueezeSingleSpaced(s[1..]);
      assert s == " " + s[1..];
    } else {
      SqueezeSingleSpaced(s[1..]);
      assert s == [s[0]] + s[1..];
    }
  }

  /** A string with no whitespace at either end is left alone by `strip()`. */
  lemma StripTrimmed(s: string)
    requires Trimmed(s)
    ensures Strip(s) == s
  {
  }

  lemma SliceSingleSpaced(s: string, a: nat, b: nat)
    requires SingleSpaced(s) && a <= b <= |s|
    ensures SingleSpaced(s[a..b])
  {
    var t := s[a..b];
    assert forall i :: 0 <= i < |t| ==> t[i] == s[a + i];
  }

  /** Stripping the ends of a single-spaced string keeps it single-spaced. */
  lemma StripSingleSpaced(s: string)
    requires SingleSpaced(s)
    ensures SingleSpaced(Strip(s))
  {
    TrimStartShape(s);
    var t := TrimStart(s);
    SliceSingleSpaced(s, |s| - |t|, |s|);
    TrimEndShape(t);
    SliceSingleSpaced(t, 0, |TrimEnd(t)|);
  }

  /** The leading word of `s`: its longest whitespace-free prefix. */
  function TakeWord(s: string): (w: string)
    ensures |w| <= |s| && w == s[..|w|] && NoSpace(w)
    ensures |w| == |s| || IsSpace(s[|w|])
    ensures s != [] && !IsSpace(s[0]) ==> w != []
  {
    if s == [] || IsSpace(s[0]) then [] else [s[0]] + TakeWord(s[1..])
  }

  /** `s.split()` with no argument: the maximal whitespace-free pieces of `s`, in order. */
  function Split(s: string): (ws: seq<string>)
    ensures Words(ws)
    decreases |s|
  {
    TrimStartShape(s);
    var t := TrimStart(s);
    if t == [] then []
    else
      var w := TakeWord(t);
      var u := t[|w|..];
      assert w != [] && |u| < |s|;
      var rest := Split(u);
      var ws := [w] + rest;
      assert ws[0] == w;
      assert forall i :: 1 <= i < |ws| ==> ws[i] == rest[i - 1];
      ws
  }

  /** Every piece is non-empty and free of whitespace. */
  predicate Words(ws: seq<string>) {
    forall i :: 0 <= i < |ws| ==> ws[i] != [] && NoSpace(ws[i])
  }

  /** `sep.join(ws)`. */
  function JoinWith(ws: seq<string>, sep: string): string {
    if ws == [] then []
    else if |ws| == 1 then ws[0]
    else ws[0] + sep + JoinWith(ws[1..], sep)
  }

  /** `sep.join(ws)` begins with its first piece and ends with its last. */
  lemma {:induction false} JoinWithEnds(ws: seq<string>, sep: string)
    requires ws != []
    ensures |ws[0]| <= |JoinWith(ws, sep)| && JoinWith(ws, sep)[..|ws[0]|] == ws[0]
    ensures |ws[|ws| - 1]| <= |JoinWith(ws, sep)|
    ensures JoinWith(ws, sep)[|JoinWith(ws, sep)| - |ws[|ws| - 1]|..] == ws[|ws| - 1]
  {
    if |ws| > 1 {
      JoinWithEnds(ws[1..], sep);
      var rest := JoinWith(ws[1..], sep);
      assert JoinWith(ws, sep) == ws[0] + sep + rest;
      assert ws[1..][|ws[1..]| - 1] == ws[|ws| - 1];
    }
  }

  /** A character of `sep.join(ws)` comes from the separator or from one of the pieces. */
  lemma {:induction false} JoinWithChars(ws: seq<string>, sep: string, c: char)
    requires c in JoinWith(ws, sep)
    ensures c in sep || exists i :: 0 <= i < |ws| && c in ws[i]
  {
    if |ws| > 1 {
      var rest := JoinWith(ws[1..], sep);
      assert JoinWith(ws, sep) == ws[0] + sep + rest;
      if c !in ws[0] && c !in sep {
        JoinWithChars(ws[1..], sep, c);
        var i :| 0 <= i < |ws[1..]| && c in ws[1..][i];
        assert c in ws[i + 1];
      }
    }
  }

  /** `s.replace(c, repl)` for a one-character pattern `c`. */
  function ReplaceChar(s: string, c: char, repl: string): (r: string)
    ensures c !in repl ==> c !in r
    ensures forall x :: x in r ==> x in repl || (x in s && x != c)
  {
    if s == [] then []
    else (if s[0] == c then repl else [s[0]]) + ReplaceChar(s[1..], c, repl)
  }

  /** Replacing a character that does not occur changes nothing. */
  lemma {:induction false} ReplaceAbsent(s: string, c: char, repl: string)
    requires c !in s
    ensures ReplaceChar(s, c, repl) == s
  {
    if s != [] {
      ReplaceAbsent(s[1..], c, repl);
      assert s == [s[0]] + s[1..];
    }
  }

  /** `sub` occurs in `s` starting at position `i`. */
  predicate OccursAt(s: string, sub: string, i: int) {
    0 <= i <= |s| - |sub| && s[i..i + |sub|] == sub
  }

  /** Python's `sub in s`. */
  predicate Contains(s: string, sub: string)
    decreases |s|
  {
    if |sub| > |s| then false
    else if s[..|sub|] == sub then true
    else |s| > 0 && Contains(s[1..], sub)
  }

  /** `Contains` means: `sub` occurs at some position of `s`. */
  lemma {:induction false} ContainsIff(s: string, sub: string)
    ensures Contains(s, sub) <==> exists i :: OccursAt(s, sub, i)
    decreases |s|
  {
    if |sub| > |s| {
    } else if s[..|sub|] == sub {
      assert OccursAt(s, sub, 0);
    } else {
      ContainsIff(s[1..], sub);
      if exists i :: OccursAt(s, sub, i) {
        var i :| OccursAt(s, sub, i);
        assert i != 0;
        assert s[1..][i - 1..i - 1 + |sub|] == s[i..i + |sub|];
        assert OccursAt(s[1..], sub, i - 1);
      }
      if Contains(s[1..], sub) {
        var i :| OccursAt(s[1..], sub, i);
        assert s[1..][i..i + |sub|] == s[i + 1..i + 1 + |sub|];
        assert OccursAt(s, sub, i + 1);
      }
    }
  }

  /** `s.split(sep)[0]` for a non-empty separator: the part of `s` before the first
      occurrence of `sep`, or all of `s` when `sep` does not occur. */
  function PrefixBefore(s: string, sep: string): (r: string)
    requires sep != []
    ensures |r| <= |s| && r == s[..|r|]
    ensures r == s || OccursAt(s, sep, |r|)
    ensures forall i :: 0 <= i < |r| ==> !OccursAt(s, sep, i)
    decreases |s|
  {
    if |s| < |sep| then s
    else if s[..|sep|] == sep then []
    else
      var tail := PrefixBefore(s[1..], sep);
      assert forall i :: 1 <= i < 1 + |tail| ==> (OccursAt(s, sep, i) <==> OccursAt(s[1..], sep, i - 1)) by {
        forall i | 1 <= i < 1 + |tail| ensures OccursAt(s, sep, i) <==> OccursAt(s[1..], sep, i - 1) {
          if i <= |s| - |sep| {
            assert s[i..i + |sep|] == s[1..][i - 1..i - 1 + |sep|];
          }
        }
      }
      assert OccursAt(s[1..], sep, |tail|) ==> OccursAt(s, sep, |tail| + 1) by {
        if |tail| + |sep| <= |s| - 1 {
          assert s[1..][|tail|..|tail| + |sep|] == s[|tail| + 1..|tail| + 1 + |sep|];
        }
      }
      [s[0]] + tail
  }

  /** Python's `str.lower()` on ASCII letters; other characters are kept. */
  function LowerChar(c: char): char {
    if 'A' <= c <= 'Z' then (c as int + 32) as char else c
  }

  function UpperChar(c: char): char {
    if 'a' <= c <= 'z' then (c as int - 32) as char else c
  }

  predicate IsLetter(c: char) {
    ('a' <= c <= 'z') || ('A' <= c <= 'Z')
  }

  function Lower(s: string): (r: string)
    ensures |r| == |s|
  {
    if s == [] then [] else [LowerChar(s[0])] + Lower(s[1..])
  }

  /** Lower-casing works character by character. */
  lemma {:induction false} LowerAt(s: string, i: int)
    requires 0 <= i < |s|
    ensures Lower(s)[i] == LowerChar(s[i])
  {
    if i > 0 {
      LowerAt(s[1..], i - 1);
    }
  }

  /** Python's `str.title()` over ASCII letters: a letter is upper-cased when the character
      before it is not a letter and lower-cased otherwise; `afterLetter` says whether the
      character before `s` was a letter. */
  function TitleFrom(s: string, afterLetter: bool): (r: string)
    ensures |r| == |s|
    ensures forall i :: 0 <= i < |s| ==> IsLetter(r[i]) == IsLetter(s[i])
    ensures forall i :: 0 <= i < |s| && !IsLetter(s[i]) ==> r[i] == s[i]
    ensures forall i :: 0 <= i < |s| && IsLetter(s[i]) ==>
      r[i] == if (if i == 0 then afterLetter else IsLetter(s[i - 1])) then LowerChar(s[i]) else UpperChar(s[i])
  {
    if s == [] then []
    else
      var c := if afterLetter then LowerChar(s[0]) else UpperChar(s[0]);
      [c] + TitleFrom(s[1..], IsLetter(s[0]))
  }

  function TitleCase(s: string): string {
    TitleFrom(s, false)
  }

  /** Title-casing is idempotent. */
  lemma TitleCaseIdempotent(s: string)
    ensures TitleCase(TitleCase(s)) == TitleCase(s)
  {
    var t := TitleCase(s);
    var u := TitleCase(t);
    forall i | 0 <= i < |s| ensures u[i] == t[i] {
      if IsLetter(s[i]) {
        assert i > 0 ==> IsLetter(t[i - 1]) == IsLetter(s[i - 1]);
      }
    }
  }

  /** `s.lstrip(chars)` and `s.rstrip(chars)` for a set of characters. */
  function TrimStartOf(s: string, chars: set<char>): (r: string)
    ensures |r| <= |s| && r == s[|s| - |r|..]
    ensures r == [] || r[0] !in chars
  {
    if s != [] && s[0] in chars then TrimStartOf(s[1..], chars) else s
  }

  function TrimEndOf(s: string, chars: set<char>): (r: string)
    ensures |r| <= |s| && r == s[..|r|]
    ensures r == [] || r[|r| - 1] !in chars
  {
    if s != [] && s[|s| - 1] in chars then TrimEndOf(s[..|s| - 1], chars) else s
  }

  /** `s.strip(chars)`. */
  function StripOf(s: string, chars: set<char>): (r: string)
    ensures r == [] || (r[0] !in chars && r[|r| - 1] !in chars)
  {
    var t := TrimStartOf(s, chars);
    var u := TrimEndOf(t, chars);
    assert u != [] ==> u[0] == t[0];
    u
  }

  /** Python's `a < b` on `str`: lexicographic by code point, a proper prefix first. */
  predicate LexLess(a: string, b: string) {
    if a == [] then b != []
    else if b == [] then false
    else if a[0] != b[0] then a[0] < b[0]
    else LexLess(a[1..], b[1..])
  }

  lemma {:induction false} LexLessIrreflexive(a: string)
    ensures !LexLess(a, a)
  {
    if a != [] {
      LexLessIrreflexive(a[1..]);
    }
  }

  lemma {:induction false} LexLessTransitive(a: string, b: string, c: string)
    requires LexLess(a, b) && LexLess(b, c)
    ensures LexLess(a, c)
  {
    if a != [] && b != [] && c != [] && a[0] == b[0] && b[0] == c[0] {
      LexLessTransitive(a[1..], b[1..], c[1..]);
    }
  }

  lemma {:induction false} LexLessTotal(a: string, b: string)
    requires a != b
    ensures LexLess(a, b) || LexLess(b, a)
  {
    if a != [] && b != [] && a[0] == b[0] {
      assert a == [a[0]] + a[1..] && b == [b[0]] + b[1..];
      LexLessTotal(a[1..], b[1..]);
    }
  }

  /** "Not less than" is transitive. */
  lemma NotLessTransitive(a: string, b: string, c: string)
    requires !LexLess(a, b) && !LexLess(b, c)
    ensures !LexLess(a, c)
  {
    if LexLess(a, c) && b != c {
      LexLessTotal(b, c);
      LexLessTransitive(a, c, b);
    }
  }

  /** `s.startswith(prefix)`. */
  predicate StartsWith(s: string, prefix: string) {
    |prefix| <= |s| && s[..|prefix|] == prefix
  }
}
