/** The few operations of Go's `strings` package the client relies on,
    over Dafny strings (sequences of Unicode scalar values, i.e. Go runes).
    Every separator the client uses is a single ASCII character, so cutting
    and splitting on runes agrees with Go cutting and splitting on bytes. */
module Text {

  /** Go's `unicode.IsSpace`: the characters `strings.TrimSpace` removes. */
  predicate IsSpace(c: char) {
    || c == ' ' || c == '\t' || c == '\n' || c == '\r'
    || c == '\U{000B}' || c == '\U{000C}' || c == '\U{0085}' || c == '\U{00A0}'
    || c == '\U{1680}' || ('\U{2000}' <= c <= '\U{200A}')
    || c == '\U{2028}' || c == '\U{2029}' || c == '\U{202F}' || c == '\U{205F}'
    || c == '\U{3000}'
  }

  /** Nothing but white space (the empty string included). */
  predicate Blank(s: string) {
    forall i :: 0 <= i < |s| ==> IsSpace(s[i])
  }

  /** `strings.TrimLeft(s, spaces)`: the longest blank prefix is dropped. */
  function TrimLeftSpace(s: string): (r: string)
    ensures |r| <= |s| && r == s[|s| - |r|..]
    ensures Blank(s[..|s| - |r|])
    ensures r == "" <==> Blank(s)
    ensures r != "" ==> !IsSpace(r[0])
  {
    if |s| > 0 && IsSpace(s[0]) then TrimLeftSpace(s[1..]) else s
  }

  /** `strings.TrimRight(s, spaces)`: the longest blank suffix is dropped. */
  function TrimRightSpace(s: string): (r: string)
    ensures |r| <= |s| && r == s[..|r|]
    ensures Blank(s[|r|..])
    ensures r == "" <==> Blank(s)
    ensures r != "" ==> !IsSpace(r[|r| - 1])
  {
    if |s| > 0 && IsSpace(s[|s| - 1]) then TrimRightSpace(s[..|s| - 1]) else s
  }

  /** `strings.TrimSpace`. */
  function TrimSpace(s: string): string {
    TrimRightSpace(TrimLeftSpace(s))
  }

  /** The client's "content is empty" test: trimming leaves nothing exactly
      when every character is white space. */
  lemma TrimSpaceEmpty(s: string)
    ensures TrimSpace(s) == "" <==> Blank(s)
  {
    var l := TrimLeftSpace(s);
    if l != "" {
      assert !Blank(l) by { assert !IsSpace(l[0]); }
    }
  }

  /** `strings.Cut(s, sep)`, which is also `strings.SplitN(s, sep, 2)`:
      the text before and after the first `sep`, and whether there was one. */
  datatype Cut = Cut(before: string, after: string, found: bool)

  function CutAt(s: string, sep: char): (r: Cut)
    ensures r.found <==> sep in s
    ensures r.found ==> s == r.before + [sep] + r.after && sep !in r.before
    ensures !r.found ==> r.before == s && r.after == ""
  {
    if |s| == 0 then Cut("", "", false)
    else if s[0] == sep then Cut("", s[1..], true)
    else
      var rest := CutAt(s[1..], sep);
      assert s == [s[0]] + s[1..];
      rest.(before := [s[0]] + rest.before)
  }

  /** Cutting a string built as `before + sep + after` with no `sep` in
      `before` gives the two parts back, whatever `after` holds. */
  lemma {:induction false} CutOfJoined(before: string, sep: char, after: string)
    requires sep !in before
    ensures CutAt(before + [sep] + after, sep) == Cut(before, after, true)
  {
    if before != [] {
      assert (before + [sep] + after)[1..] == before[1..] + [sep] + after;
      CutOfJoined(before[1..], sep, after);
    } else {
      assert before + [sep] + after == [sep] + after;
    }
  }

  /** `strings.Split(s, sep)` for a one-character separator. */
  function Split(s: string, sep: char): (r: seq<string>)
    ensures |r| >= 1
    ensures forall i :: 0 <= i < |r| ==> sep !in r[i]
    decreases |s|
  {
    var c := CutAt(s, sep);
    if c.found then [c.before] + Split(c.after, sep) else [s]
  }

  /** `strings.Join(parts, sep)` for a one-character separator. */
  function Join(parts: seq<string>, sep: char): string {
    if |parts| == 0 then ""
    else if |parts| == 1 then parts[0]
    else parts[0] + [sep] + Join(parts[1..], sep)
  }

  /** Joining the pieces of a split restores the string. */
  lemma {:induction false} JoinSplit(s: string, sep: char)
    ensures Join(Split(s, sep), sep) == s
    decreases |s|
  {
    var c := CutAt(s, sep);
    if c.found {
      JoinSplit(c.after, sep);
      var rest := Split(c.after, sep);
      assert Split(s, sep) == [c.before] + rest;
      assert ([c.before] + rest)[1..] == rest;
    }
  }

  /** Splitting a join of separator-free pieces gives the pieces back. */
  lemma {:induction false} SplitJoin(parts: seq<string>, sep: char)
    requires |parts| >= 1
    requires forall i :: 0 <= i < |parts| ==> sep !in parts[i]
    ensures Split(Join(parts, sep), sep) == parts
  {
    if |parts| == 1 {
      assert CutAt(parts[0], sep).found == false;
    } else {
      var tail := Join(parts[1..], sep);
      CutOfJoined(parts[0], sep, tail);
      SplitJoin(parts[1..], sep);
      assert parts == [parts[0]] + parts[1..];
    }
  }

  /** Nothing but the character `c` (the empty string included). */
  predicate Run(s: string, c: char) {
    forall i :: 0 <= i < |s| ==> s[i] == c
  }

  /** `strings.TrimLeft(s, cutset)` with a one-character cutset: the
      longest prefix of `c`s is dropped. */
  function TrimLeftChar(s: string, c: char): (r: string)
    ensures |r| <= |s| && r == s[|s| - |r|..]
    ensures Run(s[..|s| - |r|], c)
    ensures r != "" ==> r[0] != c
    ensures (|s| > 0 && s[0] != c) ==> r == s
  {
    if |s| > 0 && s[0] == c then TrimLeftChar(s[1..], c) else s
  }

  /** `strings.TrimRight(s, cutset)` with a one-character cutset: the
      longest suffix of `c`s is dropped. */
  function TrimRightChar(s: string, c: char): (r: string)
    ensures |r| <= |s| && r == s[..|r|]
    ensures Run(s[|r|..], c)
    ensures r != "" ==> r[|r| - 1] != c
  {
    if |s| > 0 && s[|s| - 1] == c then TrimRightChar(s[..|s| - 1], c) else s
  }

  /** `strings.Trim(s, cutset)` with a one-character cutset: the leading
      run is dropped, then the trailing one. */
  function TrimChar(s: string, c: char): string {
    if |s| > 0 && s[0] == c then TrimChar(s[1..], c) else TrimRightChar(s, c)
  }

  /** Trimming a cutset character from both ends of a word wrapped in it
      (`:name:`) returns the word, when the word neither starts nor ends
      with that character. */
  lemma TrimCharWrapped(w: string, c: char)
    requires w != [] && w[0] != c && w[|w| - 1] != c
    ensures TrimChar([c] + w + [c], c) == w
  {
    var s := [c] + w + [c];
    assert s[1..] == w + [c];
    assert TrimLeftChar(s, c) == w + [c];
    assert (w + [c])[..|w|] == w;
    assert TrimRightChar(w + [c], c) == w;
  }
}
