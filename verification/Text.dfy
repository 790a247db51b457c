/** Python's white space, str.strip() and str.split(). */
module Text {

  /** str.isspace() of one character */
  predicate IsSpace(c: char) {
    var u := c as int;
    || 0x09 <= u <= 0x0D || 0x1C <= u <= 0x20 || u == 0x85 || u == 0xA0 || u == 0x1680 || 0x2000 <= u <= 0x200A
    || u == 0x2028 || u == 0x2029 || u == 0x202F || u == 0x205F || u == 0x3000
  }

  /** Its table, written out. */
  lemma WhiteSpaceTable(c: char)
    ensures IsSpace(c) <==> c in {
              '\t', '\n', '\U{0B}', '\U{0C}', '\r', '\U{1C}', '\U{1D}', '\U{1E}', '\U{1F}', ' ', '\U{85}', '\U{A0}',
              '\U{1680}', '\U{2000}', '\U{2001}', '\U{2002}', '\U{2003}', '\U{2004}', '\U{2005}', '\U{2006}',
              '\U{2007}', '\U{2008}', '\U{2009}', '\U{200A}', '\U{2028}', '\U{2029}', '\U{202F}', '\U{205F}',
              '\U{3000}'}
  {
    assert c as int as char == c;
  }

  /** str.strip() */
  function Strip(s: string): string
    decreases |s|
  {
    if s == "" then s
    else if IsSpace(s[0]) then Strip(s[1..])
    else if IsSpace(s[|s| - 1]) then Strip(s[..|s| - 1])
    else s
  }

  /** t is s[i..j], everything around it is white space, and it neither begins nor ends with any. */
  ghost predicate IsTrimmed(s: string, i: int, j: int, t: string) {
    && 0 <= i <= j <= |s| && t == s[i..j]
    && (forall k :: 0 <= k < i ==> IsSpace(s[k])) && (forall k :: j <= k < |s| ==> IsSpace(s[k]))
    && (t != "" ==> !IsSpace(t[0]) && !IsSpace(t[|t| - 1]))
  }

  lemma TrimmedInFront(s: string, i: int, j: int, t: string)
    requires s != "" && IsSpace(s[0]) && IsTrimmed(s[1..], i, j, t)
    ensures IsTrimmed(s, i + 1, j + 1, t)
  {
    hide IsSpace;
    assert forall k :: 1 <= k < |s| ==> s[k] == s[1..][k - 1];
  }

  lemma TrimmedBehind(s: string, i: int, j: int, t: string)
    requires s != "" && IsSpace(s[|s| - 1]) && IsTrimmed(s[..|s| - 1], i, j, t)
    ensures IsTrimmed(s, i, j, t)
  {
    hide IsSpace;
  }

  /** What is stripped is white space, at the ends, and all of it. */
  lemma {:induction false} StripExact(s: string)
    ensures exists i, j :: IsTrimmed(s, i, j, Strip(s))
    decreases |s|
  {
    hide IsSpace;
    if s == "" {
      assert IsTrimmed(s, 0, 0, Strip(s));
    } else if IsSpace(s[0]) {
      StripExact(s[1..]);
      var i, j :| IsTrimmed(s[1..], i, j, Strip(s[1..]));
      TrimmedInFront(s, i, j, Strip(s));
      assert IsTrimmed(s, i + 1, j + 1, Strip(s));
    } else if IsSpace(s[|s| - 1]) {
      var front := s[..|s| - 1];
      StripExact(front);
      var i, j :| IsTrimmed(front, i, j, Strip(front));
      TrimmedBehind(s, i, j, Strip(s));
      assert IsTrimmed(s, i, j, Strip(s));
    } else {
      assert IsTrimmed(s, 0, |s|, Strip(s));
    }
  }

  /** str.split(): the words of word + s, of which `word` is the one being read. */
  function Words(s: string, word: string): seq<string>
    decreases |s|
  {
    if s == "" then (if word == "" then [] else [word])
    else if IsSpace(s[0]) then (if word == "" then [] else [word]) + Words(s[1..], "")
    else Words(s[1..], word + [s[0]])
  }

  function WithoutSpaces(s: string): string {
    if s == "" then "" else (if IsSpace(s[0]) then "" else [s[0]]) + WithoutSpaces(s[1..])
  }

  function Joined(words: seq<string>): string {
    if words == [] then "" else words[0] + Joined(words[1..])
  }

  predicate IsWord(word: string) { word != "" && forall i :: 0 <= i < |word| ==> !IsSpace(word[i]) }

  /** The words are non-empty, free of white space, and together everything else. */
  lemma {:induction false} WordsExact(s: string, word: string)
    requires forall i :: 0 <= i < |word| ==> !IsSpace(word[i])
    ensures forall k :: 0 <= k < |Words(s, word)| ==> IsWord(Words(s, word)[k])
    ensures Joined(Words(s, word)) == word + WithoutSpaces(s)
    decreases |s|
  {
    hide IsSpace;
    if s == "" {
      assert word != "" ==> Joined([word]) == word + Joined([word][1..]);
      assert word + "" == word;
    } else if IsSpace(s[0]) {
      WordsExact(s[1..], "");
      var rest := Words(s[1..], "");
      assert Joined(rest) == WithoutSpaces(s[1..]) == WithoutSpaces(s);
      assert [] + rest == rest;
      if word != "" {
        assert ([word] + rest)[1..] == rest;
        assert Joined([word] + rest) == word + Joined(rest);
      }
    } else {
      WordsExact(s[1..], word + [s[0]]);
      assert word + [s[0]] + WithoutSpaces(s[1..]) == word + ([s[0]] + WithoutSpaces(s[1..]));
    }
  }
}
