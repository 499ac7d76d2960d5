/** Python's str.strip() and str.title(), as the dialogue uses them to normalise a
    message before comparing it with a vocabulary key.

    Case mapping covers the alphabets the bot's vocabularies are written in: ASCII
    Latin and the basic Cyrillic block (U+0400..U+045F). Every other character is
    treated as uncased. */
module PyStr {

  /** str.isspace() for one character: the characters str.strip() removes. */
  predicate IsSpace(c: char) {
    || '\t' <= c <= '\r'
    || '\U{001C}' <= c <= ' '
    || c == '\U{0085}' || c == '\U{00A0}' || c == '\U{1680}'
    || '\U{2000}' <= c <= '\U{200A}'
    || c == '\U{2028}' || c == '\U{2029}' || c == '\U{202F}' || c == '\U{205F}' || c == '\U{3000}'
  }

  predicate AllSpace(s: string) {
    forall i :: 0 <= i < |s| ==> IsSpace(s[i])
  }

  /** Neither end of s is whitespace: what str.strip() leaves. */
  predicate Trimmed(s: string) {
    s == [] || (!IsSpace(s[0]) && !IsSpace(s[|s| - 1]))
  }

  /** r is s with only whitespace cut off at its two ends, r starting at index i of s. */
  predicate UnpadsAt(s: string, r: string, i: int) {
    0 <= i <= |s| - |r| && s[i..i + |r|] == r && AllSpace(s[..i]) && AllSpace(s[i + |r|..])
  }

  ghost predicate Unpads(s: string, r: string) {
    exists i :: UnpadsAt(s, r, i)
  }

  function StripLeft(s: string): (r: string)
    ensures |r| <= |s|
    ensures r == [] || !IsSpace(r[0])
  {
    if s != [] && IsSpace(s[0]) then StripLeft(s[1..]) else s
  }

  function StripRight(s: string): (r: string)
    ensures |r| <= |s|
    ensures r == [] || !IsSpace(r[|r| - 1])
  {
    if s != [] && IsSpace(s[|s| - 1]) then StripRight(s[..|s| - 1]) else s
  }

  /** StripLeft cuts a prefix of whitespace and keeps the rest as it is. */
  lemma {:induction false} StripLeftCuts(s: string)
    ensures var r := StripLeft(s); r == s[|s| - |r|..] && AllSpace(s[..|s| - |r|])
  {
    if s != [] && IsSpace(s[0]) {
      var r := StripLeft(s[1..]);
      StripLeftCuts(s[1..]);
      assert s[..|s| - |r|] == [s[0]] + s[1..][..|s| - 1 - |r|];
    }
  }

  /** StripRight cuts a suffix of whitespace and keeps the rest as it is. */
  lemma {:induction false} StripRightCuts(s: string)
    ensures var r := StripRight(s); r == s[..|r|] && AllSpace(s[|r|..])
  {
    if s != [] && IsSpace(s[|s| - 1]) {
      var r := StripRight(s[..|s| - 1]);
      StripRightCuts(s[..|s| - 1]);
      assert s[|r|..] == s[..|s| - 1][|r|..] + [s[|s| - 1]];
    }
  }

  /** str.strip() with no argument. */
  function Strip(s: string): (r: string)
    ensures Trimmed(r) && |r| <= |s|
  {
    var l := StripLeft(s);
    StripRightCuts(l);
    assert StripRight(l) != [] ==> StripRight(l)[0] == l[0];
    StripRight(l)
  }

  /** What Strip removes is whitespace, and only from the two ends. */
  lemma StripUnpads(s: string)
    ensures Unpads(s, Strip(s))
  {
    var l := StripLeft(s);
    var r := StripRight(l);
    var i := |s| - |l|;
    StripLeftCuts(s);
    StripRightCuts(l);
    assert s[i..i + |r|] == r && s[i + |r|..] == l[|r|..];
    assert UnpadsAt(s, r, i);
  }

  lemma SpaceBefore(s: string, i: int, k: int)
    requires 0 <= k < i <= |s| && AllSpace(s[..i])
    ensures IsSpace(s[k])
  {
    assert s[..i][k] == s[k];
  }

  lemma SpaceAfter(s: string, e: int, k: int)
    requires 0 <= e <= k < |s| && AllSpace(s[e..])
    ensures IsSpace(s[k])
  {
    assert s[e..][k - e] == s[k];
  }

  /** Two trimmed strings that unpad the same s start at the same index and have the same length. */
  lemma UnpadsAtUnique(s: string, r: string, i: int, t: string, j: int)
    requires Trimmed(r) && UnpadsAt(s, r, i) && Trimmed(t) && UnpadsAt(s, t, j)
    ensures r == t
  {
    if r == [] && t != [] {
      assert s[j] == t[0];
      if j < i { SpaceBefore(s, i, j); } else { SpaceAfter(s, i, j); }
    } else if r != [] && t == [] {
      assert s[i] == r[0];
      if i < j { SpaceBefore(s, j, i); } else { SpaceAfter(s, j, i); }
    } else if r != [] {
      assert s[i] == r[0] && s[j] == t[0];
      if i < j { SpaceBefore(s, j, i); }
      if j < i { SpaceBefore(s, i, j); }
      assert s[i + |r| - 1] == r[|r| - 1] && s[j + |t| - 1] == t[|t| - 1];
      if |r| < |t| { SpaceAfter(s, i + |r|, i + |t| - 1); }
      if |t| < |r| { SpaceAfter(s, j + |t|, j + |r| - 1); }
    }
  }

  /** Strip(s) is the only trimmed string that unpads s. */
  lemma StripUnique(s: string, r: string)
    requires Trimmed(r) && Unpads(s, r)
    ensures r == Strip(s)
  {
    var i :| UnpadsAt(s, r, i);
    StripUnpads(s);
    var j :| UnpadsAt(s, Strip(s), j);
    UnpadsAtUnique(s, r, i, Strip(s), j);
  }

  /** Stripping a trimmed string changes nothing; in particular Strip is idempotent. */
  lemma StripTrimmed(s: string)
    requires Trimmed(s)
    ensures Strip(s) == s
  {
    assert s[0..|s|] == s && s[..0] == [] && s[|s|..] == [];
    assert UnpadsAt(s, s, 0);
    StripUnique(s, s);
  }

  lemma StripIdempotent(s: string)
    ensures Strip(Strip(s)) == Strip(s)
  {
    StripTrimmed(Strip(s));
  }

  /** Surrounding a trimmed string with whitespace on either side does not change what Strip returns. */
  lemma StripPadded(pre: string, s: string, post: string)
    requires AllSpace(pre) && AllSpace(post) && Trimmed(s)
    ensures Strip(pre + s + post) == s
  {
    var w := pre + s + post;
    assert w[|pre|..|pre| + |s|] == s && w[..|pre|] == pre && w[|pre| + |s|..] == post;
    assert UnpadsAt(w, s, |pre|);
    StripUnique(w, s);
  }

  predicate IsUpper(c: char) {
    'A' <= c <= 'Z' || '\U{0400}' <= c <= '\U{042F}'
  }

  predicate IsLower(c: char) {
    'a' <= c <= 'z' || '\U{0430}' <= c <= '\U{045F}'
  }

  /** Python's notion of a cased character: one that has an upper- and a lower-case form. */
  predicate IsCased(c: char) {
    IsUpper(c) || IsLower(c)
  }

  function Lower(c: char): (l: char)
    ensures !IsUpper(l) && IsCased(l) == IsCased(c)
    ensures !IsUpper(c) ==> l == c
  {
    if 'A' <= c <= 'Z' then (c as int + 32) as char
    else if '\U{0410}' <= c <= '\U{042F}' then (c as int + 32) as char
    else if '\U{0400}' <= c <= '\U{040F}' then (c as int + 80) as char
    else c
  }

  /** Upper only changes the case of a letter: it maps back to the same lower-case letter. */
  function Upper(c: char): (u: char)
    ensures !IsLower(u) && IsCased(u) == IsCased(c)
    ensures !IsLower(c) ==> u == c
    ensures Lower(u) == Lower(c)
  {
    if 'a' <= c <= 'z' then (c as int - 32) as char
    else if '\U{0430}' <= c <= '\U{044F}' then (c as int - 32) as char
    else if '\U{0450}' <= c <= '\U{045F}' then (c as int - 80) as char
    else c
  }

  /** str.istitle() without its "at least one cased character" clause: an upper-case
      letter only where a word starts (after an uncased character or at the start), a
      lower-case letter only inside a word. */
  predicate IsTitled(s: string) {
    forall i :: 0 <= i < |s| ==> TitledAt(s, i)
  }

  predicate TitledAt(s: string, i: nat)
    requires i < |s|
  {
    if i > 0 && IsCased(s[i - 1]) then !IsUpper(s[i]) else !IsLower(s[i])
  }

  /** The character str.title() puts at index i of s: a character that follows a cased
      character is lowered, any other is raised. Whether the previous character is cased
      is read from the input. */
  function TitleAt(s: string, i: nat): (c: char)
    requires i < |s|
    ensures Lower(c) == Lower(s[i])
    ensures TitledAt(s[..i] + [c], i)
  {
    if i > 0 && IsCased(s[i - 1]) then Lower(s[i]) else Upper(s[i])
  }

  /** str.title(). */
  function Title(s: string): (r: string)
    ensures |r| == |s| && IsTitled(r)
    ensures forall i :: 0 <= i < |s| ==> Lower(r[i]) == Lower(s[i])
  {
    seq(|s|, i requires 0 <= i < |s| => TitleAt(s, i))
  }

  /** Title leaves exactly the titled strings unchanged. */
  lemma TitleFixedIffTitled(s: string)
    ensures Title(s) == s <==> IsTitled(s)
  {
    if IsTitled(s) {
      forall i | 0 <= i < |s| ensures Title(s)[i] == s[i] {
        assert Title(s)[i] == TitleAt(s, i) && TitledAt(s, i);
      }
    }
  }

  lemma TitleIdempotent(s: string)
    ensures Title(Title(s)) == Title(s)
  {
    TitleFixedIffTitled(Title(s));
  }

  /** A string with a lower-case letter at the start of a word (after an uncased
      character) differs from every titled string, so Title never produces it. */
  lemma TitledExcludes(k: string, key: string, i: nat)
    requires IsTitled(k) && 0 < i < |key| && !IsCased(key[i - 1]) && IsLower(key[i])
    ensures k != key
  {
    if i < |k| {
      assert TitledAt(k, i);
    }
  }
}
