/** The narration text normaliser: four regular-expression substitutions applied in a
    fixed order, each written here as a recursive function over the string. */
module Preprocess {
  import opened Text

  // ---------------------------------------------------------------------------
  // remove_links: re.sub(r"https?://\S+|www\.\S+", "", text)

  /** The length of the leading run of non-whitespace characters: how far a greedy \S+ reaches. */
  function TokenLength(s: string): (n: nat)
    ensures n <= |s|
    ensures forall i :: 0 <= i < n ==> !IsSpace(s[i])
    ensures n == |s| || IsSpace(s[n])
  {
    if s == [] || IsSpace(s[0]) then 0 else 1 + TokenLength(s[1..])
  }

  /** The leading non-whitespace run of s. */
  function Token(s: string): (t: string)
    ensures |t| <= |s| && t == s[..|t|]
  {
    s[..TokenLength(s)]
  }

  /** A non-whitespace run the pattern matches from its start: "http://", "https://" or
      "www." and at least one more character. Written character by character;
      LinkTokenPrefixes restates it with the prefixes as strings. */
  predicate IsLinkToken(t: string) {
    || (|t| > 4 && t[0] == 'w' && t[1] == 'w' && t[2] == 'w' && t[3] == '.')
    || (|t| > 7 && t[0] == 'h' && t[1] == 't' && t[2] == 't' && t[3] == 'p'
        && (|| (t[4] == ':' && t[5] == '/' && t[6] == '/')
            || (|t| > 8 && t[4] == 's' && t[5] == ':' && t[6] == '/' && t[7] == '/')))
  }

  lemma {:induction false} LinkTokenPrefixes(t: string)
    ensures IsLinkToken(t) <==>
      || (|t| > 7 && t[..7] == "http://")
      || (|t| > 8 && t[..8] == "https://")
      || (|t| > 4 && t[..4] == "www.")
  {
    if |t| > 4 && t[..4] == "www." { assert t[0] == t[..4][0]; }
    if |t| > 7 && t[..7] == "http://" { assert t[0] == t[..7][0]; }
    if |t| > 8 && t[..8] == "https://" { assert t[0] == t[..8][0]; }
  }

  /** The link pattern matches at the start of s. Since the prefixes hold no whitespace,
      "prefix then a non-whitespace character" is "the leading run starts with the prefix
      and is longer than it". */
  predicate LinkAt(s: string) {
    IsLinkToken(Token(s))
  }

  /** Extending a run that starts with a link prefix keeps it a link. */
  lemma {:induction false} LinkTokenExtend(a: string, b: string)
    requires IsLinkToken(a) && |a| <= |b| && b[..|a|] == a
    ensures IsLinkToken(b)
  {
    assert forall k :: 0 <= k < |a| ==> b[k] == a[k];
  }

  /** Where the pattern matches, the text starts with 'h' or 'w'. */
  lemma {:induction false} LinkAtStart(s: string)
    requires LinkAt(s)
    ensures |s| > 4 && (s[0] == 'h' || s[0] == 'w')
  {
    assert s[0] == Token(s)[0];
  }

  /** Scanning left to right, every match (a link prefix and the non-whitespace run after it)
      is deleted and every other character is kept. */
  function RemoveLinks(s: string): (r: string)
    ensures |r| <= |s|
    decreases |s|
  {
    if s == [] then []
    else if LinkAt(s) then RemoveLinks(s[TokenLength(s)..])
    else [s[0]] + RemoveLinks(s[1..])
  }

  lemma {:induction false} RemoveLinksSubsequence(s: string)
    ensures IsSubsequence(RemoveLinks(s), s)
    decreases |s|
  {
    if s == [] {
    } else if LinkAt(s) {
      var n := TokenLength(s);
      RemoveLinksSubsequence(s[n..]);
      SubsequenceOfSuffix(RemoveLinks(s), s, n);
    } else {
      RemoveLinksSubsequence(s[1..]);
      assert RemoveLinks(s)[1..] == RemoveLinks(s[1..]);
    }
  }

  /** The pattern matches at no position of s. */
  predicate NoLink(s: string) {
    forall i {:trigger LinkAt(s[i..])} :: 0 <= i < |s| ==> !LinkAt(s[i..])
  }

  /** Text in which the pattern matches nowhere comes back unchanged. */
  lemma {:induction false} RemoveLinksNoMatch(s: string)
    requires NoLink(s)
    ensures RemoveLinks(s) == s
    decreases |s|
  {
    if s != [] {
      assert !LinkAt(s[0..]);
      assert s[0..] == s;
      forall i {:trigger LinkAt(s[1..][i..])} | 0 <= i < |s[1..]| ensures !LinkAt(s[1..][i..]) {
        assert s[1..][i..] == s[i + 1..];
      }
      RemoveLinksNoMatch(s[1..]);
    }
  }

  /** p occurs nowhere in s. */
  predicate Absent(s: string, p: string) {
    forall i :: 0 <= i <= |s| ==> !StartsWith(s[i..], p)
  }

  /** Text containing none of "http://", "https://", "www." comes back unchanged. */
  lemma {:induction false} RemoveLinksNoPrefix(s: string)
    requires Absent(s, "http://") && Absent(s, "https://") && Absent(s, "www.")
    ensures RemoveLinks(s) == s
  {
    forall i {:trigger LinkAt(s[i..])} | 0 <= i < |s| ensures !LinkAt(s[i..]) {
    }
    RemoveLinksNoMatch(s);
  }

  /** No match starts among the first n positions of s. */
  predicate NoMatchBefore(s: string, n: nat) {
    forall j {:trigger LinkAt(s[j..])} :: 0 <= j < n && j <= |s| ==> !LinkAt(s[j..])
  }

  lemma {:induction false} NoMatchBeforeTail(s: string, n: nat)
    requires 0 < n <= |s| && NoMatchBefore(s, n)
    ensures !LinkAt(s) && NoMatchBefore(s[1..], n - 1)
  {
    assert s[0..] == s;
    forall j {:trigger LinkAt(s[1..][j..])} | 0 <= j < n - 1 ensures !LinkAt(s[1..][j..]) {
      assert s[1..][j..] == s[j + 1..];
    }
  }

  /** A character where no match starts is kept. */
  lemma {:induction false} RemoveLinksKeepsFirst(s: string)
    requires s != [] && !LinkAt(s)
    ensures RemoveLinks(s) == [s[0]] + RemoveLinks(s[1..])
  {
  }

  /** Putting back the first character in front of a kept prefix. */
  lemma {:induction false} ConsSplit(s: string, i: nat, x: string, y: string, z: string)
    requires 0 < i <= |s| && x == [s[0]] + y && y == s[1..][..i - 1] + z
    ensures x == s[..i] + z
  {
    assert s[..i] == [s[0]] + s[1..][..i - 1];
  }

  /** A prefix in which no match starts is kept whole. */
  lemma {:induction false} RemoveLinksKeepsPrefix(s: string, i: nat)
    requires i <= |s| && NoMatchBefore(s, i)
    ensures RemoveLinks(s) == s[..i] + RemoveLinks(s[i..])
    decreases i
  {
    if i == 0 {
      assert s[0..] == s;
      assert s[..0] + RemoveLinks(s) == RemoveLinks(s);
    } else {
      NoMatchBeforeTail(s, i);
      RemoveLinksKeepsPrefix(s[1..], i - 1);
      RemoveLinksKeepsFirst(s);
      assert s[1..][i - 1..] == s[i..];
      ConsSplit(s, i, RemoveLinks(s), RemoveLinks(s[1..]), RemoveLinks(s[i..]));
    }
  }

  /** A match at the start is deleted up to the next whitespace character or the end. */
  lemma {:induction false} RemoveLinksSkipsMatch(s: string, i: nat)
    requires i < |s| && LinkAt(s[i..])
    ensures i + TokenLength(s[i..]) <= |s|
    ensures RemoveLinks(s[i..]) == RemoveLinks(s[i + TokenLength(s[i..])..])
  {
    var b := s[i..];
    assert b[TokenLength(b)..] == s[i + TokenLength(b)..];
  }

  /** The first deletion: everything before the first match is kept, and the match runs from a
      link prefix up to the next whitespace character or the end of the text. */
  lemma {:induction false} RemoveLinksFirstMatch(s: string, i: nat)
    requires i < |s| && LinkAt(s[i..]) && NoMatchBefore(s, i)
    ensures i + TokenLength(s[i..]) <= |s|
    ensures RemoveLinks(s) == s[..i] + RemoveLinks(s[i + TokenLength(s[i..])..])
  {
    RemoveLinksKeepsPrefix(s, i);
    RemoveLinksSkipsMatch(s, i);
  }

  /** The leading non-whitespace run of RemoveLinks(t) is a prefix of t: a deletion always
      stops at whitespace, so nothing after it can join what came before. */
  predicate OutputTokenPrefix(t: string) {
    var n := TokenLength(RemoveLinks(t)); n <= |t| && RemoveLinks(t)[..n] == t[..n]
  }

  lemma {:induction false} OutputTokenIsInputPrefix(t: string)
    ensures OutputTokenPrefix(t)
    decreases |t|
  {
    if t == [] {
    } else if LinkAt(t) {
      var m := TokenLength(t);
      if m < |t| {
        LeadingSpaceKept(t[m..]);
      }
    } else if IsSpace(t[0]) {
      LeadingSpaceKept(t);
    } else {
      OutputTokenIsInputPrefix(t[1..]);
      OutputTokenKeptChar(t);
    }
  }

  lemma {:induction false} OutputTokenKeptChar(t: string)
    requires t != [] && !LinkAt(t) && !IsSpace(t[0])
    requires OutputTokenPrefix(t[1..])
    ensures OutputTokenPrefix(t)
  {
    var r' := RemoveLinks(t[1..]);
    var n' := TokenLength(r');
    assert RemoveLinks(t) == [t[0]] + r';
    TokenCons(t[0], r');
    assert ([t[0]] + r')[..1 + n'] == [t[0]] + r'[..n'];
    assert t[..1 + n'] == [t[0]] + t[1..][..n'];
  }

  /** Whitespace at the front is never part of a match. */
  lemma {:induction false} LeadingSpaceKept(t: string)
    requires t != [] && IsSpace(t[0])
    ensures RemoveLinks(t) == [t[0]] + RemoveLinks(t[1..])
    ensures TokenLength(RemoveLinks(t)) == 0
  {
    assert Token(t) == [];
  }

  lemma {:induction false} TokenCons(c: char, u: string)
    requires !IsSpace(c)
    ensures TokenLength([c] + u) == 1 + TokenLength(u)
  {
    assert ([c] + u)[1..] == u;
  }

  /** A string agreeing with r on r's leading non-whitespace run has a run at least as long. */
  lemma {:induction false} TokenOfAgreeing(r: string, t: string)
    requires TokenLength(r) <= |t| && r[..TokenLength(r)] == t[..TokenLength(r)]
    ensures TokenLength(r) <= TokenLength(t)
  {
    var n := TokenLength(r);
    forall i | 0 <= i < n ensures !IsSpace(t[i]) {
      assert t[i] == t[..n][i];
    }
  }

  /** A match at the start of [c] + RemoveLinks(t) would already be a match of [c] + t. */
  lemma {:induction false} NoNewMatchAtFront(c: char, t: string)
    requires !LinkAt([c] + t)
    ensures !LinkAt([c] + RemoveLinks(t))
  {
    if IsSpace(c) {
      assert Token([c] + RemoveLinks(t)) == [];
    } else {
      OutputTokenIsInputPrefix(t);
      NoNewMatchAgreeing(c, RemoveLinks(t), t);
    }
  }

  lemma {:induction false} NoNewMatchAgreeing(c: char, r: string, t: string)
    requires !IsSpace(c) && !LinkAt([c] + t)
    requires TokenLength(r) <= |t| && r[..TokenLength(r)] == t[..TokenLength(r)]
    ensures !LinkAt([c] + r)
  {
    var n := TokenLength(r);
    TokenOfAgreeing(r, t);
    TokenCons(c, r);
    TokenCons(c, t);
    assert ([c] + r)[..1 + n] == [c] + r[..n];
    assert ([c] + t)[..1 + n] == [c] + t[..n];
    PrefixOfToken([c] + r, [c] + t, 1 + n);
  }

  /** When u and s agree on the first k characters and u's leading run is exactly k long
      while s's is at least that long, a match at u's start is also one at s's. */
  lemma {:induction false} PrefixOfToken(u: string, s: string, k: nat)
    requires k <= |u| && k <= |s| && u[..k] == s[..k]
    requires TokenLength(u) == k <= TokenLength(s)
    requires !LinkAt(s)
    ensures !LinkAt(u)
  {
    assert Token(u) == Token(s)[..k];
    if IsLinkToken(Token(u)) {
      LinkTokenExtend(Token(u), Token(s));
    }
  }

  /** The pattern matches nowhere in the output. */
  lemma {:induction false} RemoveLinksLeavesNoMatch(s: string)
    ensures NoLink(RemoveLinks(s))
    decreases |s|
  {
    if s == [] {
    } else if LinkAt(s) {
      assert RemoveLinks(s) == RemoveLinks(s[TokenLength(s)..]);
      RemoveLinksLeavesNoMatch(s[TokenLength(s)..]);
    } else {
      RemoveLinksLeavesNoMatch(s[1..]);
      var r := RemoveLinks(s);
      assert s == [s[0]] + s[1..];
      NoNewMatchAtFront(s[0], s[1..]);
      forall i {:trigger LinkAt(r[i..])} | 0 <= i < |r| ensures !LinkAt(r[i..]) {
        if i > 0 { assert r[i..] == RemoveLinks(s[1..])[i - 1..]; }
      }
    }
  }

  /** remove_links on its own is idempotent. */
  lemma {:induction false} RemoveLinksIdempotent(s: string)
    ensures RemoveLinks(RemoveLinks(s)) == RemoveLinks(s)
  {
    RemoveLinksLeavesNoMatch(s);
    RemoveLinksNoMatch(RemoveLinks(s));
  }

  // ---------------------------------------------------------------------------
  // remove_emojis and remove_special_chars: deleting one class of characters

  /** s without the characters drop selects, the others kept in order. */
  function Delete(s: string, drop: char -> bool): (r: string)
    ensures |r| <= |s|
    ensures IsSubsequence(r, s)
  {
    if s == [] then []
    else
      var rest := Delete(s[1..], drop);
      if drop(s[0]) then
        SubsequenceCons(rest, s);
        rest
      else
        assert ([s[0]] + rest)[1..] == rest;
        [s[0]] + rest
  }

  /** Every selected character is gone, and every other one occurs as often as before. */
  lemma {:induction false} DeleteCounts(s: string, drop: char -> bool)
    ensures forall c :: multiset(Delete(s, drop))[c] == if drop(c) then 0 else multiset(s)[c]
    decreases |s|
  {
    if s != [] {
      DeleteCounts(s[1..], drop);
      assert s == [s[0]] + s[1..];
    }
  }

  /** Deleting nothing that occurs in s leaves s unchanged. */
  lemma {:induction false} DeleteNone(s: string, drop: char -> bool)
    requires forall c :: c in s ==> !drop(c)
    ensures Delete(s, drop) == s
  {
    if s != [] {
      assert s[0] in s;
      assert forall c :: c in s[1..] ==> c in s;
      DeleteNone(s[1..], drop);
    }
  }

  /** Deletion works piecewise on a concatenation. */
  lemma {:induction false} DeleteConcat(a: string, b: string, drop: char -> bool)
    ensures Delete(a + b, drop) == Delete(a, drop) + Delete(b, drop)
    decreases |a|
  {
    if a == [] {
      assert a + b == b;
    } else {
      assert (a + b)[1..] == a[1..] + b;
      DeleteConcat(a[1..], b, drop);
    }
  }

  /** The class [\U00010000-\U0010ffff]: every code point above the Basic Multilingual Plane. */
  predicate IsAstral(c: char) {
    c as int >= 0x10000
  }

  predicate IsStar(c: char) {
    c == '*'
  }

  /** re.sub(r"[\U00010000-\U0010ffff]", "", text) */
  function RemoveEmojis(s: string): (r: string)
    ensures |r| <= |s|
    ensures IsSubsequence(r, s)
    ensures forall c :: c in r ==> !IsAstral(c)
    ensures forall c :: !IsAstral(c) ==> multiset(r)[c] == multiset(s)[c]
  {
    DeleteCounts(s, IsAstral);
    Delete(s, IsAstral)
  }

  /** re.sub(r"[\*]", "", text) */
  function RemoveSpecialChars(s: string): (r: string)
    ensures |r| <= |s|
    ensures IsSubsequence(r, s)
    ensures '*' !in r
    ensures forall c :: c != '*' ==> multiset(r)[c] == multiset(s)[c]
  {
    DeleteCounts(s, IsStar);
    assert multiset(Delete(s, IsStar))['*'] == 0;
    Delete(s, IsStar)
  }

  // ---------------------------------------------------------------------------
  // re.sub(r"\s+", " ", text).strip()

  /** The non-whitespace characters of s, in order. */
  function NonSpace(s: string): (r: string)
    ensures |r| <= |s|
  {
    if s == [] then []
    else if IsSpace(s[0]) then NonSpace(s[1..])
    else [s[0]] + NonSpace(s[1..])
  }

  /** A character occurs in NonSpace(s) exactly when it occurs in s and is not whitespace. */
  lemma {:induction false} NonSpaceMembers(s: string, c: char)
    ensures c in NonSpace(s) <==> c in s && !IsSpace(c)
    decreases |s|
  {
    if s != [] {
      NonSpaceMembers(s[1..], c);
      assert s == [s[0]] + s[1..];
    }
  }

  lemma {:induction false} NonSpaceConcat(a: string, b: string)
    ensures NonSpace(a + b) == NonSpace(a) + NonSpace(b)
    decreases |a|
  {
    if a != [] {
      assert (a + b)[1..] == a[1..] + b;
      NonSpaceConcat(a[1..], b);
    } else {
      assert a + b == b;
    }
  }

  lemma {:induction false} NonSpaceOfSpaces(a: string)
    requires AllSpace(a)
    ensures NonSpace(a) == []
    decreases |a|
  {
    if a != [] {
      NonSpaceOfSpaces(a[1..]);
    }
  }

  /** Whitespace occurs in s only as single ' ' characters. */
  predicate SingleSpaced(s: string) {
    && (forall i :: 0 <= i < |s| && IsSpace(s[i]) ==> s[i] == ' ')
    && (forall i :: 0 <= i < |s| - 1 ==> !SpacePair(s, i))
  }

  /** Positions i and i + 1 of s both hold whitespace. */
  predicate SpacePair(s: string, i: nat)
    requires i + 1 < |s|
  {
    IsSpace(s[i]) && IsSpace(s[i + 1])
  }

  /** re.sub(r"\s+", " ", s): every maximal run of whitespace becomes one ' '. */
  function CollapseSpaces(s: string): (r: string)
    ensures |r| <= |s|
    ensures r == [] <==> s == []
    ensures r != [] ==> (IsSpace(r[0]) <==> IsSpace(s[0]))
    decreases |s|
  {
    if s == [] then []
    else if IsSpace(s[0]) then
      assert |TrimStart(s)| < |s|;
      " " + CollapseSpaces(TrimStart(s))
    else [s[0]] + CollapseSpaces(s[1..])
  }

  lemma {:induction false} SingleSpacedCons(c: char, u: string)
    requires SingleSpaced(u)
    requires IsSpace(c) ==> c == ' ' && (u == [] || !IsSpace(u[0]))
    ensures SingleSpaced([c] + u)
  {
    var r := [c] + u;
    forall i | 0 <= i < |r| && IsSpace(r[i]) ensures r[i] == ' ' {
      if i > 0 { assert r[i] == u[i - 1]; }
    }
    forall i | 0 <= i < |r| - 1 ensures !SpacePair(r, i) {
      if i > 0 { assert r[i] == u[i - 1] && r[i + 1] == u[i] && !SpacePair(u, i - 1); }
    }
  }

  /** After collapsing, whitespace occurs only as single ' ' characters. */
  lemma {:induction false} CollapseSpacesSingleSpaced(s: string)
    ensures SingleSpaced(CollapseSpaces(s))
    decreases |s|
  {
    if s != [] {
      if IsSpace(s[0]) {
        var t := TrimStart(s);
        assert |t| < |s|;
        CollapseSpacesSingleSpaced(t);
        SingleSpacedCons(' ', CollapseSpaces(t));
      } else {
        CollapseSpacesSingleSpaced(s[1..]);
        SingleSpacedCons(s[0], CollapseSpaces(s[1..]));
      }
    }
  }

  /** Collapsing changes whitespace only. */
  lemma {:induction false} CollapseSpacesNonSpace(s: string)
    ensures NonSpace(CollapseSpaces(s)) == NonSpace(s)
    decreases |s|
  {
    if s != [] {
      if IsSpace(s[0]) {
        var t := TrimStart(s);
        assert |t| < |s|;
        CollapseSpacesNonSpace(t);
        NonSpaceCons(' ', CollapseSpaces(t));
        NonSpaceOfSpaceRun(s);
      } else {
        CollapseSpacesNonSpace(s[1..]);
        NonSpaceCons(s[0], CollapseSpaces(s[1..]));
      }
    }
  }

  lemma {:induction false} NonSpaceCons(c: char, u: string)
    ensures NonSpace([c] + u) == if IsSpace(c) then NonSpace(u) else [c] + NonSpace(u)
  {
    assert ([c] + u)[1..] == u;
  }

  /** Leading whitespace contributes nothing to NonSpace. */
  lemma {:induction false} NonSpaceOfSpaceRun(s: string)
    ensures NonSpace(s) == NonSpace(TrimStart(s))
  {
    var t := TrimStart(s);
    var k := |s| - |t|;
    assert s == s[..k] + t;
    NonSpaceConcat(s[..k], t);
    NonSpaceOfSpaces(s[..k]);
  }

  /** A slice of a single-spaced string is single-spaced. */
  lemma {:induction false} SingleSpacedSlice(s: string, i: nat, j: nat, t: string)
    requires i <= j <= |s| && SingleSpaced(s) && t == s[i..j]
    ensures SingleSpaced(t)
  {
    forall k | 0 <= k < |t| && IsSpace(t[k]) ensures t[k] == ' ' {
      assert t[k] == s[i + k];
    }
    forall k | 0 <= k < |t| - 1 ensures !SpacePair(t, k) {
      assert t[k] == s[i + k] && t[k + 1] == s[i + k + 1] && !SpacePair(s, i + k);
    }
  }

  /** The last step of preprocess_text. */
  function CollapseAndStrip(s: string): (r: string)
    ensures |r| <= |s|
    ensures r == [] || (!IsSpace(r[0]) && !IsSpace(r[|r| - 1]))
  {
    Strip(CollapseSpaces(s))
  }

  /** Text without whitespace is left as it is by the whitespace step. */
  lemma {:induction false} NoSpaceCollapse(s: string)
    requires forall c :: c in s ==> !IsSpace(c)
    ensures CollapseSpaces(s) == s
    decreases |s|
  {
    if s != [] {
      assert s[0] in s;
      assert forall c :: c in s[1..] ==> c in s;
      NoSpaceCollapse(s[1..]);
    }
  }

  /** Text without whitespace is left as it is by the last step. */
  lemma {:induction false} NoSpaceFixed(s: string)
    requires forall c :: c in s ==> !IsSpace(c)
    ensures CollapseAndStrip(s) == s
  {
    NoSpaceCollapse(s);
    if s != [] {
      assert s[0] in s && s[|s| - 1] in s;
      assert TrimStart(s) == s;
    }
  }

  lemma {:induction false} ThreeSlices(c: string, i: nat, j: nat)
    requires i <= j <= |c|
    ensures c == c[..i] + c[i..j] + c[j..]
  {
  }

  lemma {:induction false} SingleSpacedStrip(c: string)
    requires SingleSpaced(c)
    ensures SingleSpaced(Strip(c))
  {
    var k := StripSlice(c);
    SingleSpacedSlice(c, k, k + |Strip(c)|, Strip(c));
  }

  /** Stripping removes whitespace only. */
  lemma {:induction false} NonSpaceStrip(c: string)
    ensures NonSpace(Strip(c)) == NonSpace(c)
  {
    var r := Strip(c);
    var k := StripSlice(c);
    ThreeSlices(c, k, k + |r|);
    NonSpaceConcat(c[..k] + r, c[k + |r|..]);
    NonSpaceConcat(c[..k], r);
    NonSpaceOfSpaces(c[..k]);
    NonSpaceOfSpaces(c[k + |r|..]);
  }

  /** The output of the last step has no whitespace at its ends, only single ' ' inside,
      and the same non-whitespace characters in the same order as its input. */
  lemma {:induction false} CollapseAndStripShape(s: string)
    ensures var r := CollapseAndStrip(s);
              && (r == [] || (!IsSpace(r[0]) && !IsSpace(r[|r| - 1])))
              && SingleSpaced(r)
              && NonSpace(r) == NonSpace(s)
  {
    var c := CollapseSpaces(s);
    CollapseSpacesSingleSpaced(s);
    CollapseSpacesNonSpace(s);
    SingleSpacedStrip(c);
    NonSpaceStrip(c);
  }

  // ---------------------------------------------------------------------------

  /** preprocess_text: links, then emojis, then asterisks, then whitespace. */
  function PreprocessText(s: string): (r: string)
    ensures |r| <= |s|
  {
    CollapseAndStrip(RemoveSpecialChars(RemoveEmojis(RemoveLinks(s))))
  }

  /** The normalised text contains no '*' and no code point above U+FFFF, has no whitespace
      at its ends, and every whitespace run inside it is a single ' '. */
  lemma {:induction false} PreprocessTextShape(s: string)
    ensures var r := PreprocessText(s);
              && '*' !in r
              && (forall c :: c in r ==> !IsAstral(c))
              && (r == [] || (!IsSpace(r[0]) && !IsSpace(r[|r| - 1])))
              && SingleSpaced(r)
  {
    var t := RemoveSpecialChars(RemoveEmojis(RemoveLinks(s)));
    var r := PreprocessText(s);
    CollapseAndStripShape(t);
    forall c | c in r ensures c != '*' && !IsAstral(c) {
      if !IsSpace(c) {
        NonSpaceMembers(r, c);
        NonSpaceMembers(t, c);
        assert c in t;
        assert multiset(t)[c] > 0;
      }
    }
  }

  /** When only the first character can start a link and it does not, nothing matches
      (a match needs at least five characters). */
  lemma {:induction false} OnlyFirstCouldMatch(s: string)
    requires forall i :: 1 <= i < |s| - 4 ==> s[i] != 'h' && s[i] != 'w'
    requires !LinkAt(s)
    ensures RemoveLinks(s) == s
  {
    forall i {:trigger LinkAt(s[i..])} | 0 <= i < |s| ensures !LinkAt(s[i..]) {
      if i == 0 {
        assert s[0..] == s;
      } else if LinkAt(s[i..]) {
        LinkAtStart(s[i..]);
      }
    }
    RemoveLinksNoMatch(s);
  }

  /** The first step finds no link in "w*ww.a". */
  lemma {:induction false} HiddenLinkKept()
    ensures RemoveLinks("w*ww.a") == "w*ww.a"
  {
    assert !LinkAt("w*ww.a");
    OnlyFirstCouldMatch("w*ww.a");
  }

  /** The asterisk step joins "w" and "ww.a". */
  lemma {:induction false} HiddenLinkUncovered()
    ensures RemoveSpecialChars(RemoveEmojis("w*ww.a")) == "www.a"
  {
    NoEmojiInExample();
    StarDeletedInExample();
  }

  lemma {:induction false} NoEmojiInExample()
    ensures Delete("w*ww.a", IsAstral) == "w*ww.a"
  {
  }

  lemma {:induction false} StarDeletedInExample()
    ensures Delete("w*ww.a", IsStar) == "www.a"
  {
  }

  /** "www.a" is one link, and the first step deletes all of it. */
  lemma {:induction false} WholeLinkRemoved()
    ensures RemoveLinks("www.a") == ""
  {
    var t := "www.a";
    assert TokenLength(t) == |t| by {
      forall i | 0 <= i < |t| ensures !IsSpace(t[i]) {
        assert t[i] in t;
      }
    }
    assert Token(t) == t;
    assert RemoveLinks(t) == RemoveLinks(t[5..]);
  }

  lemma {:induction false} ExampleHasNoSpace()
    ensures forall c :: c in "www.a" ==> !IsSpace(c)
  {
  }

  lemma {:induction false} LastStepOfExample()
    ensures CollapseAndStrip("www.a") == "www.a"
  {
    ExampleHasNoSpace();
    NoSpaceFixed("www.a");
  }

  lemma {:induction false} FirstPassOfExample()
    ensures PreprocessText("w*ww.a") == "www.a"
  {
    HiddenLinkKept();
    HiddenLinkUncovered();
    LastStepOfExample();
  }

  lemma {:induction false} SecondPassOfExample()
    ensures PreprocessText("www.a") == ""
  {
    WholeLinkRemoved();
    assert RemoveEmojis("") == "";
    assert RemoveSpecialChars("") == "";
    assert CollapseAndStrip("") == "";
  }

  /** preprocess_text is not idempotent: an asterisk inside "www." hides a link from the
      first step, and the asterisk step then uncovers it. */
  lemma {:induction false} PreprocessTextNotIdempotent()
    ensures PreprocessText("w*ww.a") == "www.a"
    ensures PreprocessText(PreprocessText("w*ww.a")) == ""
  {
    FirstPassOfExample();
    SecondPassOfExample();
  }
}
