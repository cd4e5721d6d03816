/**
 * The Python string built-ins the site-characteristics app relies on:
 * str.strip, str.replace, str.join and re.sub(r'\W+', '_', ...), together
 * with the sanitiser that turns a site name into the tail of a submission id.
 */
module Text {

  /** The characters for which Python's str.isspace() holds, i.e. those that
      str.strip() with no argument removes. */
  predicate IsSpace(c: char) {
    || c == ' '
    || ('\t' <= c <= '\r')
    || ('\U{1C}' <= c <= '\U{1F}')
    || c == '\U{85}' || c == '\U{A0}' || c == '\U{1680}'
    || ('\U{2000}' <= c <= '\U{200A}')
    || c == '\U{2028}' || c == '\U{2029}' || c == '\U{202F}'
    || c == '\U{205F}' || c == '\U{3000}'
  }

  /** The regular-expression class \w, restricted to ASCII: letters, digits and '_'. */
  predicate IsWordChar(c: char) {
    ('a' <= c <= 'z') || ('A' <= c <= 'Z') || ('0' <= c <= '9') || c == '_'
  }

  /** The class \W: every character that is not a word character. */
  predicate IsNonWord(c: char) {
    !IsWordChar(c)
  }

  predicate IsUnderscore(c: char) {
    c == '_'
  }

  /** Word characters other than '_': the letters and digits of a site name. */
  predicate IsAlnum(c: char) {
    IsWordChar(c) && c != '_'
  }

  predicate AllWordChars(s: string) {
    forall i :: 0 <= i < |s| ==> IsWordChar(s[i])
  }

  // ---------- strip ----------

  /** Removes the longest prefix of `s` whose characters all satisfy `p`. */
  function DropLeading(s: string, p: char -> bool): (r: string)
    ensures |r| <= |s| && r == s[|s| - |r|..]
    ensures forall i :: 0 <= i < |s| - |r| ==> p(s[i])
    ensures r != [] ==> !p(r[0])
  {
    if s != [] && p(s[0]) then
      var t := s[1..];
      var r := DropLeading(t, p);
      assert r == s[|s| - |r|..] by {
        assert t[|t| - |r|..] == s[|s| - |r|..];
      }
      assert forall i :: 1 <= i < |s| - |r| ==> p(s[i]) by {
        forall i | 1 <= i < |s| - |r| ensures p(s[i]) {
          assert s[i] == t[i - 1];
        }
      }
      r
    else
      s
  }

  /** Removes the longest suffix of `s` whose characters all satisfy `p`. */
  function DropTrailing(s: string, p: char -> bool): (r: string)
    ensures |r| <= |s| && r == s[..|r|]
    ensures forall i :: |r| <= i < |s| ==> p(s[i])
    ensures r != [] ==> !p(r[|r| - 1])
  {
    if s != [] && p(s[|s| - 1]) then DropTrailing(s[..|s| - 1], p) else s
  }

  /** Python's s.strip(chars), with the set `chars` given as the predicate `p`. */
  function Strip(s: string, p: char -> bool): (r: string)
    ensures r != [] ==> !p(r[0]) && !p(r[|r| - 1])
  {
    DropTrailing(DropLeading(s, p), p)
  }

  /** Python's s.strip(): leading and trailing whitespace removed. */
  function PyStrip(s: string): (r: string)
    ensures r != [] ==> !IsSpace(r[0]) && !IsSpace(r[|r| - 1])
  {
    Strip(s, IsSpace)
  }

  /** The number of characters DropLeading cuts off the front of `s`. */
  function LeadLen(s: string, p: char -> bool): (n: nat)
    ensures n <= |s|
  {
    |s| - |DropLeading(s, p)|
  }

  /** A prefix of a suffix of `s` is an infix of `s`. */
  lemma InfixOfSuffix(s: string, t: string, r: string, a: nat)
    requires a <= |s| && t == s[a..] && |r| <= |t| && r == t[..|r|]
    ensures a + |r| <= |s| && r == s[a..a + |r|]
  {
    forall i | 0 <= i < |r| ensures r[i] == s[a + i] {
      assert r[i] == t[i] == s[a + i];
    }
  }

  /** What Strip keeps is the piece of `s` that starts after the cut-off prefix. */
  lemma StripKeepsInfix(s: string, p: char -> bool)
    ensures var r := Strip(s, p); var a := LeadLen(s, p);
      a + |r| <= |s| && r == s[a..a + |r|]
  {
    InfixOfSuffix(s, DropLeading(s, p), Strip(s, p), LeadLen(s, p));
  }

  /** Everything Strip cuts off on either side satisfies `p`. */
  lemma {:induction false} StripCutsOnlyP(s: string, p: char -> bool)
    ensures var r := Strip(s, p); var a := LeadLen(s, p);
      && (forall i :: 0 <= i < a ==> p(s[i]))
      && (forall i :: a + |r| <= i < |s| ==> p(s[i]))
  {
    TailOfSuffix(s, DropLeading(s, p), |Strip(s, p)|, p);
  }

  /** What holds of the tail of a suffix of `s` holds of the same tail of `s`. */
  lemma TailOfSuffix(s: string, t: string, n: nat, p: char -> bool)
    requires |t| <= |s| && t == s[|s| - |t|..] && n <= |t|
    requires forall i :: n <= i < |t| ==> p(t[i])
    ensures forall i :: |s| - |t| + n <= i < |s| ==> p(s[i])
  {
    var a := |s| - |t|;
    forall i | a + n <= i < |s| ensures p(s[i]) {
      assert s[i] == t[i - a];
    }
  }

  /** What Strip keeps is a contiguous piece of `s`, and everything it cut
      off on either side satisfies `p`. */
  lemma StripIsInfix(s: string, p: char -> bool)
    ensures var r := Strip(s, p); var a := LeadLen(s, p);
      && a + |r| <= |s| && r == s[a..a + |r|]
      && (forall i :: 0 <= i < a ==> p(s[i]))
      && (forall i :: a + |r| <= i < |s| ==> p(s[i]))
  {
    StripKeepsInfix(s, p);
    StripCutsOnlyP(s, p);
  }

  /** When every character satisfies `p`, nothing is left after DropLeading. */
  lemma {:induction false} DropLeadingAll(s: string, p: char -> bool)
    requires forall i :: 0 <= i < |s| ==> p(s[i])
    ensures DropLeading(s, p) == []
  {
    if s != [] {
      assert forall i :: 0 <= i < |s[1..]| ==> s[1..][i] == s[i + 1];
      DropLeadingAll(s[1..], p);
    }
  }

  /** Strip yields "" exactly when every character of `s` satisfies `p`. */
  lemma StripEmptyIff(s: string, p: char -> bool)
    ensures Strip(s, p) == [] <==> forall i :: 0 <= i < |s| ==> p(s[i])
  {
    if forall i :: 0 <= i < |s| ==> p(s[i]) {
      DropLeadingAll(s, p);
    }
    StripIsInfix(s, p);
  }

  /** A string with no `p` character at either end is left alone by Strip. */
  lemma StripFixpoint(s: string, p: char -> bool)
    requires s != [] ==> !p(s[0]) && !p(s[|s| - 1])
    ensures Strip(s, p) == s
  {
  }

  /** Stripping twice is stripping once. */
  lemma StripIdempotent(s: string, p: char -> bool)
    ensures Strip(Strip(s, p), p) == Strip(s, p)
  {
    StripFixpoint(Strip(s, p), p);
  }

  // ---------- replace ----------

  /** Python's s.replace(c, ""): every occurrence of `c` deleted. */
  function RemoveAll(s: string, c: char): (r: string)
    ensures c !in r
    ensures |r| <= |s|
  {
    if s == [] then [] else (if s[0] == c then [] else [s[0]]) + RemoveAll(s[1..], c)
  }

  /** Deleting a character distributes over concatenation. */
  lemma {:induction false} RemoveAllConcat(a: string, b: string, c: char)
    ensures RemoveAll(a + b, c) == RemoveAll(a, c) + RemoveAll(b, c)
  {
    if a == [] {
      assert a + b == b;
    } else {
      var head := if a[0] == c then [] else [a[0]];
      calc {
        RemoveAll(a + b, c);
        { assert (a + b)[0] == a[0] && (a + b)[1..] == a[1..] + b; }
        head + RemoveAll(a[1..] + b, c);
        { RemoveAllConcat(a[1..], b, c); }
        head + (RemoveAll(a[1..], c) + RemoveAll(b, c));
        head + RemoveAll(a[1..], c) + RemoveAll(b, c);
      }
    }
  }

  /** A string without `c` is unchanged by deleting `c`. */
  lemma {:induction false} RemoveAllAbsent(s: string, c: char)
    requires c !in s
    ensures RemoveAll(s, c) == s
  {
    if s != [] {
      RemoveAllAbsent(s[1..], c);
    }
  }

  /** Deleting `c` removes exactly its occurrences: the length drops by their
      number and every other character occurs as often as before (the order
      is kept too, by RemoveAllConcat). */
  lemma {:induction false} RemoveAllKeepsOthers(s: string, c: char)
    ensures |RemoveAll(s, c)| == |s| - multiset(s)[c]
    ensures forall x :: x != c ==> multiset(RemoveAll(s, c))[x] == multiset(s)[x]
  {
    if s != [] {
      RemoveAllKeepsOthers(s[1..], c);
      assert s == [s[0]] + s[1..];
      assert multiset(s) == multiset([s[0]]) + multiset(s[1..]);
      var head := if s[0] == c then [] else [s[0]];
      assert RemoveAll(s, c) == head + RemoveAll(s[1..], c);
      assert multiset(RemoveAll(s, c)) == multiset(head) + multiset(RemoveAll(s[1..], c));
    }
  }

  // ---------- join ----------

  /** Python's sep.join(xs). */
  function Join(sep: string, xs: seq<string>): (r: string)
    ensures xs == [] ==> r == ""
    ensures xs != [] ==> |r| >= |xs[0]| && r[..|xs[0]|] == xs[0]
  {
    if xs == [] then "" else if |xs| == 1 then xs[0] else xs[0] + sep + Join(sep, xs[1..])
  }

  /** Joining a concatenation puts one separator between the two joins. */
  lemma {:induction false} JoinConcat(sep: string, xs: seq<string>, ys: seq<string>)
    requires xs != [] && ys != []
    ensures Join(sep, xs + ys) == Join(sep, xs) + sep + Join(sep, ys)
  {
    if |xs| == 1 {
      assert (xs + ys)[1..] == ys;
    } else {
      assert (xs + ys)[1..] == xs[1..] + ys;
      JoinConcat(sep, xs[1..], ys);
    }
  }

  /** Joining a list of non-empty items yields "" exactly when the list is empty. */
  lemma JoinEmptyIff(sep: string, xs: seq<string>)
    requires forall i :: 0 <= i < |xs| ==> xs[i] != ""
    ensures Join(sep, xs) == "" <==> xs == []
  {
  }

  // ---------- re.sub(r'\W+', '_', s) ----------

  /** Removes the run of non-word characters at the front of `s`. */
  function SkipNonWord(s: string): (r: string)
    ensures |r| <= |s| && r == s[|s| - |r|..]
    ensures forall i :: 0 <= i < |s| - |r| ==> IsNonWord(s[i])
    ensures r != [] ==> IsWordChar(r[0])
  {
    if s != [] && IsNonWord(s[0]) then SkipNonWord(s[1..]) else s
  }

  /** Python's re.sub(r'\W+', '_', s): every maximal run of non-word
      characters becomes a single '_'. */
  function SubNonWord(s: string): (r: string)
    ensures AllWordChars(r)
    ensures |r| <= |s|
    decreases |s|
  {
    if s == [] then []
    else if IsWordChar(s[0]) then [s[0]] + SubNonWord(s[1..])
    else
      var rest := SkipNonWord(s);
      assert |rest| < |s|;
      "_" + SubNonWord(rest)
  }

  /** A string of word characters only has nothing to replace. */
  lemma {:induction false} SubNonWordFixpoint(s: string)
    requires AllWordChars(s)
    ensures SubNonWord(s) == s
  {
    if s != [] {
      SubNonWordFixpoint(s[1..]);
    }
  }

  /** A non-empty run of non-word characters becomes exactly one '_'. */
  lemma SubNonWordRun(s: string)
    requires s != [] && forall i :: 0 <= i < |s| ==> IsNonWord(s[i])
    ensures SubNonWord(s) == "_"
  {
    SkipNonWordAll(s);
  }

  /** Cutting a string at a point that is not inside a run of non-word
      characters cuts the result at the same point: the replacement works
      run by run. */
  lemma {:induction false} SubNonWordConcat(a: string, b: string)
    requires a == [] || b == [] || IsWordChar(a[|a| - 1]) || IsWordChar(b[0])
    ensures SubNonWord(a + b) == SubNonWord(a) + SubNonWord(b)
    decreases |a|, 1
  {
    if a == [] {
      assert a + b == b;
    } else if b == [] {
      assert a + b == a;
    } else if IsWordChar(a[0]) {
      SubNonWordWordHead(a, b);
    } else {
      SubNonWordRunHead(a, b);
    }
  }

  /** Facts about the head and tail of a concatenation. */
  lemma ConcatHead(a: string, b: string)
    requires a != []
    ensures (a + b)[0] == a[0] && (a + b)[1..] == a[1..] + b
    ensures |a| == 1 ==> a[1..] + b == b
    ensures |a| > 1 ==> a[1..][|a| - 2] == a[|a| - 1]
  {
  }

  lemma ConsAssoc(c: string, x: string, y: string)
    ensures c + (x + y) == (c + x) + y
  {
  }

  /** SubNonWordConcat when `a` starts with a word character. */
  lemma {:induction false} SubNonWordWordHead(a: string, b: string)
    requires a != [] && b != [] && IsWordChar(a[0])
    requires IsWordChar(a[|a| - 1]) || IsWordChar(b[0])
    ensures SubNonWord(a + b) == SubNonWord(a) + SubNonWord(b)
    decreases |a|, 0
  {
    ConcatHead(a, b);
    if |a| > 1 {
      SubNonWordConcat(a[1..], b);
    }
    ConsAssoc([a[0]], SubNonWord(a[1..]), SubNonWord(b));
  }

  /** SubNonWordConcat when `a` starts with a run of non-word characters. */
  lemma {:induction false} SubNonWordRunHead(a: string, b: string)
    requires a != [] && b != [] && IsNonWord(a[0])
    requires IsWordChar(a[|a| - 1]) || IsWordChar(b[0])
    ensures SubNonWord(a + b) == SubNonWord(a) + SubNonWord(b)
    decreases |a|, 0
  {
    ConcatHead(a, b);
    var ra := SkipNonWord(a);
    SkipNonWordShape(a);
    if ra == [] {
      SkipNonWordStops(a, b);
    } else {
      SkipNonWordWithin(a, b);
      SubNonWordConcat(ra, b);
      ConsAssoc("_", SubNonWord(ra), SubNonWord(b));
    }
  }

  /** What SkipNonWord leaves keeps the last character, and when it leaves
      nothing the whole string was one run. */
  lemma SkipNonWordShape(s: string)
    ensures var r := SkipNonWord(s);
      && (r != [] ==> r[|r| - 1] == s[|s| - 1])
      && (r == [] ==> forall i :: 0 <= i < |s| ==> IsNonWord(s[i]))
  {
  }

  /** A run of non-word characters followed by a word character (or
      nothing) is skipped entirely. */
  lemma {:induction false} SkipNonWordStops(a: string, b: string)
    requires forall i :: 0 <= i < |a| ==> IsNonWord(a[i])
    requires b == [] || IsWordChar(b[0])
    ensures SkipNonWord(a + b) == b
    decreases |a|
  {
    if a != [] {
      assert (a + b)[0] == a[0] && (a + b)[1..] == a[1..] + b;
      SkipNonWordStops(a[1..], b);
    } else {
      assert a + b == b;
    }
  }

  /** When the run at the front of `a` ends inside `a`, appending `b` does
      not change where it ends. */
  lemma {:induction false} SkipNonWordWithin(a: string, b: string)
    requires SkipNonWord(a) != []
    ensures SkipNonWord(a + b) == SkipNonWord(a) + b
    decreases |a|
  {
    assert (a + b)[0] == a[0];
    if IsNonWord(a[0]) {
      assert (a + b)[1..] == a[1..] + b;
      SkipNonWordWithin(a[1..], b);
    }
  }

  /** A string of non-word characters is skipped entirely. */
  lemma {:induction false} SkipNonWordAll(s: string)
    requires forall i :: 0 <= i < |s| ==> IsNonWord(s[i])
    ensures SkipNonWord(s) == []
  {
    if s != [] {
      assert forall i :: 0 <= i < |s[1..]| ==> s[1..][i] == s[i + 1];
      SkipNonWordAll(s[1..]);
    }
  }

  // ---------- letters and digits ----------

  /** The letters and digits of `s`, in order. */
  function Alnums(s: string): (r: string)
    ensures forall i :: 0 <= i < |r| ==> IsAlnum(r[i])
  {
    if s == [] then [] else (if IsAlnum(s[0]) then [s[0]] else []) + Alnums(s[1..])
  }

  lemma {:induction false} AlnumsConcat(a: string, b: string)
    ensures Alnums(a + b) == Alnums(a) + Alnums(b)
  {
    if a == [] {
      assert a + b == b;
    } else {
      assert (a + b)[1..] == a[1..] + b;
      AlnumsConcat(a[1..], b);
    }
  }

  lemma {:induction false} AlnumsEmptyIff(s: string)
    ensures Alnums(s) == [] <==> forall i :: 0 <= i < |s| ==> !IsAlnum(s[i])
  {
    if s != [] {
      AlnumsEmptyIff(s[1..]);
      assert forall i :: 1 <= i < |s| ==> s[i] == s[1..][i - 1];
    }
  }

  /** A string of characters that all satisfy `p` contributes no letters or
      digits when `p` excludes them. */
  lemma AlnumsNone(s: string)
    requires forall i :: 0 <= i < |s| ==> !IsAlnum(s[i])
    ensures Alnums(s) == []
  {
    AlnumsEmptyIff(s);
  }

  /** The replacement of non-word runs keeps every letter and digit, in order. */
  lemma {:induction false} SubNonWordKeepsAlnums(s: string)
    ensures Alnums(SubNonWord(s)) == Alnums(s)
    decreases |s|
  {
    if s != [] {
      if IsWordChar(s[0]) {
        assert SubNonWord(s) == [s[0]] + SubNonWord(s[1..]);
        AlnumsConcat([s[0]], SubNonWord(s[1..]));
        SubNonWordKeepsAlnums(s[1..]);
      } else {
        var rest := SkipNonWord(s);
        var k := |s| - |rest|;
        assert s == s[..k] + rest;
        AlnumsConcat(s[..k], rest);
        AlnumsNone(s[..k]);
        AlnumsConcat("_", SubNonWord(rest));
        SubNonWordKeepsAlnums(rest);
      }
    }
  }

  /** Cutting off a front that holds no letter or digit keeps every letter and digit. */
  lemma {:induction false} AlnumsDropFront(s: string, a: nat)
    requires a <= |s|
    requires forall i :: 0 <= i < a ==> !IsAlnum(s[i])
    ensures Alnums(s[a..]) == Alnums(s)
  {
    if a == 0 {
      assert s[a..] == s;
    } else {
      var t := s[1..];
      assert !IsAlnum(s[0]);
      assert Alnums(s) == Alnums(t);
      forall i | 0 <= i < a - 1 ensures !IsAlnum(t[i]) {
        assert t[i] == s[i + 1];
      }
      assert t[a - 1..] == s[a..];
      AlnumsDropFront(t, a - 1);
    }
  }

  /** Cutting off a back that holds no letter or digit keeps every letter and digit. */
  lemma {:induction false} AlnumsDropBack(s: string, b: nat)
    requires b <= |s|
    requires forall i :: b <= i < |s| ==> !IsAlnum(s[i])
    ensures Alnums(s[..b]) == Alnums(s)
  {
    if b == 0 {
      assert s[..b] == [];
      AlnumsNone(s);
    } else {
      var t := s[1..];
      forall i | b - 1 <= i < |t| ensures !IsAlnum(t[i]) {
        assert t[i] == s[i + 1];
      }
      AlnumsDropBack(t, b - 1);
      var u := s[..b];
      assert u[0] == s[0] && u[1..] == t[..b - 1];
    }
  }

  /** Cutting off ends that hold no letter or digit keeps every letter and digit. */
  lemma AlnumsOfInfix(s: string, a: nat, b: nat)
    requires a <= b <= |s|
    requires forall i :: 0 <= i < a ==> !IsAlnum(s[i])
    requires forall i :: b <= i < |s| ==> !IsAlnum(s[i])
    ensures Alnums(s[a..b]) == Alnums(s)
  {
    AlnumsDropBack(s, b);
    assert s[..b][a..] == s[a..b];
    AlnumsDropFront(s[..b], a);
  }

  /** Stripping underscores keeps every letter and digit, in order. */
  lemma StripUnderscoreKeepsAlnums(s: string)
    ensures Alnums(Strip(s, IsUnderscore)) == Alnums(s)
  {
    StripIsInfix(s, IsUnderscore);
    var a := LeadLen(s, IsUnderscore);
    AlnumsOfInfix(s, a, a + |Strip(s, IsUnderscore)|);
  }

  // ---------- the site sanitiser ----------

  /** re.sub(r'\W+', '_', site).strip('_'). */
  function Sanitise(site: string): (r: string)
    ensures |r| <= |site|
    ensures r != [] ==> r[0] != '_' && r[|r| - 1] != '_'
  {
    Strip(SubNonWord(site), IsUnderscore)
  }

  /** A sanitised site consists of word characters only and neither begins
      nor ends with '_'. */
  lemma SanitiseShape(site: string)
    ensures AllWordChars(Sanitise(site))
    ensures Sanitise(site) != [] ==> Sanitise(site)[0] != '_' && Sanitise(site)[|Sanitise(site)| - 1] != '_'
  {
    var u := SubNonWord(site);
    StripIsInfix(u, IsUnderscore);
  }

  /** Sanitising keeps the letters and digits of the site, in order. */
  lemma SanitiseKeepsAlnums(site: string)
    ensures Alnums(Sanitise(site)) == Alnums(site)
  {
    SubNonWordKeepsAlnums(site);
    StripUnderscoreKeepsAlnums(SubNonWord(site));
  }

  /** A site sanitises to "" exactly when it has no letter or digit; in
      particular a site made only of non-word characters does. */
  lemma SanitiseEmptyIff(site: string)
    ensures Sanitise(site) == "" <==> forall i :: 0 <= i < |site| ==> !IsAlnum(site[i])
  {
    var u := SubNonWord(site);
    SanitiseKeepsAlnums(site);
    AlnumsEmptyIff(site);
    AlnumsEmptyIff(Sanitise(site));
    if forall i :: 0 <= i < |site| ==> !IsAlnum(site[i]) {
      SubNonWordKeepsAlnums(site);
      AlnumsEmptyIff(u);
      assert forall i :: 0 <= i < |u| ==> IsUnderscore(u[i]);
      StripEmptyIff(u, IsUnderscore);
    }
  }

  /** Sanitising an already sanitised site changes nothing. */
  lemma SanitiseIdempotent(site: string)
    ensures Sanitise(Sanitise(site)) == Sanitise(site)
  {
    var r := Sanitise(site);
    SanitiseShape(site);
    SubNonWordFixpoint(r);
    StripFixpoint(r, IsUnderscore);
  }

  /** The submission id: the date with its hyphens removed, '_', and the sanitised site. */
  function SubmissionId(date: string, site: string): (id: string)
    ensures var d := RemoveAll(date, '-');
      |d| < |id| == |d| + 1 + |Sanitise(site)| && id[|d|] == '_' && '-' !in id[..|d|]
  {
    RemoveAll(date, '-') + "_" + Sanitise(site)
  }

  /** For a date without '_', the id splits back into its parts: the first
      |d| characters are the date with its hyphens removed (so they hold no
      '-' and no '_'), then one '_', then the sanitised site, which holds
      word characters only. */
  lemma SubmissionIdParts(date: string, site: string)
    requires forall i :: 0 <= i < |date| ==> date[i] != '_'
    ensures var id := SubmissionId(date, site);
      var d := RemoveAll(date, '-');
      |id| == |d| + 1 + |Sanitise(site)|
      && id[..|d|] == d && '-' !in id[..|d|] && '_' !in id[..|d|]
      && id[|d|] == '_'
      && id[|d| + 1..] == Sanitise(site) && AllWordChars(id[|d| + 1..])
  {
    var d := RemoveAll(date, '-');
    RemoveAllAddsNothing(date, '-', '_');
    SanitiseShape(site);
    ThreeParts(d, "_", Sanitise(site), SubmissionId(date, site));
  }

  /** Deleting one character introduces no other. */
  lemma RemoveAllAddsNothing(s: string, c: char, x: char)
    requires x !in s
    ensures x !in RemoveAll(s, c)
  {
    RemoveAllKeepsOthers(s, c);
    if x != c {
      assert multiset(RemoveAll(s, c))[x] == multiset(s)[x] == 0;
    }
  }

  /** The pieces of a three-part concatenation, read back by position. */
  lemma ThreeParts(a: string, b: string, c: string, s: string)
    requires s == a + b + c
    ensures |s| == |a| + |b| + |c|
    ensures s[..|a|] == a && s[|a|..|a| + |b|] == b && s[|a| + |b|..] == c
  {
  }

  // ---------- worked example ----------

  /** Appending a hyphen does not change what deleting hyphens leaves. */
  lemma RemoveHyphenTail(x: string)
    ensures RemoveAll(x + "-", '-') == RemoveAll(x, '-')
  {
    RemoveAllConcat(x, "-", '-');
    assert RemoveAll("-", '-') == [];
  }

  /** Appending a hyphen-free piece appends it to what deleting hyphens leaves. */
  lemma RemoveHyphenKeepTail(x: string, w: string)
    requires '-' !in w
    ensures RemoveAll(x + w, '-') == RemoveAll(x, '-') + w
  {
    RemoveAllConcat(x, w, '-');
    RemoveAllAbsent(w, '-');
  }

  /** An ISO date yyyy-mm-dd loses exactly its two hyphens. */
  lemma IsoDateDigits(y: string, m: string, d: string)
    requires '-' !in y && '-' !in m && '-' !in d
    ensures RemoveAll(y + "-" + m + "-" + d, '-') == y + m + d
  {
    RemoveHyphenKeepTail(y + "-" + m + "-", d);
    RemoveHyphenTail(y + "-" + m);
    RemoveHyphenKeepTail(y + "-", m);
    RemoveHyphenTail(y);
    RemoveAllAbsent(y, '-');
  }

  /** A piece of word characters in front passes through the replacement unchanged. */
  lemma SubNonWordWordThen(w: string, t: string)
    requires AllWordChars(w)
    ensures SubNonWord(w + t) == w + SubNonWord(t)
  {
    SubNonWordFixpoint(w);
    SubNonWordConcat(w, t);
  }

  /** A run of non-word characters in front, followed by a word character or
      nothing, becomes one '_'. */
  lemma SubNonWordRunThen(r: string, t: string)
    requires IsRun(r)
    requires t == [] || IsWordChar(t[0])
    ensures SubNonWord(r + t) == "_" + SubNonWord(t)
  {
    SubNonWordRun(r);
    SubNonWordConcat(r, t);
  }

  /** The date of the worked example. */
  lemma DateExample(date: string)
    requires date == "2024-03-05"
    ensures RemoveAll(date, '-') == "20240305"
  {
    assert date == "2024" + "-" + "03" + "-" + "05";
    IsoDateDigits("2024", "03", "05");
  }

  predicate IsRun(r: string) {
    r != [] && forall i :: 0 <= i < |r| ==> IsNonWord(r[i])
  }

  /** Three pieces of word characters separated by two runs of non-word
      characters come out joined by single underscores. */
  lemma SubNonWordThreeWords(w1: string, r1: string, w2: string, r2: string, w3: string)
    requires AllWordChars(w1) && AllWordChars(w2) && AllWordChars(w3)
    requires w2 != [] && w3 != []
    requires IsRun(r1) && IsRun(r2)
    ensures SubNonWord(w1 + (r1 + (w2 + (r2 + w3)))) == w1 + ("_" + (w2 + ("_" + w3)))
  {
    SubNonWordFixpoint(w3);
    SubNonWordRunThen(r2, w3);
    SubNonWordWordThen(w2, r2 + w3);
    SubNonWordRunThen(r1, w2 + (r2 + w3));
    SubNonWordWordThen(w1, r1 + (w2 + (r2 + w3)));
  }

  /** The same three pieces sanitised: no '_' at either end to strip when
      the first piece does not start and the last does not end with one. */
  lemma SanitiseThreeWords(w1: string, r1: string, w2: string, r2: string, w3: string)
    requires AllWordChars(w1) && AllWordChars(w2) && AllWordChars(w3)
    requires w1 != [] && w2 != [] && w3 != []
    requires w1[0] != '_' && w3[|w3| - 1] != '_'
    requires IsRun(r1) && IsRun(r2)
    ensures Sanitise(w1 + (r1 + (w2 + (r2 + w3)))) == w1 + ("_" + (w2 + ("_" + w3)))
  {
    SubNonWordThreeWords(w1, r1, w2, r2, w3);
    var u := w1 + ("_" + (w2 + ("_" + w3)));
    assert u[0] == w1[0] && u[|u| - 1] == w3[|w3| - 1];
    StripFixpoint(u, IsUnderscore);
  }

  /** The pieces of the worked example's site. */
  lemma SitePieces(site: string)
    requires site == "North Block #2"
    ensures site == "North" + (" " + ("Block" + (" #" + "2")))
    ensures AllWordChars("North") && AllWordChars("Block") && AllWordChars("2")
    ensures IsRun(" ") && IsRun(" #")
    ensures "North" + ("_" + ("Block" + ("_" + "2"))) == "North_Block_2"
  {
  }

  /** The site of the worked example: each run of spaces and '#' becomes one '_'. */
  lemma SiteExample(site: string)
    requires site == "North Block #2"
    ensures Sanitise(site) == "North_Block_2"
  {
    SitePieces(site);
    SanitiseThreeWords("North", " ", "Block", " #", "2");
  }

  /** The worked example: site "North Block #2" surveyed on 2024-03-05. */
  lemma SubmissionIdExample(date: string, site: string)
    requires date == "2024-03-05" && site == "North Block #2"
    ensures SubmissionId(date, site) == "20240305_North_Block_2"
  {
    DateExample(date);
    SiteExample(site);
    IdPieces();
  }

  lemma IdPieces()
    ensures "20240305" + "_" + "North_Block_2" == "20240305_North_Block_2"
  {
  }

  /** A site with no letters or digits leaves the id ending in '_'. */
  lemma SubmissionIdBlankSite(date: string, site: string)
    requires forall i :: 0 <= i < |site| ==> IsNonWord(site[i])
    ensures SubmissionId(date, site) == RemoveAll(date, '-') + "_"
  {
    SanitiseEmptyIff(site);
  }

  // ---------- str(n) ----------

  predicate IsDigit(c: char) {
    '0' <= c <= '9'
  }

  function DigitChar(d: int): (c: char)
    requires 0 <= d < 10
    ensures IsDigit(c) && c as int - '0' as int == d
  {
    ('0' as int + d) as char
  }

  /** The decimal digits of n, without leading zeros. */
  function NatToString(n: nat): (s: string)
    ensures s != [] && (forall i :: 0 <= i < |s| ==> IsDigit(s[i]))
    ensures s[0] == '0' ==> n == 0
  {
    if n < 10 then [DigitChar(n)] else NatToString(n / 10) + [DigitChar(n % 10)]
  }

  /** The number a string of decimal digits denotes. */
  function DigitsValue(s: string): int
    requires forall i :: 0 <= i < |s| ==> IsDigit(s[i])
  {
    if s == [] then 0 else DigitsValue(s[..|s| - 1]) * 10 + (s[|s| - 1] as int - '0' as int)
  }

  /** Reading back the digits of n gives n. */
  lemma {:induction false} NatToStringRoundTrip(n: nat)
    ensures DigitsValue(NatToString(n)) == n
  {
    var s := NatToString(n);
    if n >= 10 {
      NatToStringRoundTrip(n / 10);
      assert s[..|s| - 1] == NatToString(n / 10);
    } else {
      assert s[..|s| - 1] == [];
    }
  }

  /** Python's str(n) for an integer: a '-' sign, then the digits. */
  function IntToString(n: int): (s: string)
    ensures s != [] && (s[0] == '-' <==> n < 0)
    ensures forall i :: 1 <= i < |s| ==> IsDigit(s[i])
  {
    if n < 0 then "-" + NatToString(-n) else NatToString(n)
  }

  /** Reading back str(n), sign included, gives n. */
  lemma IntToStringRoundTrip(n: int)
    ensures var s := IntToString(n);
      if s[0] == '-' then n < 0 && DigitsValue(s[1..]) == -n else n >= 0 && DigitsValue(s) == n
  {
    var s := IntToString(n);
    if n < 0 {
      NatToStringRoundTrip(-n);
      assert s[1..] == NatToString(-n);
    } else {
      NatToStringRoundTrip(n);
    }
  }
}

