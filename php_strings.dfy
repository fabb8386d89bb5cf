/** The PHP string primitives the daemon is built from, over `string` (= `seq<char>`):
    `preg_match_all('/(\S+)/', …)` and `implode`, `basename`, `str_replace`, the `(int)` cast,
    the decimal rendering of an integer and PHP's truthiness of a string. */
module PhpStrings {

  // ---------------------------------------------------------------- whitespace runs

  /** The class `\s` of PCRE without the `u` modifier: space, tab, line feed,
      vertical tab, form feed and carriage return. */
  predicate IsSpace(c: char) {
    c == ' ' || c == '\t' || c == '\n' || c == '\U{000B}' || c == '\U{000C}' || c == '\r'
  }

  predicate NoSpace(s: string) {
    forall i :: 0 <= i < |s| ==> !IsSpace(s[i])
  }

  predicate AllSpace(s: string) {
    forall i :: 0 <= i < |s| ==> IsSpace(s[i])
  }

  /** Every word is a non-empty run of non-whitespace characters. */
  predicate Words(ws: seq<string>) {
    forall i :: 0 <= i < |ws| ==> ws[i] != [] && NoSpace(ws[i])
  }

  /** `s` without its leading whitespace. */
  function SkipSpaces(s: string): string {
    if s != [] && IsSpace(s[0]) then SkipSpaces(s[1..]) else s
  }

  lemma {:induction false} SkipSpacesIsSuffix(s: string)
    ensures var r := SkipSpaces(s);
      && |r| <= |s| && r == s[|s| - |r|..]
      && AllSpace(s[..|s| - |r|])
      && (r != [] ==> !IsSpace(r[0]))
  {
    if s != [] && IsSpace(s[0]) {
      var u := s[1..];
      SkipSpacesIsSuffix(u);
      var r := SkipSpaces(u);
      assert SkipSpaces(s) == r;
      assert u[|u| - |r|..] == s[|s| - |r|..];
      assert s[..|s| - |r|] == [s[0]] + u[..|u| - |r|];
      AllSpaceCons(s[0], u[..|u| - |r|]);
    }
  }

  lemma AllSpaceCons(c: char, u: string)
    requires IsSpace(c) && AllSpace(u)
    ensures AllSpace([c] + u)
  {
    forall i | 0 <= i < |[c] + u|
      ensures IsSpace(([c] + u)[i])
    {
      if i > 0 {
        assert ([c] + u)[i] == u[i - 1];
      }
    }
  }

  /** The longest prefix of `s` that holds no whitespace. */
  function Word(s: string): string {
    if s != [] && !IsSpace(s[0]) then [s[0]] + Word(s[1..]) else []
  }

  lemma {:induction false} WordIsRun(s: string)
    ensures var w := Word(s);
      && |w| <= |s| && w == s[..|w|]
      && NoSpace(w)
      && (|w| < |s| ==> IsSpace(s[|w|]))
  {
    if s != [] && !IsSpace(s[0]) {
      WordIsRun(s[1..]);
    }
  }

  /** The first word of `s` sits right after its leading whitespace, is followed by
      whitespace or the end, and is empty exactly when `s` is all whitespace. */
  lemma FirstWordIsRun(s: string)
    ensures var t := SkipSpaces(s);
      var k, w := |s| - |t|, Word(t);
      && 0 <= k <= |s| && AllSpace(s[..k]) && NoSpace(w)
      && (w == [] <==> AllSpace(s))
      && k + |w| <= |s| && s[k..k + |w|] == w
      && (k + |w| < |s| ==> IsSpace(s[k + |w|]))
  {
    SkipSpacesIsSuffix(s);
    WordIsRun(SkipSpaces(s));
    FirstWordIsEmptyOnlyOnSpace(s);
    FirstWordInPlace(s);
  }

  lemma FirstWordIsEmptyOnlyOnSpace(s: string)
    ensures Word(SkipSpaces(s)) == [] <==> AllSpace(s)
  {
    SkipSpacesIsSuffix(s);
    var t := SkipSpaces(s);
    var k := |s| - |t|;
    if t == [] {
      assert s[..k] == s;
    } else {
      assert Word(t) == [t[0]] + Word(t[1..]);
      assert s[k] == t[0];
    }
  }

  lemma FirstWordInPlace(s: string)
    ensures var t := SkipSpaces(s);
      var k, w := |s| - |t|, Word(t);
      && 0 <= k && k + |w| <= |s| && s[k..k + |w|] == w
      && (k + |w| < |s| ==> IsSpace(s[k + |w|]))
  {
    SkipSpacesIsSuffix(s);
    var t := SkipSpaces(s);
    var k := |s| - |t|;
    WordIsRun(t);
    var w := Word(t);
    assert t == s[k..];
    assert t[..|w|] == s[k..k + |w|];
    if |w| < |t| {
      assert t[|w|] == s[k + |w|];
    }
  }

  /** The matches of `/(\S+)/` in `s`, left to right: `$matches[0]` after `preg_match_all`. */
  function Tokens(s: string): seq<string>
    decreases |s|
  {
    SkipSpacesIsSuffix(s);
    var t := SkipSpaces(s);
    if t == [] then []
    else
      WordIsRun(t);
      var w := Word(t);
      [w] + Tokens(t[|w|..])
  }

  /** The first match is the first word after the leading whitespace; there is none when
      only whitespace is left. */
  lemma TokensHead(s: string)
    ensures Tokens(s) == [] <==> SkipSpaces(s) == []
    ensures Tokens(s) != [] ==> Tokens(s)[0] == Word(SkipSpaces(s))
  {
  }

  /** Every match is a non-empty whitespace-free run. */
  lemma {:induction false} TokensAreWords(s: string)
    ensures Words(Tokens(s))
    decreases |s|
  {
    SkipSpacesIsSuffix(s);
    var t := SkipSpaces(s);
    if t != [] {
      WordIsRun(t);
      var w := Word(t);
      var rest := t[|w|..];
      assert Tokens(s) == [w] + Tokens(rest);
      assert w != [] by {
        assert w == [t[0]] + Word(t[1..]);
      }
      TokensAreWords(rest);
      WordsCons(w, Tokens(rest));
    }
  }

  lemma WordsCons(w: string, ws: seq<string>)
    requires w != [] && NoSpace(w) && Words(ws)
    ensures Words([w] + ws)
  {
    forall i | 0 <= i < |[w] + ws|
      ensures ([w] + ws)[i] != [] && NoSpace(([w] + ws)[i])
    {
      if i > 0 {
        assert ([w] + ws)[i] == ws[i - 1];
      }
    }
  }

  /** `implode(sep, ws)`. */
  function Join(ws: seq<string>, sep: string): string {
    if ws == [] then ""
    else if |ws| == 1 then ws[0]
    else ws[0] + sep + Join(ws[1..], sep)
  }

  /** `s` with every whitespace character dropped: a reference for what the tokens hold. */
  function RemoveSpaces(s: string): string {
    if s == [] then ""
    else if IsSpace(s[0]) then RemoveSpaces(s[1..])
    else [s[0]] + RemoveSpaces(s[1..])
  }

  function Concat(ws: seq<string>): string {
    if ws == [] then "" else ws[0] + Concat(ws[1..])
  }

  lemma {:induction false} WordOfPrefix(w: string, rest: string)
    requires NoSpace(w)
    requires rest == [] || IsSpace(rest[0])
    ensures Word(w + rest) == w
  {
    if w != [] {
      assert (w + rest)[1..] == w[1..] + rest;
      WordOfPrefix(w[1..], rest);
    }
  }

  lemma TokensAfterSpace(s: string)
    ensures Tokens(" " + s) == Tokens(s)
  {
    assert (" " + s)[1..] == s;
  }

  /** Joining words with single spaces and splitting the result again gives the words back. */
  lemma {:induction false} TokensOfJoin(ws: seq<string>)
    requires Words(ws)
    ensures Tokens(Join(ws, " ")) == ws
  {
    if ws == [] {
    } else if |ws| == 1 {
      var w := ws[0];
      WordOfPrefix(w, "");
      assert w + "" == w;
      assert w[|w|..] == [];
    } else {
      var w, rest := ws[0], Join(ws[1..], " ");
      var s := w + " " + rest;
      assert s == w + (" " + rest);
      WordOfPrefix(w, " " + rest);
      assert SkipSpaces(s) == s;
      assert s[|w|..] == " " + rest;
      TokensAfterSpace(rest);
      TokensOfJoin(ws[1..]);
    }
  }

  lemma {:induction false} RemoveSpacesAppend(a: string, b: string)
    ensures RemoveSpaces(a + b) == RemoveSpaces(a) + RemoveSpaces(b)
  {
    if a == [] {
      assert a + b == b;
    } else {
      assert (a + b)[0] == a[0];
      assert (a + b)[1..] == a[1..] + b;
      RemoveSpacesAppend(a[1..], b);
    }
  }

  lemma {:induction false} RemoveSpacesOfAllSpace(s: string)
    requires AllSpace(s)
    ensures RemoveSpaces(s) == ""
  {
    if s != [] {
      RemoveSpacesOfAllSpace(s[1..]);
    }
  }

  lemma {:induction false} RemoveSpacesOfNoSpace(s: string)
    requires NoSpace(s)
    ensures RemoveSpaces(s) == s
  {
    if s != [] {
      RemoveSpacesOfNoSpace(s[1..]);
    }
  }

  /** The tokens hold exactly the non-whitespace characters of `s`, in order: none is lost
      and none is invented. */
  lemma {:induction false} TokensKeepEveryNonSpace(s: string)
    ensures Concat(Tokens(s)) == RemoveSpaces(s)
    decreases |s|
  {
    SkipSpacesIsSuffix(s);
    var t := SkipSpaces(s);
    var k := |s| - |t|;
    assert s == s[..k] + t;
    RemoveSpacesAppend(s[..k], t);
    RemoveSpacesOfAllSpace(s[..k]);
    if t != [] {
      WordIsRun(t);
      var w := Word(t);
      assert t == w + t[|w|..];
      RemoveSpacesAppend(w, t[|w|..]);
      RemoveSpacesOfNoSpace(w);
      TokensKeepEveryNonSpace(t[|w|..]);
    }
  }

  // ---------------------------------------------------------------- basename and str_replace

  /** `p` without its trailing slashes. */
  function TrimSlashes(p: string): (r: string)
    ensures |r| <= |p| && r == p[..|r|]
    ensures r == [] || r[|r| - 1] != '/'
    ensures forall i :: |r| <= i < |p| ==> p[i] == '/'
  {
    if p != [] && p[|p| - 1] == '/' then TrimSlashes(p[..|p| - 1]) else p
  }

  /** The part of `p` after its last slash. */
  function LastSegment(p: string): string {
    if p == [] || p[|p| - 1] == '/' then "" else LastSegment(p[..|p| - 1]) + [p[|p| - 1]]
  }

  /** The last segment is the longest slash-free suffix. */
  lemma {:induction false} LastSegmentIsSuffix(p: string)
    ensures var r := LastSegment(p);
      && |r| <= |p| && r == p[|p| - |r|..]
      && '/' !in r
      && (|r| < |p| ==> p[|p| - |r| - 1] == '/')
  {
    if p != [] && p[|p| - 1] != '/' {
      var q := p[..|p| - 1];
      LastSegmentIsSuffix(q);
      var r := LastSegment(q);
      assert LastSegment(p) == r + [p[|p| - 1]];
      assert p[|p| - |r| - 1..] == q[|q| - |r|..] + [p[|p| - 1]];
    }
  }

  /** PHP's `basename(p)` for '/'-separated paths: the last non-empty segment, or "" when
      `p` holds nothing but slashes. */
  function Basename(p: string): string {
    LastSegment(TrimSlashes(p))
  }

  /** `basename` gives a slash-free name, which is empty exactly when the path is made of
      slashes only. */
  lemma BasenameIsLastName(p: string)
    ensures '/' !in Basename(p)
    ensures Basename(p) == [] <==> forall i :: 0 <= i < |p| ==> p[i] == '/'
  {
    var q := TrimSlashes(p);
    LastSegmentIsSuffix(q);
    if q != [] {
      assert q[|q| - 1] != '/';
      assert LastSegment(q) != [];
      assert p[|q| - 1] == q[|q| - 1];
    }
  }

  lemma {:induction false} LastSegmentOfPath(d: string, b: string)
    requires '/' !in b
    requires d == [] || d[|d| - 1] == '/'
    ensures LastSegment(d + b) == b
  {
    if b == [] {
      assert d + b == d;
    } else {
      var p, c, b' := d + b, b[|b| - 1], b[..|b| - 1];
      assert c in b;
      assert p[|p| - 1] == c;
      assert p[..|p| - 1] == d + b';
      assert LastSegment(p) == LastSegment(d + b') + [c];
      LastSegmentOfPath(d, b');
      assert b == b' + [c];
    }
  }

  /** A path made of a directory part ending in '/' (or nothing) and a name has that name as
      its basename. */
  lemma BasenameOfPath(d: string, b: string)
    requires b != [] && '/' !in b
    requires d == [] || d[|d| - 1] == '/'
    ensures Basename(d + b) == b
  {
    var p := d + b;
    assert p[|p| - 1] == b[|b| - 1];
    assert TrimSlashes(p) == p;
    LastSegmentOfPath(d, b);
  }

  /** `t` occurs somewhere in `s`. */
  predicate Occurs(t: string, s: string)
    decreases |s|
  {
    |t| <= |s| && (s[..|t|] == t || Occurs(t, s[1..]))
  }

  /** PHP's `str_replace(search, replace, subject)` for one search string: the occurrences
      of `search` are found left to right, without overlap, and each is replaced; an empty
      `search` leaves `subject` as it is. */
  function StrReplace(search: string, replace: string, subject: string): string
    decreases |subject|
  {
    if search == [] || |subject| < |search| then subject
    else if subject[..|search|] == search then replace + StrReplace(search, replace, subject[|search|..])
    else [subject[0]] + StrReplace(search, replace, subject[1..])
  }

  /** Where `search` does not occur, `str_replace` changes nothing. */
  lemma {:induction false} StrReplaceWithoutOccurrence(search: string, replace: string, subject: string)
    requires !Occurs(search, subject)
    ensures StrReplace(search, replace, subject) == subject
    decreases |subject|
  {
    if search != [] && |subject| >= |search| {
      StrReplaceWithoutOccurrence(search, replace, subject[1..]);
    }
  }

  /** One step of `str_replace` at the head of `s` where `search` does not start. */
  lemma StrReplaceSkip(search: string, replace: string, s: string)
    requires search != [] && |s| >= |search| && s[..|search|] != search
    ensures StrReplace(search, replace, s) == [s[0]] + StrReplace(search, replace, s[1..])
  {
  }

  /** An occurrence of a name without slashes cannot straddle a slash, so `str_replace`
      treats the two sides of a directory part ending in '/' separately. */
  lemma {:induction false} StrReplaceAfterSlash(search: string, replace: string, x: string, y: string)
    requires search != [] && '/' !in search
    requires x == [] || x[|x| - 1] == '/'
    ensures StrReplace(search, replace, x + y) == StrReplace(search, replace, x) + StrReplace(search, replace, y)
    decreases |x|
  {
    if x == [] {
      assert x + y == y;
    } else if |x| < |search| {
      StrReplaceShortHead(search, replace, x, y);
    } else if x[..|search|] == search {
      StrReplaceMatchHead(search, replace, x, y);
    } else {
      StrReplaceSkipHead(search, replace, x, y);
    }
  }

  /** `x` is shorter than `search`, so `str_replace` keeps it as it is; and `search` cannot
      start in `x`, which ends in '/'. */
  lemma {:induction false} StrReplaceShortHead(search: string, replace: string, x: string, y: string)
    requires search != [] && '/' !in search
    requires x != [] && x[|x| - 1] == '/' && |x| < |search|
    ensures StrReplace(search, replace, x + y) == StrReplace(search, replace, x) + StrReplace(search, replace, y)
    decreases |x|, 0
  {
    assert StrReplace(search, replace, x) == x;
    if |x + y| < |search| {
      assert StrReplace(search, replace, y) == y;
    } else {
      var ry := StrReplace(search, replace, y);
      assert StrReplace(search, replace, x + y) == [x[0]] + (x[1..] + ry) by {
        StrReplaceSlashOfConcat(search, replace, x, y);
        StrReplaceAfterSlash(search, replace, x[1..], y);
        assert StrReplace(search, replace, x[1..]) == x[1..];
      }
      assert [x[0]] + (x[1..] + ry) == x + ry;
    }
  }

  /** `search` cannot start at the head of `x + y` when it would cover the final '/' of `x`. */
  lemma StrReplaceSlashOfConcat(search: string, replace: string, x: string, y: string)
    requires search != [] && '/' !in search
    requires x != [] && x[|x| - 1] == '/' && |x| < |search| <= |x + y|
    ensures StrReplace(search, replace, x + y) == [x[0]] + StrReplace(search, replace, x[1..] + y)
  {
    var p := x + y;
    assert p[..|search|][|x| - 1] == '/';
    assert p[1..] == x[1..] + y;
    StrReplaceSkip(search, replace, p);
  }

  /** `search` starts at the head of `x`: it is replaced there, and the rest of `x` still
      ends in '/' or is empty. */
  lemma {:induction false} StrReplaceMatchHead(search: string, replace: string, x: string, y: string)
    requires search != [] && '/' !in search
    requires x != [] && x[|x| - 1] == '/' && |x| >= |search| && x[..|search|] == search
    ensures StrReplace(search, replace, x + y) == StrReplace(search, replace, x) + StrReplace(search, replace, y)
    decreases |x|, 0
  {
    var n := |search|;
    var rx, ry := StrReplace(search, replace, x[n..]), StrReplace(search, replace, y);
    assert StrReplace(search, replace, x + y) == replace + (rx + ry) by {
      StrReplaceMatchOfConcat(search, replace, x, y);
      StrReplaceAfterSlash(search, replace, x[n..], y);
    }
    assert StrReplace(search, replace, x) == replace + rx by {
      StrReplaceMatch(search, replace, x);
    }
    assert replace + (rx + ry) == (replace + rx) + ry;
  }

  /** `search` does not start at the head of `x`: its first character is kept. */
  lemma {:induction false} StrReplaceSkipHead(search: string, replace: string, x: string, y: string)
    requires search != [] && '/' !in search
    requires x != [] && x[|x| - 1] == '/' && |x| >= |search| && x[..|search|] != search
    ensures StrReplace(search, replace, x + y) == StrReplace(search, replace, x) + StrReplace(search, replace, y)
    decreases |x|, 0
  {
    var rx, ry := StrReplace(search, replace, x[1..]), StrReplace(search, replace, y);
    assert StrReplace(search, replace, x + y) == [x[0]] + (rx + ry) by {
      StrReplaceSkipOfConcat(search, replace, x, y);
      StrReplaceAfterSlash(search, replace, x[1..], y);
    }
    assert StrReplace(search, replace, x) == [x[0]] + rx by {
      StrReplaceSkip(search, replace, x);
    }
    assert [x[0]] + (rx + ry) == ([x[0]] + rx) + ry;
  }

  /** `search` starts at the head of `x + y` exactly as at the head of `x`. */
  lemma StrReplaceMatchOfConcat(search: string, replace: string, x: string, y: string)
    requires search != [] && |x| >= |search| && x[..|search|] == search
    ensures StrReplace(search, replace, x + y) == replace + StrReplace(search, replace, x[|search|..] + y)
  {
    var p, n := x + y, |search|;
    assert p[..n] == x[..n];
    assert p[n..] == x[n..] + y;
    StrReplaceMatch(search, replace, p);
  }

  /** `search` does not start at the head of `x + y` when it does not at the head of `x`. */
  lemma StrReplaceSkipOfConcat(search: string, replace: string, x: string, y: string)
    requires search != [] && |x| >= |search| && x[..|search|] != search
    ensures StrReplace(search, replace, x + y) == [x[0]] + StrReplace(search, replace, x[1..] + y)
  {
    var p, n := x + y, |search|;
    assert p[..n] == x[..n];
    assert p[1..] == x[1..] + y;
    StrReplaceSkip(search, replace, p);
  }

  /** One step of `str_replace` at the head of `s` where `search` starts. */
  lemma StrReplaceMatch(search: string, replace: string, s: string)
    requires search != [] && |s| >= |search| && s[..|search|] == search
    ensures StrReplace(search, replace, s) == replace + StrReplace(search, replace, s[|search|..])
  {
  }

  /** A run of slashes holds no slash-free search string, so `str_replace` keeps it. */
  lemma {:induction false} StrReplaceOfSlashes(search: string, replace: string, tail: string)
    requires search != [] && '/' !in search
    requires forall i :: 0 <= i < |tail| ==> tail[i] == '/'
    ensures StrReplace(search, replace, tail) == tail
    decreases |tail|
  {
    if |tail| >= |search| {
      assert search[0] != '/';
      assert tail[..|search|][0] == '/';
      StrReplaceOfSlashes(search, replace, tail[1..]);
      assert tail == [tail[0]] + tail[1..];
    }
  }

  /** Replacing a slash-free string keeps a final slash. */
  lemma {:induction false} StrReplaceKeepsLastSlash(search: string, replace: string, s: string)
    requires search != [] && '/' !in search
    requires s != [] && s[|s| - 1] == '/'
    ensures var r := StrReplace(search, replace, s); r != [] && r[|r| - 1] == '/'
    decreases |s|
  {
    var n := |search|;
    if |s| >= n {
      if s[..n] == search {
        assert forall i :: 0 <= i < n ==> s[i] == search[i] && s[i] != '/';
        assert n < |s|;
        StrReplaceKeepsLastSlash(search, replace, s[n..]);
      } else if |s| > 1 {
        StrReplaceKeepsLastSlash(search, replace, s[1..]);
      } else {
        assert StrReplace(search, replace, s[1..]) == [];
      }
    }
  }

  /** Removing a slash-free name from a directory part, that name and trailing slashes leaves
      nothing or something that ends in '/'. */
  lemma StrReplaceOfSplitPath(s: string, d: string, b: string, tail: string)
    requires b != [] && '/' !in b
    requires d == [] || d[|d| - 1] == '/'
    requires forall i :: 0 <= i < |tail| ==> tail[i] == '/'
    requires s == d + (b + tail)
    ensures var sp := StrReplace(b, "", s); sp == [] || sp[|sp| - 1] == '/'
  {
    StrReplaceAfterSlash(b, "", d, b + tail);
    assert (b + tail)[..|b|] == b && (b + tail)[|b|..] == tail;
    StrReplaceOfSlashes(b, "", tail);
    assert StrReplace(b, "", b + tail) == tail;
    if tail == [] && d != [] {
      StrReplaceKeepsLastSlash(b, "", d);
    }
  }

  /** Every path is a directory part (empty or ending in '/'), its basename and a run of
      trailing slashes. */
  lemma SplitPath(s: string) returns (d: string, tail: string)
    ensures s == d + (Basename(s) + tail)
    ensures d == [] || d[|d| - 1] == '/'
    ensures forall i :: 0 <= i < |tail| ==> tail[i] == '/'
  {
    var t := TrimSlashes(s);
    tail := TrailingSlashes(s, t);
    d := DirectoryPart(t);
    var b := LastSegment(t);
    assert d + (b + tail) == t + tail;
  }

  /** What comes before the last segment is empty or ends in '/'. */
  lemma DirectoryPart(t: string) returns (d: string)
    ensures t == d + LastSegment(t)
    ensures d == [] || d[|d| - 1] == '/'
  {
    var b := LastSegment(t);
    LastSegmentIsSuffix(t);
    d := t[..|t| - |b|];
    assert t == d + b;
  }

  /** What `TrimSlashes` cut off is a run of slashes. */
  lemma TrailingSlashes(s: string, t: string) returns (tail: string)
    requires t == TrimSlashes(s)
    ensures s == t + tail
    ensures forall i :: 0 <= i < |tail| ==> tail[i] == '/'
  {
    tail := s[|t|..];
    assert s == t + tail;
    forall i | 0 <= i < |tail|
      ensures tail[i] == '/'
    {
      assert tail[i] == s[|t| + i];
    }
  }

  /** The script path the daemon derives, `str_replace(basename(s), '', s)`, is empty or ends
      in '/': whatever is left of the reference after its name is a directory part. */
  lemma ScriptPathEndsInSlash(s: string)
    ensures var sp := StrReplace(Basename(s), "", s); sp == [] || sp[|sp| - 1] == '/'
  {
    var d, tail := SplitPath(s);
    var b := Basename(s);
    BasenameIsLastName(s);
    if b == [] {
      assert s == d + tail;
      if tail == [] {
        assert s == d;
      }
    } else {
      StrReplaceOfSplitPath(s, d, b, tail);
    }
  }

  /** The daemon's split of a script path into a directory part and a name gives the path
      back (`script_path . script` is the script) when the name occurs nowhere in the
      directory part. */
  lemma DirectoryAndNameRebuildPath(d: string, b: string)
    requires b != [] && '/' !in b
    requires d == [] || d[|d| - 1] == '/'
    requires !Occurs(b, d)
    ensures Basename(d + b) == b
    ensures StrReplace(b, "", d + b) + b == d + b
  {
    BasenameOfPath(d, b);
    StrReplaceAfterSlash(b, "", d, b);
    StrReplaceWithoutOccurrence(b, "", d);
    assert b[..|b|] == b && b[|b|..] == [];
    assert StrReplace(b, "", b) == "" + StrReplace(b, "", []);
    assert StrReplace(b, "", d + b) == d;
  }

  /** `str_replace` removes every occurrence of the name, not only the last one: for a path
      `d/name/name` (such as `/srv/worker/worker`) the directory part comes out as `d//`
      (`/srv//`), and directory part and name no longer give the path back. */
  lemma StrReplaceRemovesEveryOccurrence(d: string, w: string)
    requires d == [] || d[|d| - 1] == '/'
    requires w != [] && '/' !in w && !Occurs(w, d)
    ensures var path := d + w + "/" + w;
      && Basename(path) == w
      && StrReplace(w, "", path) == d + "/"
      && StrReplace(w, "", path) + w != path
  {
    RepeatedNameBasename(d, w);
    RepeatedNameScriptPath(d, w);
    assert |d + "/" + w| < |d + w + "/" + w|;
  }

  lemma RepeatedNameBasename(d: string, w: string)
    requires d == [] || d[|d| - 1] == '/'
    requires w != [] && '/' !in w
    ensures Basename(d + w + "/" + w) == w
  {
    assert d + w + "/" + w == (d + (w + "/")) + w;
    BasenameOfPath(d + (w + "/"), w);
  }

  lemma RepeatedNameScriptPath(d: string, w: string)
    requires d == [] || d[|d| - 1] == '/'
    requires w != [] && '/' !in w && !Occurs(w, d)
    ensures StrReplace(w, "", d + w + "/" + w) == d + "/"
  {
    var x := w + "/";
    assert StrReplace(w, "", x + w) == "/" by {
      StrReplaceAfterSlash(w, "", x, w);
      NameThenSlash(w);
      NameAlone(w);
    }
    assert StrReplace(w, "", d + (x + w)) == d + "/" by {
      StrReplaceAfterSlash(w, "", d, x + w);
      StrReplaceWithoutOccurrence(w, "", d);
    }
    assert d + w + "/" + w == d + (x + w);
  }

  /** `str_replace(name, '', name)` is empty. */
  lemma NameAlone(w: string)
    requires w != []
    ensures StrReplace(w, "", w) == ""
  {
    assert w[..|w|] == w && w[|w|..] == [];
    StrReplaceMatch(w, "", w);
  }

  /** `str_replace(name, '', name . '/')` leaves the slash. */
  lemma NameThenSlash(w: string)
    requires w != [] && '/' !in w
    ensures StrReplace(w, "", w + "/") == "/"
  {
    var x := w + "/";
    assert x[..|w|] == w && x[|w|..] == "/";
    StrReplaceMatch(w, "", x);
    StrReplaceOfSlashes(w, "", "/");
  }

  /** For `/tmp/jobs/worker.sh` the name is `worker.sh` and the directory part, with its
      trailing slash, is `/tmp/jobs/`. */
  lemma BasenameAndDirectoryOfJobsWorker(path: string)
    requires path == "/tmp/jobs/worker.sh"
    ensures Basename(path) == "worker.sh"
    ensures StrReplace(Basename(path), "", path) == "/tmp/jobs/"
  {
    var d, w := "/tmp/jobs/", "worker.sh";
    assert path == d + w;
    assert Basename(path) == w by {
      BasenameOfPath(d, w);
    }
    assert StrReplace(w, "", d + w) == d by {
      StrReplaceAfterSlash(w, "", d, w);
      JobsWorkerPieces(d, w);
    }
  }

  /** The two pieces of `/tmp/jobs/worker.sh` under `str_replace('worker.sh', '', …)`. */
  lemma JobsWorkerPieces(d: string, w: string)
    requires d == "/tmp/jobs/" && w == "worker.sh"
    ensures StrReplace(w, "", d) == d
    ensures StrReplace(w, "", w) == ""
  {
    assert d[..9] != w && d[1..][..9] != w;
    StrReplaceSkip(w, "", d);
    StrReplaceSkip(w, "", d[1..]);
    assert StrReplace(w, "", d[1..][1..]) == d[1..][1..];
    assert d == [d[0]] + ([d[1..][0]] + d[1..][1..]);
    assert w[..9] == w && w[9..] == [];
  }

  // ---------------------------------------------------------------- integers as text

  predicate IsDigit(c: char) {
    '0' <= c <= '9'
  }

  predicate AllDigits(s: string) {
    forall i :: 0 <= i < |s| ==> IsDigit(s[i])
  }

  /** The longest prefix of `s` made of decimal digits. */
  function LeadingDigits(s: string): (ds: string)
    ensures |ds| <= |s| && ds == s[..|ds|]
    ensures AllDigits(ds)
    ensures |ds| < |s| ==> !IsDigit(s[|ds|])
  {
    if s != [] && IsDigit(s[0]) then [s[0]] + LeadingDigits(s[1..]) else ""
  }

  function DigitsValue(ds: string): nat
    requires AllDigits(ds)
  {
    if ds == [] then 0 else DigitsValue(ds[..|ds| - 1]) * 10 + (ds[|ds| - 1] as int - '0' as int)
  }

  /** The `(int)` cast of a string, as the daemon needs it: the value of the leading decimal
      digits, 0 when there are none. */
  function IntCast(s: string): nat {
    DigitsValue(LeadingDigits(s))
  }

  function DigitChar(d: nat): (c: char)
    requires d < 10
    ensures IsDigit(c) && c as int - '0' as int == d
  {
    ('0' as int + d) as char
  }

  /** The decimal rendering of `n` (what `echo $!` prints for a PID): digits only, without a
      leading zero, so that it is a truthy PHP string exactly when `n` is not 0. */
  function Decimal(n: nat): (s: string)
    ensures s != [] && AllDigits(s)
    ensures n > 0 ==> s[0] != '0'
  {
    if n < 10 then [DigitChar(n)] else Decimal(n / 10) + [DigitChar(n % 10)]
  }

  lemma {:induction false} DigitsValueOfDecimal(n: nat)
    ensures DigitsValue(Decimal(n)) == n
  {
    var s := Decimal(n);
    if n >= 10 {
      assert s[..|s| - 1] == Decimal(n / 10);
      DigitsValueOfDecimal(n / 10);
    }
  }

  /** Reading back the decimal rendering of a number with `(int)` gives the number. */
  lemma IntCastOfDecimal(n: nat)
    ensures IntCast(Decimal(n)) == n
  {
    var s := Decimal(n);
    assert LeadingDigits(s) == s;
    DigitsValueOfDecimal(n);
  }

  lemma IntCastOfEveryDecimal()
    ensures forall n: nat :: IntCast(Decimal(n)) == n
  {
    forall n: nat ensures IntCast(Decimal(n)) == n {
      IntCastOfDecimal(n);
    }
  }

  /** PHP's truthiness of a string: only "" and "0" are falsy. */
  predicate Truthy(s: string) {
    s != "" && s != "0"
  }

  lemma DecimalTruthy(n: nat)
    ensures Truthy(Decimal(n)) <==> n > 0
  {
    var s := Decimal(n);
    if n == 0 {
      assert s == "0";
    } else {
      assert s[0] != '0';
    }
  }
}
