/**
 * The Python `str` operations the movie-identity and cache logic relies on,
 * written over `seq<char>`. Case mapping and the `\w` class are the ASCII
 * part of Python's Unicode rules; `IsSpace` is the full `str.isspace` set.
 */
module Text {
  import opened Wrappers

  type String = seq<char>

  // ---------------------------------------------------------------------------
  // Character classes

  /** `str.isspace`: the characters that `strip()` and `split()` remove. */
  predicate IsSpace(c: char) {
    c == ' ' || ('\t' <= c <= '\r') || ('\U{1c}' <= c <= '\U{1f}') || c == '\U{85}' || c == '\U{a0}'
    || c == '\U{1680}' || ('\U{2000}' <= c <= '\U{200a}') || c == '\U{2028}' || c == '\U{2029}'
    || c == '\U{202f}' || c == '\U{205f}' || c == '\U{3000}'
  }

  predicate IsDigit(c: char) { '0' <= c <= '9' }
  predicate IsUpper(c: char) { 'A' <= c <= 'Z' }
  predicate IsLower(c: char) { 'a' <= c <= 'z' }

  /** A cased character in the sense of `str.title`. */
  predicate IsCased(c: char) { IsUpper(c) || IsLower(c) }

  /** The `\w` class of Python's `re`. */
  predicate IsWordChar(c: char) { IsCased(c) || IsDigit(c) || c == '_' }

  function LowerChar(c: char): char {
    if IsUpper(c) then (c as int + 32) as char else c
  }

  function UpperChar(c: char): char {
    if IsLower(c) then (c as int - 32) as char else c
  }

  // ---------------------------------------------------------------------------
  // Whole-string transformations

  /** `str.lower()` (also used for `str.casefold()`). */
  function Lower(s: String): (r: String)
    ensures |r| == |s|
    ensures forall i :: 0 <= i < |s| ==> r[i] == LowerChar(s[i])
  {
    seq(|s|, i requires 0 <= i < |s| => LowerChar(s[i]))
  }

  /** `s.replace(a, b)` for one-character `a` and `b`. */
  function ReplaceChar(s: String, a: char, b: char): (r: String)
    ensures |r| == |s|
    ensures forall i :: 0 <= i < |s| ==> r[i] == if s[i] == a then b else s[i]
  {
    seq(|s|, i requires 0 <= i < |s| => if s[i] == a then b else s[i])
  }

  /** `str.title()`: a cased character is upper-cased after an uncased one and lower-cased after a cased one. */
  function TitleFrom(s: String, afterCased: bool): (r: String)
    ensures |r| == |s|
  {
    if s == [] then []
    else
      var c := if !IsCased(s[0]) then s[0] else if afterCased then LowerChar(s[0]) else UpperChar(s[0]);
      [c] + TitleFrom(s[1..], IsCased(s[0]))
  }

  function TitleCase(s: String): String {
    TitleFrom(s, false)
  }

  /** The characters of `s` that are not in `bad`, in order. */
  function Without(s: String, bad: String): (r: String)
    ensures |r| <= |s|
  {
    if s == [] then [] else (if s[0] in bad then [] else [s[0]]) + Without(s[1..], bad)
  }

  /** `Without` keeps exactly the characters that are not in `bad`. */
  lemma {:induction false} WithoutMembers(s: String, bad: String, c: char)
    ensures c in Without(s, bad) <==> c in s && c !in bad
    decreases |s|
  {
    if s != [] {
      WithoutMembers(s[1..], bad, c);
      assert s == [s[0]] + s[1..];
    }
  }

  lemma {:induction false} WithoutConcat(a: String, b: String, bad: String)
    ensures Without(a + b, bad) == Without(a, bad) + Without(b, bad)
    decreases |a|
  {
    if a != [] {
      WithoutConcat(a[1..], b, bad);
      assert (a + b)[1..] == a[1..] + b;
    } else {
      assert a + b == b;
    }
  }

  /** Deleting absent characters changes nothing. */
  lemma {:induction false} WithoutNothing(s: String, bad: String)
    requires forall i :: 0 <= i < |s| ==> s[i] !in bad
    ensures Without(s, bad) == s
    decreases |s|
  {
    if s != [] {
      var t := s[1..];
      forall i | 0 <= i < |t| ensures t[i] !in bad {
        assert t[i] == s[i + 1];
      }
      WithoutNothing(t, bad);
      assert s[0] !in bad;
      assert Without(s, bad) == [s[0]] + Without(t, bad);
      assert [s[0]] + t == s;
    }
  }

  lemma WithoutCons(c: char, s: String, bad: String)
    ensures Without([c] + s, bad) == (if c in bad then [] else [c]) + Without(s, bad)
  {
    assert ([c] + s)[1..] == s;
  }

  /** The separators `": /"` and `"\\"` leave only the space. */
  lemma SeparatorsGone(bad: String)
    requires ':' in bad && '/' in bad && '\\' in bad && ' ' !in bad
    ensures Without(": /", bad) == " " && Without("\\", bad) == []
  {
    assert ": /" == [':'] + " /" && " /" == [' '] + "/" && "/" == ['/'] + [] && "\\" == ['\\'] + [];
    WithoutCons('/', [], bad);
    WithoutCons(' ', "/", bad);
    WithoutCons(':', " /", bad);
    WithoutCons('\\', [], bad);
  }

  /**
   * Two words with `": /"` between them and `"\\"` after them lose the
   * deleted separators and keep the space, when `:`, `/` and `\` are
   * deleted, the space is not, and no character of the words is.
   */
  lemma WithoutSeparators(w1: String, w2: String, bad: String)
    requires forall i :: 0 <= i < |w1| ==> w1[i] !in bad
    requires forall i :: 0 <= i < |w2| ==> w2[i] !in bad
    requires ':' in bad && '/' in bad && '\\' in bad && ' ' !in bad
    ensures Without(w1 + ": /" + w2 + "\\", bad) == w1 + " " + w2
  {
    WithoutNothing(w1, bad);
    WithoutNothing(w2, bad);
    var sep, end := ": /", "\\";
    SeparatorsGone(bad);
    WithoutConcat(w1, sep, bad);
    WithoutConcat(w1 + sep, w2, bad);
    WithoutConcat(w1 + sep + w2, end, bad);
  }

  /** `s.replace(old, new)`: non-overlapping occurrences, left to right (an empty `old` matches between every two characters). */
  function Replace(s: String, pat: String, rep: String): String
    decreases |s|
  {
    if pat == [] then
      if s == [] then rep else rep + [s[0]] + Replace(s[1..], pat, rep)
    else if |s| < |pat| then s
    else if s[..|pat|] == pat then rep + Replace(s[|pat|..], pat, rep)
    else [s[0]] + Replace(s[1..], pat, rep)
  }

  lemma {:induction false} ReplaceKeepsAbsent(s: String, pat: String, rep: String, c: char)
    requires c !in s && c !in rep
    ensures c !in Replace(s, pat, rep)
    decreases |s|
  {
    if pat == [] {
      if s != [] {
        ReplaceKeepsAbsent(s[1..], pat, rep, c);
      }
    } else if |s| < |pat| {
    } else if s[..|pat|] == pat {
      ReplaceKeepsAbsent(s[|pat|..], pat, rep, c);
    } else {
      ReplaceKeepsAbsent(s[1..], pat, rep, c);
    }
  }

  /** Deleting every occurrence of one character is `Without`. */
  lemma {:induction false} ReplaceDeletes(s: String, c: char)
    ensures Replace(s, [c], []) == Without(s, [c])
    decreases |s|
  {
    if s != [] {
      ReplaceDeletes(s[1..], c);
      if s[0] == c {
        assert s[..1] == [c];
      } else {
        assert s[..1] != [c];
      }
    }
  }

  /** With no occurrence of `pat` starting inside `a`, replacing in `a + b` leaves `a` as it is. */
  lemma {:induction false} ReplaceAfter(a: String, b: String, pat: String, rep: String)
    requires pat != []
    requires forall j :: 0 <= j < |a| ==> !OccursAt(a + b, pat, j)
    ensures Replace(a + b, pat, rep) == a + Replace(b, pat, rep)
    decreases |a|
  {
    var s := a + b;
    if a == [] {
      assert s == b;
    } else if |s| < |pat| {
      assert Replace(b, pat, rep) == b;
    } else {
      assert !OccursAt(s, pat, 0);
      assert s[..|pat|] != pat;
      var t := a[1..] + b;
      assert s[1..] == t;
      assert Replace(s, pat, rep) == [a[0]] + Replace(t, pat, rep);
      forall j | 0 <= j < |a| - 1
        ensures !OccursAt(t, pat, j)
      {
        assert !OccursAt(s, pat, j + 1);
      }
      ReplaceAfter(a[1..], b, pat, rep);
      assert a == [a[0]] + a[1..];
    }
  }

  /** `replace` leaves a string without `pat` as it is. */
  lemma ReplaceAbsent(s: String, pat: String, rep: String)
    requires pat != [] && !Contains(s, pat)
    ensures Replace(s, pat, rep) == s
  {
    forall j | 0 <= j < |s| ensures !OccursAt(s + [], pat, j) {
      assert s + [] == s;
    }
    ReplaceAfter(s, [], pat, rep);
    assert s + [] == s;
  }

  /** A string that starts with `pat` has that occurrence replaced first. */
  lemma ReplaceAtStart(pat: String, rest: String, rep: String)
    requires pat != []
    ensures Replace(pat + rest, pat, rep) == rep + Replace(rest, pat, rep)
  {
    assert (pat + rest)[..|pat|] == pat && (pat + rest)[|pat|..] == rest;
  }

  /** Deleting the one occurrence of `pat`, after a prefix where none starts and before a rest without any, joins what comes before and after it. */
  lemma DeleteOnce(a: String, pat: String, rest: String)
    requires pat != [] && !Contains(rest, pat)
    requires forall j :: 0 <= j < |a| ==> !OccursAt(a + (pat + rest), pat, j)
    ensures Replace(a + (pat + rest), pat, []) == a + rest
  {
    ReplaceAfter(a, pat + rest, pat, []);
    ReplaceAtStart(pat, rest, []);
    ReplaceAbsent(rest, pat, []);
    assert [] + rest == rest;
  }

  // ---------------------------------------------------------------------------
  // strip()

  function LeadingSpaces(s: String): (n: nat)
    ensures n <= |s|
    ensures forall i :: 0 <= i < n ==> IsSpace(s[i])
    ensures n < |s| ==> !IsSpace(s[n])
  {
    if s != [] && IsSpace(s[0]) then 1 + LeadingSpaces(s[1..]) else 0
  }

  function TrailingSpaces(s: String): (n: nat)
    ensures n <= |s|
    ensures forall i :: |s| - n <= i < |s| ==> IsSpace(s[i])
    ensures n < |s| ==> !IsSpace(s[|s| - 1 - n])
  {
    if s != [] && IsSpace(s[|s| - 1]) then 1 + TrailingSpaces(s[..|s| - 1]) else 0
  }

  /** No whitespace at either end. */
  predicate Stripped(s: String) {
    s == [] || (!IsSpace(s[0]) && !IsSpace(s[|s| - 1]))
  }

  /** `str.strip()`: the middle of `s` between its leading and trailing whitespace. */
  function Strip(s: String): (r: String)
    ensures |r| <= |s|
    ensures Stripped(r)
    ensures LeadingSpaces(s) + |r| <= |s|
    ensures forall j :: 0 <= j < |r| ==> r[j] == s[LeadingSpaces(s) + j]
    ensures forall i :: 0 <= i < |s| && !IsSpace(s[i]) ==>
              LeadingSpaces(s) <= i < LeadingSpaces(s) + |r|
  {
    var t := s[LeadingSpaces(s)..];
    t[..|t| - TrailingSpaces(t)]
  }

  lemma StripStripped(s: String)
    requires Stripped(s)
    ensures Strip(s) == s
  {
  }

  lemma StripKeepsAbsent(s: String, c: char)
    requires c !in s
    ensures c !in Strip(s)
  {
  }

  // ---------------------------------------------------------------------------
  // Searching

  predicate OccursAt(s: String, w: String, i: int) {
    0 <= i && i + |w| <= |s| && s[i..i + |w|] == w
  }

  /** Python's `w in s` for strings. */
  predicate Contains(s: String, w: String) {
    exists i :: 0 <= i <= |s| - |w| && OccursAt(s, w, i)
  }

  predicate StartsWith(s: String, p: String) {
    |p| <= |s| && s[..|p|] == p
  }

  /** `str.find`: the first index at which `w` occurs in `s` at or after `from`, or -1. */
  function FindFrom(s: String, w: String, from: nat): (r: int)
    ensures r == -1 || (from <= r && OccursAt(s, w, r))
    ensures r == -1 ==> forall j :: from <= j ==> !OccursAt(s, w, j)
    ensures r != -1 ==> forall j :: from <= j < r ==> !OccursAt(s, w, j)
    decreases |s| - from
  {
    if from + |w| > |s| then -1
    else if s[from..from + |w|] == w then from
    else FindFrom(s, w, from + 1)
  }

  function Find(s: String, w: String): int {
    FindFrom(s, w, 0)
  }

  /** `str.rfind` for one character. */
  function RFind(s: String, c: char): (r: int)
    ensures -1 <= r < |s|
    ensures r >= 0 ==> s[r] == c
    ensures forall j :: r < j < |s| ==> s[j] != c
  {
    if s == [] then -1
    else if s[|s| - 1] == c then |s| - 1
    else RFind(s[..|s| - 1], c)
  }

  /** `s.split(sep)[0]`: the part before the first `sep`. */
  function FirstSegment(s: String, sep: char): (r: String)
    ensures sep !in r
    ensures StartsWith(s, r)
  {
    if s == [] || s[0] == sep then [] else [s[0]] + FirstSegment(s[1..], sep)
  }

  // ---------------------------------------------------------------------------
  // split() and join()

  function WordLength(s: String): (n: nat)
    ensures n <= |s|
    ensures forall i :: 0 <= i < n ==> !IsSpace(s[i])
    ensures n < |s| ==> IsSpace(s[n])
  {
    if s != [] && !IsSpace(s[0]) then 1 + WordLength(s[1..]) else 0
  }

  /** `str.split()` with no separator: the maximal runs of non-whitespace. */
  function Words(s: String): seq<String>
    decreases |s|
  {
    var k := LeadingSpaces(s);
    if k == |s| then []
    else
      var t := s[k..];
      assert t[0] == s[k];
      var n := WordLength(t);
      [t[..n]] + Words(t[n..])
  }

  function Join(words: seq<String>, sep: String): String {
    if words == [] then []
    else if |words| == 1 then words[0]
    else words[0] + sep + Join(words[1..], sep)
  }

  // ---------------------------------------------------------------------------
  // Numbers

  function DigitChar(d: nat): char
    requires d < 10
  {
    ('0' as int + d) as char
  }

  /** `str(n)` for a natural number. */
  function NatText(n: nat): String {
    if n < 10 then [DigitChar(n)] else NatText(n / 10) + [DigitChar(n % 10)]
  }

  /** `str(n)` for an integer. */
  function IntText(n: int): String {
    if n < 0 then "-" + NatText(-n) else NatText(n)
  }

  lemma {:induction false} NatTextDigits(n: nat)
    ensures forall i :: 0 <= i < |NatText(n)| ==> IsDigit(NatText(n)[i])
  {
    if n >= 10 {
      NatTextDigits(n / 10);
    }
  }

  /** `str(n)` is made of digits and a leading minus sign. */
  lemma IntTextChars(n: int)
    ensures forall i :: 0 <= i < |IntText(n)| ==> IsDigit(IntText(n)[i]) || IntText(n)[i] == '-'
  {
    NatTextDigits(if n < 0 then -n else n);
  }

  /** `str.isdigit()` (ASCII digits). */
  predicate IsDecimal(s: String) {
    s != [] && forall i :: 0 <= i < |s| ==> IsDigit(s[i])
  }

  /** `int(s)` for a string of decimal digits. */
  function DecimalValue(s: String): nat
    requires forall i :: 0 <= i < |s| ==> IsDigit(s[i])
  {
    if s == [] then 0
    else
      assert IsDigit(s[|s| - 1]);
      10 * DecimalValue(s[..|s| - 1]) + (s[|s| - 1] as int - '0' as int)
  }

  // ---------------------------------------------------------------------------
  // re.search for patterns of one shape: a literal lead, a group of `width`
  // characters of one class, a literal tail

  datatype CharClass = WordClass | NonSpaceClass

  /** `\w` or `\S`. */
  predicate InClass(c: char, k: CharClass) {
    match k
    case WordClass => IsWordChar(c)
    case NonSpaceClass => !IsSpace(c)
  }

  datatype Pattern = Pattern(lead: String, width: nat, cls: CharClass, tail: String)

  predicate MatchesAt(t: String, p: Pattern, i: nat) {
    var g := i + |p.lead|;
    g + p.width + |p.tail| <= |t|
    && t[i..g] == p.lead
    && (forall j :: g <= j < g + p.width ==> InClass(t[j], p.cls))
    && t[g + p.width..g + p.width + |p.tail|] == p.tail
  }

  /** The index of the leftmost match at or after `from`, or -1. */
  function SearchFrom(t: String, p: Pattern, from: nat): (r: int)
    ensures r == -1 || (from <= r && MatchesAt(t, p, r))
    ensures r == -1 ==> forall j :: from <= j ==> !MatchesAt(t, p, j)
    ensures r != -1 ==> forall j :: from <= j < r ==> !MatchesAt(t, p, j)
    decreases |t| - from
  {
    if from + |p.lead| + p.width + |p.tail| > |t| then -1
    else if MatchesAt(t, p, from) then from
    else SearchFrom(t, p, from + 1)
  }

  /** `re.search(p, t)[1]`: the group of the leftmost match, if there is one. */
  function Search(t: String, p: Pattern): (r: Option<String>)
    ensures r.Some? ==> |r.value| == p.width && forall j :: 0 <= j < p.width ==> InClass(r.value[j], p.cls)
    ensures r.None? <==> forall j: nat :: !MatchesAt(t, p, j)
  {
    var i := SearchFrom(t, p, 0);
    if i == -1 then None else Some(t[i + |p.lead|..i + |p.lead| + p.width])
  }

  // ---------------------------------------------------------------------------
  // pathlib names

  /** `PurePath.suffix` of a file name. */
  function Suffix(name: String): String {
    var i := RFind(name, '.');
    if 0 < i < |name| - 1 then name[i..] else []
  }

  /** `PurePath.stem` of a file name. */
  function Stem(name: String): String {
    var i := RFind(name, '.');
    if 0 < i < |name| - 1 then name[..i] else name
  }

  /** `PurePath.name`: the last component of a `/`-separated path. */
  function BaseName(p: String): String {
    p[RFind(p, '/') + 1..]
  }

  // ---------------------------------------------------------------------------
  // Ordering by `str.casefold` and `sorted(..., key=str.casefold)`

  /** Python's `<=` on strings: lexicographic by code point. */
  predicate LexLeq(a: String, b: String)
    decreases |a|
  {
    a == [] || (b != [] && (a[0] < b[0] || (a[0] == b[0] && LexLeq(a[1..], b[1..]))))
  }

  lemma {:induction false} LexTotal(a: String, b: String)
    ensures LexLeq(a, b) || LexLeq(b, a)
    decreases |a|
  {
    if a != [] && b != [] && a[0] == b[0] {
      LexTotal(a[1..], b[1..]);
    }
  }

  lemma {:induction false} LexTrans(a: String, b: String, c: String)
    requires LexLeq(a, b) && LexLeq(b, c)
    ensures LexLeq(a, c)
    decreases |a|
  {
    if a != [] && b != [] && c != [] && a[0] == b[0] && b[0] == c[0] {
      LexTrans(a[1..], b[1..], c[1..]);
    }
  }

  /** `a.casefold() <= b.casefold()`. */
  predicate FoldLeq(a: String, b: String) {
    LexLeq(Lower(a), Lower(b))
  }

  predicate SortedByFold(s: seq<String>) {
    forall i, j :: 0 <= i < j < |s| ==> FoldLeq(s[i], s[j])
  }

  predicate NoDup<T(==)>(s: seq<T>) {
    forall i, j :: 0 <= i < j < |s| ==> s[i] != s[j]
  }

  /** `order` lists every element of `s` once: an iteration order of the set. */
  ghost predicate Enumerates<T(!new)>(order: seq<T>, s: set<T>) {
    NoDup(order) && forall x :: x in order <==> x in s
  }

  lemma {:induction false} NoDupSize<T>(order: seq<T>)
    requires NoDup(order)
    ensures |set x | x in order| == |order|
  {
    if order != [] {
      var last := order[|order| - 1];
      var init := order[..|order| - 1];
      NoDupSize(init);
      assert order == init + [last];
      assert (set x | x in order) == (set x | x in init) + {last};
      assert last !in init;
    }
  }

  lemma EnumerationSize<T(!new)>(order: seq<T>, s: set<T>)
    requires Enumerates(order, s)
    ensures |order| == |s|
  {
    NoDupSize(order);
    assert (set x | x in order) == s;
  }

  /** Inserts `x` before the first element it does not follow, so equal keys keep their order. */
  function InsertByFold(x: String, s: seq<String>): (r: seq<String>)
    ensures multiset(r) == multiset(s) + multiset{x}
  {
    if s == [] then [x]
    else if FoldLeq(x, s[0]) then [x] + s
    else
      assert s == [s[0]] + s[1..];
      [s[0]] + InsertByFold(x, s[1..])
  }

  /** Every element of `InsertByFold(x, s)` is `x` or an element of `s`. */
  lemma InsertMembers(x: String, s: seq<String>, k: String)
    requires k in InsertByFold(x, s)
    ensures k == x || k in s
  {
    assert k in multiset(InsertByFold(x, s));
  }

  lemma {:induction false} InsertSorted(x: String, s: seq<String>)
    requires SortedByFold(s)
    ensures SortedByFold(InsertByFold(x, s))
  {
    if s == [] {
    } else if FoldLeq(x, s[0]) {
      var r := [x] + s;
      forall j | 1 <= j < |r| ensures FoldLeq(x, r[j]) {
        if j > 1 { LexTrans(Lower(x), Lower(s[0]), Lower(s[j - 1])); }
      }
    } else {
      var t := InsertByFold(x, s[1..]);
      InsertSorted(x, s[1..]);
      LexTotal(Lower(x), Lower(s[0]));
      var r := [s[0]] + t;
      assert r == InsertByFold(x, s);
      forall j | 0 < j < |r| ensures FoldLeq(s[0], r[j]) {
        InsertMembers(x, s[1..], r[j]);
        if r[j] != x {
          var k :| 0 <= k < |s[1..]| && s[1..][k] == r[j];
          assert s[k + 1] == r[j];
        }
      }
    }
  }

  lemma {:induction false} InsertNoDup(x: String, s: seq<String>)
    requires x !in s && NoDup(s)
    ensures NoDup(InsertByFold(x, s))
  {
    if s != [] && !FoldLeq(x, s[0]) {
      var t := InsertByFold(x, s[1..]);
      InsertNoDup(x, s[1..]);
      if s[0] in t {
        InsertMembers(x, s[1..], s[0]);
        assert false;
      }
    }
  }

  lemma HeadNotInTail(s: seq<String>)
    requires s != [] && NoDup(s)
    ensures s[0] !in multiset(s[1..])
  {
  }

  /** `sorted(s, key=str.casefold)`, which is stable. */
  function SortByFold(s: seq<String>): (r: seq<String>)
    ensures multiset(r) == multiset(s)
  {
    if s == [] then []
    else
      assert s == [s[0]] + s[1..];
      InsertByFold(s[0], SortByFold(s[1..]))
  }

  lemma {:induction false} SortByFoldSorted(s: seq<String>)
    ensures SortedByFold(SortByFold(s))
  {
    if s != [] {
      SortByFoldSorted(s[1..]);
      InsertSorted(s[0], SortByFold(s[1..]));
    }
  }

  lemma SortByFoldMembers(s: seq<String>)
    ensures forall x :: x in SortByFold(s) <==> x in s
  {
    assert forall x :: x in SortByFold(s) <==> x in multiset(SortByFold(s));
    assert forall x :: x in s <==> x in multiset(s);
  }

  /** The elements of `s` whose case-folded form is `k`, in order. */
  function WithFold(s: seq<String>, k: String): (r: seq<String>)
    ensures forall x :: x in r ==> x in s && Lower(x) == k
  {
    if s == [] then []
    else (if Lower(s[0]) == k then [s[0]] else []) + WithFold(s[1..], k)
  }

  /** Inserting `x` puts it before every element with its case-folded form. */
  lemma {:induction false} InsertStable(x: String, s: seq<String>, k: String)
    ensures WithFold(InsertByFold(x, s), k) == (if Lower(x) == k then [x] else []) + WithFold(s, k)
  {
    if s == [] {
    } else if FoldLeq(x, s[0]) {
      assert ([x] + s)[1..] == s;
    } else {
      InsertStable(x, s[1..], k);
      LexTotal(Lower(x), Lower(x));
      assert ([s[0]] + InsertByFold(x, s[1..]))[1..] == InsertByFold(x, s[1..]);
    }
  }

  /** `SortByFold` is stable: the elements with one case-folded form keep their order. */
  lemma {:induction false} SortByFoldStable(s: seq<String>)
    ensures forall k :: WithFold(SortByFold(s), k) == WithFold(s, k)
  {
    if s != [] {
      SortByFoldStable(s[1..]);
      forall k ensures WithFold(SortByFold(s), k) == WithFold(s, k) {
        InsertStable(s[0], SortByFold(s[1..]), k);
      }
    }
  }

  /** Replacing characters commutes with dropping a prefix. */
  lemma ReplaceCharDrop(s: String, a: char, b: char, k: nat)
    requires k <= |s|
    ensures ReplaceChar(s, a, b)[k..] == ReplaceChar(s[k..], a, b)
  {
  }

  lemma {:induction false} SortByFoldNoDup(s: seq<String>)
    requires NoDup(s)
    ensures NoDup(SortByFold(s))
  {
    if s != [] {
      var t := SortByFold(s[1..]);
      SortByFoldNoDup(s[1..]);
      HeadNotInTail(s);
      assert s[0] !in multiset(t);
      InsertNoDup(s[0], t);
    }
  }

  /** `list(dict.fromkeys(s))`: first occurrences, in order. */
  function Dedup<T(==,!new)>(s: seq<T>): (r: seq<T>)
    ensures NoDup(r)
    ensures forall x :: x in r <==> x in s
  {
    if s == [] then []
    else
      var r := Dedup(s[..|s| - 1]);
      assert s == s[..|s| - 1] + [s[|s| - 1]];
      if s[|s| - 1] in r then r else r + [s[|s| - 1]]
  }
}
