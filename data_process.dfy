/**
 * `filter_name`: the rule every movie title and collection name goes through.
 * A name is rejected by the first of four regular expressions it matches
 * (`re.match`, so anchored at the start); otherwise the characters
 * `/ \ : ; "` are deleted and surrounding whitespace is stripped.
 */
module DataProcess {
  import opened Wrappers
  import opened Text

  datatype NameError =
    | EmptyName            // "Name cannot be empty."
    | OnlySpaces           // "Name cannot contain only spaces."
    | OnlySpecial          // "Name cannot contain only special characters."
    | TooLong(limit: nat)  // "Name cannot exceed {limit} characters."
    | UnknownError         // "An unknown error has occurred."

  /** The four forbidden-name patterns. */
  datatype Pattern =
    | EmptyRe        // ^$
    | SpacesRe       // ^ +$
    | SpecialRe      // ^\W+$
    | AtLeast(n: nat) // .{n,}

  /** Where `$` can match: at the very end, or just before a final newline. */
  predicate EndAt(s: String, j: int) {
    j == |s| || (0 <= j == |s| - 1 && s[j] == '\n')
  }

  /** `re.match(p, s)` succeeds: some prefix of `s` fits the pattern (`.` does not match a newline). */
  predicate Matches(p: Pattern, s: String) {
    match p
    case EmptyRe => EndAt(s, 0)
    case SpacesRe => exists j :: 1 <= j <= |s| && EndAt(s, j) && forall i :: 0 <= i < j ==> s[i] == ' '
    case SpecialRe => exists j :: 1 <= j <= |s| && EndAt(s, j) && forall i :: 0 <= i < j ==> !IsWordChar(s[i])
    case AtLeast(n) => n <= |s| && forall i :: 0 <= i < n ==> s[i] != '\n'
  }

  /** The table `forbidden_names`, in its insertion order. */
  function ForbiddenNames(limit: nat): seq<(Pattern, NameError)> {
    [(EmptyRe, EmptyName), (SpacesRe, OnlySpaces), (SpecialRe, OnlySpecial), (AtLeast(limit), TooLong(limit))]
  }

  /** The error of the first table row whose pattern matches `s`. */
  function FirstViolation(table: seq<(Pattern, NameError)>, s: String): (r: Option<NameError>)
    ensures r.None? <==> forall k :: 0 <= k < |table| ==> !Matches(table[k].0, s)
    ensures r.Some? ==> exists k :: 0 <= k < |table| && Matches(table[k].0, s) && table[k].1 == r.value &&
                                    forall j :: 0 <= j < k ==> !Matches(table[j].0, s)
  {
    if table == [] then None
    else if Matches(table[0].0, s) then Some(table[0].1)
    else
      var r := FirstViolation(table[1..], s);
      assert forall k :: 1 <= k < |table| ==> table[k] == table[1..][k - 1];
      r
  }

  /** The characters deleted from an accepted name. */
  const Unwanted: String := "/\\:;\""

  /** What `filter_name(name, limit)` returns or raises. */
  function FilterNameSpec(name: String, limit: nat): Result<String, NameError> {
    match FirstViolation(ForbiddenNames(limit), name)
    case Some(e) => Err(e)
    case None =>
      var n := Strip(Without(name, Unwanted));
      if n != [] then Ok(n) else Err(UnknownError)
  }

  lemma {:induction false} WithoutAppend(s: String, bad: String, c: char)
    ensures Without(Without(s, bad), [c]) == Without(s, bad + [c])
    decreases |s|
  {
    if s != [] {
      WithoutAppend(s[1..], bad, c);
      var w := Without(s[1..], bad);
      if s[0] in bad {
        assert Without(s, bad) == w;
        assert Without(s, bad + [c]) == Without(s[1..], bad + [c]);
      } else {
        assert Without(s, bad) == [s[0]] + w;
        assert ([s[0]] + w)[1..] == w;
        assert Without([s[0]] + w, [c]) == (if s[0] == c then [] else [s[0]]) + Without(w, [c]);
        assert Without(s, bad + [c]) == (if s[0] == c then [] else [s[0]]) + Without(s[1..], bad + [c]);
      }
    }
  }

  /** `filter_name`: the check loop over the table, then the deletion loop, then `strip`. */
  method FilterName(name: String, limit: nat) returns (r: Result<String, NameError>)
    ensures r == FilterNameSpec(name, limit)
  {
    var table := ForbiddenNames(limit);
    for k := 0 to |table|
      invariant FirstViolation(table[k..], name) == FirstViolation(table, name)
    {
      assert table[k..][0] == table[k] && table[k..][1..] == table[k + 1..];
      if Matches(table[k].0, name) {
        return Err(table[k].1);
      }
    }
    var n := DeleteAll(name, Unwanted);
    n := Strip(n);
    if n != [] {
      return Ok(n);
    }
    return Err(UnknownError);
  }

  /** The deletion loop: `name.replace(c, "")` for each character `c` of `bad` in turn. */
  method DeleteAll(name: String, bad: String) returns (n: String)
    ensures n == Without(name, bad)
  {
    n := name;
    WithoutNothing(name, []);
    for k := 0 to |bad|
      invariant n == Without(name, bad[..k])
    {
      ReplaceDeletes(n, bad[k]);
      WithoutAppend(name, bad[..k], bad[k]);
      assert bad[..k + 1] == bad[..k] + [bad[k]];
      n := Replace(n, [bad[k]], []);
    }
    assert bad[..|bad|] == bad;
  }

  // ---------------------------------------------------------------------------
  // What the rule accepts and rejects

  /** The empty name, a name of spaces, and a name without any word character are refused. */
  lemma RejectsBlankNames(name: String, limit: nat)
    requires name == [] || (forall i :: 0 <= i < |name| ==> name[i] == ' ')
             || (forall i :: 0 <= i < |name| ==> !IsWordChar(name[i]))
    ensures FilterNameSpec(name, limit).Err?
  {
    if name != [] {
      assert EndAt(name, |name|);
      assert Matches(SpecialRe, name);
      assert ForbiddenNames(limit)[2].0 == SpecialRe;
    } else {
      assert Matches(ForbiddenNames(limit)[0].0, name);
    }
  }

  /** A name of `limit` or more characters, none of them a newline, is refused as too long. */
  lemma RejectsLongNames(name: String, limit: nat)
    ensures limit <= |name| && '\n' !in name ==> FilterNameSpec(name, limit).Err?
  {
    if limit <= |name| && '\n' !in name {
      assert Matches(ForbiddenNames(limit)[3].0, name);
    }
  }

  /** An accepted name was shorter than `limit`, unless a newline precedes position `limit`. */
  lemma AcceptedLength(name: String, limit: nat)
    requires FilterNameSpec(name, limit).Ok?
    ensures |name| < limit || '\n' in name[..limit]
  {
    assert ForbiddenNames(limit)[3].0 == AtLeast(limit);
    if limit <= |name| && '\n' !in name[..limit] {
      assert Matches(AtLeast(limit), name);
    }
  }

  /** A word character is never deleted and never stripped. */
  lemma WordCharSurvives(name: String, i: nat)
    requires i < |name| && IsWordChar(name[i])
    ensures Strip(Without(name, Unwanted)) != []
    ensures name[i] in Strip(Without(name, Unwanted))
  {
    var c := name[i];
    assert c in name;
    if c in Unwanted {
      UnwantedClass(c);
    }
    WithoutMembers(name, Unwanted, c);
    StripKeepsWord(Without(name, Unwanted), c);
  }

  lemma StripKeepsWord(w: String, c: char)
    requires c in w && IsWordChar(c)
    ensures c in Strip(w)
  {
    var k :| 0 <= k < |w| && w[k] == c;
    assert !IsSpace(w[k]);
    var r := Strip(w);
    assert r[k - LeadingSpaces(w)] == w[k];
  }

  /** The accepted names are exactly those no pattern matches, and the "unknown error" branch is dead. */
  lemma FilterNameOk(name: String, limit: nat)
    ensures FilterNameSpec(name, limit).Ok? <==>
              forall k :: 0 <= k < |ForbiddenNames(limit)| ==> !Matches(ForbiddenNames(limit)[k].0, name)
    ensures FilterNameSpec(name, limit) != Err(UnknownError)
  {
    var table := ForbiddenNames(limit);
    if FirstViolation(table, name).None? {
      assert !Matches(table[0].0, name) && !Matches(table[2].0, name);
      assert |name| != 0;
      assert EndAt(name, |name|);
      var i :| 0 <= i < |name| && IsWordChar(name[i]);
      WordCharSurvives(name, i);
    }
  }

  /** An accepted name has none of the deleted characters, no surrounding whitespace, and is no longer than the input. */
  lemma FilterNameShape(name: String, limit: nat)
    requires FilterNameSpec(name, limit).Ok?
    ensures var r := FilterNameSpec(name, limit).value;
      r != [] && Stripped(r) && |r| <= |name| &&
      (forall c :: c in Unwanted ==> c !in r) &&
      (exists i :: 0 <= i < |r| && IsWordChar(r[i]))
  {
    var table := ForbiddenNames(limit);
    assert !Matches(table[2].0, name);
    assert |name| != 0 by { assert !Matches(table[0].0, name); }
    assert EndAt(name, |name|);
    var i :| 0 <= i < |name| && IsWordChar(name[i]);
    WordCharSurvives(name, i);
    var r := FilterNameSpec(name, limit).value;
    forall c | c in Unwanted ensures c !in r {
      WithoutMembers(name, Unwanted, c);
      StripKeepsAbsent(Without(name, Unwanted), c);
    }
  }

  /** The deleted characters are neither word characters nor whitespace. */
  lemma UnwantedClass(c: char)
    requires c in Unwanted
    ensures !IsWordChar(c) && !IsSpace(c) && c != '\n'
  {
    assert c == Unwanted[0] || c == Unwanted[1] || c == Unwanted[2] || c == Unwanted[3] || c == Unwanted[4];
  }

  lemma NoSpacesMatch(s: String, i: nat)
    requires i < |s| && s[i] != ' ' && '\n' !in s
    ensures !Matches(SpacesRe, s)
  {
    assert s[|s| - 1] in s;
  }

  lemma NoSpecialMatch(s: String, i: nat)
    requires i < |s| && IsWordChar(s[i])
    ensures !Matches(SpecialRe, s)
  {
  }

  lemma NoneMatch(s: String, limit: nat)
    requires !Matches(EmptyRe, s) && !Matches(SpacesRe, s) && !Matches(SpecialRe, s) && !Matches(AtLeast(limit), s)
    ensures FirstViolation(ForbiddenNames(limit), s).None?
  {
    var table := ForbiddenNames(limit);
    assert !Matches(table[0].0, s) && !Matches(table[1].0, s) && !Matches(table[2].0, s) && !Matches(table[3].0, s);
  }

  /** A non-empty stripped name with a word character, no newline and fewer than `limit` characters matches no pattern. */
  lemma PassesChecks(s: String, limit: nat)
    requires Stripped(s) && s != [] && '\n' !in s && |s| < limit
    requires exists i :: 0 <= i < |s| && IsWordChar(s[i])
    ensures FirstViolation(ForbiddenNames(limit), s).None?
  {
    var i :| 0 <= i < |s| && IsWordChar(s[i]);
    NoSpacesMatch(s, i);
    NoSpecialMatch(s, i);
    assert !Matches(EmptyRe, s) by { assert s[0] in s; }
    NoneMatch(s, limit);
  }

  /** Filtering an accepted name again returns it unchanged, provided it held no newline. */
  lemma FilterNameIdempotent(name: String, limit: nat)
    requires FilterNameSpec(name, limit).Ok? && '\n' !in name
    ensures FilterNameSpec(FilterNameSpec(name, limit).value, limit) == FilterNameSpec(name, limit)
  {
    var r := FilterNameSpec(name, limit).value;
    FilterNameShape(name, limit);
    AcceptedLength(name, limit);
    var w := Without(name, Unwanted);
    assert '\n' !in r by {
      WithoutMembers(name, Unwanted, '\n');
      StripKeepsAbsent(w, '\n');
    }
    PassesChecks(r, limit);
    WithoutNothing(r, Unwanted);
    StripStripped(r);
  }

  /** A name already in filtered form, with no newline and shorter than the limit, is its own filtered form. */
  lemma FilterNameFixedPoint(s: String, limit: nat)
    requires Stripped(s) && s != [] && '\n' !in s && |s| < limit
    requires forall c :: c in Unwanted ==> c !in s
    requires exists i :: 0 <= i < |s| && IsWordChar(s[i])
    ensures FilterNameSpec(s, limit) == Ok(s)
  {
    PassesChecks(s, limit);
    forall i | 0 <= i < |s| ensures s[i] !in Unwanted {
      assert s[i] in s;
    }
    WithoutNothing(s, Unwanted);
    StripStripped(s);
  }

  lemma StripOneSpace(c: char, t: String)
    requires IsSpace(c) && t != [] && Stripped(t)
    ensures Strip([c] + t) == t
  {
    assert ([c] + t)[1..] == t;
    assert LeadingSpaces([c] + t) == 1;
  }

  lemma NewlinePassesChecks(w: String, limit: nat)
    requires 1 <= limit <= |w|
    requires forall i :: 0 <= i < |w| ==> IsWordChar(w[i])
    ensures FirstViolation(ForbiddenNames(limit), "\n" + w).None?
  {
    var name := "\n" + w;
    var table := ForbiddenNames(limit);
    assert name[1] == w[0];
    assert name[0] != ' ';
    NoSpecialMatch(name, 1);
    assert !Matches(table[0].0, name) && !Matches(table[1].0, name) && !Matches(table[2].0, name) && !Matches(table[3].0, name);
  }

  lemma WordKeepsAll(w: String)
    requires forall i :: 0 <= i < |w| ==> IsWordChar(w[i])
    ensures Without("\n" + w, Unwanted) == "\n" + w
  {
    var name := "\n" + w;
    forall i | 0 <= i < |name| ensures name[i] !in Unwanted {
      if i > 0 {
        assert name[i] == w[i - 1];
      }
      if name[i] in Unwanted {
        UnwantedClass(name[i]);
      }
    }
    WithoutNothing(name, Unwanted);
  }

  /** A newline followed by `limit` or more word characters is accepted: the newline hides them from `.{limit,}`. */
  lemma NewlineHidesLength(w: String, limit: nat)
    requires 1 <= limit <= |w|
    requires forall i :: 0 <= i < |w| ==> IsWordChar(w[i])
    ensures FilterNameSpec("\n" + w, limit) == Ok(w)
  {
    NewlinePassesChecks(w, limit);
    WordKeepsAll(w);
    StripOneSpace('\n', w);
  }

  /** A word of `limit` or more characters is refused as too long. */
  lemma LongWordRefused(w: String, limit: nat)
    requires 1 <= limit <= |w|
    requires forall i :: 0 <= i < |w| ==> IsWordChar(w[i])
    ensures FilterNameSpec(w, limit) == Err(TooLong(limit))
  {
    var table := ForbiddenNames(limit);
    NoSpecialMatch(w, 0);
    assert w[0] != ' ';
    assert !Matches(table[0].0, w) && !Matches(table[1].0, w) && !Matches(table[2].0, w) && Matches(table[3].0, w);
  }

  /**
   * The length limit counts only the characters before the first newline:
   * the newline-prefixed word is accepted, and the word it yields is then
   * refused as too long, so the filter is not idempotent on it.
   */
  lemma NewlineDefeatsLimit(w: String, limit: nat)
    requires 1 <= limit <= |w|
    requires forall i :: 0 <= i < |w| ==> IsWordChar(w[i])
    ensures FilterNameSpec("\n" + w, limit).Ok?
    ensures FilterNameSpec(FilterNameSpec("\n" + w, limit).value, limit) == Err(TooLong(limit))
  {
    NewlineHidesLength(w, limit);
    LongWordRefused(w, limit);
  }

  /**
   * Two words of word characters with `": /"` between them and `"\\"` after
   * them, short enough for the limit, are accepted as the words joined by
   * one space.
   */
  lemma SeparatorsDeleted(w1: String, w2: String, limit: nat)
    requires w1 != [] && w2 != [] && |w1| + |w2| + 4 < limit
    requires forall i :: 0 <= i < |w1| ==> IsWordChar(w1[i])
    requires forall i :: 0 <= i < |w2| ==> IsWordChar(w2[i])
    ensures FilterNameSpec(w1 + ": /" + w2 + "\\", limit) == Ok(w1 + " " + w2)
  {
    var name := w1 + ": /" + w2 + "\\";
    assert name[0] == w1[0];
    WordLedPasses(name, limit);
    SeparatorsWithout(w1, w2);
    var r := w1 + " " + w2;
    assert r[0] == w1[0] && r[|r| - 1] == w2[|w2| - 1];
    StripStripped(r);
  }

  lemma WordLedPasses(name: String, limit: nat)
    requires name != [] && IsWordChar(name[0]) && |name| < limit
    ensures FirstViolation(ForbiddenNames(limit), name).None?
  {
    NoSpecialMatch(name, 0);
    NoneMatch(name, limit);
  }

  lemma SeparatorsWithout(w1: String, w2: String)
    requires forall i :: 0 <= i < |w1| ==> IsWordChar(w1[i])
    requires forall i :: 0 <= i < |w2| ==> IsWordChar(w2[i])
    ensures Without(w1 + ": /" + w2 + "\\", Unwanted) == w1 + " " + w2
  {
    forall i | 0 <= i < |w1| ensures w1[i] !in Unwanted {
      if w1[i] in Unwanted {
        UnwantedClass(w1[i]);
      }
    }
    forall i | 0 <= i < |w2| ensures w2[i] !in Unwanted {
      if w2[i] in Unwanted {
        UnwantedClass(w2[i]);
      }
    }
    assert Unwanted[2] == ':' && Unwanted[0] == '/' && Unwanted[1] == '\\' && ' ' !in Unwanted;
    WithoutSeparators(w1, w2, Unwanted);
  }

  /** The title of the movie tests: `"My: /movie\\"` is accepted as `"My movie"`. */
  lemma FilterNameExample(name: String)
    requires name == "My: /movie\\"
    ensures FilterNameSpec(name, 60) == Ok("My movie")
  {
    var w1, w2 := "My", "movie";
    ExampleWords(w1, w2);
    SeparatorsDeleted(w1, w2, 60);
  }

  lemma ExampleWords(w1: String, w2: String)
    requires w1 == "My" && w2 == "movie"
    ensures forall i :: 0 <= i < |w1| ==> IsWordChar(w1[i])
    ensures forall i :: 0 <= i < |w2| ==> IsWordChar(w2[i])
    ensures w1 + ": /" + w2 + "\\" == "My: /movie\\" && w1 + " " + w2 == "My movie"
  {
  }
}
