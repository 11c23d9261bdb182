/** Aliases made from branch names: a slug, and the least number that is free behind it. */
module BranchAlias {
  import opened Wrappers
  import opened Text
  import opened Numerals
  import opened Sets

  predicate IsSlugChar(c: char) {
    'A' <= c <= 'Z' || 'a' <= c <= 'z' || '0' <= c <= '9' || c == '.' || c == '_' || c == '-'
  }

  /** Skip a run of characters that do not belong in a slug. */
  function SkipRun(s: string): (t: string)
    ensures |t| <= |s| && (t != [] ==> IsSlugChar(t[0]))
  {
    if s != [] && !IsSlugChar(s[0]) then SkipRun(s[1..]) else s
  }

  /** Replace each such run by one dash. */
  function Collapse(s: string): string
    decreases |s|
  {
    if s == [] then []
    else if IsSlugChar(s[0]) then [s[0]] + Collapse(s[1..])
    else ['-'] + Collapse(SkipRun(s[1..]))
  }

  function StripStart(s: string): string {
    if s != [] && s[0] == '-' then StripStart(s[1..]) else s
  }

  function StripEnd(s: string): string {
    if s != [] && s[|s| - 1] == '-' then StripEnd(s[..|s| - 1]) else s
  }

  function ToAliasSlug(value: string): string {
    StripEnd(StripStart(Collapse(Trim(value))))
  }

  predicate HasDots(s: string) {
    exists i :: 0 <= i < |s| - 1 && s[i] == '.' && s[i + 1] == '.'
  }

  predicate IsSafeAlias(alias: string) {
    '/' !in alias && '\\' !in alias && !HasDots(alias) && alias != []
  }

  function Checked(alias: string): Option<string> {
    if IsSafeAlias(alias) then Some(alias) else None
  }

  function CreateBranchAlias(branchName: string): Option<string> {
    var slug := ToAliasSlug(branchName);
    if slug == [] then None else Checked("branch-" + slug)
  }

  function CreateProjectBranchAlias(projectName: string, branchName: string): Option<string> {
    var project, branch := ToAliasSlug(projectName), ToAliasSlug(branchName);
    if project == [] || branch == [] then None else Checked("intra-" + project + "-branch-" + branch)
  }

  function Numbered(base: string, index: nat): string {
    base + "-" + Numeral(index, 10)
  }

  /** The session keeps an alias that begins like the wanted one. */
  predicate IsKept(base: string, current: Option<string>) {
    current.Some? && base + "-" <= current.value
  }

  // ---------------------------------------------------------------- slugs

  /** What a slug looks like: allowed characters, and no dash at either end. */
  predicate IsSlug(s: string) {
    (forall k | 0 <= k < |s| :: IsSlugChar(s[k])) && (s != [] ==> s[0] != '-' && s[|s| - 1] != '-')
  }

  predicate AllSlugChars(s: string) {
    forall k | 0 <= k < |s| :: IsSlugChar(s[k])
  }

  lemma {:induction false} CollapseCleans(s: string)
    ensures AllSlugChars(Collapse(s))
    ensures AllSlugChars(s) ==> Collapse(s) == s
    decreases |s|
  {
    if s != [] {
      if IsSlugChar(s[0]) {
        CollapseCleans(s[1..]);
      } else {
        CollapseCleans(SkipRun(s[1..]));
      }
    }
  }

  lemma {:induction false} StripStartStrips(s: string)
    ensures |StripStart(s)| <= |s| && StripStart(s) == s[|s| - |StripStart(s)|..]
    ensures StripStart(s) != [] ==> StripStart(s)[0] != '-'
    ensures StripStart(s) == s <==> s == [] || s[0] != '-'
  {
    if s != [] && s[0] == '-' {
      StripStartStrips(s[1..]);
    }
  }

  lemma {:induction false} StripEndStrips(s: string)
    ensures |StripEnd(s)| <= |s| && StripEnd(s) == s[..|StripEnd(s)|]
    ensures StripEnd(s) != [] ==> StripEnd(s)[|StripEnd(s)| - 1] != '-'
    ensures StripEnd(s) == s <==> s == [] || s[|s| - 1] != '-'
  {
    if s != [] && s[|s| - 1] == '-' {
      StripEndStrips(s[..|s| - 1]);
    }
  }

  /** The result is always a slug. */
  lemma SlugIsSlug(value: string)
    ensures IsSlug(ToAliasSlug(value))
  {
    var c := Collapse(Trim(value));
    CollapseCleans(Trim(value));
    StripStartStrips(c);
    StripEndStrips(StripStart(c));
  }

  lemma SlugsAreTrimmed(s: string)
    requires AllSlugChars(s)
    ensures Trim(s) == s
  {
    TrimIsTrimmed(s);
  }

  /** Exactly the slugs are left alone, so making a slug of a slug changes nothing. */
  lemma SlugsAreFixed(value: string)
    ensures ToAliasSlug(value) == value <==> IsSlug(value)
    ensures ToAliasSlug(ToAliasSlug(value)) == ToAliasSlug(value)
  {
    SlugIsSlug(value);
    SlugsStay(ToAliasSlug(value));
    if IsSlug(value) {
      SlugsStay(value);
    }
  }

  lemma SlugsStay(s: string)
    requires IsSlug(s)
    ensures ToAliasSlug(s) == s
  {
    SlugsAreTrimmed(s);
    CollapseCleans(s);
    StripStartStrips(s);
    StripEndStrips(s);
  }

  // ---------------------------------------------------------------- what a slug is made of

  predicate NoSlugChars(s: string) {
    forall k | 0 <= k < |s| :: !IsSlugChar(s[k])
  }

  predicate AllDashes(s: string) {
    forall k | 0 <= k < |s| :: s[k] == '-'
  }

  lemma {:induction false} SkipsWholeRun(run: string, rest: string)
    requires NoSlugChars(run) && (rest != [] ==> IsSlugChar(rest[0]))
    ensures SkipRun(run + rest) == rest
  {
    if run == [] {
      assert run + rest == rest;
    } else {
      assert (run + rest)[1..] == run[1..] + rest && (run + rest)[0] == run[0];
      SkipsWholeRun(run[1..], rest);
    }
  }

  /** Allowed characters stay, and a run of others, however long, becomes one dash. */
  lemma {:induction false} RunBecomesDash(word: string, run: string, rest: string)
    requires AllSlugChars(word) && NoSlugChars(run) && run != [] && (rest != [] ==> IsSlugChar(rest[0]))
    ensures Collapse(word + run + rest) == word + "-" + Collapse(rest)
  {
    var s := word + run + rest;
    if word == [] {
      assert s[0] == run[0] && s[1..] == run[1..] + rest;
      SkipsWholeRun(run[1..], rest);
    } else {
      assert s[0] == word[0] && s[1..] == word[1..] + run + rest;
      RunBecomesDash(word[1..], run, rest);
      hide Collapse;
      assert [word[0]] + (word[1..] + "-" + Collapse(rest)) == word + "-" + Collapse(rest);
      assert Collapse(s) == [s[0]] + Collapse(s[1..]) by { CollapseFirst(s); }
    }
  }

  lemma CollapseFirst(s: string)
    requires s != [] && IsSlugChar(s[0])
    ensures Collapse(s) == [s[0]] + Collapse(s[1..])
  {
  }

  lemma {:induction false} StartDashesGo(s: string)
    ensures |StripStart(s)| <= |s| && AllDashes(s[..|s| - |StripStart(s)|])
  {
    if s != [] && s[0] == '-' {
      StartDashesGo(s[1..]);
      var n := |s| - |StripStart(s)|;
      assert s[..n] == [s[0]] + s[1..][..n - 1];
    }
  }

  lemma {:induction false} EndDashesGo(s: string)
    ensures |StripEnd(s)| <= |s| && AllDashes(s[|StripEnd(s)|..])
  {
    if s != [] && s[|s| - 1] == '-' {
      var n := |s| - 1;
      EndDashesGo(s[..n]);
      StripEndStrips(s[..n]);
      assert s[|StripEnd(s)|..] == s[..n][|StripEnd(s)|..] + [s[n]];
    }
  }

  /** A slug is the trimmed and collapsed text without the dashes at its ends. */
  lemma SlugIsWithin(value: string)
    ensures exists before, after :: AllDashes(before) && AllDashes(after) && Collapse(Trim(value)) == before + ToAliasSlug(value) + after
    ensures IsSlug(ToAliasSlug(value))
  {
    var c := Collapse(Trim(value));
    StripStartStrips(c);
    StartDashesGo(c);
    var d := StripStart(c);
    StripEndStrips(d);
    EndDashesGo(d);
    SlugIsSlug(value);
    hide Collapse, Trim, StripStart, StripEnd, AllDashes, IsSlug;
    var before, after := c[..|c| - |d|], d[|StripEnd(d)|..];
    assert c == before + d && d == StripEnd(d) + after;
    assert c == before + ToAliasSlug(value) + after;
  }

  lemma NoSlashes(s: string)
    requires AllSlugChars(s)
    ensures '/' !in s && '\\' !in s
  {
  }

  lemma DotsApart(a: string, b: string)
    requires a == [] || b == [] || a[|a| - 1] != '.' || b[0] != '.'
    ensures HasDots(a + b) <==> HasDots(a) || HasDots(b)
  {
    var all := a + b;
    if HasDots(all) {
      var i :| 0 <= i < |all| - 1 && all[i] == '.' && all[i + 1] == '.';
      if i + 1 < |a| {
        assert a[i] == '.' && a[i + 1] == '.';
      } else if i >= |a| {
        assert b[i - |a|] == '.' && b[i - |a| + 1] == '.';
      }
    }
    if HasDots(a) {
      var i :| 0 <= i < |a| - 1 && a[i] == '.' && a[i + 1] == '.';
      assert all[i] == '.' && all[i + 1] == '.';
    }
    if HasDots(b) {
      var i :| 0 <= i < |b| - 1 && b[i] == '.' && b[i + 1] == '.';
      assert all[|a| + i] == '.' && all[|a| + i + 1] == '.';
    }
  }

  /** A branch has an alias base exactly if something is left of its name, without two dots in a row. */
  lemma BranchAliasIs(branchName: string)
    ensures
      var slug := ToAliasSlug(branchName);
      CreateBranchAlias(branchName) == if slug != [] && !HasDots(slug) then Some("branch-" + slug) else None
  {
    hide ToAliasSlug;
    SlugIsSlug(branchName);
    var slug := ToAliasSlug(branchName);
    NoSlashes(slug);
    DotsApart("branch-", slug);
    assert !HasDots("branch-");
  }

  /** A project's branch likewise, if something is left of both names. */
  lemma ProjectAliasIs(projectName: string, branchName: string)
    ensures
      var project, branch := ToAliasSlug(projectName), ToAliasSlug(branchName);
      CreateProjectBranchAlias(projectName, branchName) ==
        if project != [] && branch != [] && !HasDots(project) && !HasDots(branch)
        then Some("intra-" + project + "-branch-" + branch) else None
  {
    hide ToAliasSlug;
    SlugIsSlug(projectName);
    SlugIsSlug(branchName);
    var project, branch := ToAliasSlug(projectName), ToAliasSlug(branchName);
    NoSlashes(project);
    NoSlashes(branch);
    var head := "intra-" + project;
    assert "intra-" + project + "-branch-" + branch == head + ("-branch-" + branch);
    DotsApart("intra-", project);
    DotsApart("-branch-", branch);
    DotsApart(head, "-branch-" + branch);
    assert !HasDots("intra-") && !HasDots("-branch-");
  }

  // ---------------------------------------------------------------- the search

  lemma NumberedDiffer(base: string, i: nat, j: nat)
    requires Numbered(base, i) == Numbered(base, j)
    ensures i == j
  {
    var n := |base + "-"|;
    assert Numbered(base, i)[n..] == Numeral(i, 10) && Numbered(base, j)[n..] == Numeral(j, 10);
    NumeralInjective(i, j, 10);
  }

  /** The first `n` candidates. */
  function Candidates(base: string, n: nat): set<string> {
    if n == 0 then {} else Candidates(base, n - 1) + {Numbered(base, n)}
  }

  lemma {:induction false} CandidatesAre(base: string, n: nat, a: string)
    ensures a in Candidates(base, n) <==> exists i: nat :: 1 <= i <= n && a == Numbered(base, i)
  {
    hide Numbered;
    if n > 0 {
      CandidatesAre(base, n - 1, a);
    }
  }

  lemma {:induction false} CandidatesCount(base: string, n: nat)
    ensures |Candidates(base, n)| == n
  {
    if n > 0 {
      CandidatesCount(base, n - 1);
      CandidatesAre(base, n - 1, Numbered(base, n));
      hide Numbered;
      if Numbered(base, n) in Candidates(base, n - 1) {
        var i: nat :| 1 <= i <= n - 1 && Numbered(base, n) == Numbered(base, i);
        NumberedDiffer(base, n, i);
      }
    }
  }

  /** As many candidates as there are used aliases cannot all be used unless they are those. */
  lemma TakenAreFew(base: string, used: set<string>, n: nat)
    requires forall i: nat | 1 <= i <= n :: Numbered(base, i) in used
    ensures n <= |used|
  {
    CandidatesCount(base, n);
    hide Numbered;
    forall a | a in Candidates(base, n) ensures a in used {
      CandidatesAre(base, n, a);
    }
    SubsetSize(Candidates(base, n), used);
  }

  /**
   * Unless the current alias is kept, the result is the least number that is free, found
   * after at most one more try than there are different used aliases.
   */
  method CreateSequentialAlias(baseAlias: Option<string>, usedAliases: seq<string>, currentAlias: Option<string>)
    returns (alias: Option<string>, ghost index: nat)
    ensures alias.None? <==> baseAlias.None? || baseAlias.value == []
    ensures alias.Some? && IsKept(baseAlias.value, currentAlias) ==> alias == currentAlias
    ensures alias.Some? && !IsKept(baseAlias.value, currentAlias) ==>
      && alias == Some(Numbered(baseAlias.value, index)) && alias.value !in usedAliases
      && 1 <= index <= |set a | a in usedAliases| + 1
      && forall i: nat | 1 <= i < index :: Numbered(baseAlias.value, i) in usedAliases
  {
    hide Numbered;
    index := 0;
    if baseAlias.None? || baseAlias.value == [] { return None, index; }
    if IsKept(baseAlias.value, currentAlias) { return currentAlias, index; }
    var base, used := baseAlias.value, set a | a in usedAliases;
    var n := 1;
    TakenAreFew(base, used, 0);
    while Numbered(base, n) in used
      invariant 1 <= n <= |used| + 1
      invariant forall i: nat | 1 <= i < n :: Numbered(base, i) in used
      decreases |used| + 1 - n
    {
      TakenAreFew(base, used, n);
      n := n + 1;
    }
    return Some(Numbered(base, n)), n;
  }

  // ---------------------------------------------------------------- safety

  lemma NumberedIsSafe(base: string, index: nat)
    requires IsSafeAlias(base)
    ensures IsSafeAlias(Numbered(base, index))
  {
    var digits, alias := Numeral(index, 10), Numbered(base, index);
    NumeralIsDigits(index, 10);
    hide Numeral;
    assert alias == base + "-" + digits;
    forall i | 0 <= i < |alias| - 1 ensures !(alias[i] == '.' && alias[i + 1] == '.') {
      if i + 1 < |base| { assert alias[i] == base[i] && alias[i + 1] == base[i + 1]; }
    }
  }

  /** A base that was created is safe. */
  lemma CreatedIsSafe(projectName: string, branchName: string)
    ensures CreateBranchAlias(branchName).Some? ==> IsSafeAlias(CreateBranchAlias(branchName).value)
    ensures CreateProjectBranchAlias(projectName, branchName).Some? ==> IsSafeAlias(CreateProjectBranchAlias(projectName, branchName).value)
  {
    hide ToAliasSlug, IsSafeAlias;
  }

  /** So is every number behind it; a kept alias is as safe as it was. */
  lemma ResultIsSafeIff(base: string, current: Option<string>, index: nat)
    requires IsSafeAlias(base)
    ensures
      var result := if IsKept(base, current) then current.value else Numbered(base, index);
      IsSafeAlias(result) <==> !IsKept(base, current) || IsSafeAlias(current.value)
  {
    hide IsSafeAlias, Numbered;
    NumberedIsSafe(base, index);
  }

  /** An alias numbered for another base is kept exactly if that base is the same or goes on from this one behind a dash. */
  lemma KeptIff(base: string, other: string, index: nat)
    ensures IsKept(base, Some(Numbered(other, index))) <==> other == base || base + "-" <= other
  {
    var digits, alias := Numeral(index, 10), Numbered(other, index);
    NumeralIsDigits(index, 10);
    hide Numeral;
    assert alias == other + "-" + digits;
    assert forall k | |other| < k < |alias| :: alias[k] == digits[k - |other| - 1];
    if base + "-" <= alias {
      assert alias[..|base|] == base && alias[|base|] == '-';
      if |base| == |other| { assert alias[..|other|] == other; }
    }
    if other == base { assert base + "-" + digits == alias; }
  }

  /** So the alias of a longer branch name is taken for this branch's own, and no other alias is. */
  lemma LongerBranchIsKept(slug: string, other: string, index: nat)
    ensures IsKept("branch-" + slug, Some(Numbered("branch-" + other, index))) <==> other == slug || slug + "-" <= other
  {
    hide Numbered;
    var base, longer := "branch-" + slug, "branch-" + other;
    KeptIff(base, longer, index);
    assert base[7..] == slug && longer[7..] == other;
    assert base + "-" == "branch-" + (slug + "-") && (base + "-")[7..] == slug + "-";
    if slug + "-" <= other { assert longer[..|base| + 1] == "branch-" + other[..|slug| + 1]; }
    if base + "-" <= longer { assert longer[..|base| + 1][7..] == other[..|slug| + 1]; }
  }
}
