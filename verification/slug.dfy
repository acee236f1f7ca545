/**
 * The `slug` helper that `components/HeroImage.tsx` and
 * `components/product-example-hero.tsx` both define: lower-case the text,
 * turn every run of characters outside `[a-z0-9]` into one "-", collapse
 * runs of "-", and strip "-" from both ends. Each regular expression is one
 * function here; `Slug` chains them.
 */
module Slugs {
  import opened Seqs
  import opened Text

  predicate SlugChar(c: char) { IsLowerAlnum(c) || c == '-' }

  predicate SlugChars(s: string) {
    forall k :: 0 <= k < |s| ==> SlugChar(s[k])
  }

  predicate NoDoubleDash(s: string) {
    forall k :: 0 <= k < |s| - 1 ==> !(s[k] == '-' && s[k + 1] == '-')
  }

  /** The shape of every slug: `[a-z0-9-]` only, no "--", no "-" at either end. */
  predicate IsSlug(s: string) {
    SlugChars(s) && NoDoubleDash(s) && (|s| > 0 ==> s[0] != '-' && s[|s| - 1] != '-')
  }

  lemma SlugCharsCons(c: char, t: string)
    ensures SlugChar(c) && SlugChars(t) ==> SlugChars([c] + t)
  {
    if SlugChar(c) && SlugChars(t) {
      SlugCharsConsStep(c, t);
    }
  }

  lemma SlugCharsConsStep(c: char, t: string)
    requires SlugChar(c) && SlugChars(t)
    ensures SlugChars([c] + t)
  {
    forall k | 0 <= k < |[c] + t| ensures SlugChar(([c] + t)[k]) {
      if k > 0 { assert ([c] + t)[k] == t[k - 1]; }
    }
  }

  lemma NoDoubleDashCons(c: char, t: string)
    requires NoDoubleDash(t) && (c != '-' || |t| == 0 || t[0] != '-')
    ensures NoDoubleDash([c] + t)
  {
    var u := [c] + t;
    forall k | 0 <= k < |u| - 1 ensures !(u[k] == '-' && u[k + 1] == '-') {
      if k > 0 { assert u[k] == t[k - 1] && u[k + 1] == t[k]; }
      else { assert u[1] == t[0]; }
    }
  }

  lemma SlugCharsSuffix(s: string, i: int)
    requires 0 <= i <= |s|
    ensures SlugChars(s) ==> SlugChars(s[i..])
  {
    forall k | 0 <= k < |s[i..]| && SlugChars(s) ensures SlugChar(s[i..][k]) {
      assert s[i..][k] == s[i + k];
    }
  }

  /** The letters and digits of a string, in order: what a slug keeps. */
  function Alnums(s: string): string {
    Filter(s, IsLowerAlnum)
  }

  lemma AlnumsCons(c: char, s: string)
    ensures Alnums([c] + s) == (if IsLowerAlnum(c) then [c] else []) + Alnums(s)
  {
    assert ([c] + s)[1..] == s;
  }

  /** The rest of a run of characters outside `[a-z0-9]`. */
  function SkipOthers(s: string): (r: string)
    ensures |r| <= |s| && r == s[|s| - |r|..]
    ensures |r| > 0 ==> IsLowerAlnum(r[0])
    ensures |s| == 0 || IsLowerAlnum(s[0]) ==> r == s
    ensures Alnums(r) == Alnums(s)
    decreases |s|
  {
    if |s| > 0 && !IsLowerAlnum(s[0]) then SkipOthers(s[1..]) else s
  }

  /** `.replace(/[^a-z0-9]+/g, "-")` */
  function DashRuns(s: string): (r: string)
    ensures SlugChars(r) && NoDoubleDash(r)
    ensures |s| > 0 && IsLowerAlnum(s[0]) ==> |r| > 0 && r[0] == s[0]
    decreases |s|
  {
    if |s| == 0 then ""
    else if IsLowerAlnum(s[0]) then
      var rest := DashRuns(s[1..]);
      SlugCharsCons(s[0], rest);
      NoDoubleDashCons(s[0], rest);
      [s[0]] + rest
    else
      var t := SkipOthers(s[1..]);
      var rest := DashRuns(t);
      assert |rest| > 0 ==> rest[0] != '-' by {
        if |t| > 0 { assert IsLowerAlnum(t[0]); } else { assert rest == ""; }
      }
      SlugCharsCons('-', rest);
      NoDoubleDashCons('-', rest);
      "-" + rest
  }

  /** Replacing separator runs keeps every letter and digit. */
  lemma {:induction false} DashRunsAlnums(s: string)
    ensures Alnums(DashRuns(s)) == Alnums(s)
    decreases |s|
  {
    if |s| > 0 {
      assert s == [s[0]] + s[1..];
      AlnumsCons(s[0], s[1..]);
      if IsLowerAlnum(s[0]) {
        DashRunsAlnums(s[1..]);
        AlnumsCons(s[0], DashRuns(s[1..]));
      } else {
        DashRunsAlnums(SkipOthers(s[1..]));
        AlnumsCons('-', DashRuns(SkipOthers(s[1..])));
      }
    }
  }

  /** The rest of a run of "-". */
  function SkipDashes(s: string): (r: string)
    ensures |r| <= |s| && r == s[|s| - |r|..]
    ensures |r| > 0 ==> r[0] != '-'
    ensures |s| == 0 || s[0] != '-' ==> r == s
    decreases |s|
  {
    if |s| > 0 && s[0] == '-' then SkipDashes(s[1..]) else s
  }

  /** `.replace(/-+/g, "-")` */
  function CollapseDashes(s: string): (r: string)
    ensures NoDoubleDash(r)
    ensures |s| > 0 && s[0] != '-' ==> |r| > 0 && r[0] == s[0]
    ensures SlugChars(s) ==> SlugChars(r)
    decreases |s|
  {
    if |s| == 0 then ""
    else if s[0] != '-' then
      var rest := CollapseDashes(s[1..]);
      NoDoubleDashCons(s[0], rest);
      SlugCharsSuffix(s, 1);
      SlugCharsCons(s[0], rest);
      [s[0]] + rest
    else
      var t := SkipDashes(s[1..]);
      var rest := CollapseDashes(t);
      assert |rest| > 0 ==> rest[0] != '-' by {
        if |t| > 0 { assert t[0] != '-'; } else { assert rest == ""; }
      }
      NoDoubleDashCons('-', rest);
      SlugCharsSuffix(s, |s| - |t|);
      SlugCharsCons('-', rest);
      "-" + rest
  }

  lemma NoDoubleDashTail(s: string)
    requires |s| > 0 && NoDoubleDash(s)
    ensures NoDoubleDash(s[1..])
  {
    forall k | 0 <= k < |s[1..]| - 1 ensures !(s[1..][k] == '-' && s[1..][k + 1] == '-') {
      assert s[1..][k] == s[k + 1] && s[1..][k + 1] == s[k + 2];
    }
  }

  /** A string without "--" is left alone by the collapse. */
  lemma {:induction false} CollapseFixes(s: string)
    requires NoDoubleDash(s)
    ensures CollapseDashes(s) == s
    decreases |s|
  {
    if |s| > 0 {
      NoDoubleDashTail(s);
      CollapseFixes(s[1..]);
      if s[0] == '-' {
        assert |s| == 1 || s[1] != '-';
        assert SkipDashes(s[1..]) == s[1..];
      }
      assert s == [s[0]] + s[1..];
    }
  }

  /** Collapsing runs of "-" keeps every letter and digit. */
  lemma {:induction false} CollapseAlnums(s: string)
    ensures Alnums(CollapseDashes(s)) == Alnums(s)
    decreases |s|
  {
    if |s| > 0 {
      assert s == [s[0]] + s[1..];
      AlnumsCons(s[0], s[1..]);
      if s[0] != '-' {
        CollapseAlnums(s[1..]);
        AlnumsCons(s[0], CollapseDashes(s[1..]));
      } else {
        var t := SkipDashes(s[1..]);
        SkipDashesAlnums(s[1..]);
        CollapseAlnums(t);
        AlnumsCons('-', CollapseDashes(t));
      }
    }
  }

  lemma {:induction false} SkipDashesAlnums(s: string)
    ensures Alnums(SkipDashes(s)) == Alnums(s)
    decreases |s|
  {
    if |s| > 0 && s[0] == '-' {
      SkipDashesAlnums(s[1..]);
      assert s == [s[0]] + s[1..];
      AlnumsCons(s[0], s[1..]);
    }
  }

  /** The `^-+` alternative. */
  function DropLeadingDashes(s: string): (r: string)
    ensures |r| > 0 ==> r[0] != '-'
    ensures |s| == 0 || s[0] != '-' ==> r == s
    ensures SlugChars(s) ==> SlugChars(r)
    ensures NoDoubleDash(s) ==> NoDoubleDash(r)
    ensures Alnums(r) == Alnums(s)
    decreases |s|
  {
    if |s| > 0 && s[0] == '-' then
      assert s == [s[0]] + s[1..];
      AlnumsCons(s[0], s[1..]);
      DropLeadingDashes(s[1..])
    else s
  }

  /** The `-+$` alternative. */
  function DropTrailingDashes(s: string): (r: string)
    ensures |r| <= |s| && r == s[..|r|]
    ensures |r| > 0 ==> r[|r| - 1] != '-'
    ensures |s| == 0 || s[|s| - 1] != '-' ==> r == s
    ensures SlugChars(s) ==> SlugChars(r)
    ensures NoDoubleDash(s) ==> NoDoubleDash(r)
    ensures Alnums(r) == Alnums(s)
    decreases |s|
  {
    if |s| > 0 && s[|s| - 1] == '-' then
      var init := s[..|s| - 1];
      assert s == init + ['-'];
      FilterConcat(init, ['-'], IsLowerAlnum);
      DropTrailingDashes(init)
    else s
  }

  /** `.replace(/^-+|-+$/g, "")` */
  function TrimDashes(s: string): (r: string)
    ensures |r| > 0 ==> r[0] != '-' && r[|r| - 1] != '-'
    ensures SlugChars(s) && NoDoubleDash(s) ==> IsSlug(r)
    ensures |s| > 0 && s[0] != '-' && s[|s| - 1] != '-' ==> r == s
    ensures Alnums(r) == Alnums(s)
  {
    DropTrailingDashes(DropLeadingDashes(s))
  }

  /** `slug(s)`. Its result is slug-shaped. */
  function Slug(s: string): (r: string)
    ensures IsSlug(r)
  {
    TrimDashes(CollapseDashes(DashRuns(LowerStr(s))))
  }

  /**
   * `slug` keeps exactly the letters and digits of the lower-cased input,
   * in order: only separators change.
   */
  lemma SlugKeepsAlnums(s: string)
    ensures Alnums(Slug(s)) == Alnums(LowerStr(s))
  {
    DashRunsAlnums(LowerStr(s));
    CollapseAlnums(DashRuns(LowerStr(s)));
  }

  lemma SlugCharsTail(s: string)
    requires |s| > 0 && SlugChars(s)
    ensures SlugChars(s[1..])
  {
    forall k | 0 <= k < |s[1..]| ensures SlugChar(s[1..][k]) {
      assert s[1..][k] == s[k + 1];
    }
  }

  lemma DashRunsDashStep(t: string)
    requires |t| == 0 || IsLowerAlnum(t[0])
    requires DashRuns(t) == t
    ensures DashRuns("-" + t) == "-" + t
  {
    var s := "-" + t;
    assert s[1..] == t;
    assert !IsLowerAlnum(s[0]);
    assert SkipOthers(t) == t;
  }

  lemma DashRunsAlnumStep(s: string)
    requires |s| > 0 && IsLowerAlnum(s[0])
    requires DashRuns(s[1..]) == s[1..]
    ensures DashRuns(s) == s
  {
    assert s == [s[0]] + s[1..];
  }

  lemma {:induction false} DashRunsFixes(s: string)
    requires SlugChars(s) && NoDoubleDash(s)
    ensures DashRuns(s) == s
    decreases |s|
  {
    if |s| > 0 {
      SlugCharsTail(s);
      NoDoubleDashTail(s);
      DashRunsFixes(s[1..]);
      assert SlugChar(s[0]);
      if IsLowerAlnum(s[0]) {
        DashRunsAlnumStep(s);
      } else {
        if |s| > 1 {
          assert SlugChar(s[1]);
          assert !(s[0] == '-' && s[1] == '-');
        }
        assert s == "-" + s[1..];
        DashRunsDashStep(s[1..]);
      }
    }
  }

  /** A slug-shaped string is its own slug. */
  lemma SlugFixesSlugs(s: string)
    requires IsSlug(s)
    ensures Slug(s) == s
  {
    assert LowerStr(s) == s by {
      forall k | 0 <= k < |s| ensures Lower(s[k]) == s[k] {
        assert SlugChar(s[k]);
      }
    }
    DashRunsFixes(s);
    CollapseFixes(s);
    assert TrimDashes(s) == s;
  }

  /** `slug` is idempotent: a second application changes nothing. */
  lemma SlugIdempotent(s: string)
    ensures Slug(Slug(s)) == Slug(s)
  {
    SlugFixesSlugs(Slug(s));
  }

  /** A slug never contains "/", so it is a single path segment. */
  lemma SlugHasNoSlash(s: string)
    ensures '/' !in Slug(s)
  {
    SlugCharsHaveNoSlash(Slug(s));
  }

  lemma SlugCharsHaveNoSlash(s: string)
    requires SlugChars(s)
    ensures '/' !in s
  {
    forall k | 0 <= k < |s| ensures s[k] != '/' {
      assert SlugChar(s[k]);
    }
  }
}
