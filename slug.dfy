/**
 * The URL slug rule shared by products, categories and the catalog import:
 * lower-case the name, turn every run of characters other than `a-z0-9` into a
 * single hyphen, then drop one hyphen at the start and one at the end.
 */
module Slug {
  import opened Common

  predicate IsSlugChar(c: char) { IsAsciiLower(c) || IsDigit(c) }

  /** No two hyphens in a row. */
  predicate NoDoubleHyphen(s: string)
  {
    forall i :: 0 <= i < |s| - 1 ==> s[i] == '-' ==> s[i + 1] != '-'
  }

  /** Only slug characters and hyphens. */
  predicate SlugAlphabet(s: string)
  {
    forall i :: 0 <= i < |s| ==> IsSlugChar(s[i]) || s[i] == '-'
  }

  /** The shape of every slug the rule produces. */
  predicate IsSlug(s: string)
  {
    SlugAlphabet(s) && NoDoubleHyphen(s)
    && (|s| > 0 ==> s[0] != '-' && s[|s| - 1] != '-')
  }

  /** Drops the leading run of characters outside `a-z0-9`. */
  function SkipRun(s: string): (r: string)
    ensures |r| <= |s| && r == s[|s| - |r|..]
    ensures |r| == 0 || IsSlugChar(r[0])
    ensures forall i :: 0 <= i < |s| - |r| ==> !IsSlugChar(s[i])
  {
    if |s| > 0 && !IsSlugChar(s[0]) then
      var r := SkipRun(s[1..]);
      assert forall i :: 1 <= i < |s| - |r| ==> s[i] == s[1..][i - 1];
      r
    else s
  }

  /** `s.replace(/[^a-z0-9]+/g, '-')`. */
  function Hyphenate(s: string): string
    decreases |s|
  {
    if |s| == 0 then []
    else if IsSlugChar(s[0]) then [s[0]] + Hyphenate(s[1..])
    else ['-'] + Hyphenate(SkipRun(s))
  }

  /** Runs are replaced by single hyphens: only slug characters and lone hyphens remain. */
  lemma {:induction false} HyphenateShape(s: string)
    ensures var r := Hyphenate(s);
            SlugAlphabet(r) && NoDoubleHyphen(r)
            && (|r| == 0 <==> |s| == 0) && |r| <= |s|
            && (|s| > 0 ==> (r[0] == '-' <==> !IsSlugChar(s[0])))
    decreases |s|
  {
    if |s| > 0 {
      if IsSlugChar(s[0]) {
        HyphenateShape(s[1..]);
      } else {
        HyphenateShape(SkipRun(s));
      }
    }
  }

  /** `s.replace(/(^-|-$)/g, '')`: one hyphen at each end. */
  function StripHyphens(s: string): (r: string)
    ensures |r| <= |s|
  {
    var a := if |s| > 0 && s[0] == '-' then s[1..] else s;
    if |a| > 0 && a[|a| - 1] == '-' then a[..|a| - 1] else a
  }

  /** The slug of a name: it has the slug shape, and is no longer than the name. */
  function Slugify(name: string): (r: string)
    ensures IsSlug(r)
    ensures |r| <= |name|
  {
    HyphenateShape(Lower(name));
    StripHyphensIsSlug(Hyphenate(Lower(name)));
    StripHyphens(Hyphenate(Lower(name)))
  }

  /** Dropping the end hyphens of a string of slug characters and lone hyphens leaves a slug. */
  lemma StripHyphensIsSlug(h: string)
    requires SlugAlphabet(h) && NoDoubleHyphen(h)
    ensures IsSlug(StripHyphens(h))
  {
    var i := if |h| > 0 && h[0] == '-' then 1 else 0;
    var a := h[i..];
    var j := if |a| > 0 && a[|a| - 1] == '-' then |h| - 1 else |h|;
    assert StripHyphens(h) == h[i..j];
    SliceShape(h, i, j);
  }

  /** A slice keeps the alphabet and the lone hyphens. */
  lemma SliceShape(s: string, i: nat, j: nat)
    requires SlugAlphabet(s) && NoDoubleHyphen(s) && i <= j <= |s|
    ensures SlugAlphabet(s[i..j]) && NoDoubleHyphen(s[i..j])
  {
  }

  /** The slug characters of a string, in order. */
  function Alnums(s: string): (r: string)
  {
    if |s| == 0 then [] else (if IsSlugChar(s[0]) then [s[0]] else []) + Alnums(s[1..])
  }

  lemma {:induction false} AlnumsAppend(a: string, b: string)
    ensures Alnums(a + b) == Alnums(a) + Alnums(b)
    decreases |a|
  {
    if |a| > 0 {
      AlnumsAppend(a[1..], b);
      assert (a + b)[0] == a[0];
      assert (a + b)[1..] == a[1..] + b;
    } else {
      assert a + b == b;
    }
  }

  lemma {:induction false} AlnumsSkipRun(s: string)
    ensures Alnums(SkipRun(s)) == Alnums(s)
    decreases |s|
  {
    if |s| > 0 && !IsSlugChar(s[0]) {
      AlnumsSkipRun(s[1..]);
    }
  }

  lemma {:induction false} AlnumsHyphenate(s: string)
    ensures Alnums(Hyphenate(s)) == Alnums(s)
    decreases |s|
  {
    if |s| > 0 {
      if IsSlugChar(s[0]) {
        AlnumsHyphenate(s[1..]);
        AlnumsAppend([s[0]], Hyphenate(s[1..]));
      } else {
        AlnumsHyphenate(SkipRun(s));
        AlnumsSkipRun(s);
        AlnumsAppend(['-'], Hyphenate(SkipRun(s)));
      }
    }
  }

  lemma AlnumsStripHyphens(s: string)
    ensures Alnums(StripHyphens(s)) == Alnums(s)
  {
    var a := if |s| > 0 && s[0] == '-' then s[1..] else s;
    if |s| > 0 && s[0] == '-' {
      AlnumsAppend([s[0]], s[1..]);
      assert s == [s[0]] + s[1..];
    }
    if |a| > 0 && a[|a| - 1] == '-' {
      AlnumsAppend(a[..|a| - 1], [a[|a| - 1]]);
      assert a == a[..|a| - 1] + [a[|a| - 1]];
    }
  }

  /**
   * The slug keeps exactly the letters and digits of the lower-cased name, in
   * their order; everything else it holds is single hyphens between them.
   */
  lemma SlugKeepsAlnums(name: string)
    ensures Alnums(Slugify(name)) == Alnums(Lower(name))
  {
    AlnumsHyphenate(Lower(name));
    AlnumsStripHyphens(Hyphenate(Lower(name)));
  }

  lemma {:induction false} HyphenateOfSlug(s: string)
    requires SlugAlphabet(s) && NoDoubleHyphen(s)
    ensures Hyphenate(s) == s
    decreases |s|
  {
    HyphenateShape(s);
    if |s| > 0 {
      assert SlugAlphabet(s[1..]) && NoDoubleHyphen(s[1..]);
      if IsSlugChar(s[0]) {
        HyphenateOfSlug(s[1..]);
      } else {
        assert SkipRun(s) == s[1..];
        HyphenateOfSlug(s[1..]);
      }
    }
  }

  /** A slug is its own slug. */
  lemma SlugifyOfSlug(s: string)
    requires IsSlug(s)
    ensures Slugify(s) == s
  {
    assert Lower(s) == s;
    HyphenateOfSlug(s);
  }

  /** Applying the rule twice gives the same slug as applying it once. */
  lemma SlugifyIdempotent(name: string)
    ensures Slugify(Slugify(name)) == Slugify(name)
  {
    SlugifyOfSlug(Slugify(name));
  }
}
