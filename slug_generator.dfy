/**
 * The slug generator behind the title field of the product form:
 *   title.toLowerCase().replace(/[^a-z0-9]+/g, '-').replace(/^-|-$/g, '')
 * Lower-casing is modelled on ASCII letters only.
 */
module SlugGenerator {
  import Text
  import Validations

  predicate IsSlugAlnum(c: char) {
    'a' <= c <= 'z' || '0' <= c <= '9'
  }

  predicate AllSlugChars(s: string) {
    forall i :: 0 <= i < |s| ==> Validations.IsSlugChar(s[i])
  }

  /** No '-' directly follows another '-'. */
  predicate NoDoubleHyphen(s: string) {
    forall i :: 0 <= i < |s| - 1 ==> !(s[i] == '-' && s[i + 1] == '-')
  }

  predicate NoEdgeHyphen(s: string) {
    s == [] || (s[0] != '-' && s[|s| - 1] != '-')
  }

  /** The characters of `s` in [a-z0-9], in order. */
  function Alnums(s: string): (r: string)
    decreases |s|
  {
    if |s| == 0 then []
    else (if IsSlugAlnum(s[0]) then [s[0]] else []) + Alnums(s[1..])
  }

  /** Skips a run of characters outside [a-z0-9]. */
  function DropSeparators(s: string): (r: string)
    ensures |r| <= |s| && r == s[|s| - |r|..]
    ensures r == [] || IsSlugAlnum(r[0])
    ensures Alnums(r) == Alnums(s)
    decreases |s|
  {
    if |s| > 0 && !IsSlugAlnum(s[0]) then DropSeparators(s[1..]) else s
  }

  /** `.replace(/[^a-z0-9]+/g, '-')`: every maximal run outside [a-z0-9] becomes one '-'. */
  function CollapseSeparators(s: string): (r: string)
    ensures |r| <= |s|
    ensures AllSlugChars(r)
    ensures NoDoubleHyphen(r)
    ensures Alnums(r) == Alnums(s)
    ensures |s| > 0 ==> |r| > 0
    ensures |r| > 0 && r[0] == '-' ==> !IsSlugAlnum(s[0])
    decreases |s|
  {
    if |s| == 0 then []
    else if IsSlugAlnum(s[0]) then
      var rest := CollapseSeparators(s[1..]);
      assert Alnums(s) == [s[0]] + Alnums(s[1..]);
      assert ([s[0]] + rest)[1..] == rest;
      [s[0]] + rest
    else
      var t := DropSeparators(s[1..]);
      var rest := CollapseSeparators(t);
      assert Alnums(s) == Alnums(s[1..]);
      assert ("-" + rest)[1..] == rest;
      "-" + rest
  }

  /** `.replace(/^-|-$/g, '')`: one leading and one trailing '-' are removed. */
  function TrimHyphens(s: string): (r: string) {
    var a := if |s| > 0 && s[0] == '-' then s[1..] else s;
    if |a| > 0 && a[|a| - 1] == '-' then a[..|a| - 1] else a
  }

  /** The slug the form derives from a product title. */
  function Slugify(title: string): (r: string)
    ensures |r| <= |title|
    ensures AllSlugChars(r)
    ensures NoEdgeHyphen(r)
    ensures NoDoubleHyphen(r)
  {
    var c := CollapseSeparators(Text.ToLower(title));
    TrimKeepsShape(c);
    TrimHyphens(c)
  }

  /** Trimming a collapsed string leaves slug characters with no '-' at either end. */
  lemma TrimKeepsShape(c: string)
    requires AllSlugChars(c) && NoDoubleHyphen(c)
    ensures |TrimHyphens(c)| <= |c|
    ensures AllSlugChars(TrimHyphens(c))
    ensures NoDoubleHyphen(TrimHyphens(c))
    ensures NoEdgeHyphen(TrimHyphens(c))
  {
    var a := if |c| > 0 && c[0] == '-' then c[1..] else c;
    assert AllSlugChars(a) && NoDoubleHyphen(a);
    if |a| > 0 && a[|a| - 1] == '-' {
      var r := a[..|a| - 1];
      assert AllSlugChars(r) && NoDoubleHyphen(r);
      if |r| > 0 {
        assert r[|r| - 1] == a[|a| - 2];
      }
    }
  }

  lemma {:induction false} AlnumsAppend(a: string, b: string)
    ensures Alnums(a + b) == Alnums(a) + Alnums(b)
    decreases |a|
  {
    if |a| > 0 {
      assert (a + b)[1..] == a[1..] + b;
      AlnumsAppend(a[1..], b);
    } else {
      assert a + b == b;
    }
  }

  /** Trimming removes only hyphens, so it keeps every letter and digit. */
  lemma TrimKeepsAlnums(s: string)
    ensures Alnums(TrimHyphens(s)) == Alnums(s)
  {
    var a := if |s| > 0 && s[0] == '-' then s[1..] else s;
    if |s| > 0 && s[0] == '-' {
      AlnumsAppend("-", s[1..]);
      assert s == "-" + s[1..];
    }
    if |a| > 0 && a[|a| - 1] == '-' {
      AlnumsAppend(a[..|a| - 1], "-");
      assert a == a[..|a| - 1] + "-";
    }
  }

  /** The letters and digits of the slug are those of the lower-cased title, in order. */
  lemma SlugKeepsAlnums(title: string)
    ensures Alnums(Slugify(title)) == Alnums(Text.ToLower(title))
  {
    TrimKeepsAlnums(CollapseSeparators(Text.ToLower(title)));
  }

  lemma LowerOfSlugChars(s: string)
    requires AllSlugChars(s)
    ensures Text.ToLower(s) == s
  {
  }

  /** A string of slug characters with no doubled '-' is left alone by the collapse step. */
  lemma {:induction false} CollapseOfCollapsed(s: string)
    requires AllSlugChars(s) && NoDoubleHyphen(s) && NoEdgeHyphen(s)
    ensures CollapseSeparators(s) == s
    decreases |s|
  {
    if |s| > 0 {
      assert IsSlugAlnum(s[0]);
      var t := s[1..];
      assert forall i :: 0 <= i < |t| ==> t[i] == s[i + 1];
      assert AllSlugChars(t) && NoDoubleHyphen(t);
      if |t| > 0 && t[0] == '-' {
        CollapseTail(t);
      } else {
        CollapseOfCollapsed(t);
      }
      assert [s[0]] + t == s;
    }
  }

  /** Helper: a tail "-x…" with x a letter or digit collapses to itself. */
  lemma {:induction false} CollapseTail(t: string)
    requires |t| > 0 && t[0] == '-'
    requires AllSlugChars(t) && NoDoubleHyphen(t) && t[|t| - 1] != '-'
    ensures CollapseSeparators(t) == t
    decreases |t|, 0
  {
    var u := t[1..];
    assert |u| > 0 && IsSlugAlnum(u[0]);
    assert DropSeparators(u) == u;
    CollapseOfCollapsed(u);
  }

  /** Generating a slug from a slug gives it back unchanged. */
  lemma SlugifyIdempotent(title: string)
    ensures Slugify(Slugify(title)) == Slugify(title)
  {
    var s := Slugify(title);
    LowerOfSlugChars(s);
    CollapseOfCollapsed(s);
  }

  /** Every non-empty generated slug matches the slug pattern. */
  lemma SlugMatchesPattern(title: string)
    requires Slugify(title) != []
    ensures Validations.MatchesSlugPattern(Slugify(title))
  {
  }

  /** A generated slug of at least three characters from a valid title passes the slug rule. */
  lemma SlugOfValidTitle(title: string)
    requires Validations.ValidProductTitle(title) && |Slugify(title)| >= 3
    ensures Validations.ValidProductSlug(Slugify(title))
  {
  }

  /** The title "Hi" is turned into the slug "hi", which the slug rule rejects as too short. */
  lemma ShortTitleGivesRejectedSlug()
    ensures Slugify("Hi") == "hi"
    ensures Validations.MatchesSlugPattern(Slugify("Hi"))
    ensures !Validations.ValidProductSlug(Slugify("Hi"))
  {
    assert Text.ToLower("Hi") == "hi";
    assert CollapseSeparators("i") == "i";
    assert CollapseSeparators("hi") == "hi";
  }
}
