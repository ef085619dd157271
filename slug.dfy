/**
 * The slug rule that the post, product, category and tag handlers each write
 * inline:
 *   s.toLowerCase().replace(/[^a-z0-9]+/g, '-').replace(/(^-|-$)/g, '')
 * Lower-casing is ASCII only (see Text.Lower); every other character is not in
 * `[a-z0-9]` and therefore acts as a separator.
 */
module Slug {
  import opened Text

  /** The character class `[a-z0-9]`. */
  predicate IsSlugChar(c: char) { IsAsciiLower(c) || IsDigit(c) }

  /** The characters a slug may contain. */
  predicate IsSlugOrDash(c: char) { IsSlugChar(c) || c == '-' }

  /** The shape every derived slug has. */
  predicate IsSlug(s: string) {
    && (forall i :: 0 <= i < |s| ==> IsSlugOrDash(s[i]))
    && NoDoubleDash(s)
    && (s != [] ==> s[0] != '-' && s[|s| - 1] != '-')
  }

  predicate NoDoubleDash(s: string) {
    forall i :: 0 <= i < |s| - 1 ==> !(s[i] == '-' && s[i + 1] == '-')
  }

  /** What `Collapse` produces: slug characters and dashes, never two dashes in a row. */
  predicate Collapsed(s: string) {
    (forall i :: 0 <= i < |s| ==> IsSlugOrDash(s[i])) && NoDoubleDash(s)
  }

  /** Drops the maximal leading run of characters outside `[a-z0-9]`. */
  function SkipRun(s: string): (r: string)
    ensures |r| <= |s|
    ensures r == s[|s| - |r|..]
    ensures r == [] || IsSlugChar(r[0])
    ensures forall i :: 0 <= i < |s| - |r| ==> !IsSlugChar(s[i])
    decreases |s|
  {
    if s == [] || IsSlugChar(s[0]) then s else SkipRun(s[1..])
  }

  /** `replace(/[^a-z0-9]+/g, '-')`: every maximal run outside `[a-z0-9]` becomes one dash. */
  function Collapse(s: string): (r: string)
    decreases |s|
  {
    if s == [] then []
    else if IsSlugChar(s[0]) then [s[0]] + Collapse(s[1..])
    else "-" + Collapse(SkipRun(s[1..]))
  }

  /** `replace(/(^-|-$)/g, '')`: removes one leading and one trailing dash. */
  function TrimDashes(s: string): (r: string) {
    var t := if s != [] && s[0] == '-' then s[1..] else s;
    if t != [] && t[|t| - 1] == '-' then t[..|t| - 1] else t
  }

  /** The slug derived from a title or a name. */
  function Slugify(title: string): string {
    TrimDashes(Collapse(Lower(title)))
  }

  /** The characters of `s` that are in `[a-z0-9]`, in order. */
  function Kept(s: string): (r: string)
    decreases |s|
  {
    if s == [] then [] else (if IsSlugChar(s[0]) then [s[0]] else []) + Kept(s[1..])
  }

  lemma {:induction false} KeptAppend(a: string, b: string)
    ensures Kept(a + b) == Kept(a) + Kept(b)
    decreases |a|
  {
    if a == [] {
      assert a + b == b;
    } else {
      var head := if IsSlugChar(a[0]) then [a[0]] else [];
      assert (a + b)[0] == a[0];
      assert (a + b)[1..] == a[1..] + b;
      assert Kept(a + b) == head + Kept(a[1..] + b);
      KeptAppend(a[1..], b);
      assert Kept(a) == head + Kept(a[1..]);
    }
  }

  /** The run that SkipRun drops holds no slug character. */
  lemma {:induction false} KeptSkipRun(s: string)
    ensures Kept(SkipRun(s)) == Kept(s)
    decreases |s|
  {
    if s != [] && !IsSlugChar(s[0]) {
      KeptSkipRun(s[1..]);
    }
  }

  /** Collapsing never adds, drops or reorders a slug character. */
  lemma {:induction false} KeptCollapse(s: string)
    ensures Kept(Collapse(s)) == Kept(s)
    decreases |s|
  {
    if s != [] {
      if IsSlugChar(s[0]) {
        KeptCollapse(s[1..]);
        KeptAppend([s[0]], Collapse(s[1..]));
      } else {
        var rest := SkipRun(s[1..]);
        KeptCollapse(rest);
        KeptSkipRun(s[1..]);
        KeptAppend("-", Collapse(rest));
      }
    }
  }

  /** The output of Collapse is made of slug characters and single dashes,
      and a dash is never followed by a dash. It starts with a slug character
      exactly when the input does. */
  lemma {:induction false} CollapseShape(s: string)
    ensures Collapsed(Collapse(s))
    ensures Collapse(s) != [] ==> (IsSlugChar(Collapse(s)[0]) <==> IsSlugChar(s[0]))
    decreases |s|
  {
    if s != [] {
      if IsSlugChar(s[0]) {
        CollapseShape(s[1..]);
        CollapsedCons(s[0], Collapse(s[1..]));
      } else {
        var rest := SkipRun(s[1..]);
        CollapseShape(rest);
        CollapsedCons('-', Collapse(rest));
      }
    }
  }

  /** A slug character, or a dash before a slug character, extends a collapsed string. */
  lemma CollapsedCons(x: char, c: string)
    requires Collapsed(c) && (IsSlugChar(x) || x == '-')
    requires x == '-' && c != [] ==> IsSlugChar(c[0])
    ensures Collapsed([x] + c)
  {
    var r := [x] + c;
    forall i | 0 <= i < |r| - 1 ensures !(r[i] == '-' && r[i + 1] == '-') {
      if i > 0 {
        assert r[i] == c[i - 1] && r[i + 1] == c[i];
      }
    }
  }

  /** Collapse leaves an already collapsed string unchanged. */
  lemma {:induction false} CollapseFixed(s: string)
    requires Collapsed(s)
    ensures Collapse(s) == s
    decreases |s|
  {
    if s != [] {
      assert Collapsed(s[1..]);
      if IsSlugChar(s[0]) {
        CollapseFixed(s[1..]);
        assert s == [s[0]] + s[1..];
      } else {
        assert s[0] == '-';
        assert SkipRun(s[1..]) == s[1..];
        CollapseFixed(s[1..]);
        assert s == "-" + s[1..];
      }
    }
  }

  lemma TrimCollapsed(s: string)
    requires Collapsed(s)
    ensures IsSlug(TrimDashes(s))
    ensures Kept(TrimDashes(s)) == Kept(s)
  {
    var t := if s != [] && s[0] == '-' then s[1..] else s;
    TrimLeading(s);
    TrimTrailing(t);
  }

  /** Dropping a leading dash keeps the string collapsed and loses no slug character. */
  lemma TrimLeading(s: string)
    requires Collapsed(s)
    ensures var t := if s != [] && s[0] == '-' then s[1..] else s;
      Collapsed(t) && Kept(t) == Kept(s) && (t != [] ==> t[0] != '-')
  {
    if s != [] && s[0] == '-' {
      KeptAppend("-", s[1..]);
      assert s == "-" + s[1..];
      if |s| >= 2 {
        assert !(s[0] == '-' && s[1] == '-');
      }
    }
  }

  /** Dropping a trailing dash from a collapsed string that does not start with one gives a slug. */
  lemma TrimTrailing(t: string)
    requires Collapsed(t) && (t != [] ==> t[0] != '-')
    ensures var u := if t != [] && t[|t| - 1] == '-' then t[..|t| - 1] else t;
      IsSlug(u) && Kept(u) == Kept(t)
  {
    if t != [] && t[|t| - 1] == '-' {
      var u := t[..|t| - 1];
      KeptAppend(u, "-");
      assert t == u + "-";
      if |u| >= 1 {
        assert t[|t| - 2] != '-';
        assert u[|u| - 1] == t[|t| - 2];
      }
    }
  }

  /** A slug's characters are `[a-z0-9-]`, it never holds `--` and never starts or ends with `-`. */
  lemma SlugifyShape(title: string)
    ensures IsSlug(Slugify(title))
  {
    CollapseShape(Lower(title));
    TrimCollapsed(Collapse(Lower(title)));
  }

  /** The slug keeps every ASCII letter and digit of the title, lower-cased and in order, and nothing else but dashes. */
  lemma SlugifyKeepsAlphanumerics(title: string)
    ensures Kept(Slugify(title)) == Kept(Lower(title))
  {
    CollapseShape(Lower(title));
    TrimCollapsed(Collapse(Lower(title)));
    KeptCollapse(Lower(title));
  }

  /** Slugifying a slug again leaves it unchanged. */
  lemma SlugifyIdempotent(title: string)
    ensures Slugify(Slugify(title)) == Slugify(title)
  {
    var s := Slugify(title);
    SlugifyShape(title);
    assert Lower(s) == s;
    assert Collapsed(s);
    CollapseFixed(s);
  }

  /** An empty slug results exactly when the title has no ASCII letter or digit. */
  lemma SlugifyEmpty(title: string)
    ensures Slugify(title) == [] <==> Kept(Lower(title)) == []
  {
    var s := Slugify(title);
    SlugifyKeepsAlphanumerics(title);
    SlugifyShape(title);
    if s != [] {
      assert IsSlugChar(s[0]);
      assert s == [s[0]] + s[1..];
      KeptAppend([s[0]], s[1..]);
    }
  }
}
