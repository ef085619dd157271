/**
 * The locale routing helpers: a pathname's first segment names its language
 * when it is one of the five site languages, English paths carry no prefix,
 * and every page links to its five localized alternates.
 */
module I18n {
  import opened Text
  import Wrappers

  /** The language codes, in declaration order (the keys of `languages`). */
  const Languages: seq<string> := ["en", "es", "zh-cn", "ar", "pt"]
  const DefaultLang: string := "en"
  const SiteUrl: string := "https://jacquesbelmont.com"

  /** `lang in languages`, over the object's own five keys. */
  predicate IsLanguage(s: string) { s in Languages }

  /** `const [, lang] = pathname.split('/')`: the second piece, when there is one. */
  function SecondSegment(pathname: string): (seg: Wrappers.Option<string>)
    ensures seg.Some? <==> '/' in pathname
  {
    var parts := Split(pathname, '/');
    SecondSegmentExists(pathname);
    if |parts| > 1 then Wrappers.Some(parts[1]) else Wrappers.None
  }

  lemma {:induction false} SecondSegmentExists(s: string)
    ensures '/' in s <==> |Split(s, '/')| > 1
    decreases |s|
  {
    if '/' !in s {
      SplitWithoutSeparator(s, '/');
    } else if s[0] != '/' {
      SecondSegmentExists(s[1..]);
      assert '/' in s ==> '/' in s[1..];
    }
  }

  /** The language a URL's pathname is in: its first segment when that is a language, English otherwise. */
  function GetLangFromUrl(pathname: string): (lang: string)
    ensures IsLanguage(lang)
    ensures lang != DefaultLang ==> PathNameHasLanguage(pathname)
  {
    var seg := SecondSegment(pathname);
    if seg.Some? && IsLanguage(seg.value) then seg.value else DefaultLang
  }

  /** The pathname has a second `/`-separated segment that names a language. */
  predicate PathNameHasLanguage(pathname: string) {
    var segments := Split(pathname, '/');
    |segments| > 1 && IsLanguage(segments[1])
  }

  /** A raw prefix test on `/` + lang, or English for a path without a language segment. */
  predicate PathNameIsInLanguage(pathname: string, lang: string) {
    StartsWith(pathname, "/" + lang) || (lang == DefaultLang && !PathNameHasLanguage(pathname))
  }

  function GetLocalizedPath(path: string, lang: string): (r: string)
    ensures lang == DefaultLang ==> r == path
    ensures lang != DefaultLang ==> StartsWith(r, "/" + lang) && |r| == 1 + |lang| + |path| && r[|r| - |path|..] == path
  {
    if lang == DefaultLang then path else "/" + lang + path
  }

  datatype AlternateLink = AlternateLink(hreflang: string, href: string)

  /** The `hreflang` attribute value for a code: BCP 47 region case for Chinese. */
  function HrefLang(lang: string): string {
    if lang == "zh-cn" then "zh-CN" else lang
  }

  function GetAlternateLinks(currentPath: string): (links: seq<AlternateLink>)
    ensures |links| == |Languages|
    ensures forall i :: 0 <= i < |links| ==>
      links[i].hreflang == HrefLang(Languages[i]) &&
      StartsWith(links[i].href, SiteUrl) &&
      links[i].href[|SiteUrl|..] == GetLocalizedPath(currentPath, Languages[i])
  {
    seq(|Languages|, i requires 0 <= i < |Languages| =>
      AlternateLink(HrefLang(Languages[i]), SiteUrl + GetLocalizedPath(currentPath, Languages[i])))
  }

  /** No language code contains the path separator. */
  lemma LanguagesAvoidSlash(lang: string)
    requires IsLanguage(lang)
    ensures '/' !in lang
  {
  }

  /**
   * Splitting `a + "/" + seg + tail`, where `a` and `seg` hold no `/` and
   * `tail` is empty or starts a new segment, puts `seg` in second place.
   */
  lemma {:induction false} SecondPiece(a: string, seg: string, tail: string)
    requires '/' !in a && '/' !in seg
    requires tail == [] || tail[0] == '/'
    ensures |Split(a + "/" + seg + tail, '/')| > 1
    ensures Split(a + "/" + seg + tail, '/')[1] == seg
  {
    SplitWithoutSeparator(a, '/');
    SplitWithoutSeparator(seg, '/');
    if tail == [] {
      assert a + "/" + seg + tail == a + ['/'] + seg;
      SplitAtSeparator(a, seg, '/');
    } else {
      var rest := tail[1..];
      assert a + "/" + seg + tail == a + ['/'] + (seg + ['/'] + rest);
      SplitAtSeparator(seg, rest, '/');
      SplitAtSeparator(a, seg + ['/'] + rest, '/');
    }
  }

  /** A pathname with a `/` has a language exactly when its second segment is a language code. */
  lemma HasLanguageIff(a: string, seg: string, tail: string)
    requires '/' !in a && '/' !in seg
    requires tail == [] || tail[0] == '/'
    ensures PathNameHasLanguage(a + "/" + seg + tail) <==> IsLanguage(seg)
    ensures GetLangFromUrl(a + "/" + seg + tail) == (if IsLanguage(seg) then seg else DefaultLang)
  {
    SecondPiece(a, seg, tail);
  }

  /** A pathname with no `/` names no language and is English. */
  lemma NoSlashNoLanguage(pathname: string)
    requires '/' !in pathname
    ensures !PathNameHasLanguage(pathname)
    ensures GetLangFromUrl(pathname) == DefaultLang
    ensures PathNameIsInLanguage(pathname, DefaultLang)
  {
    SplitWithoutSeparator(pathname, '/');
  }

  /** GetLangFromUrl and PathNameHasLanguage agree on which segment names the language. */
  lemma LangFromUrlMatchesHasLanguage(pathname: string)
    ensures PathNameHasLanguage(pathname) ==> GetLangFromUrl(pathname) == Split(pathname, '/')[1]
    ensures !PathNameHasLanguage(pathname) ==> GetLangFromUrl(pathname) == DefaultLang
  {
  }

  /** A pathname without a language segment counts as English. */
  lemma EnglishByDefault(pathname: string)
    requires !PathNameHasLanguage(pathname)
    ensures PathNameIsInLanguage(pathname, DefaultLang)
    ensures GetLangFromUrl(pathname) == DefaultLang
  {
  }

  /** Localizing a path (empty or starting with `/`) into a non-default language and reading the language back gives that language. */
  lemma LocalizedPathRoundTrip(path: string, lang: string)
    requires IsLanguage(lang) && lang != DefaultLang
    requires path == [] || path[0] == '/'
    ensures GetLangFromUrl(GetLocalizedPath(path, lang)) == lang
    ensures PathNameHasLanguage(GetLocalizedPath(path, lang))
    ensures PathNameIsInLanguage(GetLocalizedPath(path, lang), lang)
  {
    LanguagesAvoidSlash(lang);
    assert GetLocalizedPath(path, lang) == [] + "/" + lang + path;
    SecondPiece([], lang, path);
  }

  /** Each alternate link after the English one leads back to its own language. */
  lemma AlternateLinksRoundTrip(currentPath: string, i: nat)
    requires currentPath == [] || currentPath[0] == '/'
    requires 1 <= i < |Languages|
    ensures GetLangFromUrl(GetAlternateLinks(currentPath)[i].href[|SiteUrl|..]) == Languages[i]
  {
    LocalizedPathRoundTrip(currentPath, Languages[i]);
  }

  /** The five `hreflang` values are pairwise distinct. */
  lemma AlternateLinksDistinct(currentPath: string, i: nat, j: nat)
    requires i < j < |Languages|
    ensures GetAlternateLinks(currentPath)[i].hreflang != GetAlternateLinks(currentPath)[j].hreflang
  {
  }

  /** The prefix test is raw: `/english` is "in" English, yet its segment names no language. */
  lemma PrefixTestIsRawForEnglish()
    ensures PathNameIsInLanguage("/english", "en")
    ensures !PathNameHasLanguage("/english")
  {
    var p := "/english";
    assert p == [] + "/" + "english" + [];
    HasLanguageIff([], "english", []);
    assert p[..3] == "/" + "en";
  }

  /** Likewise `/espanol` is "in" Spanish, while the language read from it is English. */
  lemma PrefixTestIsRawForSpanish()
    ensures PathNameIsInLanguage("/espanol", "es")
    ensures GetLangFromUrl("/espanol") == DefaultLang
  {
    var p := "/espanol";
    assert p == [] + "/" + "espanol" + [];
    HasLanguageIff([], "espanol", []);
    assert p[..3] == "/" + "es";
  }
}
