/** The document head (src/components/SEOHead.tsx): canonical URL,
    per-language alternate links and Open Graph locales. */
module SeoHead {
  import opened Wrappers
  import opened Seqs
  import opened I18n

  const FallbackBaseUrl: string := "https://example.com"

  /** `window.location.origin`, or the fallback URL without a window. */
  function BaseUrl(origin: Option<string>): (base: string)
    ensures origin.None? ==> base == FallbackBaseUrl
    ensures origin.Some? ==> base == origin.value
  {
    origin.GetOr(FallbackBaseUrl)
  }

  /** The `path` prop with its default. */
  function PathOrRoot(path: Option<string>): string {
    path.GetOr("/")
  }

  /** The canonical URL: the base URL followed by the path. */
  function CurrentUrl(base: string, path: string): (url: string)
    ensures base <= url && url[|base|..] == path
  {
    base + path
  }

  /** The path after the language segment: nothing for the root. */
  function LocalePath(path: string): string {
    if path == "/" then "" else path
  }

  /** The link to the page in one language. */
  function AlternateHref(base: string, lang: string, path: string): (href: string)
    ensures base + "/" + lang <= href
    ensures href[|base| + 1 + |lang|..] == LocalePath(path)
  {
    base + "/" + lang + LocalePath(path)
  }

  datatype AlternateLink = AlternateLink(lang: string, href: string)

  /** `alternateLinks`: one link per supported language, in order. */
  function AlternateLinks(base: string, path: string): (links: seq<AlternateLink>)
    ensures |links| == |SupportedLanguages|
    ensures forall i :: 0 <= i < |links| ==>
      links[i].lang == SupportedLanguages[i] && links[i].href == AlternateHref(base, SupportedLanguages[i], path)
  {
    seq(|SupportedLanguages|, i requires 0 <= i < |SupportedLanguages| =>
      AlternateLink(SupportedLanguages[i], AlternateHref(base, SupportedLanguages[i], path)))
  }

  /** The alternate links all point to different pages. */
  lemma AlternateHrefsDistinct(base: string, path: string, i: nat, j: nat)
    requires i < j < |SupportedLanguages|
    ensures AlternateLinks(base, path)[i].href != AlternateLinks(base, path)[j].href
  {
    var hi := AlternateLinks(base, path)[i].href;
    var hj := AlternateLinks(base, path)[j].href;
    assert hi[|base| + 1] == SupportedLanguages[i][0];
    assert hj[|base| + 1] == SupportedLanguages[j][0];
  }

  /** The `x-default` link. */
  function XDefaultHref(base: string, path: string): string {
    base + "/en" + LocalePath(path)
  }

  /** The `x-default` link is the English alternate. */
  lemma XDefaultIsEnglish(base: string, path: string)
    ensures XDefaultHref(base, path) == AlternateLinks(base, path)[0].href
    ensures AlternateLinks(base, path)[0].lang == Code(En)
  {
    assert base + "/en" == base + "/" + "en";
  }

  /** The `og:locale:alternate` entries: the supported languages other than
      the current one, in order. */
  function OgLocaleAlternates(currentLang: string): (alts: seq<string>)
    ensures IsSubsequence(alts, SupportedLanguages)
    ensures forall l :: l in alts <==> l in SupportedLanguages && l != currentLang
  {
    FilterIsSubsequence(SupportedLanguages, l => l != currentLang);
    forall l ensures l in Filter(SupportedLanguages, l => l != currentLang) <==> l in SupportedLanguages && l != currentLang {
      FilterMembership(SupportedLanguages, l => l != currentLang, l);
    }
    Filter(SupportedLanguages, l => l != currentLang)
  }

  /** For a supported current language there are two alternates; for any
      other value all three languages are listed. */
  lemma OgLocaleAlternatesCount(currentLang: string)
    ensures currentLang in SupportedLanguages ==> |OgLocaleAlternates(currentLang)| == 2
    ensures currentLang !in SupportedLanguages ==> OgLocaleAlternates(currentLang) == SupportedLanguages
  {
    var p := (l: string) => l != currentLang;
    assert SupportedLanguages == ["en"] + (["ru"] + (["am"] + []));
    assert Filter(SupportedLanguages, p) == (if p("en") then ["en"] else []) + Filter(["ru", "am"], p);
    assert Filter(["ru", "am"], p) == (if p("ru") then ["ru"] else []) + Filter(["am"], p);
    assert Filter(["am"], p) == (if p("am") then ["am"] else []) + Filter([], p);
  }

  /** The root element of the document. */
  class DocumentElement {
    var lang: string
    var dir: string

    constructor ()
      ensures lang == "" && dir == ""
    {
      lang, dir := "", "";
    }
  }

  /** The language effect: the document takes the current language and is
      always laid out left to right. */
  method LanguageEffect(doc: DocumentElement, currentLang: string)
    modifies doc
    ensures doc.lang == currentLang
    ensures doc.dir == "ltr"
  {
    doc.lang := currentLang;
    doc.dir := "ltr";
  }
}
