/** Language set-up (src/i18n/index.ts): the supported languages, their
    names and flags, the language chosen at start-up, and switching. */
module I18n {
  import opened Wrappers
  import Text

  datatype Lang = En | Ru | Am

  function Code(l: Lang): string {
    match l
    case En => "en"
    case Ru => "ru"
    case Am => "am"
  }

  /** `SUPPORTED_LANGUAGES`, in order. */
  const SupportedLanguages: seq<string> := ["en", "ru", "am"]

  /** Reading a code as a supported language. */
  function ParseLang(s: string): (r: Option<Lang>)
    ensures r.Some? <==> s in SupportedLanguages
    ensures r.Some? ==> Code(r.value) == s
  {
    if s == "en" then Some(En)
    else if s == "ru" then Some(Ru)
    else if s == "am" then Some(Am)
    else None
  }

  lemma ParseCode(l: Lang)
    ensures ParseLang(Code(l)) == Some(l)
    ensures Code(l) in SupportedLanguages
  {
  }

  /** `LANGUAGE_NAMES`. The Armenian entry is written as the source has
      it. */
  function LanguageName(l: Lang): (name: string)
    ensures name != ""
  {
    match l
    case En => "English"
    case Ru => "\U{420}\U{443}\U{441}\U{441}\U{43A}\U{438}\U{439}"
    case Am => "\U{540}\U{561}\U{575}\U{565}\U{580}delays"
  }

  /** The country whose flag stands for each language. */
  function Country(l: Lang): (cc: string)
    ensures |cc| == 2 && forall k :: 0 <= k < 2 ==> 'A' <= cc[k] <= 'Z'
  {
    match l
    case En => "GB"
    case Ru => "RU"
    case Am => "AM"
  }

  /** The first regional-indicator symbol, letter A; Z is 25 above it. */
  const RegionalIndicatorA: int := 0x1F1E6

  /** `LANGUAGE_FLAGS`: each flag is the two regional-indicator symbols
      spelling its country's code (GB, RU, AM). */
  function LanguageFlag(l: Lang): (flag: string)
    ensures |flag| == 2
    ensures forall k :: 0 <= k < 2 ==>
      RegionalIndicatorA <= flag[k] as int <= RegionalIndicatorA + 25
      && flag[k] as int - RegionalIndicatorA == Country(l)[k] as int - 'A' as int
  {
    match l
    case En => "\U{1F1EC}\U{1F1E7}"
    case Ru => "\U{1F1F7}\U{1F1FA}"
    case Am => "\U{1F1E6}\U{1F1F2}"
  }

  /** Different languages carry different codes, names and flags. */
  lemma TablesDistinguishLanguages(l: Lang, m: Lang)
    requires l != m
    ensures Code(l) != Code(m)
    ensures LanguageName(l) != LanguageName(m)
    ensures LanguageFlag(l) != LanguageFlag(m)
  {
  }

  /** `navigator.language.split('-')[0]`: the text before the first '-'. */
  function BrowserLanguage(navigatorLanguage: string): (lang: string)
    ensures '-' !in lang
    ensures lang <= navigatorLanguage
    ensures lang == navigatorLanguage || navigatorLanguage[|lang|] == '-'
  {
    BrowserLanguageOk(navigatorLanguage);
    Text.Split(navigatorLanguage, '-')[0]
  }

  lemma {:induction false} BrowserLanguageOk(s: string)
    ensures Text.Split(s, '-')[0] <= s
    ensures Text.Split(s, '-')[0] == s || s[|Text.Split(s, '-')[0]|] == '-'
    decreases |s|
  {
    if s != [] {
      BrowserLanguageOk(s[1..]);
    }
  }

  /** The browser language of "ru-RU" is "ru". */
  lemma BrowserLanguageOfRegion()
    ensures BrowserLanguage("ru-RU") == "ru"
  {
    Text.SplitTwo("ru", "RU", '-');
    assert "ru" + ['-'] + "RU" == "ru-RU";
  }

  /** The language the site starts in: a non-empty saved value as it is
      (the cast does not check it), otherwise the browser language when it
      is supported, otherwise "en". */
  function DefaultLanguage(saved: Option<string>, navigatorLanguage: string): (lang: string)
    ensures saved.Some? && saved.value != "" ==> lang == saved.value
    ensures saved.None? || saved.value == "" ==>
      lang in SupportedLanguages
      && (lang == BrowserLanguage(navigatorLanguage) <==> BrowserLanguage(navigatorLanguage) in SupportedLanguages)
    ensures (saved.None? || saved.value == "") && BrowserLanguage(navigatorLanguage) !in SupportedLanguages ==>
      lang == "en"
  {
    if saved.Some? && saved.value != "" then saved.value
    else if BrowserLanguage(navigatorLanguage) in SupportedLanguages then BrowserLanguage(navigatorLanguage)
    else "en"
  }

  const StorageKey: string := "language"

  /** The start-up resolution from the storage contents. */
  function InitialLanguage(storage: map<string, string>, navigatorLanguage: string): string {
    DefaultLanguage(if StorageKey in storage then Some(storage[StorageKey]) else None, navigatorLanguage)
  }

  /** A language written by `changeLanguage` is the one the next start-up
      resolves to, whatever the browser says. */
  lemma ChangePersists(storage: map<string, string>, l: Lang, navigatorLanguage: string)
    ensures InitialLanguage(storage[StorageKey := Code(l)], navigatorLanguage) == Code(l)
  {
  }

  /** The i18n instance and the storage it persists to. */
  class LanguageStore {
    var storage: map<string, string>
    /** `i18n.language`. */
    var language: string

    constructor (storage0: map<string, string>, navigatorLanguage: string)
      ensures storage == storage0
      ensures language == InitialLanguage(storage0, navigatorLanguage)
    {
      storage := storage0;
      language := InitialLanguage(storage0, navigatorLanguage);
    }

    /** `changeLanguage`: persist the choice, then switch. */
    method ChangeLanguage(l: Lang)
      modifies this
      ensures storage == old(storage)[StorageKey := Code(l)]
      ensures language == Code(l)
    {
      storage := storage[StorageKey := Code(l)];
      language := Code(l);
    }
  }
}
