/** The case-study dialog (src/components/CaseStudyModal.tsx): how it
    rebuilds translation keys, which events close it, how it locks page
    scrolling, and how it labels links and screenshots. */
module CaseStudyModal {
  import opened Wrappers
  import opened Text

  /** The translation key for one owned-responsibility entry: the project's
      title key, then the second '.'-separated piece of the entry's key,
      which template interpolation writes as "undefined" when missing. */
  function OwnedKeyTranslation(titleKey: string, key: string): string {
    "projects.items." + titleKey + "." + Interpolate(At(Split(key, '.'), 1))
  }

  /** For a key of the form `titleKey.s` with no dot in either part, the
      rebuilt key is the entry's key under "projects.items.". */
  lemma OwnedKeyRoundTrip(titleKey: string, s: string)
    requires '.' !in titleKey && '.' !in s
    ensures OwnedKeyTranslation(titleKey, titleKey + "." + s) == "projects.items." + (titleKey + "." + s)
  {
    SplitTwo(titleKey, s, '.');
    assert titleKey + "." + s == titleKey + ['.'] + s;
  }

  /** A key without a dot has no second piece, and the translation key
      ends in "undefined". */
  lemma OwnedKeyWithoutDot(titleKey: string, key: string)
    requires '.' !in key
    ensures OwnedKeyTranslation(titleKey, key) == "projects.items." + titleKey + ".undefined"
  {
    assert Split(key, '.') == [key] by {
      JoinSplit(key, '.');
      SplitNoSeparator(key, '.');
    }
  }

  lemma {:induction false} SplitNoSeparator(s: string, sep: char)
    requires sep !in s
    ensures |Split(s, sep)| == 1
    decreases |s|
  {
    if s != [] {
      SplitNoSeparator(s[1..], sep);
    }
  }

  /** A body-style overflow value. */
  class Body {
    var overflow: string

    constructor (overflow0: string)
      ensures overflow == overflow0
    {
      overflow := overflow0;
    }
  }

  /** The scroll-lock effect on mount. */
  method LockScroll(body: Body)
    modifies body
    ensures body.overflow == "hidden"
  {
    body.overflow := "hidden";
  }

  /** Its clean-up on unmount; the value before mounting is not restored. */
  method UnlockScroll(body: Body)
    modifies body
    ensures body.overflow == "unset"
  {
    body.overflow := "unset";
  }

  /** What can happen while the dialog is open. */
  datatype ModalEvent = KeyDown(key: string) | BackdropClick | CloseButtonClick | ContentClick

  /** Whether an event calls `onClose`: the Escape key, the backdrop and the
      close button do; other keys and clicks inside the dialog do not. */
  predicate ClosesOn(e: ModalEvent) {
    match e
    case KeyDown(key) => key == "Escape"
    case BackdropClick => true
    case CloseButtonClick => true
    case ContentClick => false
  }

  lemma OnlyEscapeKeyCloses(key: string)
    ensures ClosesOn(KeyDown(key)) <==> key == "Escape"
    ensures ClosesOn(BackdropClick) && ClosesOn(CloseButtonClick) && !ClosesOn(ContentClick)
  {
  }

  datatype LinkType = Live | Github | CaseStudy

  /** The button of a project link: its variant and its label key. */
  datatype LinkButton = LinkButton(variant: string, labelKey: string)

  /** A live link is a filled button labelled "view live"; every other link
      is an outlined button labelled "view code". */
  function ButtonFor(t: LinkType): (b: LinkButton)
    ensures b.variant == "default" <==> t == Live
    ensures b.labelKey == "projects.viewLive" <==> t == Live
    ensures t != Live ==> b.variant == "outline" && b.labelKey == "projects.viewCode"
  {
    if t == Live then LinkButton("default", "projects.viewLive")
    else LinkButton("outline", "projects.viewCode")
  }

  /** The screenshot placeholders, numbered from 1. */
  function ScreenshotLabels(n: nat): (labels: seq<string>)
    ensures |labels| == n
    ensures forall i :: 0 <= i < n ==> labels[i] == "Screenshot " + NatToString(i + 1)
  {
    seq(n, i requires 0 <= i < n => "Screenshot " + NatToString(i + 1))
  }

  /** No two placeholders carry the same label. */
  lemma ScreenshotLabelsDistinct(n: nat, i: nat, j: nat)
    requires i < j < n
    ensures ScreenshotLabels(n)[i] != ScreenshotLabels(n)[j]
  {
    var p := "Screenshot ";
    if ScreenshotLabels(n)[i] == ScreenshotLabels(n)[j] {
      assert NatToString(i + 1) == ScreenshotLabels(n)[i][|p|..];
      assert NatToString(j + 1) == ScreenshotLabels(n)[j][|p|..];
      NatToStringInjective(i + 1, j + 1);
    }
  }
}
