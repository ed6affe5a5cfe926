/** The demo-text helpers: lorem-ipsum truncation at a word boundary and
    the intro text of a scenario's root page. */
module Kauderwelsch {
  import opened Wrappers

  /** The fixed lorem-ipsum sentence pair that `LoremIpsum` shortens (its
      first word written apart, so that its start can be read off). */
  const Lorem := "Bacon " + "ipsum dolor sit strong amet capicola jerky pork chop rump shoulder shank. Shankle strip steak pig salami link."

  /** `getLoremIpsumHtml`: a fixed text with HTML markup in it. */
  const LoremHtml := "Bacon ipsum dolor sit strong amet capicola jerky pork chop rump shoulder shank. Shankle strip <a href=\"#\">steak pig salami link</a>. Leberkas shoulder ham hock cow salami bacon <em>em pork pork</em> chop, jerky pork belly drumstick ham. Tri-tip strip steak sirloin prosciutto pastrami."

  /** PHP `substr(text, 0, n)`: the first `n` characters for `n >= 0`; for a
      negative `n`, the text with its last `-n` characters left off, or ""
      when that reaches past the start. */
  function Head(text: string, n: int): (r: string)
    ensures r <= text
    ensures n >= 0 ==> |r| == if n < |text| then n else |text|
    ensures n < 0 ==> |r| == if |text| + n >= 0 then |text| + n else 0
  {
    if n >= 0 then (if n < |text| then text[..n] else text)
    else if |text| + n >= 0 then text[..|text| + n]
    else ""
  }

  /** PHP `strrpos(s, ' ')`: the position of the last space, or `None` for
      PHP's `false` when there is none. */
  function LastSpace(s: string): (r: Option<nat>)
    ensures r.Some? ==>
      && r.value < |s| && s[r.value] == ' '
      && forall j :: r.value < j < |s| ==> s[j] != ' '
    ensures r.None? <==> forall j :: 0 <= j < |s| ==> s[j] != ' '
  {
    if |s| == 0 then None
    else if s[|s| - 1] == ' ' then Some(|s| - 1)
    else LastSpace(s[..|s| - 1])
  }

  /** `getLoremIpsum` over an arbitrary `text`: the whole text when
      `maxCharacters` is 0 or the text is no longer than it; otherwise the
      text up to the last space inside the first `maxCharacters` characters.
      When that window holds no space, `strrpos` gives `false`, which
      `substr` rejects as its length under strict types. */
  function Truncate(text: string, maxCharacters: int): (r: Result<string>)
    ensures r.Success? ==> r.value <= text
    ensures r.Failure? ==> r.error == TypeError
  {
    if |text| > maxCharacters && maxCharacters != 0 then
      match LastSpace(Head(text, maxCharacters))
      case None => Failure(TypeError)
      case Some(p) => Success(text[..p])
    else Success(text)
  }

  /** `getLoremIpsum(maxCharacters)` on the extension's fixed text. */
  function LoremIpsum(maxCharacters: int): (r: Result<string>)
    ensures r.Success? ==> r.value <= Lorem
  {
    Truncate(Lorem, maxCharacters)
  }

  /** The text comes back whole exactly when there is no limit or the text
      is within it; every other successful call (a negative limit
      included) returns something strictly shorter. */
  lemma TruncateKeepsShortText(text: string, maxCharacters: int)
    ensures Truncate(text, maxCharacters) == Success(text) <==> maxCharacters == 0 || |text| <= maxCharacters
    ensures Truncate(text, maxCharacters).Success? && !(maxCharacters == 0 || |text| <= maxCharacters) ==>
      |Truncate(text, maxCharacters).value| < |text|
  {
    if !(maxCharacters == 0 || |text| <= maxCharacters) {
      var w := Head(text, maxCharacters);
      if |text| > 0 {
        assert |w| < |text|;
      }
    }
  }

  /** A positive limit below the text's length cuts at the last word
      boundary inside the limit: the result is shorter than the limit, the
      character after it is a space, and no later space fits in the limit.
      It fails exactly when the first `maxCharacters` characters hold no
      space. */
  lemma TruncateAtWordBoundary(text: string, maxCharacters: int)
    requires 0 < maxCharacters < |text|
    ensures Truncate(text, maxCharacters).Failure? <==> forall j :: 0 <= j < maxCharacters ==> text[j] != ' '
    ensures Truncate(text, maxCharacters).Failure? ==> Truncate(text, maxCharacters).error == TypeError
    ensures var r := Truncate(text, maxCharacters);
      r.Success? ==>
        && r.value <= text
        && |r.value| < maxCharacters
        && text[|r.value|] == ' '
        && forall j :: |r.value| < j < maxCharacters ==> text[j] != ' '
  {
    var w := Head(text, maxCharacters);
    assert |w| == maxCharacters;
    assert forall j :: 0 <= j < maxCharacters ==> w[j] == text[j];
  }

  /** The cut is the longest space-ended prefix: any prefix ending just
      before a space inside the limit is no longer than the result. */
  lemma TruncateIsLongest(text: string, maxCharacters: int, k: nat)
    requires 0 < maxCharacters < |text|
    requires k < maxCharacters && text[k] == ' '
    ensures Truncate(text, maxCharacters).Success?
    ensures k <= |Truncate(text, maxCharacters).value|
  {
    TruncateAtWordBoundary(text, maxCharacters);
  }

  /** On the fixed text: a limit of 0 or of at least its length returns the
      whole sentence pair; a limit of 5 (the first word fills the window)
      fails; a limit of 6 keeps just "Bacon". */
  lemma LoremIpsumSamples()
    ensures LoremIpsum(0) == Success(Lorem)
    ensures LoremIpsum(|Lorem|) == Success(Lorem)
    ensures LoremIpsum(5) == Failure(TypeError)
    ensures LoremIpsum(6) == Success("Bacon")
  {
    assert Head(Lorem, 6) == "Bacon ";
    assert Head(Lorem, 5) == "Bacon";
  }

  const IntroPrefix := "<p>These are demo pages for Site Configuration with fallbackType "
  const IntroSuffix := ", created for testing TYPO3 language fallback/overlay behaviour. </p><p>There is one page tree per fallbackType. Each root page has three subpages for backend translation modes free, connected and mixed. </p><p>In order to avoid bias, languages are not defined as actual languages. Each language title hints at how fallbacks are configured.</p>"

  /** `getIntroText`: the fallback type embedded verbatim between a fixed
      prefix and a fixed suffix. */
  function IntroText(fallbackType: string): (r: string)
    ensures |r| == |IntroPrefix| + |fallbackType| + |IntroSuffix|
    ensures r[..|IntroPrefix|] == IntroPrefix
    ensures r[|IntroPrefix|..|IntroPrefix| + |fallbackType|] == fallbackType
    ensures r[|IntroPrefix| + |fallbackType|..] == IntroSuffix
  {
    IntroPrefix + fallbackType + IntroSuffix
  }

  /** Different fallback types give different intro texts: the type can be
      read back from the text. */
  lemma IntroTextInjective(a: string, b: string)
    ensures IntroText(a) == IntroText(b) <==> a == b
  {
    if IntroText(a) == IntroText(b) {
      assert |a| == |b|;
      assert a == IntroText(a)[|IntroPrefix|..|IntroPrefix| + |a|];
    }
  }
}
