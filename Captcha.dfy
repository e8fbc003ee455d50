/**
 * The two challenge detectors: `check_for_captcha` in utils.py, which asks the
 * live browser document for elements whose text mentions a challenge, and the
 * requests path's lower-cased substring test on the fetched body.
 */
module Captcha {
  import opened Text

  const CaptchaMarker: string := "CAPTCHA"
  const BotMarker: string := "verify you are not a bot"

  /**
   * What the browser answers to the XPath query of `check_for_captcha`:
   * either the documents' elements (each by the first text node the XPath
   * `text()` test looks at, "" when it has none), in document order, or a
   * failure of the query itself.
   */
  datatype DomAnswer = Elements(texts: seq<string>) | QueryFails

  /** The XPath predicate: the text contains either marker, case-sensitively. */
  predicate MentionsChallenge(text: string)
  {
    Contains(text, CaptchaMarker) || Contains(text, BotMarker)
  }

  /** The elements the XPath query selects, in document order. */
  function Matches(texts: seq<string>): (m: seq<string>)
    ensures |m| <= |texts|
    ensures forall t :: t in m ==> t in texts && MentionsChallenge(t)
    ensures forall i :: 0 <= i < |texts| && MentionsChallenge(texts[i]) ==> texts[i] in m
  {
    if texts == [] then []
    else (if MentionsChallenge(texts[0]) then [texts[0]] else []) + Matches(texts[1..])
  }

  /** `check_for_captcha`: whether the query selects anything; a failing query counts as no challenge. */
  function CheckForCaptcha(dom: DomAnswer): (captcha: bool)
    ensures dom.QueryFails? ==> !captcha
    ensures dom.Elements? ==>
      (captcha <==> exists i :: 0 <= i < |dom.texts| && MentionsChallenge(dom.texts[i]))
  {
    match dom
    case QueryFails => false
    case Elements(texts) =>
      var found := Matches(texts);
      if |found| > 0 then
        assert found[0] in texts && MentionsChallenge(found[0]);
        true
      else false
  }

  /** The requests path's challenge test on the response body. */
  function BotWall(body: string): (wall: bool)
  {
    Contains(Lower(body), BotMarker)
  }

  /** The body test ignores ASCII case and looks for the phrase anywhere in the body. */
  lemma BotWallIffPhraseOccurs(body: string)
    ensures BotWall(body) <==> exists i :: OccursAt(Lower(body), BotMarker, i)
    ensures BotWall(body) <==> BotWall(Lower(body))
  {
    ContainsIffOccurs(Lower(body), BotMarker);
    LowerIdempotent(body);
  }
}
