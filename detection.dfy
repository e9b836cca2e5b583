/** The success predicate `is_bypass_successful`: some configured keyword is a
    substring of the lower-cased text. Keywords are used as given (they are
    not lower-cased themselves). */
module Detection {
  import opened Text

  /** `any(keyword in prompt.lower() for keyword in keywords)`, tried in list order. */
  function IsBypassSuccessful(keywords: seq<string>, prompt: string): bool {
    if keywords == [] then false
    else Contains(Lower(prompt), keywords[0]) || IsBypassSuccessful(keywords[1..], prompt)
  }

  /** The test passes exactly when some keyword is a substring of the lower-cased text. */
  lemma {:induction false} BypassIffKeywordOccurs(keywords: seq<string>, prompt: string)
    ensures IsBypassSuccessful(keywords, prompt) <==>
      exists j :: 0 <= j < |keywords| && Occurs(keywords[j], Lower(prompt))
    decreases |keywords|
  {
    if keywords != [] {
      ContainsIffOccurs(Lower(prompt), keywords[0]);
      BypassIffKeywordOccurs(keywords[1..], prompt);
      assert forall j :: 1 <= j < |keywords| ==> keywords[j] == keywords[1..][j - 1];
    }
  }

  /** With no keywords configured nothing ever counts as a bypass. */
  lemma NoKeywordsNeverSucceed(prompt: string)
    ensures !IsBypassSuccessful([], prompt)
  {
  }

  /** A keyword that holds an ASCII capital can never be matched. */
  lemma CapitalKeywordNeverMatches(keyword: string, c: nat, prompt: string)
    requires c < |keyword| && IsUpperAscii(keyword[c])
    ensures !IsBypassSuccessful([keyword], prompt)
  {
    BypassIffKeywordOccurs([keyword], prompt);
    CapitalNeverOccursInLower(keyword, prompt, c);
  }

  /** Upper-casing the text never changes the verdict. */
  lemma UpperKeepsVerdict(keywords: seq<string>, prompt: string)
    ensures IsBypassSuccessful(keywords, Upper(prompt)) == IsBypassSuccessful(keywords, prompt)
  {
    BypassIffKeywordOccurs(keywords, prompt);
    BypassIffKeywordOccurs(keywords, Upper(prompt));
    LowerOfUpper(prompt);
  }

  /** A keyword found (after lower-casing) in a fixed piece `b` of the text
      makes the text a bypass, whatever surrounds that piece. */
  lemma KeywordInFixedPart(keywords: seq<string>, j: nat, a: string, b: string, c: string, i: nat)
    requires j < |keywords| && OccursAt(keywords[j], Lower(b), i)
    ensures IsBypassSuccessful(keywords, a + b + c)
  {
    LowerConcat(a + b, c);
    LowerConcat(a, b);
    OccursInSuffix(keywords[j], Lower(a), Lower(b), i);
    var k: nat :| OccursAt(keywords[j], Lower(a) + Lower(b), k);
    OccursInPrefix(keywords[j], Lower(a) + Lower(b), Lower(c), k);
    BypassIffKeywordOccurs(keywords, a + b + c);
  }
}
