/**
 * Bot detection by user agent: a case-insensitive regular expression made of
 * plain alternatives, `/t1|t2|…/i`, matches when any one token occurs anywhere
 * in the agent string.
 */
module Classify {
  import opened Text

  /** Every token is already lower-case, so lower-casing the agent alone makes the match case-insensitive. */
  ghost predicate LowerCaseTokens(tokens: seq<string>) {
    forall i :: 0 <= i < |tokens| ==> Lower(tokens[i]) == tokens[i]
  }

  /**
   * `/t1|t2|…/i.test(ua)` for lower-case ASCII tokens: some alternative is found
   * in the lower-cased agent. Such a regular expression folds case only for
   * ASCII letters, which is what `Lower` does.
   */
  predicate MatchesAnyToken(ua: string, tokens: seq<string>) {
    exists i :: 0 <= i < |tokens| && Contains(Lower(ua), tokens[i])
  }

  /** The pattern matches exactly when some token occurs at some position of the lower-cased agent. */
  lemma MatchesAnyTokenIff(ua: string, tokens: seq<string>)
    ensures MatchesAnyToken(ua, tokens) <==>
      exists i, p :: 0 <= i < |tokens| && OccursAt(Lower(ua), tokens[i], p)
  {
    var text := Lower(ua);
    forall i | 0 <= i < |tokens|
      ensures Contains(text, tokens[i]) <==> exists p :: OccursAt(text, tokens[i], p)
    {
      ContainsIff(text, tokens[i]);
    }
  }

  /** Matching against a longer token list never loses a match. */
  lemma MatchesPrefixList(ua: string, tokens: seq<string>, n: nat)
    requires n <= |tokens|
    ensures MatchesAnyToken(ua, tokens[..n]) ==> MatchesAnyToken(ua, tokens)
  {
    MatchesAnyTokenIff(ua, tokens[..n]);
    MatchesAnyTokenIff(ua, tokens);
    if MatchesAnyToken(ua, tokens[..n]) {
      var i, p :| 0 <= i < |tokens[..n]| && OccursAt(Lower(ua), tokens[..n][i], p);
      assert OccursAt(Lower(ua), tokens[i], p);
    }
  }

  /** An empty agent matches no non-empty token. */
  lemma EmptyAgentMatchesNothing(tokens: seq<string>)
    requires forall i :: 0 <= i < |tokens| ==> tokens[i] != ""
    ensures !MatchesAnyToken("", tokens)
  {
    MatchesAnyTokenIff("", tokens);
  }

  /** The match depends on the agent only up to ASCII case. */
  lemma MatchIgnoresCase(a: string, b: string, tokens: seq<string>)
    requires Lower(a) == Lower(b)
    ensures MatchesAnyToken(a, tokens) <==> MatchesAnyToken(b, tokens)
  {
    MatchesAnyTokenIff(a, tokens);
    MatchesAnyTokenIff(b, tokens);
  }

  /** A token found at position `p` of the lower-cased agent makes the pattern match. */
  lemma MatchAt(ua: string, tokens: seq<string>, i: nat, p: nat)
    requires i < |tokens|
    requires p + |tokens[i]| <= |ua|
    requires Lower(ua)[p..p + |tokens[i]|] == tokens[i]
    ensures MatchesAnyToken(ua, tokens)
  {
    MatchesAnyTokenIff(ua, tokens);
    assert OccursAt(Lower(ua), tokens[i], p);
  }
}
