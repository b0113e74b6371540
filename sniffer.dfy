/**
 * tokenSniffer: wraps a token source and remembers the last token it
 * handed out successfully, so that a refresh made inside the HTTP
 * transport can be noticed and persisted afterwards.
 */
module Sniffer {
  import opened Wrappers
  import opened AlexaTypes

  /** What the wrapped source answers on its i-th call (0-based). */
  type TokenSource = nat -> Result<Token, Error>

  /** The token of the most recent successful call among the first `n`, if any. */
  function LastSuccess(source: TokenSource, n: nat): Option<Token> {
    if n == 0 then None
    else if source(n - 1).Ok? then Some(source(n - 1).value)
    else LastSuccess(source, n - 1)
  }

  /** Some token is remembered exactly when some call succeeded. */
  lemma {:induction false} LastSuccessPresent(source: TokenSource, n: nat)
    ensures LastSuccess(source, n).Some? <==> exists i :: 0 <= i < n && source(i).Ok?
  {
    if n > 0 {
      LastSuccessPresent(source, n - 1);
      if source(n - 1).Ok? {
        assert 0 <= n - 1 < n && source(n - 1).Ok?;
      } else {
        assert forall i :: 0 <= i < n && source(i).Ok? ==> i < n - 1;
      }
    }
  }

  /** The remembered token is that of the most recent successful call. */
  lemma {:induction false} LastSuccessIsLatest(source: TokenSource, n: nat, k: nat)
    requires k < n && source(k).Ok?
    requires forall j :: k < j < n ==> source(j).Err?
    ensures LastSuccess(source, n) == Some(source(k).value)
  {
    if k < n - 1 {
      LastSuccessIsLatest(source, n - 1, k);
    }
  }

  class TokenSniffer {
    var lastToken: Option<Token>
    const tokenSource: TokenSource
    var calls: nat

    /** lastToken is what the calls made so far leave behind. */
    ghost predicate Valid()
      reads this
    {
      lastToken == LastSuccess(tokenSource, calls)
    }

    /** The zero value around a source: no call made, no token seen. */
    constructor (source: TokenSource)
      ensures Valid() && tokenSource == source && calls == 0 && lastToken == None
    {
      tokenSource := source;
      calls := 0;
      lastToken := None;
    }

    /** Token: asks the wrapped source, passes its answer on unchanged, and remembers a success. */
    method Token() returns (r: Result<AlexaTypes.Token, Error>)
      requires Valid()
      modifies this
      ensures Valid()
      ensures r == tokenSource(old(calls)) && calls == old(calls) + 1
      ensures lastToken == if r.Ok? then Some(r.value) else old(lastToken)
    {
      r := tokenSource(calls);
      if r.Ok? {
        lastToken := Some(r.value);
      }
      calls := calls + 1;
    }
  }
}
