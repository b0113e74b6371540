/**
 * The credentials side of the library: the user-id lookup, the OAuth 2.0
 * provider (authorization-code exchange and token refresh against Amazon's
 * endpoint) and the per-user token store, all external collaborators.
 */
module Auth {
  import opened Wrappers
  import opened AlexaTypes

  /** UserIDReader: resolves a bearer token to the user's stable id. */
  type UserIdReader = string -> Result<string, Error>

  /** The client credentials an oauth2.Config carries. */
  datatype OAuthConfig = OAuthConfig(clientId: string, clientSecret: string)

  /**
   * golang.org/x/oauth2 against amazon.Endpoint: what exchanging an
   * authorization code yields, and what the token source built from a
   * stored token yields when asked (that token while it is valid, a
   * refreshed one otherwise, or the refresh's error).
   */
  datatype OAuthProvider = OAuthProvider(
    exchange: (OAuthConfig, string) -> Result<Token, Error>,
    tokenSource: (OAuthConfig, Token) -> Result<Token, Error>)

  /** One call of TokenWriter.Write. */
  datatype TokenWrite = TokenWrite(userId: string, token: Token)

  /** The object each stored id holds once the successful writes among `ws` are applied in order. */
  function Stored(tokens: map<string, Token>, fault: (string, Token) -> Option<Error>, ws: seq<TokenWrite>)
    : (r: map<string, Token>)
    ensures r.Keys == tokens.Keys + set i | 0 <= i < |ws| && fault(ws[i].userId, ws[i].token).None? :: ws[i].userId
    decreases |ws|
  {
    if ws == [] then tokens
    else
      var last := ws[|ws| - 1];
      var before := Stored(tokens, fault, ws[..|ws| - 1]);
      assert forall i :: 0 <= i < |ws| - 1 ==> ws[..|ws| - 1][i] == ws[i];
      if fault(last.userId, last.token).None? then before[last.userId := last.token] else before
  }

  lemma {:induction false} StoredAppend(tokens: map<string, Token>, fault: (string, Token) -> Option<Error>,
                                        a: seq<TokenWrite>, b: seq<TokenWrite>)
    ensures Stored(tokens, fault, a + b) == Stored(Stored(tokens, fault, a), fault, b)
    decreases |b|
  {
    if b == [] {
      assert a + b == a;
    } else {
      assert (a + b)[..|a + b| - 1] == a + b[..|b| - 1];
      StoredAppend(tokens, fault, a, b[..|b| - 1]);
    }
  }

  /**
   * TokenReaderWriter, backed by an eventually consistent object store:
   * `tokens` is what successful writes have put, while a read answers
   * `read(id)`, which need not reflect them. A missing object reads as
   * Ok(None), not as an error.
   */
  class TokenStore {
    const read: string -> Result<Option<Token>, Error>
    const writeFault: (string, Token) -> Option<Error>
    var tokens: map<string, Token>
    ghost var writes: seq<TokenWrite>

    constructor (read: string -> Result<Option<Token>, Error>, writeFault: (string, Token) -> Option<Error>)
      ensures this.read == read && this.writeFault == writeFault
      ensures tokens == map[] && writes == []
    {
      this.read := read;
      this.writeFault := writeFault;
      tokens := map[];
      writes := [];
    }

    /** Write: one put of `token` under `id`; on success the object for `id` is `token`, other ids keep theirs. */
    method Write(id: string, token: Token) returns (err: Option<Error>)
      modifies this
      ensures err == writeFault(id, token)
      ensures writes == old(writes) + [TokenWrite(id, token)]
      ensures tokens == Stored(old(tokens), writeFault, [TokenWrite(id, token)])
      ensures err.None? ==> id in tokens && tokens[id] == token
      ensures forall other :: other != id ==> (other in tokens <==> other in old(tokens))
      ensures forall other :: other != id && other in tokens ==> tokens[other] == old(tokens)[other]
    {
      err := writeFault(id, token);
      writes := writes + [TokenWrite(id, token)];
      assert [TokenWrite(id, token)][..0] == [];
      if err.None? {
        tokens := tokens[id := token];
      }
    }
  }
}
