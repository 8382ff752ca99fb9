/** `_normalise_token_payload`: the one place where a caller's token, a bare
    string or a dict, becomes the mapping sent as the authorization part of a
    request body. */
module Tokens {
  import opened Values

  const TokenKey := "token"
  const TokenTypeMessage := "token must be a str or dict with token information"

  /** The inputs the normalisation accepts: a `str` or a `dict`. */
  predicate Accepted(token: Json) {
    token.JStr? || token.JDict?
  }

  /** The token an input carries: the string itself, or the dict's `token`
      entry. A dict without that entry carries none. */
  function CarriedToken(token: Json): Option<Json> {
    match token
    case JStr(_) => Some(token)
    case JDict(fields) => if TokenKey in fields then Some(fields[TokenKey]) else None
    case _ => None
  }

  function NormaliseTokenPayload(token: Json): (r: Result<map<string, Json>>)
    ensures r.Err? <==> !Accepted(token)
    ensures r.Err? ==> r.error == TypeError(TokenTypeMessage)
    ensures r.Ok? && CarriedToken(token).Some? ==> r.value == map[TokenKey := CarriedToken(token).value]
    ensures r.Ok? && CarriedToken(token).None? ==> r == Ok(token.fields) && TokenKey !in r.value
  {
    match token
    case JStr(s) => Ok(map[TokenKey := token])
    case JDict(fields) =>
      if TokenKey in fields then Ok(map[TokenKey := fields[TokenKey]]) else Ok(fields)
    case _ => Err(TypeError(TokenTypeMessage))
  }

  /** The four cases, each stated for its own kind of input. */
  lemma NormaliseString(s: string)
    ensures NormaliseTokenPayload(JStr(s)) == Ok(map["token" := JStr(s)])
  {
  }

  lemma NormaliseDictWithToken(d: map<string, Json>)
    requires "token" in d
    ensures NormaliseTokenPayload(JDict(d)) == Ok(map["token" := d["token"]])
    ensures |NormaliseTokenPayload(JDict(d)).value| == 1
  {
  }

  lemma NormaliseDictWithoutToken(d: map<string, Json>)
    requires "token" !in d
    ensures NormaliseTokenPayload(JDict(d)) == Ok(d)
  {
  }

  /** A result holds the key `token` exactly when the input carried a token,
      and then it holds nothing else. */
  lemma NormalisedHasTokenIff(token: Json)
    requires Accepted(token)
    ensures TokenKey in NormaliseTokenPayload(token).value <==> CarriedToken(token).Some?
    ensures TokenKey in NormaliseTokenPayload(token).value ==> NormaliseTokenPayload(token).value.Keys == {TokenKey}
  {
  }

  /** Normalising the body it produced again changes nothing. */
  lemma NormaliseIdempotent(token: Json)
    requires Accepted(token)
    ensures NormaliseTokenPayload(JDict(NormaliseTokenPayload(token).value)) == NormaliseTokenPayload(token)
  {
  }
}
