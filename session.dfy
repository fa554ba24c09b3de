/** The stored bearer token as the front end reads it: dot-separated
    segments, and claims decoded from segment 1 without any signature check. */
module Session {
  import opened Wrappers
  import opened Strings

  /** The claims the front end reads from a token's payload. */
  datatype Claims = Claims(factoryId: Option<string>, role: Option<string>)

  /** `JSON.parse(atob(segment))`: the claims, or `None` when either call throws. */
  type Decoder = string -> Option<Claims>

  /** `token.split('.')`. */
  function Segments(token: string): (parts: seq<string>)
    ensures |parts| >= 1
  {
    Split(token, '.')
  }

  /** The three-segment shape `header.payload.signature`. */
  predicate HasThreeSegments(token: string) {
    |Segments(token)| == 3
  }

  /** A token has three segments exactly when it has exactly two dots. */
  lemma ThreeSegmentsIffTwoDots(token: string)
    ensures HasThreeSegments(token) <==> Count(token, '.') == 2
  {
    SplitCount(token, '.');
  }

  /** `JSON.parse(atob(token.split('.')[1]))`. A token without a dot has no
      segment 1; `atob(undefined)` decodes the nine-character text
      "undefined", which is not valid base64, so it throws. */
  function Payload(token: string, decode: Decoder): (claims: Option<Claims>)
  {
    var parts := Segments(token);
    if |parts| > 1 then decode(parts[1]) else None
  }

  /** Decoded claims imply a dot in the token, hence a non-empty token. */
  lemma PayloadNeedsDot(token: string, decode: Decoder)
    ensures Payload(token, decode).Some? ==> '.' in token && token != ""
  {
    SplitCount(token, '.');
    CountPositive(token, '.');
  }
}
