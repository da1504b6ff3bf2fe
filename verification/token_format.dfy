/** The text of an API token: `ippon_pat_<prefix>_<secret>`. */
module TokenFormat {
  import opened Common

  const TOKEN_TAG := "ippon_pat_"

  /** An ideal SHA-256: a digest determines what was hashed. */
  datatype Digest = Sha256(preimage: string)

  predicate IsHex(c: char) {
    '0' <= c <= '9' || 'a' <= c <= 'f'
  }

  predicate IsUrlSafe(c: char) {
    '0' <= c <= '9' || 'a' <= c <= 'z' || 'A' <= c <= 'Z' || c == '-' || c == '_'
  }

  /** What `secrets.token_hex(6)` can return. */
  type MintedPrefix = s: string | |s| == 12 && forall i :: 0 <= i < |s| ==> IsHex(s[i])
    witness "000000000000"

  /** What `secrets.token_urlsafe(32)` can return: 43 base64url characters, underscores included. */
  type MintedSecret = s: string | |s| == 43 && forall i :: 0 <= i < |s| ==> IsUrlSafe(s[i])
    witness "0000000000000000000000000000000000000000000"

  function PrintToken(prefix: string, secret: string): string {
    TOKEN_TAG + prefix + "_" + secret
  }

  /** `s.partition(sep)`; None when the separator is absent. */
  function Partition(s: string, sep: char): (r: Option<(string, string)>)
    ensures r.Some? ==> sep !in r.value.0 && s == r.value.0 + [sep] + r.value.1
    ensures r.None? ==> sep !in s
  {
    if s == "" then None
    else if s[0] == sep then Some(("", s[1..]))
    else
      match Partition(s[1..], sep)
      case None => None
      case Some((before, after)) => Some(([s[0]] + before, after))
  }

  /** `parse_api_token`. */
  function ParseToken(token: string): Option<(string, string)> {
    if !(TOKEN_TAG <= token) then None
    else
      match Partition(token[|TOKEN_TAG|..], '_')
      case None => None
      case Some((prefix, secret)) => if prefix == "" || secret == "" then None else Some((prefix, secret))
  }

  lemma {:induction false} PartitionFirst(before: string, sep: char, after: string)
    requires sep !in before
    ensures Partition(before + [sep] + after, sep) == Some((before, after))
  {
    var s := before + [sep] + after;
    if before == "" {
      assert s[1..] == after;
    } else {
      assert s[1..] == before[1..] + [sep] + after;
      PartitionFirst(before[1..], sep, after);
      assert [s[0]] + before[1..] == before;
    }
  }

  /** Parsing inverts printing, whatever underscores the secret holds. */
  lemma ParsePrintedToken(prefix: string, secret: string)
    requires prefix != "" && secret != "" && '_' !in prefix
    ensures ParseToken(PrintToken(prefix, secret)) == Some((prefix, secret))
  {
    var token := PrintToken(prefix, secret);
    assert token[|TOKEN_TAG|..] == prefix + ['_'] + secret;
    PartitionFirst(prefix, '_', secret);
  }

  /** Printing inverts parsing, so distinct accepted texts are distinct (prefix, secret) pairs. */
  lemma PrintParsedToken(token: string)
    requires ParseToken(token).Some?
    ensures var (prefix, secret) := ParseToken(token).value;
            && prefix != "" && secret != "" && '_' !in prefix
            && PrintToken(prefix, secret) == token
  {
  }

  /** Minted values always print to a text that parses back to them. */
  lemma MintedTokenParses(prefix: MintedPrefix, secret: MintedSecret)
    ensures ParseToken(PrintToken(prefix, secret)) == Some((prefix, secret))
  {
    ParsePrintedToken(prefix, secret);
  }
}
