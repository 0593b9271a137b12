/** Content-addressed item identifiers: the first 16 hex digits of a SHA-256 digest. */
module Hash {

  /** A lowercase hexadecimal digit, as Node's `digest('hex')` writes them. */
  predicate IsHexChar(c: char) {
    '0' <= c <= '9' || 'a' <= c <= 'f'
  }

  predicate IsHex(s: string) {
    forall i :: 0 <= i < |s| ==> IsHexChar(s[i])
  }

  /** A SHA-256 digest in hex: 64 lowercase hex digits. */
  predicate IsHexDigest(s: string) {
    |s| == 64 && IsHex(s)
  }

  /** A digest value: what SHA-256's hex encoding can return. */
  type HexDigest = s: string | IsHexDigest(s) witness seq(64, i => '0')

  /** SHA-256 over a string, hex encoded. Its internals are not modelled: any function with hex-digest outputs will do. */
  type Sha256 = string -> HexDigest

  /** Number of hex digits kept from the digest. */
  const ID_LENGTH: nat := 16

  /** `hashString`: the first 16 hex digits of the digest of `str`. */
  function HashString(sha: Sha256, str: string): (r: string)
    ensures |r| == ID_LENGTH
    ensures IsHex(r)
    ensures r <= sha(str)
  {
    sha(str)[..ID_LENGTH]
  }

  /** The string `generateItemId` hashes: source, link and title joined by `|`. */
  function ItemKey(source: string, link: string, title: string): string {
    source + "|" + link + "|" + title
  }

  /** `generateItemId` over the three fields it reads. */
  function GenerateItemId(sha: Sha256, source: string, link: string, title: string): (r: string)
    ensures |r| == ID_LENGTH && IsHex(r)
    ensures r <= sha(source + "|" + link + "|" + title)
  {
    HashString(sha, ItemKey(source, link, title))
  }

  /** The item id is the generic string hash of the `|`-joined key, so both functions agree on every input. */
  lemma ItemIdIsHashOfKey(sha: Sha256, source: string, link: string, title: string)
    ensures GenerateItemId(sha, source, link, title) == HashString(sha, source + "|" + link + "|" + title)
  {
  }

  /** Equal keys give equal ids, whatever digest function is used. */
  lemma ItemIdDeterministic(sha: Sha256, s1: string, l1: string, t1: string, s2: string, l2: string, t2: string)
    requires ItemKey(s1, l1, t1) == ItemKey(s2, l2, t2)
    ensures GenerateItemId(sha, s1, l1, t1) == GenerateItemId(sha, s2, l2, t2)
  {
  }

  /** The `|`-joined key is not injective: moving a `|` between fields keeps the key, so two different items share an id. */
  lemma ItemKeyAmbiguous(sha: Sha256)
    ensures ItemKey("a|b", "c", "t") == ItemKey("a", "b|c", "t")
    ensures GenerateItemId(sha, "a|b", "c", "t") == GenerateItemId(sha, "a", "b|c", "t")
  {
    assert ItemKey("a|b", "c", "t") == "a|b|c|t" == ItemKey("a", "b|c", "t");
  }
}
