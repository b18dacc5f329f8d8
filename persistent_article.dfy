/** The history record of a visited article (src/types/persistent_articel.rs). Its id is the
    lowercase hexadecimal SHA-256 digest of the URL's UTF-8 bytes. SHA-256 itself is a parameter: any
    function from bytes to a 32-byte digest. */
module PersistentArticles {
  import opened Wrappers
  import opened Ints
  import opened Text

  type Digest = s: seq<byte> | |s| == 32 witness seq(32, _ => 0 as byte)

  datatype PersistentArticle = PersistentArticle(
    id: string,
    title: string,
    url: string,
    description: Option<string>,
    content: Option<string>,
    publishedAt: string,
    imageUrl: string,
    visitTime: i64)

  predicate IsLowerHex(c: char) {
    '0' <= c <= '9' || 'a' <= c <= 'f'
  }

  function HexDigit(n: nat): (c: char)
    requires n < 16
    ensures IsLowerHex(c)
  {
    if n < 10 then ('0' as int + n) as char else ('a' as int + n - 10) as char
  }

  function HexValue(c: char): (n: nat)
    requires IsLowerHex(c)
    ensures n < 16
  {
    if c <= '9' then c as int - '0' as int else c as int - 'a' as int + 10
  }

  lemma HexDigitValue(n: nat)
    requires n < 16
    ensures HexValue(HexDigit(n)) == n
  {
  }

  /** `hex::encode`: two lowercase digits per byte, high nibble first. */
  function Hex(b: seq<byte>): (r: string)
    ensures |r| == 2 * |b|
    ensures forall i :: 0 <= i < |r| ==> IsLowerHex(r[i])
  {
    if b == [] then [] else [HexDigit(b[0] as int / 16), HexDigit(b[0] as int % 16)] + Hex(b[1..])
  }

  predicate IsHexText(s: string) {
    |s| % 2 == 0 && forall i :: 0 <= i < |s| ==> IsLowerHex(s[i])
  }

  /** Reading hexadecimal text back to bytes. */
  function Unhex(s: string): seq<byte>
    requires IsHexText(s)
  {
    if s == [] then [] else [(HexValue(s[0]) * 16 + HexValue(s[1])) as byte] + Unhex(s[2..])
  }

  /** Hex encoding loses nothing. */
  lemma {:induction false} HexRoundTrip(b: seq<byte>)
    ensures IsHexText(Hex(b)) && Unhex(Hex(b)) == b
  {
    if b != [] {
      var h := Hex(b);
      HexDigitValue(b[0] as int / 16);
      HexDigitValue(b[0] as int % 16);
      assert h[2..] == Hex(b[1..]);
      HexRoundTrip(b[1..]);
    }
  }

  lemma HexInjective(a: seq<byte>, b: seq<byte>)
    ensures Hex(a) == Hex(b) ==> a == b
  {
    HexRoundTrip(a);
    HexRoundTrip(b);
  }

  /** The id of the article at `url`. */
  function ArticleId(url: string, sha256: seq<byte> -> Digest): (id: string)
    ensures |id| == 64 && IsHexText(id)
    ensures Unhex(id) == sha256(Utf8(url))
  {
    HexRoundTrip(sha256(Utf8(url)));
    Hex(sha256(Utf8(url)))
  }

  /** Two URLs get the same id exactly when their digests agree: the id is a function of the URL
      alone, and collides only when SHA-256 does. */
  lemma IdsCollideOnlyWithDigests(u1: string, u2: string, sha256: seq<byte> -> Digest)
    ensures ArticleId(u1, sha256) == ArticleId(u2, sha256) <==> sha256(Utf8(u1)) == sha256(Utf8(u2))
  {
    HexInjective(sha256(Utf8(u1)), sha256(Utf8(u2)));
  }

  /** Distinct URLs share an id only through a SHA-256 collision: for a digest without collisions
      on the two URLs' bytes, equal ids mean equal URLs. */
  lemma IdsDistinguishUrls(u1: string, u2: string, sha256: seq<byte> -> Digest)
    requires sha256(Utf8(u1)) == sha256(Utf8(u2)) ==> Utf8(u1) == Utf8(u2)
    ensures ArticleId(u1, sha256) == ArticleId(u2, sha256) ==> u1 == u2
  {
    IdsCollideOnlyWithDigests(u1, u2, sha256);
    Utf8Injective(u1, u2);
  }

  /** `PersistentArticle::auto_create`; `now` is the clock reading in UTC seconds. */
  function AutoCreate(title: string, url: string, description: Option<string>, content: Option<string>,
                      publishedAt: string, imageUrl: string, sha256: seq<byte> -> Digest, now: i64): (a: PersistentArticle)
    ensures a.id == ArticleId(url, sha256) && a.visitTime == now
    ensures a.title == title && a.url == url && a.description == description && a.content == content
    ensures a.publishedAt == publishedAt && a.imageUrl == imageUrl
  {
    PersistentArticle(ArticleId(url, sha256), title, url, description, content, publishedAt, imageUrl, now)
  }

  /** Saving the same URL twice yields the same id, whatever else differs; this is what lets the
      history table replace an earlier visit instead of adding a row. */
  lemma RevisitKeepsId(t1: string, t2: string, url: string, d1: Option<string>, d2: Option<string>,
                       c1: Option<string>, c2: Option<string>, p1: string, p2: string, i1: string, i2: string,
                       sha256: seq<byte> -> Digest, n1: i64, n2: i64)
    ensures AutoCreate(t1, url, d1, c1, p1, i1, sha256, n1).id == AutoCreate(t2, url, d2, c2, p2, i2, sha256, n2).id
  {
  }
}
