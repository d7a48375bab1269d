/**
 * The opaque encoders the bot relies on: MD5 hex digests and URL quoting.
 * Only the properties the bot needs of them are modelled.
 */
module Digest {

  predicate IsHexChar(c: char) {
    '0' <= c <= '9' || 'a' <= c <= 'f'
  }

  /** What `hashlib.md5(…).hexdigest()` returns: 32 lower-case hex digits. */
  type HexDigest = s: string | |s| == 32 && forall i :: 0 <= i < |s| ==> IsHexChar(s[i])
    witness "00000000000000000000000000000000"

  /** Characters `urllib.parse.quote` leaves alone with its default `safe='/'`. */
  predicate IsUnreserved(c: char) {
    'a' <= c <= 'z' || 'A' <= c <= 'Z' || '0' <= c <= '9' || c == '_' || c == '.' || c == '-' || c == '~' || c == '/'
  }

  /**
   * `urllib.parse.quote(s)`: unreserved characters are kept, every other one is
   * replaced by its percent-escape, given by `escape`.
   */
  function Quote(s: string, escape: char -> string): string {
    if s == [] then ""
    else (if IsUnreserved(s[0]) then [s[0]] else escape(s[0])) + Quote(s[1..], escape)
  }

  /** Quoting leaves a string of unreserved characters unchanged. */
  lemma {:induction false} QuoteUnreserved(s: string, escape: char -> string)
    requires forall i :: 0 <= i < |s| ==> IsUnreserved(s[i])
    ensures Quote(s, escape) == s
  {
    if s != [] {
      QuoteUnreserved(s[1..], escape);
    }
  }

  /** A cache file name `<md5 hex>.mp3` consists of unreserved characters only. */
  lemma Mp3NameUnreserved(h: HexDigest)
    ensures forall i :: 0 <= i < |h + ".mp3"| ==> IsUnreserved((h + ".mp3")[i])
  {
    forall i | 0 <= i < |h + ".mp3"| ensures IsUnreserved((h + ".mp3")[i]) {
      if i < |h| {
        assert (h + ".mp3")[i] == h[i] && IsHexChar(h[i]);
      }
    }
  }

  /** Quoting a cache file name leaves it unchanged. */
  lemma QuoteMp3Name(h: HexDigest, escape: char -> string)
    ensures Quote(h + ".mp3", escape) == h + ".mp3"
  {
    Mp3NameUnreserved(h);
    QuoteUnreserved(h + ".mp3", escape);
  }
}
