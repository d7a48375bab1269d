/**
 * The synthesised-audio cache of the main bot (app/elevenlabs_integration.py).
 * A phrase spoken in a voice is stored once, as `<md5 of "text_voice">.mp3` in
 * the cache directory, and played back through a public URL under `/audio/`.
 * The ElevenLabs text-to-speech endpoint, MD5 and URL quoting are opaque: they
 * are constant function fields of the service.
 */
module ElevenLabs {
  import opened Wrappers
  import opened Digest
  import Text
  import Files

  /** Default of `ELEVENLABS_VOICE_ID`. */
  const DefaultVoiceId := "pNInz6obpgDQGcFmaJgB"
  /** Default of `PUBLIC_URL_BASE`. */
  const DefaultPublicUrlBase := "https://vanguard-voice-bot.onrender.com"
  const AudioPath := "/audio/"

  /** What `requests.post` to the text-to-speech endpoint gives back: a reply, or an exception. */
  datatype ApiReply = Reply(status: int, content: seq<bv8>) | Raised

  /** The string whose MD5 digest names the cache file of `text` spoken by `voiceId`. */
  function HashInput(text: string, voiceId: string): (s: string)
    ensures Text.StartsWith(s, text) && Text.EndsWith(s, voiceId)
    ensures |s| == |text| + |voiceId| + 1 && s[|text|] == '_'
  {
    text + "_" + voiceId
  }

  /**
   * The hash input is a plain concatenation, so two different (text, voice)
   * pairs can share a cache file.
   */
  lemma HashInputCollision()
    ensures ("a_b", "c") != ("a", "b_c")
    ensures HashInput("a_b", "c") == HashInput("a", "b_c")
  {
  }

  /** `f"{PUBLIC_URL_BASE}/audio/{filename}"`. */
  function AudioUrl(base: string, filename: string): (url: string)
    ensures Text.StartsWith(url, base + AudioPath)
    ensures url[|base + AudioPath|..] == filename
  {
    base + AudioPath + filename
  }

  /** The file name a public audio URL refers to, if the URL lies under `base`. */
  function FilenameFromUrl(base: string, url: string): (r: Option<string>)
    ensures r.Some? <==> Text.StartsWith(url, base + AudioPath)
  {
    if Text.StartsWith(url, base + AudioPath) then Some(url[|base + AudioPath|..]) else None
  }

  /** Stripping `base + "/audio/"` from a public URL gives back the file name. */
  lemma FilenameFromAudioUrl(base: string, filename: string)
    ensures FilenameFromUrl(base, AudioUrl(base, filename)) == Some(filename)
  {
  }

  /** Distinct cache files have distinct public URLs. */
  lemma AudioUrlInjective(base: string, f: string, g: string)
    requires AudioUrl(base, f) == AudioUrl(base, g)
    ensures f == g
  {
    FilenameFromAudioUrl(base, f);
    FilenameFromAudioUrl(base, g);
  }

  /**
   * The module-level state of app/elevenlabs_integration.py: its settings, the
   * opaque primitives it uses, the cache directory, and the requests it has
   * posted to the text-to-speech endpoint as (voice, text) pairs.
   */
  class TtsService {
    const apiKey: string
    const publicUrlBase: string
    const md5: string -> HexDigest
    const escape: char -> string
    /** The reply of the text-to-speech endpoint to a request for `text` in voice `voiceId`. */
    const api: (string, string) -> ApiReply
    const cache: Files.Directory
    var posts: seq<(string, string)>

    constructor (apiKey: string, publicUrlBase: string, md5: string -> HexDigest, escape: char -> string,
                 api: (string, string) -> ApiReply, cache: Files.Directory)
      ensures this.apiKey == apiKey && this.publicUrlBase == publicUrlBase
      ensures this.md5 == md5 && this.escape == escape && this.api == api && this.cache == cache
      ensures posts == []
    {
      this.apiKey := apiKey;
      this.publicUrlBase := publicUrlBase;
      this.md5 := md5;
      this.escape := escape;
      this.api := api;
      this.cache := cache;
      posts := [];
    }

    /** `is_configured()`: an API key and a public URL base are both set. */
    predicate IsConfigured() {
      apiKey != "" && publicUrlBase != ""
    }

    /** `f"{generate_audio_hash(text, voice_id)}.mp3"`. */
    function CacheFileName(text: string, voiceId: string): (name: string)
      ensures |name| == 36 && name[..32] == md5(HashInput(text, voiceId)) && name[32..] == ".mp3"
      ensures forall i :: 0 <= i < 32 ==> IsHexChar(name[i])
    {
      md5(HashInput(text, voiceId)) + ".mp3"
    }

    /** The URL handed out for the cache file of `text` in `voiceId`: quoting the file name changes nothing. */
    function PublicUrl(text: string, voiceId: string): (url: string)
      ensures url == AudioUrl(publicUrlBase, CacheFileName(text, voiceId))
    {
      QuoteMp3Name(md5(HashInput(text, voiceId)), escape);
      AudioUrl(publicUrlBase, Quote(CacheFileName(text, voiceId), escape))
    }

    /** `get_cached_audio_url(text, voice_id)`. */
    function CachedAudioUrl(text: string, voiceId: string): (r: Option<string>)
      reads this, cache
      ensures r.Some? <==> IsConfigured() && cache.Exists(CacheFileName(text, voiceId))
      ensures r.Some? ==> r.value == PublicUrl(text, voiceId)
    {
      if !IsConfigured() then None
      else if cache.Exists(CacheFileName(text, voiceId)) then Some(PublicUrl(text, voiceId))
      else None
    }

    /** True when a request for `text` in `voiceId` must go to the endpoint: configured, and not cached. */
    predicate Miss(text: string, voiceId: string)
      reads this, cache
    {
      IsConfigured() && !cache.Exists(CacheFileName(text, voiceId))
    }

    /** True when a miss is answered with status 200. */
    predicate Generates(text: string, voiceId: string)
      reads this, cache
    {
      Miss(text, voiceId) && api(voiceId, text).Reply? && api(voiceId, text).status == 200
    }

    /** What `get_audio_url(text, voice_id)` returns in the current state. */
    function Resolve(text: string, voiceId: string): (r: Option<string>)
      reads this, cache
      ensures r.Some? ==> IsConfigured() && r.value == PublicUrl(text, voiceId)
      ensures !IsConfigured() ==> r == None
      ensures r.Some? <==> CachedAudioUrl(text, voiceId).Some? || Generates(text, voiceId)
      ensures r.Some? <==> ResolvesWith(text, voiceId, cache.entries)
    {
      if CachedAudioUrl(text, voiceId).Some? then CachedAudioUrl(text, voiceId)
      else if Generates(text, voiceId) then Some(PublicUrl(text, voiceId))
      else None
    }

    /** `Resolve` would give a URL if the cache directory held `entries`. */
    predicate ResolvesWith(text: string, voiceId: string, entries: seq<Files.FileEntry>) {
      IsConfigured()
      && (CacheFileName(text, voiceId) in Files.Names(entries) || (api(voiceId, text).Reply? && api(voiceId, text).status == 200))
    }

    /** A text that resolves keeps resolving while the cache only grows. */
    lemma ResolvesWithGrows(text: string, voiceId: string, entries: seq<Files.FileEntry>, more: seq<Files.FileEntry>)
      requires entries <= more && ResolvesWith(text, voiceId, entries)
      ensures ResolvesWith(text, voiceId, more)
    {
      Files.NamesGrow(entries, more);
    }

    /** `generate_audio(text, voice_id)`; `now` is the modification time a new file gets. */
    method GenerateAudio(text: string, voiceId: string, now: int) returns (url: Option<string>)
      requires cache.Valid()
      modifies this, cache
      ensures cache.Valid()
      ensures url == old(Resolve(text, voiceId))
      ensures posts == old(posts) + (if old(Miss(text, voiceId)) then [(voiceId, text)] else [])
      ensures cache.entries == old(cache.entries)
        + (if old(Generates(text, voiceId))
           then [Files.FileEntry(CacheFileName(text, voiceId), api(voiceId, text).content, now)] else [])
      ensures url.Some? ==> CachedAudioUrl(text, voiceId) == url
    {
      if !IsConfigured() {
        return None;
      }
      var cached := CachedAudioUrl(text, voiceId);
      if cached.Some? {
        return cached;
      }
      var name := CacheFileName(text, voiceId);
      posts := posts + [(voiceId, text)];
      var reply := api(voiceId, text);
      if reply.Reply? && reply.status == 200 {
        cache.Create(name, reply.content, now);
        url := Some(PublicUrl(text, voiceId));
        assert name in Files.Names(cache.entries) by {
          assert cache.entries[|cache.entries| - 1].name == name;
        }
      } else {
        url := None;
      }
    }

    /** `get_audio_url(text, voice_id)`: the cached URL, or else whatever generation gives. */
    method GetAudioUrl(text: string, voiceId: string, now: int) returns (url: Option<string>)
      requires cache.Valid()
      modifies this, cache
      ensures cache.Valid()
      ensures url == old(Resolve(text, voiceId))
      ensures posts == old(posts) + (if old(Miss(text, voiceId)) then [(voiceId, text)] else [])
      ensures cache.entries == old(cache.entries)
        + (if old(Generates(text, voiceId))
           then [Files.FileEntry(CacheFileName(text, voiceId), api(voiceId, text).content, now)] else [])
      ensures url.Some? ==> CachedAudioUrl(text, voiceId) == url
    {
      var cached := CachedAudioUrl(text, voiceId);
      if cached.Some? {
        return cached;
      }
      url := GenerateAudio(text, voiceId, now);
    }
  }
}
