/**
 * The audio cache of the rebuilt bot (fixed_voice_bot/app/elevenlabs_integration.py).
 * Unlike the main bot's cache, a file is named after the text alone,
 * `<md5 of text>.mp3`, whatever voice speaks it, and a public URL exists only
 * when `PUBLIC_URL_BASE` is set.
 */
module FixedTts {
  import opened Wrappers
  import opened Digest
  import Text
  import Files
  import ElevenLabs

  /** Default of `ELEVENLABS_VOICE_ID`. */
  const DefaultVoiceId := "Rachel"

  /** `os.environ.get(key, default)`. */
  function EnvOr(env: map<string, string>, key: string, default: string): string
  {
    if key in env then env[key] else default
  }

  /**
   * `ElevenLabsAPI`: its settings, the MD5 primitive, the text-to-speech
   * endpoint (its reply to a request for a text in a voice), the cache
   * directory, and the (voice, text) requests it has posted.
   */
  class ElevenLabsApi {
    const apiKey: string
    const voiceId: string
    const publicUrlBase: string
    const md5: string -> HexDigest
    const api: (string, string) -> ElevenLabs.ApiReply
    const cache: Files.Directory
    var posts: seq<(string, string)>

    /** `ElevenLabsAPI()`, reading its settings from the environment `env`. */
    constructor (env: map<string, string>, md5: string -> HexDigest, api: (string, string) -> ElevenLabs.ApiReply,
                 cache: Files.Directory)
      ensures apiKey == EnvOr(env, "ELEVENLABS_API_KEY", "")
      ensures voiceId == EnvOr(env, "ELEVENLABS_VOICE_ID", DefaultVoiceId)
      ensures publicUrlBase == EnvOr(env, "PUBLIC_URL_BASE", "")
      ensures this.md5 == md5 && this.api == api && this.cache == cache && posts == []
    {
      apiKey := EnvOr(env, "ELEVENLABS_API_KEY", "");
      voiceId := EnvOr(env, "ELEVENLABS_VOICE_ID", DefaultVoiceId);
      publicUrlBase := EnvOr(env, "PUBLIC_URL_BASE", "");
      this.md5 := md5;
      this.api := api;
      this.cache := cache;
      posts := [];
    }

    /** `is_configured()`: both an API key and a public URL base are set. */
    predicate IsConfigured() {
      apiKey != "" && publicUrlBase != ""
    }

    /** `get_cache_filename(text)`: 32 hex digits of the text's digest, then ".mp3". */
    function CacheFileName(text: string): (name: string)
      ensures |name| == 36 && name[..32] == md5(text) && name[32..] == ".mp3"
      ensures forall i :: 0 <= i < 32 ==> IsHexChar(name[i])
    {
      md5(text) + ".mp3"
    }

    /** `get_public_url(text)`: no URL without a base, otherwise the file's name under `/audio/`. */
    function PublicUrl(text: string): (url: Option<string>)
      ensures url.None? <==> publicUrlBase == ""
      ensures url.Some? ==> Text.StartsWith(url.value, publicUrlBase + ElevenLabs.AudioPath)
    {
      if publicUrlBase == "" then None else Some(ElevenLabs.AudioUrl(publicUrlBase, CacheFileName(text)))
    }

    /** A request for `text` that must go to the endpoint: configured, and the file is not cached yet. */
    predicate Miss(text: string)
      reads this, cache
    {
      IsConfigured() && !cache.Exists(CacheFileName(text))
    }

    /** The endpoint answers a request for `text` with status 200. */
    predicate Succeeds(text: string) {
      api(voiceId, text).Reply? && api(voiceId, text).status == 200
    }

    /** `text_to_speech(text)` yields a URL: configured, and the file is cached or the endpoint succeeds. */
    predicate Delivers(text: string)
      reads this, cache
    {
      DeliversWith(text, cache.entries)
    }

    /** `text_to_speech(text)` would yield a URL if the cache directory held `entries`. */
    predicate DeliversWith(text: string, entries: seq<Files.FileEntry>) {
      IsConfigured() && (CacheFileName(text) in Files.Names(entries) || Succeeds(text))
    }

    /** A text that is delivered keeps being delivered while the cache only grows. */
    lemma DeliversWithGrows(text: string, entries: seq<Files.FileEntry>, more: seq<Files.FileEntry>)
      requires entries <= more && DeliversWith(text, entries)
      ensures DeliversWith(text, more)
    {
      Files.NamesGrow(entries, more);
    }

    /** `text_to_speech(text)`; `now` is the modification time a new file gets. */
    method TextToSpeech(text: string, now: int) returns (url: Option<string>)
      requires cache.Valid()
      modifies this, cache
      ensures cache.Valid()
      // Not configured: nothing is asked and nothing is stored.
      ensures !IsConfigured() ==> url == None
      // A hit hands out the URL without asking the endpoint.
      ensures !old(Miss(text)) ==> posts == old(posts) && cache.entries == old(cache.entries)
      ensures IsConfigured() && !old(Miss(text)) ==> url == PublicUrl(text)
      // A miss asks once; only a 200 stores the audio and yields a URL.
      ensures old(Miss(text)) ==> posts == old(posts) + [(voiceId, text)]
      ensures url.Some? <==> old(Delivers(text))
      ensures old(Miss(text)) && url.Some? ==>
        cache.entries == old(cache.entries) + [Files.FileEntry(CacheFileName(text), api(voiceId, text).content, now)]
      ensures old(Miss(text)) && url.None? ==> cache.entries == old(cache.entries)
      // Whatever URL is handed out is the one a later hit gives, and its file is cached.
      ensures url.Some? ==> url == PublicUrl(text) && cache.Exists(CacheFileName(text)) && !Miss(text)
    {
      if !IsConfigured() {
        return None;
      }
      var name := CacheFileName(text);
      if cache.Exists(name) {
        return PublicUrl(text);
      }
      posts := posts + [(voiceId, text)];
      var reply := api(voiceId, text);
      if reply.Reply? && reply.status == 200 {
        cache.Create(name, reply.content, now);
        assert cache.entries[|cache.entries| - 1].name == name;
        assert name in Files.Names(cache.entries);
        url := PublicUrl(text);
      } else {
        url := None;
      }
    }
  }

  /** Two services sharing a digest store a text in the same file, whatever their voices. */
  lemma CacheFileIgnoresVoice(a: ElevenLabsApi, b: ElevenLabsApi, text: string)
    requires a.md5 == b.md5
    ensures a.CacheFileName(text) == b.CacheFileName(text)
  {
    assert a.CacheFileName(text)[..32] == b.CacheFileName(text)[..32];
  }

  /** The file name behind a handed-out URL is recovered by stripping `base + "/audio/"`, and is the cached file. */
  lemma PublicUrlNamesCacheFile(tts: ElevenLabsApi, text: string)
    requires tts.PublicUrl(text).Some?
    ensures ElevenLabs.FilenameFromUrl(tts.publicUrlBase, tts.PublicUrl(text).value) == Some(tts.CacheFileName(text))
  {
    ElevenLabs.FilenameFromAudioUrl(tts.publicUrlBase, tts.CacheFileName(text));
  }

  /** Distinct digests give distinct URLs. */
  lemma PublicUrlSeparatesDigests(tts: ElevenLabsApi, t1: string, t2: string)
    requires tts.PublicUrl(t1).Some? && tts.PublicUrl(t1) == tts.PublicUrl(t2)
    ensures tts.md5(t1) == tts.md5(t2)
  {
    PublicUrlNamesCacheFile(tts, t1);
    PublicUrlNamesCacheFile(tts, t2);
    assert tts.CacheFileName(t1)[..32] == tts.CacheFileName(t2)[..32];
  }
}
