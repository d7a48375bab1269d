/**
 * Reply building of the main bot (app/response_builder.py): language
 * detection, and speaking a line either as a `<Play>` of synthesised audio or,
 * failing that, as an Amazon Polly `<Say>`.
 */
module ResponseBuilder {
  import opened Wrappers
  import opened Twiml
  import Text
  import ElevenLabs
  import Files

  const DefaultVoice := "Polly.Joanna"
  const SpanishVoice := "Polly.Lupe"
  const English := "en-US"
  const Spanish := "es-MX"
  const OfficeAmbianceUrl := "https://storage.googleapis.com/vanguard-voice-assets/office_ambiance_low.mp3"

  /** The background ambiance the routes play first: looped forever (`loop=0`) at volume 0.1. */
  const Ambiance := Play(OfficeAmbianceUrl, Some(0), Some(10))

  /** `add_background_ambiance(response, volume)`, the volume in percent and clamped to 0..100. */
  method AddBackgroundAmbiance(response: TwiML, volumePercent: int)
    modifies response
    ensures response.head == old(response.head)
    ensures response.verbs == old(response.verbs)
      + [Play(OfficeAmbianceUrl, Some(0), Some(if volumePercent < 0 then 0 else if volumePercent > 100 then 100 else volumePercent))]
  {
    var clamped := if volumePercent < 0 then 0 else if volumePercent > 100 then 100 else volumePercent;
    response.Play(OfficeAmbianceUrl, Some(0), Some(clamped));
  }

  /** The words whose presence marks an utterance as Spanish, in the order they are tried. */
  const SpanishIndicators: seq<string> := [
    "hola", "gracias", "por favor", "buenos días", "buenas tardes", "buenas noches",
    "cita", "necesito", "quiero", "ayuda", "hablar", "español", "habla", "puedo",
    "doctor", "médico", "dolor", "espalda", "cuello", "cabeza", "pierna", "brazo",
    "mañana", "tarde", "noche", "día", "hora", "semana", "mes", "año",
    "lunes", "martes", "miércoles", "jueves", "viernes", "sábado", "domingo"
  ]

  /** The language `detect_language` settles on. */
  function LanguageOf(speech: string): (lang: string)
    ensures lang == Spanish || lang == English
  {
    if Text.ContainsAny(Text.Lower(speech), SpanishIndicators) then Spanish else English
  }

  /** `detect_language(speech_result)`: scans the indicators in order and stops at the first one found. */
  method DetectLanguage(speech: string) returns (lang: string)
    ensures lang == LanguageOf(speech)
    ensures lang == Spanish <==> exists ind | ind in SpanishIndicators :: Text.Contains(Text.Lower(speech), ind)
  {
    var lower := Text.Lower(speech);
    var i := 0;
    while i < |SpanishIndicators|
      invariant 0 <= i <= |SpanishIndicators|
      invariant forall j :: 0 <= j < i ==> !Text.Contains(lower, SpanishIndicators[j])
    {
      if Text.Contains(lower, SpanishIndicators[i]) {
        return Spanish;
      }
      i := i + 1;
    }
    return English;
  }

  /** Detection does not depend on letter case. */
  lemma LanguageOfIgnoresCase(speech: string)
    ensures LanguageOf(Text.Lower(speech)) == LanguageOf(speech)
  {
    Text.LowerIdempotent(speech);
  }

  /**
   * Detection is plain substring search, so English speech is read as Spanish
   * when it mentions a "doctor" or says "times", which contains "mes".
   */
  lemma EnglishMisreadAsSpanish(speech: string)
    requires Text.Contains(speech, "doctor") || Text.Contains(speech, "times")
    ensures LanguageOf(speech) == Spanish
  {
    var lower := Text.Lower(speech);
    if Text.Contains(speech, "doctor") {
      Text.LowerContains(speech, "doctor");
      assert Text.Lower("doctor") == "doctor";
      assert SpanishIndicators[14] == "doctor";
      Text.ContainsAnyOf(lower, "doctor", SpanishIndicators);
    } else {
      Text.LowerContains(speech, "times");
      assert Text.Lower("times") == "times";
      assert Text.OccursAt("times", "mes", 2);
      Text.ContainsTransitive(lower, "times", "mes");
      assert SpanishIndicators[28] == "mes";
      Text.ContainsAnyOf(lower, "mes", SpanishIndicators);
    }
  }

  /** The Polly `<Say>` a line falls back to. */
  function FallbackSay(text: string, voice: string, language: string): (v: Verb)
    ensures v.Say? && v.text == text && v.voice.Some? && v.language.Some?
    ensures voice != DefaultVoice ==> v.voice == Some(voice)
    ensures !Text.StartsWith(language, "es") ==> v.voice == Some(voice) && v.language == Some(language)
    ensures Text.StartsWith(language, "es") ==> v.language == Some(Spanish) && v.voice != Some(DefaultVoice)
    ensures Text.StartsWith(language, "es") && voice == DefaultVoice ==> v.voice == Some(SpanishVoice)
  {
    if Text.StartsWith(language, "es") then
      Say(text, Some(if voice == DefaultVoice then SpanishVoice else voice), Some(Spanish))
    else
      Say(text, Some(voice), Some(language))
  }

  /** The verb a line becomes given the audio URL obtained for it, if any. */
  function SpeechVerb(url: Option<string>, text: string, voice: string, language: string): (v: Verb)
    ensures url.Some? ==> v == Play(url.value, None, None)
    ensures url.None? ==> v.Say? && v.text == text
  {
    match url
    case Some(u) => Play(u, None, None)
    case None => FallbackSay(text, voice, language)
  }

  /** `enhanced_say(response, text, voice, language, enhanced)`. The language is the voice id of the audio request. */
  method EnhancedSay(response: TwiML, tts: ElevenLabs.TtsService, text: string, voice: string, language: string,
                     enhanced: bool, now: int)
    requires tts.cache.Valid()
    modifies response, tts, tts.cache
    ensures tts.cache.Valid() && response.head == old(response.head)
    ensures response.verbs == old(response.verbs)
      + [SpeechVerb(if enhanced then old(tts.Resolve(text, language)) else None, text, voice, language)]
    ensures tts.posts == old(tts.posts) + (if enhanced && old(tts.Miss(text, language)) then [(language, text)] else [])
    ensures tts.cache.entries == old(tts.cache.entries)
      + (if enhanced && old(tts.Generates(text, language))
         then [Files.FileEntry(tts.CacheFileName(text, language), tts.api(language, text).content, now)] else [])
    ensures response.verbs[|old(response.verbs)|].Play? ==> tts.cache.Exists(tts.CacheFileName(text, language))
  {
    if enhanced && tts.IsConfigured() {
      var url := tts.GetAudioUrl(text, language, now);
      if url.Some? {
        response.Play(url.value, None, None);
        return;
      }
    }
    var say := FallbackSay(text, voice, language);
    response.Say(say.text, say.voice, say.language);
  }

  /** A Python value in a truth test: `None` and `""` are false. */
  predicate Truthy(s: Option<string>) {
    s.Some? && s.value != ""
  }

  /** The attributes of the `<Gather>` `enhanced_gather` builds. */
  function PromptAttrs(inputTypes: string, timeout: nat, speechTimeout: string, action: string,
                       speechModel: Option<string>, hints: Option<string>, language: string): (a: GatherAttrs)
    ensures a.action == action && a.language == Some(language) && a.timeout == Some(timeout)
    ensures a.speechModel.Some? <==> Truthy(speechModel)
    ensures a.hints.Some? <==> Truthy(hints)
    ensures a.speechModel.Some? ==> a.speechModel == speechModel
    ensures a.hints.Some? ==> a.hints == hints
  {
    GatherAttrs(inputTypes, Some(timeout), Some(speechTimeout), action, None, Some(language),
                if Truthy(speechModel) then speechModel else None,
                if Truthy(hints) then hints else None, false)
  }

  /** `enhanced_gather(...)`: exactly one `<Gather>` holding the spoken prompt is appended. */
  method EnhancedGather(response: TwiML, tts: ElevenLabs.TtsService, text: string, action: string,
                        inputTypes: string, timeout: nat, speechTimeout: string, speechModel: Option<string>,
                        hints: Option<string>, language: string, voice: string, enhanced: bool, now: int)
    requires tts.cache.Valid()
    modifies response, tts, tts.cache
    ensures tts.cache.Valid() && response.head == old(response.head)
    ensures response.verbs == old(response.verbs)
      + [Nested(PromptAttrs(inputTypes, timeout, speechTimeout, action, speechModel, hints, language),
                [SpeechVerb(if enhanced then old(tts.Resolve(text, language)) else None, text, voice, language)])]
    ensures tts.posts == old(tts.posts) + (if enhanced && old(tts.Miss(text, language)) then [(language, text)] else [])
    ensures tts.cache.entries == old(tts.cache.entries)
      + (if enhanced && old(tts.Generates(text, language))
         then [Files.FileEntry(tts.CacheFileName(text, language), tts.api(language, text).content, now)] else [])
    ensures response.verbs[|old(response.verbs)|].children[0].Play? ==> tts.cache.Exists(tts.CacheFileName(text, language))
  {
    ghost var url := if enhanced then tts.Resolve(text, language) else None;
    var gather := NewPromptGather(inputTypes, timeout, speechTimeout, action, speechModel, hints, language);
    // The prompt is spoken into the gather exactly as `enhanced_say` speaks into a response.
    EnhancedSay(gather, tts, text, voice, language, enhanced, now);
    assert gather.verbs == [SpeechVerb(url, text, voice, language)];
    assert response.verbs == old(response.verbs);
    response.Append(gather);
  }

  /** The empty `<Gather>` of `enhanced_gather`, with `speech_model` and `hints` set only when truthy. */
  method NewPromptGather(inputTypes: string, timeout: nat, speechTimeout: string, action: string,
                         speechModel: Option<string>, hints: Option<string>, language: string) returns (gather: TwiML)
    ensures fresh(gather) && gather.verbs == []
    ensures gather.head == GatherHead(PromptAttrs(inputTypes, timeout, speechTimeout, action, speechModel, hints, language))
  {
    gather := new TwiML.Gather(GatherAttrs(inputTypes, Some(timeout), Some(speechTimeout), action,
                                           None, Some(language), None, None, false));
    if Truthy(speechModel) {
      gather.SetAttrs(gather.head.attrs.(speechModel := speechModel));
    }
    if Truthy(hints) {
      gather.SetAttrs(gather.head.attrs.(hints := hints));
    }
  }

  /**
   * One thing a route says: a line, or a prompt inside a `<Gather>` posting to
   * `action`. Routes use the default voice, input 'speech dtmf', speech timeout
   * 'auto' and speech model 'phone_call'.
   */
  datatype Step =
    | Speak(text: string, language: string)
    | Prompt(text: string, action: string, timeout: nat, language: string)

  /** The `<Gather>` attributes of a route's prompt. */
  function StepAttrs(action: string, timeout: nat, language: string): GatherAttrs {
    PromptAttrs("speech dtmf", timeout, "auto", action, Some("phone_call"), None, language)
  }

  /**
   * `v` is how a line can come out: the Polly fallback, or, when the service is
   * configured, a `<Play>` of the line's public audio URL.
   */
  predicate Voiced(v: Verb, tts: ElevenLabs.TtsService, text: string, language: string) {
    v == FallbackSay(text, DefaultVoice, language)
    || (tts.IsConfigured() && v == Play(tts.PublicUrl(text, language), None, None))
  }

  predicate Rendered(v: Verb, step: Step, tts: ElevenLabs.TtsService) {
    match step
    case Speak(text, language) => Voiced(v, tts, text, language)
    case Prompt(text, action, timeout, language) =>
      v.Nested? && v.attrs == StepAttrs(action, timeout, language)
      && |v.children| == 1 && Voiced(v.children[0], tts, text, language)
  }

  /** `vs` is what the steps come out as, one verb per step. */
  predicate Renders(vs: seq<Verb>, steps: seq<Step>, tts: ElevenLabs.TtsService) {
    |vs| == |steps| && forall i :: 0 <= i < |vs| ==> Rendered(vs[i], steps[i], tts)
  }

  /** `after` is `before` followed by what the steps come out as. */
  predicate Extends(before: seq<Verb>, after: seq<Verb>, steps: seq<Step>, tts: ElevenLabs.TtsService) {
    |after| == |before| + |steps| && after[..|before|] == before && Renders(after[|before|..], steps, tts)
  }

  /** Saying `s1` and then `s2` is saying `s1 + s2`. */
  lemma ExtendsTrans(a: seq<Verb>, b: seq<Verb>, c: seq<Verb>, s1: seq<Step>, s2: seq<Step>, tts: ElevenLabs.TtsService)
    requires Extends(a, b, s1, tts) && Extends(b, c, s2, tts)
    ensures Extends(a, c, s1 + s2, tts)
  {
    assert c[..|a|] == b[..|a|];
    forall i | 0 <= i < |c| - |a|
      ensures Rendered(c[|a|..][i], (s1 + s2)[i], tts)
    {
      if i < |s1| {
        assert c[|a|..][i] == b[|a|..][i];
      } else {
        assert c[|a|..][i] == c[|b|..][i - |s1|];
      }
    }
  }

  /** A rendered prompt is a `<Gather>` with the prompt's action; a rendered line is not a `<Gather>`. */
  lemma RenderedShape(vs: seq<Verb>, steps: seq<Step>, tts: ElevenLabs.TtsService, i: int)
    requires Renders(vs, steps, tts) && 0 <= i < |vs|
    ensures vs[i].Nested? <==> steps[i].Prompt?
    ensures steps[i].Prompt? ==> vs[i].attrs.action == steps[i].action && vs[i].attrs.language == Some(steps[i].language)
  {
    assert Rendered(vs[i], steps[i], tts);
  }

  /** The `action` of each prompt of a plan, in order. */
  function PromptActions(steps: seq<Step>): (actions: seq<string>)
    ensures |actions| <= |steps|
  {
    if steps == [] then []
    else (if steps[0].Prompt? then [steps[0].action] else []) + PromptActions(steps[1..])
  }

  lemma {:induction false} PromptActionsAppend(s1: seq<Step>, s2: seq<Step>)
    ensures PromptActions(s1 + s2) == PromptActions(s1) + PromptActions(s2)
  {
    if s1 != [] {
      assert (s1 + s2)[1..] == s1[1..] + s2;
      PromptActionsAppend(s1[1..], s2);
    } else {
      assert s1 + s2 == s2;
    }
  }

  /** The rendered verbs hold one `<Gather>` per prompt, with the prompts' actions in the same order. */
  lemma {:induction false} RendersGatherActions(vs: seq<Verb>, steps: seq<Step>, tts: ElevenLabs.TtsService)
    requires Renders(vs, steps, tts)
    ensures GatherActions(vs) == PromptActions(steps)
  {
    if vs != [] {
      RenderedShape(vs, steps, tts, 0);
      assert Renders(vs[1..], steps[1..], tts) by {
        forall i | 0 <= i < |vs[1..]| ensures Rendered(vs[1..][i], steps[1..][i], tts) {
          assert Rendered(vs[i + 1], steps[i + 1], tts);
        }
      }
      RendersGatherActions(vs[1..], steps[1..], tts);
    }
  }

  /** Unconfigured, every line is spoken by Polly. */
  lemma UnconfiguredSpeaksWithPolly(vs: seq<Verb>, steps: seq<Step>, tts: ElevenLabs.TtsService, i: int)
    requires Renders(vs, steps, tts) && 0 <= i < |vs| && !tts.IsConfigured() && steps[i].Speak?
    ensures vs[i] == FallbackSay(steps[i].text, DefaultVoice, steps[i].language)
  {
    assert Rendered(vs[i], steps[i], tts);
  }

  /** The step's line came out as synthesised audio rather than Polly speech. */
  predicate AsAudio(v: Verb, step: Step) {
    match step
    case Speak(_, _) => v.Play?
    case Prompt(_, _, _, _) => v.Nested? && |v.children| == 1 && v.children[0].Play?
  }

  /** Every step that `vs` plays as audio has its file among `entries`, so the URL played is served. */
  predicate AudioCached(vs: seq<Verb>, steps: seq<Step>, tts: ElevenLabs.TtsService, entries: seq<Files.FileEntry>)
    requires |vs| == |steps|
  {
    forall k :: 0 <= k < |steps| && AsAudio(vs[k], steps[k]) ==>
      tts.CacheFileName(steps[k].text, steps[k].language) in Files.Names(entries)
  }

  /** Every step whose line resolved to audio against the cache `entries` is played as audio in `vs`. */
  predicate PlaysResolved(vs: seq<Verb>, steps: seq<Step>, tts: ElevenLabs.TtsService, entries: seq<Files.FileEntry>)
    requires |vs| == |steps|
  {
    forall k :: 0 <= k < |steps| && tts.ResolvesWith(steps[k].text, steps[k].language, entries) ==> AsAudio(vs[k], steps[k])
  }

  lemma PlaysResolvedSnoc(vs: seq<Verb>, steps: seq<Step>, tts: ElevenLabs.TtsService, v: Verb, step: Step,
                          entries: seq<Files.FileEntry>)
    requires |vs| == |steps| && PlaysResolved(vs, steps, tts, entries)
    requires tts.ResolvesWith(step.text, step.language, entries) ==> AsAudio(v, step)
    ensures PlaysResolved(vs + [v], steps + [step], tts, entries)
  {
    forall k | 0 <= k < |steps| + 1 && tts.ResolvesWith((steps + [step])[k].text, (steps + [step])[k].language, entries)
      ensures AsAudio((vs + [v])[k], (steps + [step])[k])
    {
      if k < |steps| {
        assert tts.ResolvesWith(steps[k].text, steps[k].language, entries);
      }
    }
  }

  /**
   * Saying `s1` and then `s2`: a line that resolved before `s1` still resolves
   * before `s2`, since the cache only grows, and a file cached after `s1` stays cached.
   */
  lemma AudioAppend(v1: seq<Verb>, v2: seq<Verb>, s1: seq<Step>, s2: seq<Step>, tts: ElevenLabs.TtsService,
                    e0: seq<Files.FileEntry>, e1: seq<Files.FileEntry>, e2: seq<Files.FileEntry>)
    requires |v1| == |s1| && |v2| == |s2| && e0 <= e1 <= e2
    requires PlaysResolved(v1, s1, tts, e0) && PlaysResolved(v2, s2, tts, e1)
    requires AudioCached(v1, s1, tts, e1) && AudioCached(v2, s2, tts, e2)
    ensures PlaysResolved(v1 + v2, s1 + s2, tts, e0) && AudioCached(v1 + v2, s1 + s2, tts, e2)
  {
    Files.NamesGrow(e1, e2);
    forall k | 0 <= k < |s1| + |s2|
      ensures tts.ResolvesWith((s1 + s2)[k].text, (s1 + s2)[k].language, e0) ==> AsAudio((v1 + v2)[k], (s1 + s2)[k])
      ensures AsAudio((v1 + v2)[k], (s1 + s2)[k]) ==>
        tts.CacheFileName((s1 + s2)[k].text, (s1 + s2)[k].language) in Files.Names(e2)
    {
      if k < |s1| {
        assert (v1 + v2)[k] == v1[k] && (s1 + s2)[k] == s1[k];
      } else {
        var j := k - |s1|;
        assert (v1 + v2)[k] == v2[j] && (s1 + s2)[k] == s2[j];
        if tts.ResolvesWith(s2[j].text, s2[j].language, e0) {
          tts.ResolvesWithGrows(s2[j].text, s2[j].language, e0, e1);
        }
      }
    }
  }

  lemma RendersSnoc(vs: seq<Verb>, steps: seq<Step>, tts: ElevenLabs.TtsService, v: Verb, step: Step)
    requires Renders(vs, steps, tts) && Rendered(v, step, tts)
    ensures Renders(vs + [v], steps + [step], tts)
  {
    forall k | 0 <= k < |vs| + 1 ensures Rendered((vs + [v])[k], (steps + [step])[k], tts) {
      if k < |vs| {
        assert Rendered(vs[k], steps[k], tts);
      }
    }
  }

  lemma AudioCachedSnoc(vs: seq<Verb>, steps: seq<Step>, tts: ElevenLabs.TtsService, v: Verb, step: Step,
                        entries: seq<Files.FileEntry>, more: seq<Files.FileEntry>)
    requires |vs| == |steps| && AudioCached(vs, steps, tts, entries) && entries <= more
    requires AsAudio(v, step) ==> tts.CacheFileName(step.text, step.language) in Files.Names(more)
    ensures AudioCached(vs + [v], steps + [step], tts, more)
  {
    Files.NamesGrow(entries, more);
    forall k | 0 <= k < |steps| + 1 && AsAudio((vs + [v])[k], (steps + [step])[k])
      ensures tts.CacheFileName((steps + [step])[k].text, (steps + [step])[k].language) in Files.Names(more)
    {
      if k < |steps| {
        assert AsAudio(vs[k], steps[k]);
      }
    }
  }

  /** One step of a route: one `enhanced_say` or `enhanced_gather` call, appending the verb `v` the step renders as. */
  method PerformStep(response: TwiML, tts: ElevenLabs.TtsService, step: Step, now: int) returns (v: Verb)
    requires tts.cache.Valid()
    modifies response, tts, tts.cache
    ensures tts.cache.Valid() && response.head == old(response.head)
    ensures response.verbs == old(response.verbs) + [v] && Rendered(v, step, tts)
    ensures old(tts.cache.entries) <= tts.cache.entries && old(tts.posts) <= tts.posts
    ensures !tts.IsConfigured() ==> tts.cache.entries == old(tts.cache.entries) && tts.posts == old(tts.posts)
    ensures AsAudio(v, step) ==> tts.cache.Exists(tts.CacheFileName(step.text, step.language))
    ensures AsAudio(v, step) <==> old(tts.Resolve(step.text, step.language)).Some?
  {
    match step {
      case Speak(text, language) =>
        EnhancedSay(response, tts, text, DefaultVoice, language, true, now);
      case Prompt(text, action, timeout, language) =>
        EnhancedGather(response, tts, text, action, "speech dtmf", timeout, "auto", Some("phone_call"), None,
                       language, DefaultVoice, true, now);
    }
    v := response.verbs[|response.verbs| - 1];
  }

  /** Says each step in turn, as the route handlers' successive `enhanced_say`/`enhanced_gather` calls do. */
  method Perform(response: TwiML, tts: ElevenLabs.TtsService, steps: seq<Step>, now: int)
    requires tts.cache.Valid()
    modifies response, tts, tts.cache
    ensures tts.cache.Valid() && response.head == old(response.head)
    ensures Extends(old(response.verbs), response.verbs, steps, tts)
    // The cache and the request log only grow, and not at all without configuration.
    ensures old(tts.cache.entries) <= tts.cache.entries && old(tts.posts) <= tts.posts
    ensures !tts.IsConfigured() ==> tts.cache.entries == old(tts.cache.entries) && tts.posts == old(tts.posts)
    // Every line played as audio has its file in the cache.
    ensures AudioCached(response.verbs[|old(response.verbs)|..], steps, tts, tts.cache.entries)
    // Every line that would resolve to audio before the first step is played as audio.
    ensures PlaysResolved(response.verbs[|old(response.verbs)|..], steps, tts, old(tts.cache.entries))
  {
    var n := |response.verbs|;
    var i := 0;
    while i < |steps|
      invariant 0 <= i <= |steps|
      invariant tts.cache.Valid() && response.head == old(response.head)
      invariant |response.verbs| == n + i && response.verbs[..n] == old(response.verbs)
      invariant Renders(response.verbs[n..], steps[..i], tts)
      invariant AudioCached(response.verbs[n..], steps[..i], tts, tts.cache.entries)
      invariant PlaysResolved(response.verbs[n..], steps[..i], tts, old(tts.cache.entries))
      invariant old(tts.cache.entries) <= tts.cache.entries && old(tts.posts) <= tts.posts
      invariant !tts.IsConfigured() ==> tts.cache.entries == old(tts.cache.entries) && tts.posts == old(tts.posts)
    {
      ghost var entries := tts.cache.entries;
      ghost var done := response.verbs[n..];
      if tts.ResolvesWith(steps[i].text, steps[i].language, old(tts.cache.entries)) {
        tts.ResolvesWithGrows(steps[i].text, steps[i].language, old(tts.cache.entries), entries);
      }
      var v := PerformStep(response, tts, steps[i], now);
      assert response.verbs[n..] == done + [v];
      assert steps[..i + 1] == steps[..i] + [steps[i]];
      RendersSnoc(done, steps[..i], tts, v, steps[i]);
      AudioCachedSnoc(done, steps[..i], tts, v, steps[i], entries, tts.cache.entries);
      PlaysResolvedSnoc(done, steps[..i], tts, v, steps[i], old(tts.cache.entries));
      i := i + 1;
    }
    assert steps[..i] == steps;
  }
}
