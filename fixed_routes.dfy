/**
 * The webhook handlers of the rebuilt bot (fixed_voice_bot/app/routes.py).
 * Every line is spoken through `speak`: synthesised audio over a quiet office
 * ambiance when the audio service delivers a URL, otherwise a Polly `<Say>`.
 * What a handler says is given as a plan of steps; `Render` is the markup a
 * plan comes out as, once it is known which lines were played as audio.
 */
module FixedRoutes {
  import opened Wrappers
  import opened Twiml
  import Text
  import Files
  import ElevenLabs
  import FixedTts
  import FixedErrors
  import opened Patterns

  /** `GREETING_MESSAGE` of fixed_voice_bot/config/config.py. */
  const Greeting := "Thank you for calling Vanguard Chiropractic. This is Joanna, how can I help you today?"
  const Joanna := "Polly.Joanna"
  const AmbianceUrl := "https://cdn.pixabay.com/download/audio/2022/03/15/audio_c8c8a73467.mp3?filename=office-ambience-6321.mp3"

  /** The ambiance `speak` plays before synthesised audio, at volume 0.1. */
  const Ambiance := Play(AmbianceUrl, None, Some(10))

  // Route paths, as `url_for` gives them.
  const VoicePath := "/voice"
  const ResponsePath := "/handle-response"
  const TransferPath := "/handle-transfer"

  const ConnectLine := "I'll connect you with someone right away. Please hold."
  const PaymentLine := "Yes, we accept all major credit cards including Visa, Mastercard, American Express, and Discover."
  const InsuranceLine := "We work with most major insurance providers. Our staff can verify your benefits before your appointment."
  const WalkInLine := "We do accept walk-ins based on availability, but we recommend scheduling an appointment to minimize wait time."
  const NotSureLine := "I'm not totally sure how to answer that, but I can connect you with someone if you'd like."
  const OfferTransferPrompt := "Would you like me to connect you with someone?"
  const ScheduledLine := "Great! I've scheduled your appointment. You'll receive a confirmation message shortly."
  const AnythingElseLine := "Is there anything else I can help you with today?"
  const SchedulingTeamLine := "I understand those times don't work for you. Let me connect you with our scheduling team to find a better time."
  const AlrightLine := "Alright. Is there anything else I can help you with today?"

  // ------------------------------------------------------------ speaking

  /** What `speak` appends for `text`: the ambiance and the audio when `played`, otherwise one `<Say>`. */
  function Utter(tts: FixedTts.ElevenLabsApi, text: string, voice: string, played: bool): seq<Verb> {
    if played then [Ambiance, Play(ElevenLabs.AudioUrl(tts.publicUrlBase, tts.CacheFileName(text)), None, None)]
    else [Say(text, Some(voice), None)]
  }

  /**
   * `speak(response, text, voice)`: audio exactly when the service, configured,
   * hands out a URL for the text; that URL names the cached file.
   */
  method Speak(response: TwiML, tts: FixedTts.ElevenLabsApi, text: string, voice: string, now: int)
    returns (played: bool)
    requires tts.cache.Valid()
    modifies response, tts, tts.cache
    ensures tts.cache.Valid() && response.head == old(response.head)
    ensures played <==> old(tts.Delivers(text))
    ensures played ==> tts.cache.Exists(tts.CacheFileName(text))
    ensures response.verbs == old(response.verbs) + Utter(tts, text, voice, played)
    ensures old(tts.cache.entries) <= tts.cache.entries && old(tts.posts) <= tts.posts
    ensures !tts.IsConfigured() ==> tts.cache.entries == old(tts.cache.entries) && tts.posts == old(tts.posts)
  {
    if tts.IsConfigured() {
      var url := tts.TextToSpeech(text, now);
      if url.Some? {
        response.Play(AmbianceUrl, None, Some(10));
        response.Play(url.value, None, None);
        return true;
      }
    }
    response.Say(text, Some(voice), None);
    return false;
  }

  /** `serve_audio(filename)`: the cached file's content, or nothing (a 404) when it is not there. */
  function ServeAudio(cache: Files.Directory, filename: string): (r: Option<seq<bv8>>)
    reads cache
    ensures r.Some? <==> cache.Exists(filename)
    ensures r.Some? ==> exists f :: f in cache.entries && f.name == filename && f.content == r.value
  {
    match Files.Find(cache.entries, filename)
    case Some(f) => Some(f.content)
    case None => None
  }

  /** The audio `speak` plays is served under the file name its URL carries. */
  lemma PlayedAudioIsServed(tts: FixedTts.ElevenLabsApi, text: string)
    requires tts.IsConfigured() && tts.cache.Exists(tts.CacheFileName(text))
    ensures ElevenLabs.FilenameFromUrl(tts.publicUrlBase, Utter(tts, text, Joanna, true)[1].url) == Some(tts.CacheFileName(text))
    ensures ServeAudio(tts.cache, tts.CacheFileName(text)).Some?
  {
    ElevenLabs.FilenameFromAudioUrl(tts.publicUrlBase, tts.CacheFileName(text));
  }

  // ------------------------------------------------------------ plans

  /** What the caller gets when the helper of a missing module ran: what it appended, and whether it raised. */
  datatype HelperRun = HelperRun(appended: seq<Verb>, raised: bool)

  /**
   * One thing a handler does: speak a line, speak a prompt inside a new
   * `<Gather>`, redirect, or run a helper that appends verbs of its own.
   */
  datatype Step =
    | Line(text: string)
    | Ask(attrs: GatherAttrs, text: string)
    | Go(url: string)
    | Emit(verbs: seq<Verb>)

  /** The verbs one step comes out as; `played` tells whether its line was played as audio. */
  function StepVerbs(tts: FixedTts.ElevenLabsApi, step: Step, played: bool): seq<Verb> {
    match step
    case Line(text) => Utter(tts, text, Joanna, played)
    case Ask(attrs, text) => [Nested(attrs, Utter(tts, text, Joanna, played))]
    case Go(url) => [Redirect(url)]
    case Emit(verbs) => verbs
  }

  /** The verbs a plan comes out as. */
  function Render(tts: FixedTts.ElevenLabsApi, steps: seq<Step>, played: seq<bool>): seq<Verb>
    requires |played| == |steps|
  {
    if steps == [] then [] else StepVerbs(tts, steps[0], played[0]) + Render(tts, steps[1..], played[1..])
  }

  /** Audio is only ever played by a configured service. */
  predicate Honest(tts: FixedTts.ElevenLabsApi, played: seq<bool>) {
    forall i :: 0 <= i < |played| && played[i] ==> tts.IsConfigured()
  }

  /** `verbs` is what `steps` come out as, with a consistent choice of which lines were played. */
  predicate Answers(tts: FixedTts.ElevenLabsApi, verbs: seq<Verb>, steps: seq<Step>, played: seq<bool>) {
    |played| == |steps| && Honest(tts, played) && verbs == Render(tts, steps, played)
  }

  lemma {:induction false} RenderSnoc(tts: FixedTts.ElevenLabsApi, steps: seq<Step>, played: seq<bool>, step: Step, b: bool)
    requires |played| == |steps|
    ensures Render(tts, steps + [step], played + [b]) == Render(tts, steps, played) + StepVerbs(tts, step, b)
  {
    if steps == [] {
      assert steps + [step] == [step] && played + [b] == [b];
    } else {
      assert (steps + [step])[1..] == steps[1..] + [step];
      assert (played + [b])[1..] == played[1..] + [b];
      RenderSnoc(tts, steps[1..], played[1..], step, b);
    }
  }

  /** The `action` of each `<Gather>` a plan opens, the helpers' included, in order. */
  function PlanActions(steps: seq<Step>): seq<string> {
    if steps == [] then []
    else
      (match steps[0]
       case Ask(attrs, _) => [attrs.action]
       case Emit(verbs) => GatherActions(verbs)
       case _ => []) + PlanActions(steps[1..])
  }

  /** The gathers of the rendered markup are the plan's, whatever was played as audio. */
  lemma {:induction false} RenderGatherActions(tts: FixedTts.ElevenLabsApi, steps: seq<Step>, played: seq<bool>)
    requires |played| == |steps|
    ensures GatherActions(Render(tts, steps, played)) == PlanActions(steps)
  {
    if steps != [] {
      var first := StepVerbs(tts, steps[0], played[0]);
      GatherActionsAppend(first, Render(tts, steps[1..], played[1..]));
      RenderGatherActions(tts, steps[1..], played[1..]);
      match steps[0]
      case Line(text) =>
        if played[0] {
          assert GatherActions(first) == GatherActions([first[1]]);
        }
      case Ask(attrs, text) =>
      case Go(url) =>
      case Emit(verbs) =>
    }
  }

  /** Every line or prompt `played` marks as audio has its file among `entries`, so the URL played is served. */
  predicate PlayedCached(tts: FixedTts.ElevenLabsApi, steps: seq<Step>, played: seq<bool>, entries: seq<Files.FileEntry>)
    requires |played| == |steps|
  {
    forall i :: 0 <= i < |steps| && played[i] ==>
      (steps[i].Line? || steps[i].Ask?) && tts.CacheFileName(steps[i].text) in Files.Names(entries)
  }

  lemma PlayedCachedSnoc(tts: FixedTts.ElevenLabsApi, steps: seq<Step>, played: seq<bool>, step: Step, b: bool,
                         entries: seq<Files.FileEntry>, more: seq<Files.FileEntry>)
    requires |played| == |steps| && PlayedCached(tts, steps, played, entries) && entries <= more
    requires b ==> (step.Line? || step.Ask?) && tts.CacheFileName(step.text) in Files.Names(more)
    ensures PlayedCached(tts, steps + [step], played + [b], more)
  {
    Files.NamesGrow(entries, more);
    forall i | 0 <= i < |steps| + 1 && (played + [b])[i]
      ensures ((steps + [step])[i].Line? || (steps + [step])[i].Ask?)
        && tts.CacheFileName((steps + [step])[i].text) in Files.Names(more)
    {
      if i < |steps| {
        assert played[i];
      }
    }
  }

  /** Every line or prompt whose text was delivered against the cache `entries` is marked played. */
  predicate PlaysDelivered(tts: FixedTts.ElevenLabsApi, steps: seq<Step>, played: seq<bool>, entries: seq<Files.FileEntry>)
    requires |played| == |steps|
  {
    forall i :: 0 <= i < |steps| && (steps[i].Line? || steps[i].Ask?) && tts.DeliversWith(steps[i].text, entries) ==> played[i]
  }

  lemma PlaysDeliveredSnoc(tts: FixedTts.ElevenLabsApi, steps: seq<Step>, played: seq<bool>, step: Step, b: bool,
                           entries: seq<Files.FileEntry>)
    requires |played| == |steps| && PlaysDelivered(tts, steps, played, entries)
    requires (step.Line? || step.Ask?) && tts.DeliversWith(step.text, entries) ==> b
    ensures PlaysDelivered(tts, steps + [step], played + [b], entries)
  {
    forall i | 0 <= i < |steps| + 1 && ((steps + [step])[i].Line? || (steps + [step])[i].Ask?)
                 && tts.DeliversWith((steps + [step])[i].text, entries)
      ensures (played + [b])[i]
    {
      if i < |steps| {
        assert tts.DeliversWith(steps[i].text, entries);
      }
    }
  }

  /** One step of a handler: a `speak` (into a new `<Gather>` for a prompt), a redirect, or a helper's verbs. */
  method PerformStep(response: TwiML, tts: FixedTts.ElevenLabsApi, step: Step, now: int) returns (b: bool)
    requires tts.cache.Valid()
    modifies response, tts, tts.cache
    ensures tts.cache.Valid() && response.head == old(response.head)
    ensures response.verbs == old(response.verbs) + StepVerbs(tts, step, b)
    ensures b ==> tts.IsConfigured() && (step.Line? || step.Ask?) && tts.cache.Exists(tts.CacheFileName(step.text))
    ensures (step.Line? || step.Ask?) ==> (b <==> old(tts.Delivers(step.text)))
    ensures old(tts.cache.entries) <= tts.cache.entries && old(tts.posts) <= tts.posts
    ensures !tts.IsConfigured() ==> tts.cache.entries == old(tts.cache.entries) && tts.posts == old(tts.posts)
  {
    b := false;
    if step.Line? {
      b := Speak(response, tts, step.text, Joanna, now);
    } else if step.Ask? {
      var gather := new TwiML.Gather(step.attrs);
      b := Speak(gather, tts, step.text, Joanna, now);
      assert gather.verbs == Utter(tts, step.text, Joanna, b);
      response.Append(gather);
    } else if step.Go? {
      response.Redirect(step.url);
    } else {
      response.Extend(step.verbs);
    }
  }

  /** Says each step in turn, as the handlers' successive `speak`, `append` and `redirect` calls do. */
  method Perform(response: TwiML, tts: FixedTts.ElevenLabsApi, steps: seq<Step>, now: int) returns (played: seq<bool>)
    requires tts.cache.Valid()
    modifies response, tts, tts.cache
    ensures tts.cache.Valid() && response.head == old(response.head)
    ensures |played| == |steps| && Honest(tts, played)
    ensures response.verbs == old(response.verbs) + Render(tts, steps, played)
    // The cache and the request log only grow, and not at all without configuration.
    ensures old(tts.cache.entries) <= tts.cache.entries && old(tts.posts) <= tts.posts
    ensures !tts.IsConfigured() ==> tts.cache.entries == old(tts.cache.entries) && tts.posts == old(tts.posts)
    // Only lines and prompts are played as audio, and each played one has its file in the cache.
    ensures PlayedCached(tts, steps, played, tts.cache.entries)
    // Every line or prompt the service would deliver before the first step is played as audio.
    ensures PlaysDelivered(tts, steps, played, old(tts.cache.entries))
  {
    played := [];
    var i := 0;
    while i < |steps|
      invariant 0 <= i <= |steps| && |played| == i
      invariant tts.cache.Valid() && response.head == old(response.head)
      invariant Honest(tts, played)
      invariant response.verbs == old(response.verbs) + Render(tts, steps[..i], played)
      invariant PlayedCached(tts, steps[..i], played, tts.cache.entries)
      invariant PlaysDelivered(tts, steps[..i], played, old(tts.cache.entries))
      invariant old(tts.cache.entries) <= tts.cache.entries && old(tts.posts) <= tts.posts
      invariant !tts.IsConfigured() ==> tts.cache.entries == old(tts.cache.entries) && tts.posts == old(tts.posts)
    {
      ghost var entries := tts.cache.entries;
      if (steps[i].Line? || steps[i].Ask?) && tts.DeliversWith(steps[i].text, old(tts.cache.entries)) {
        tts.DeliversWithGrows(steps[i].text, old(tts.cache.entries), entries);
      }
      var b := PerformStep(response, tts, steps[i], now);
      RenderSnoc(tts, steps[..i], played, steps[i], b);
      PlayedCachedSnoc(tts, steps[..i], played, steps[i], b, entries, tts.cache.entries);
      PlaysDeliveredSnoc(tts, steps[..i], played, steps[i], b, old(tts.cache.entries));
      assert steps[..i + 1] == steps[..i] + [steps[i]];
      played := played + [b];
      i := i + 1;
    }
    assert steps[..i] == steps;
  }

  // ------------------------------------------------------------ voice

  /** The greeting `<Gather>`: no language, so the platform detects it. */
  const GreetingAttrs := GatherAttrs("speech dtmf", Some(3), Some("auto"), ResponsePath, None, None, Some("phone_call"), None, true)

  /** `voice()`: on a first call, the greeting in a `<Gather>` and a redirect back; otherwise straight to /handle-response. */
  function VoicePlan(speechResult: Option<string>): seq<Step> {
    if speechResult.None? then [Ask(GreetingAttrs, Greeting), Go(VoicePath)] else [Go(ResponsePath)]
  }

  // ------------------------------------------------------------ handle_response

  const HumanPhrases := ["talk to someone", "speak to someone", "talk to a person", "human"]
  const PaymentPhrases := ["credit card", "payment", "pay with card", "accept card"]
  const InsurancePhrases := ["insurance", "covered by insurance", "my insurance"]
  const WalkInPhrases := ["walk in", "walk-in"]
  const AppointmentPhrases := ["appointment", "schedule", "book", "make an appointment"]
  const ReschedulePhrases := ["reschedule", "change appointment"]

  datatype Intent = TalkToHuman | Payment | Insurance | WalkIn | Booking | Reschedule | Unrecognized

  /** The `if/elif` chain of `handle_response` on lower-cased speech: the first branch whose phrases occur. */
  function IntentOf(s: string): (i: Intent)
    ensures i == TalkToHuman <==> Text.ContainsAny(s, HumanPhrases)
    ensures i == Payment <==> !Text.ContainsAny(s, HumanPhrases) && Text.ContainsAny(s, PaymentPhrases)
    ensures i == Insurance <==>
      && !Text.ContainsAny(s, HumanPhrases)
      && !Text.ContainsAny(s, PaymentPhrases)
      && Text.ContainsAny(s, InsurancePhrases)
    ensures i == WalkIn <==>
      && !Text.ContainsAny(s, HumanPhrases)
      && !Text.ContainsAny(s, PaymentPhrases)
      && !Text.ContainsAny(s, InsurancePhrases)
      && Text.ContainsAny(s, WalkInPhrases)
    ensures i == Booking <==>
      && !Text.ContainsAny(s, HumanPhrases)
      && !Text.ContainsAny(s, PaymentPhrases)
      && !Text.ContainsAny(s, InsurancePhrases)
      && !Text.ContainsAny(s, WalkInPhrases)
      && Text.ContainsAny(s, AppointmentPhrases)
    ensures i == Reschedule ==> Text.ContainsAny(s, ReschedulePhrases) && !Text.ContainsAny(s, AppointmentPhrases)
    ensures i == Unrecognized <==>
      && !Text.ContainsAny(s, HumanPhrases)
      && !Text.ContainsAny(s, PaymentPhrases)
      && !Text.ContainsAny(s, InsurancePhrases)
      && !Text.ContainsAny(s, WalkInPhrases)
      && !Text.ContainsAny(s, AppointmentPhrases)
      && !Text.ContainsAny(s, ReschedulePhrases)
  {
    if Text.ContainsAny(s, HumanPhrases) then TalkToHuman
    else if Text.ContainsAny(s, PaymentPhrases) then Payment
    else if Text.ContainsAny(s, InsurancePhrases) then Insurance
    else if Text.ContainsAny(s, WalkInPhrases) then WalkIn
    else if Text.ContainsAny(s, AppointmentPhrases) then Booking
    else if Text.ContainsAny(s, ReschedulePhrases) then Reschedule
    else Unrecognized
  }

  /** What a helper branch does: the helper's verbs, then the scheduling apology if it raised. */
  function HelperPlan(run: HelperRun): seq<Step> {
    [Emit(run.appended)] + (if run.raised then [Line(FixedErrors.AppointmentError)] else [])
  }

  /** The gather of the fallback branch, offering a transfer. */
  const OfferAttrs := GatherAttrs("speech dtmf", Some(3), Some("auto"), TransferPath, None, None, Some("phone_call"), None, false)

  /**
   * What `handle_response` says for the raw speech; `booking` and
   * `rescheduling` are what the booking helpers, which live outside this
   * model, would do.
   */
  function ResponsePlan(speech: string, booking: HelperRun, rescheduling: HelperRun): seq<Step> {
    match IntentOf(Text.Lower(speech))
    case TalkToHuman => [Line(ConnectLine)]
    case Payment => [Line(PaymentLine)]
    case Insurance => [Line(InsuranceLine)]
    case WalkIn => [Line(WalkInLine)]
    case Booking => HelperPlan(booking)
    case Reschedule => HelperPlan(rescheduling)
    case Unrecognized => [Line(NotSureLine), Ask(OfferAttrs, OfferTransferPrompt)]
  }

  // ------------------------------------------------------------ handle_appointment

  /** `time_patterns`, each `(?:am|a\.m\.)`-style alternation written as its two patterns. */
  const MorningPatterns: seq<Pattern> := [
    Clock("9", "am"), Clock("9", "a.m."), Clock("9", "o'clock"), Clock("9", "in the morning"),
    Word("9:00"), Word("nine"), Word("morning"),
    Clock("10", "am"), Clock("10", "a.m."), Clock("10", "o'clock"), Word("10:00"), Word("ten"),
    Clock("11", "am"), Clock("11", "a.m."), Clock("11", "o'clock"), Word("11:00"), Word("eleven")
  ]

  const MiddayPatterns: seq<Pattern> := [
    Clock("12", "pm"), Clock("12", "p.m."), Clock("12", "o'clock"), Word("12:00"), Word("twelve"), Word("noon"),
    Clock("1", "pm"), Clock("1", "p.m."), Clock("1", "o'clock"), Word("1:00"), Word("one"),
    Clock("2", "pm"), Clock("2", "p.m."), Clock("2", "o'clock"), Word("2:00"), Word("two")
  ]

  const AfternoonPatterns: seq<Pattern> := [
    Clock("3", "pm"), Clock("3", "p.m."), Clock("3", "o'clock"), Word("3:00"), Word("three"),
    Clock("4", "pm"), Clock("4", "p.m."), Clock("4", "o'clock"), Word("4:00"), Word("four"),
    Clock("5", "pm"), Clock("5", "p.m."), Clock("5", "o'clock"), Word("5:00"), Word("five")
  ]

  /** `time_patterns`, in order, each `(?:am|a\.m\.)`-style alternation written as its two patterns. */
  const TimePatterns: seq<Pattern> := MorningPatterns + MiddayPatterns + AfternoonPatterns

  const AffirmativePatterns: seq<Pattern> := [
    Word("yes"), Word("yeah"), Word("sure"), Word("please"), Word("that works"),
    Word("sounds good"), Word("perfect"), Word("great"), Word("ok"), Word("okay")
  ]

  const DayPatterns: seq<Pattern> := [
    Word("today"), Word("tomorrow"), Word("monday"), Word("tuesday"), Word("wednesday"),
    Word("thursday"), Word("friday"), Word("saturday"), Word("sunday")
  ]

  /** Some time, affirmative or day pattern matches the lower-cased speech. */
  predicate AcceptsSlot(s: string) {
    SearchAny(TimePatterns, s) || SearchAny(AffirmativePatterns, s) || SearchAny(DayPatterns, s)
  }

  /** What `handle_appointment` says for the raw speech. */
  function AppointmentPlan(speech: string): seq<Step> {
    if AcceptsSlot(Text.Lower(speech)) then [Line(ScheduledLine), Line(AnythingElseLine), Go(VoicePath)]
    else [Line(SchedulingTeamLine)]
  }

  // ------------------------------------------------------------ handle_transfer

  const TransferWords := ["yes", "yeah", "sure", "please"]

  /** What `handle_transfer` says for the raw speech and the keyed digits (`""` when none). */
  function TransferPlan(speech: string, digits: string): seq<Step> {
    if Text.ContainsAny(Text.Lower(speech), TransferWords) || digits == "1" then [Line(ConnectLine)]
    else [Line(AlrightLine), Go(VoicePath)]
  }

  // ------------------------------------------------------------ handlers

  /** `voice()`; `speechResult` is the `SpeechResult` parameter, if the request has one. */
  method Voice(tts: FixedTts.ElevenLabsApi, speechResult: Option<string>, now: int) returns (response: TwiML, played: seq<bool>)
    requires tts.cache.Valid()
    modifies tts, tts.cache
    ensures old(tts.cache.entries) <= tts.cache.entries && old(tts.posts) <= tts.posts
    ensures !tts.IsConfigured() ==> tts.cache.entries == old(tts.cache.entries) && tts.posts == old(tts.posts)
    ensures fresh(response) && response.head == ResponseHead && tts.cache.Valid()
    ensures Answers(tts, response.verbs, VoicePlan(speechResult), played)
    ensures PlayedCached(tts, VoicePlan(speechResult), played, tts.cache.entries)
    ensures PlaysDelivered(tts, VoicePlan(speechResult), played, old(tts.cache.entries))
  {
    response := new TwiML.Response();
    played := Perform(response, tts, VoicePlan(speechResult), now);
  }

  /** `handle_response()`. */
  method HandleResponse(tts: FixedTts.ElevenLabsApi, speech: string, booking: HelperRun, rescheduling: HelperRun, now: int)
    returns (response: TwiML, played: seq<bool>)
    requires tts.cache.Valid()
    modifies tts, tts.cache
    ensures old(tts.cache.entries) <= tts.cache.entries && old(tts.posts) <= tts.posts
    ensures !tts.IsConfigured() ==> tts.cache.entries == old(tts.cache.entries) && tts.posts == old(tts.posts)
    ensures fresh(response) && response.head == ResponseHead && tts.cache.Valid()
    ensures Answers(tts, response.verbs, ResponsePlan(speech, booking, rescheduling), played)
    ensures PlayedCached(tts, ResponsePlan(speech, booking, rescheduling), played, tts.cache.entries)
    ensures PlaysDelivered(tts, ResponsePlan(speech, booking, rescheduling), played, old(tts.cache.entries))
  {
    response := new TwiML.Response();
    played := Perform(response, tts, ResponsePlan(speech, booking, rescheduling), now);
  }

  /** `handle_appointment()`. */
  method HandleAppointment(tts: FixedTts.ElevenLabsApi, speech: string, now: int) returns (response: TwiML, played: seq<bool>)
    requires tts.cache.Valid()
    modifies tts, tts.cache
    ensures old(tts.cache.entries) <= tts.cache.entries && old(tts.posts) <= tts.posts
    ensures !tts.IsConfigured() ==> tts.cache.entries == old(tts.cache.entries) && tts.posts == old(tts.posts)
    ensures fresh(response) && response.head == ResponseHead && tts.cache.Valid()
    ensures Answers(tts, response.verbs, AppointmentPlan(speech), played)
    ensures PlayedCached(tts, AppointmentPlan(speech), played, tts.cache.entries)
    ensures PlaysDelivered(tts, AppointmentPlan(speech), played, old(tts.cache.entries))
  {
    response := new TwiML.Response();
    played := Perform(response, tts, AppointmentPlan(speech), now);
  }

  /** `handle_transfer()`. */
  method HandleTransfer(tts: FixedTts.ElevenLabsApi, speech: string, digits: string, now: int)
    returns (response: TwiML, played: seq<bool>)
    requires tts.cache.Valid()
    modifies tts, tts.cache
    ensures old(tts.cache.entries) <= tts.cache.entries && old(tts.posts) <= tts.posts
    ensures !tts.IsConfigured() ==> tts.cache.entries == old(tts.cache.entries) && tts.posts == old(tts.posts)
    ensures fresh(response) && response.head == ResponseHead && tts.cache.Valid()
    ensures Answers(tts, response.verbs, TransferPlan(speech, digits), played)
    ensures PlayedCached(tts, TransferPlan(speech, digits), played, tts.cache.entries)
    ensures PlaysDelivered(tts, TransferPlan(speech, digits), played, old(tts.cache.entries))
  {
    response := new TwiML.Response();
    played := Perform(response, tts, TransferPlan(speech, digits), now);
  }
}

module FixedRoutesProperties {
  import opened Wrappers
  import opened Twiml
  import Text
  import FixedTts
  import opened Patterns
  import opened FixedRoutes

  /** The reschedule branch of `handle_response` is never reached: each reschedule phrase holds a booking phrase. */
  lemma RescheduleUnreachable(s: string)
    ensures IntentOf(s) != Reschedule
  {
    if IntentOf(s) == Reschedule {
      assert Text.OccursAt("reschedule", "schedule", 2);
      assert Text.OccursAt("change appointment", "appointment", 7);
      assert Text.ContainsAny("reschedule", AppointmentPhrases) by {
        Text.OccursAtContains("reschedule", "schedule", 2);
        Text.ContainsAnyOf("reschedule", "schedule", AppointmentPhrases);
      }
      assert Text.ContainsAny("change appointment", AppointmentPhrases) by {
        Text.OccursAtContains("change appointment", "appointment", 7);
        Text.ContainsAnyOf("change appointment", "appointment", AppointmentPhrases);
      }
      Text.ContainsAnyCovered(s, ReschedulePhrases, AppointmentPhrases);
      assert false;
    }
  }

  /** Saying "reschedule" books, once no earlier branch caught the speech. */
  lemma RescheduleWordBooks(s: string)
    requires Text.Contains(s, "reschedule")
    requires
      && !Text.ContainsAny(s, HumanPhrases)
      && !Text.ContainsAny(s, PaymentPhrases)
      && !Text.ContainsAny(s, InsurancePhrases)
      && !Text.ContainsAny(s, WalkInPhrases)
    ensures IntentOf(s) == Booking
  {
    assert Text.OccursAt("reschedule", "schedule", 2);
    Text.OccursAtContains("reschedule", "schedule", 2);
    Text.ContainsTransitive(s, "reschedule", "schedule");
    Text.ContainsAnyOf(s, "schedule", AppointmentPhrases);
  }

  /** Unrecognised speech gets the fallback line and exactly one `<Gather>`, posting to /handle-transfer. */
  lemma UnrecognizedOffersTransfer(tts: FixedTts.ElevenLabsApi, speech: string, booking: HelperRun, rescheduling: HelperRun,
                                   verbs: seq<Verb>, played: seq<bool>)
    requires IntentOf(Text.Lower(speech)) == Unrecognized
    requires Answers(tts, verbs, ResponsePlan(speech, booking, rescheduling), played)
    ensures GatherActions(verbs) == [TransferPath]
    ensures verbs[0] == Say(NotSureLine, Some(Joanna), None) || verbs[..2] == Utter(tts, NotSureLine, Joanna, true)
  {
    var plan := ResponsePlan(speech, booking, rescheduling);
    RenderGatherActions(tts, plan, played);
    assert PlanActions(plan) == [TransferPath] by {
      assert plan[1..] == [Ask(OfferAttrs, OfferTransferPrompt)];
      assert PlanActions(plan[1..]) == [TransferPath] by {
        assert plan[1..][1..] == [];
      }
    }
  }

  /** A first call is greeted in a `<Gather>` posting to /handle-response and redirected to /voice; a later one goes straight to /handle-response. */
  lemma VoiceShape(tts: FixedTts.ElevenLabsApi, speechResult: Option<string>, verbs: seq<Verb>, played: seq<bool>)
    requires Answers(tts, verbs, VoicePlan(speechResult), played)
    ensures speechResult.None? ==> GatherActions(verbs) == [ResponsePath] && verbs[|verbs| - 1] == Redirect(VoicePath)
    ensures speechResult.Some? ==> verbs == [Redirect(ResponsePath)]
  {
    if speechResult.None? {
      FirstCallShape(tts, verbs, played);
    } else {
      var plan := [Go(ResponsePath)];
      assert Render(tts, plan[1..], played[1..]) == [];
    }
  }

  /** A first call renders as the greeting `<Gather>` to /handle-response, then a redirect to /voice. */
  lemma FirstCallShape(tts: FixedTts.ElevenLabsApi, verbs: seq<Verb>, played: seq<bool>)
    requires Answers(tts, verbs, VoicePlan(None), played)
    ensures GatherActions(verbs) == [ResponsePath] && verbs[|verbs| - 1] == Redirect(VoicePath)
  {
    AskThenGo(tts, GreetingAttrs, Greeting, VoicePath, played);
  }

  /** A prompt followed by a redirect renders as one `<Gather>` and ends with the redirect. */
  lemma AskThenGo(tts: FixedTts.ElevenLabsApi, attrs: GatherAttrs, text: string, url: string, played: seq<bool>)
    requires |played| == 2
    ensures GatherActions(Render(tts, [Ask(attrs, text), Go(url)], played)) == [attrs.action]
    ensures var vs := Render(tts, [Ask(attrs, text), Go(url)], played); vs[|vs| - 1] == Redirect(url)
  {
    var plan := [Ask(attrs, text), Go(url)];
    RenderGatherActions(tts, plan, played);
    var rest := plan[1..];
    assert rest == [Go(url)] && rest[1..] == [];
    assert PlanActions(rest) == [];
    assert Render(tts, rest, played[1..]) == [Redirect(url)];
  }


  /** A whole-word day name confirms the appointment: "tomorrow" between non-word characters, say. */
  lemma TomorrowConfirms(speech: string, i: nat)
    requires Text.OccursAt(Text.Lower(speech), "tomorrow", i)
    requires AtBoundary(Text.Lower(speech), i) && AtBoundary(Text.Lower(speech), i + 8)
    ensures AppointmentPlan(speech) == [Line(ScheduledLine), Line(AnythingElseLine), Go(VoicePath)]
  {
    WordFound("tomorrow", Text.Lower(speech), i);
    assert DayPatterns[1] == Word("tomorrow");
  }

  /** "9 am" is a time the appointment handler accepts. */
  lemma NineAmConfirms()
    ensures Search(Clock("9", "am"), "9 am")
    ensures AcceptsSlot("9 am")
  {
    assert Text.OccursAt("9 am", "9", 0) && Text.OccursAt("9 am", "am", 2);
    ClockFound("9", "am", "9 am", 0, 2);
    assert MorningPatterns[0] == Clock("9", "am");
    assert TimePatterns[0] == Clock("9", "am");
  }

  /**
   * "9 a.m." on its own is not matched by the `a\.m\.` alternative: the `\b`
   * after the final period needs a word character to follow.
   */
  lemma DottedNineMissed()
    ensures !Search(Clock("9", "a.m."), "9 a.m.")
  {
    if Search(Clock("9", "a.m."), "9 a.m.") {
      DottedClockNeedsWordAfter("9", "a.m.", "9 a.m.");
      assert false;
    }
  }

  /**
   * The appointment handler matches whole words, the transfer handler plain
   * substrings: "yesterday" is no "yes" to the one, but connects in the other.
   */
  lemma YesterdayIsYesOnlyToTransfer()
    ensures !Search(Word("yes"), "yesterday")
    ensures TransferPlan("yesterday", "") == [Line(ConnectLine)]
  {
    var s := "yesterday";
    forall k | 0 <= k <= |s| ensures !(Text.OccursAt(s, "yes", k) && AtBoundary(s, k) && AtBoundary(s, k + 3)) {
      if Text.OccursAt(s, "yes", k) {
        assert s[k..k + 3][0] == 'y';
        assert k == 0 && s[2] == 's' && s[3] == 't';
      }
    }
    WordNotFound("yes", s, 0);
    assert Text.Lower("yesterday") == "yesterday";
    assert Text.OccursAt("yesterday", "yes", 0);
    Text.OccursAtContains("yesterday", "yes", 0);
    Text.ContainsAnyOf("yesterday", "yes", TransferWords);
  }

  /** A match of any affirmative word pattern holds the word itself, so it also passes the transfer test when the word is a transfer word. */
  lemma AffirmativeWordIsTransferWord(speech: string, w: string)
    requires w in TransferWords && Search(Word(w), Text.Lower(speech))
    ensures TransferPlan(speech, "") == [Line(ConnectLine)]
  {
    WordSearchContains(w, Text.Lower(speech), 0);
    Text.ContainsAnyOf(Text.Lower(speech), w, TransferWords);
  }

  /** `handle_transfer` connects exactly on a transfer word or the key 1; otherwise it redirects to /voice. */
  lemma TransferConnectsIff(speech: string, digits: string)
    ensures TransferPlan(speech, digits) == [Line(ConnectLine)] <==>
      Text.ContainsAny(Text.Lower(speech), TransferWords) || digits == "1"
    ensures TransferPlan(speech, digits) != [Line(ConnectLine)] ==>
      TransferPlan(speech, digits)[|TransferPlan(speech, digits)| - 1] == Go(VoicePath)
  {
  }
}
