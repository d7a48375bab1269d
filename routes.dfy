/**
 * The webhook handlers of the main bot (app/routes.py). Each handler lowers
 * the recognised speech, picks a branch of an ordered chain of substring
 * tests, and says the branch's lines into a fresh `<Response>`. What a branch
 * says is given as a plan of steps (see `ResponseBuilder.Step`).
 */
module AppRoutes {
  import opened Wrappers
  import opened Twiml
  import Text
  import ElevenLabs
  import opened ResponseBuilder
  import TwilioUtils

  const S3GreetingUrl := "https://chirodesk-audio.s3.us-east-2.amazonaws.com/ElevenLabs_2025-04-20T04_45_30_Rachel_pre_sp100_s50_sb75_se0_b_m2.mp3"

  // Route paths, as `url_for` gives them.
  const VoicePath := "/voice"
  const ResponsePath := "/handle-response"
  const SpanishResponsePath := "/handle-spanish-response"
  const TransferPath := "/handle-transfer"
  const SpanishTransferPath := "/handle-spanish-transfer"
  const SpanishAppointmentPath := "/handle-spanish-appointment"

  // ------------------------------------------------------------ phrase lists

  const HumanPhrases := ["talk to someone", "speak to someone", "talk to a person", "human", "representative", "operator"]
  const PaymentPhrases := ["credit card", "payment", "pay with card", "accept card", "pay by card", "credit cards"]
  const InsurancePhrases := ["insurance", "covered by insurance", "my insurance", "take insurance", "accept insurance"]
  const WalkInPhrases := ["walk in", "walk-in", "without appointment", "without an appointment"]
  const AppointmentPhrases := [
    "appointment", "schedule", "book", "make appointment", "make an appointment",
    "set appointment", "set up appointment", "schedule appointment", "book appointment",
    "need appointment", "get appointment", "want appointment", "like appointment",
    "like to make", "want to make", "need to make", "would like to make"
  ]
  const ReschedulePhrases := ["reschedule", "change appointment", "move appointment", "different time", "another time"]

  const HumanPhrasesEs := ["hablar con alguien", "hablar con una persona", "persona", "representante", "operador"]
  const PaymentPhrasesEs := ["tarjeta de crédito", "pago", "pagar con tarjeta", "aceptan tarjeta", "tarjetas"]
  const InsurancePhrasesEs := ["seguro", "seguro médico", "mi seguro", "aceptan seguro"]
  const WalkInPhrasesEs := ["sin cita", "sin cita previa", "sin agendar", "llegar sin cita"]
  const AppointmentPhrasesEs := [
    "cita", "agendar", "programar", "reservar", "hacer cita", "hacer una cita",
    "necesito cita", "quiero cita", "quisiera cita", "me gustaría", "agendar cita",
    "programar cita", "reservar cita", "consulta", "ver al doctor", "ver al médico"
  ]
  const ReschedulePhrasesEs := ["cambiar cita", "mover cita", "reprogramar", "otra hora", "otro día"]

  const Affirmatives := ["yes", "yeah", "sure", "please", "ok", "okay"]
  const AffirmativesEs := ["sí", "si", "claro", "por favor", "ok", "okay"]

  // ------------------------------------------------------------ lines

  const ConnectLine := "I'll connect you with someone right away. Please hold."
  const PaymentLine := "Yes, we accept all major credit cards including Visa, Mastercard, American Express, and Discover."
  const InsuranceLine := "We work with most major insurance providers. Our staff can verify your benefits before your appointment."
  const WalkInLine := "We do accept walk-ins based on availability, but we recommend scheduling an appointment to minimize wait time."
  const NotSureLine := "I'm not totally sure how to answer that, but I can connect you with someone if you'd like."
  const OfferTransferPrompt := "Would you like me to connect you with someone?"

  const ConnectLineEs := "Le conectaré con alguien de inmediato. Por favor, espere."
  const PaymentLineEs := "Sí, aceptamos todas las tarjetas de crédito principales, incluyendo Visa, Mastercard, American Express y Discover."
  const InsuranceLineEs := "Trabajamos con la mayoría de los proveedores de seguros principales. Nuestro personal puede verificar sus beneficios antes de su cita."
  const WalkInLineEs := "Aceptamos pacientes sin cita previa según disponibilidad, pero recomendamos programar una cita para minimizar el tiempo de espera."
  const BookingLineEs := "Me gustaría ayudarle a programar una cita. ¿Prefiere una cita por la mañana o por la tarde?"
  const BookingPromptEs := "Por favor, dígame si prefiere por la mañana o por la tarde."
  const RescheduleLineEs := "Para cambiar su cita, necesito conectarle con nuestro equipo de programación. Por favor, espere un momento."
  const NotSureLineEs := "No estoy seguro de cómo responder a eso, pero puedo conectarle con alguien si lo desea."
  const OfferTransferPromptEs := "¿Le gustaría que le conecte con alguien?"

  const MorningLineEs := "Tenemos disponibilidad los lunes, miércoles y viernes por la mañana. Para programar una cita específica, necesito conectarle con nuestro equipo de programación."
  const AfternoonLineEs := "Tenemos disponibilidad los martes y jueves por la tarde. Para programar una cita específica, necesito conectarle con nuestro equipo de programación."
  const UnclearLineEs := "No pude entender su preferencia. Para programar una cita, necesito conectarle con nuestro equipo de programación."
  const SchedulingConnectLineEs := "Le conectaré con nuestro equipo de programación ahora. Por favor, espere un momento."

  const SwitchingLine := "Switching to English. How can I help you today?"
  const HowCanIHelpPrompt := "Please tell me how I can assist you."
  const SwitchingLineEs := "Cambiando a español. ¿Cómo puedo ayudarle hoy?"
  const HowCanIHelpPromptEs := "Por favor, dígame cómo puedo ayudarle."
  const AlrightLine := "Alright, is there anything else I can help you with?"
  const HowElsePrompt := "Please let me know how else I can assist you."
  const AlrightLineEs := "Muy bien, ¿hay algo más en lo que pueda ayudarle?"
  const HowElsePromptEs := "Por favor, dígame en qué más puedo ayudarle."

  const MorningWordsEs := ["mañana", "manana", "temprano"]
  const AfternoonWordsEs := ["tarde", "noche"]

  /** The plan of switching to Spanish. */
  const SwitchToSpanishPlan := [
    Speak(SwitchingLineEs, Spanish),
    Prompt(HowCanIHelpPromptEs, SpanishResponsePath, 3, Spanish)
  ]

  /** The plan of switching back to English. */
  const SwitchToEnglishPlan := [
    Speak(SwitchingLine, English),
    Prompt(HowCanIHelpPrompt, ResponsePath, 3, English)
  ]

  // ------------------------------------------------------------ English chain

  datatype Intent = TalkToHuman | Payment | Insurance | WalkIn | Booking | Reschedule | Unrecognized

  /** The `if/elif` chain of `handle_response` on lower-cased speech: the first branch whose phrases occur. */
  function IntentOf(s: string): (i: Intent)
    ensures i == TalkToHuman <==> Text.ContainsAny(s, HumanPhrases)
    ensures i == Payment <==> !Text.ContainsAny(s, HumanPhrases) && Text.ContainsAny(s, PaymentPhrases)
    ensures i == Insurance <==>
      && !Text.ContainsAny(s, HumanPhrases)
      && !Text.ContainsAny(s, PaymentPhrases)
      && Text.ContainsAny(s, InsurancePhrases)
    ensures i == WalkIn <==>
      && !Text.ContainsAny(s, HumanPhrases)
      && !Text.ContainsAny(s, PaymentPhrases)
      && !Text.ContainsAny(s, InsurancePhrases)
      && Text.ContainsAny(s, WalkInPhrases)
    ensures i == Booking <==>
      && !Text.ContainsAny(s, HumanPhrases)
      && !Text.ContainsAny(s, PaymentPhrases)
      && !Text.ContainsAny(s, InsurancePhrases)
      && !Text.ContainsAny(s, WalkInPhrases)
      && Text.ContainsAny(s, AppointmentPhrases)
    ensures i == Unrecognized <==>
      && !Text.ContainsAny(s, HumanPhrases)
      && !Text.ContainsAny(s, PaymentPhrases)
      && !Text.ContainsAny(s, InsurancePhrases)
      && !Text.ContainsAny(s, WalkInPhrases)
      && !Text.ContainsAny(s, AppointmentPhrases)
      && !Text.ContainsAny(s, ReschedulePhrases)
    ensures i == Reschedule ==> Text.ContainsAny(s, ReschedulePhrases) && !Text.ContainsAny(s, AppointmentPhrases)
  {
    if Text.ContainsAny(s, HumanPhrases) then TalkToHuman
    else if Text.ContainsAny(s, PaymentPhrases) then Payment
    else if Text.ContainsAny(s, InsurancePhrases) then Insurance
    else if Text.ContainsAny(s, WalkInPhrases) then WalkIn
    else if Text.ContainsAny(s, AppointmentPhrases) then Booking
    else if Text.ContainsAny(s, ReschedulePhrases) then Reschedule
    else Unrecognized
  }

  /** Where `handle_response` sends lower-cased speech. */
  datatype Route = SwitchToSpanish | DelegateToSpanish | EnglishIntent(intent: Intent)

  predicate AsksForSpanish(s: string) {
    Text.Contains(s, "español") || Text.Contains(s, "espanol")
  }

  function RouteOf(s: string): Route {
    if AsksForSpanish(s) then SwitchToSpanish
    else if LanguageOf(s) == Spanish then DelegateToSpanish
    else EnglishIntent(IntentOf(s))
  }

  /** What an English intent says; booking and rescheduling read out the open `slots`. */
  function EnglishPlan(i: Intent, slots: seq<TwilioUtils.Slot>): seq<Step> {
    match i
    case TalkToHuman => [Speak(ConnectLine, English)]
    case Payment => [Speak(PaymentLine, English)]
    case Insurance => [Speak(InsuranceLine, English)]
    case WalkIn => [Speak(WalkInLine, English)]
    case Booking => TwilioUtils.BookingPlan(slots)
    case Reschedule => [Speak(TwilioUtils.RescheduleLine, English)] + TwilioUtils.BookingPlan(slots)
    case Unrecognized => [Speak(NotSureLine, English), Prompt(OfferTransferPrompt, TransferPath, 3, English)]
  }

  /** What `handle_response` says after the ambiance, for the raw speech. */
  function ResponsePlan(speech: string, slots: seq<TwilioUtils.Slot>): seq<Step> {
    var s := Text.Lower(speech);
    match RouteOf(s)
    case SwitchToSpanish => SwitchToSpanishPlan
    case DelegateToSpanish => SpanishPlan(s)
    case EnglishIntent(i) => EnglishPlan(i, slots)
  }

  // ------------------------------------------------------------ Spanish chain

  datatype IntentEs = SwitchToEnglish | TalkToHumanEs | PaymentEs | InsuranceEs | WalkInEs | BookingEs | RescheduleEs | UnrecognizedEs

  predicate AsksForEnglish(s: string) {
    Text.Contains(s, "english") || Text.Contains(s, "inglés") || Text.Contains(s, "ingles")
  }

  /** The chain of `handle_spanish_response` on lower-cased speech. */
  function IntentEsOf(s: string): (i: IntentEs)
    ensures i == SwitchToEnglish <==> AsksForEnglish(s)
    ensures i == TalkToHumanEs <==> !AsksForEnglish(s) && Text.ContainsAny(s, HumanPhrasesEs)
    ensures i == PaymentEs <==>
      !AsksForEnglish(s) && !Text.ContainsAny(s, HumanPhrasesEs) && Text.ContainsAny(s, PaymentPhrasesEs)
    ensures i == InsuranceEs <==>
      && !AsksForEnglish(s)
      && !Text.ContainsAny(s, HumanPhrasesEs)
      && !Text.ContainsAny(s, PaymentPhrasesEs)
      && Text.ContainsAny(s, InsurancePhrasesEs)
    ensures i == WalkInEs <==>
      && !AsksForEnglish(s)
      && !Text.ContainsAny(s, HumanPhrasesEs)
      && !Text.ContainsAny(s, PaymentPhrasesEs)
      && !Text.ContainsAny(s, InsurancePhrasesEs)
      && Text.ContainsAny(s, WalkInPhrasesEs)
    ensures i == BookingEs <==>
      && !AsksForEnglish(s)
      && !Text.ContainsAny(s, HumanPhrasesEs)
      && !Text.ContainsAny(s, PaymentPhrasesEs)
      && !Text.ContainsAny(s, InsurancePhrasesEs)
      && !Text.ContainsAny(s, WalkInPhrasesEs)
      && Text.ContainsAny(s, AppointmentPhrasesEs)
    ensures i == RescheduleEs ==>
      && Text.ContainsAny(s, ReschedulePhrasesEs)
      && !Text.ContainsAny(s, AppointmentPhrasesEs)
    ensures i == UnrecognizedEs <==>
      && !AsksForEnglish(s)
      && !Text.ContainsAny(s, HumanPhrasesEs)
      && !Text.ContainsAny(s, PaymentPhrasesEs)
      && !Text.ContainsAny(s, InsurancePhrasesEs)
      && !Text.ContainsAny(s, WalkInPhrasesEs)
      && !Text.ContainsAny(s, AppointmentPhrasesEs)
      && !Text.ContainsAny(s, ReschedulePhrasesEs)
  {
    if AsksForEnglish(s) then SwitchToEnglish
    else if Text.ContainsAny(s, HumanPhrasesEs) then TalkToHumanEs
    else if Text.ContainsAny(s, PaymentPhrasesEs) then PaymentEs
    else if Text.ContainsAny(s, InsurancePhrasesEs) then InsuranceEs
    else if Text.ContainsAny(s, WalkInPhrasesEs) then WalkInEs
    else if Text.ContainsAny(s, AppointmentPhrasesEs) then BookingEs
    else if Text.ContainsAny(s, ReschedulePhrasesEs) then RescheduleEs
    else UnrecognizedEs
  }

  /** What `handle_spanish_response` says after the ambiance, for the raw speech. */
  function SpanishPlan(speech: string): seq<Step> {
    match IntentEsOf(Text.Lower(speech))
    case SwitchToEnglish => SwitchToEnglishPlan
    case TalkToHumanEs => [Speak(ConnectLineEs, Spanish)]
    case PaymentEs => [Speak(PaymentLineEs, Spanish)]
    case InsuranceEs => [Speak(InsuranceLineEs, Spanish)]
    case WalkInEs => [Speak(WalkInLineEs, Spanish)]
    case BookingEs => [Speak(BookingLineEs, Spanish), Prompt(BookingPromptEs, SpanishAppointmentPath, 3, Spanish)]
    case RescheduleEs => [Speak(RescheduleLineEs, Spanish)]
    case UnrecognizedEs => [Speak(NotSureLineEs, Spanish), Prompt(OfferTransferPromptEs, SpanishTransferPath, 3, Spanish)]
  }

  // ------------------------------------------------------------ transfers and the Spanish appointment

  /** What `handle_transfer` says for the raw speech. */
  function TransferPlan(speech: string): seq<Step> {
    if Text.ContainsAny(Text.Lower(speech), Affirmatives) then [Speak(ConnectLine, English)]
    else [Speak(AlrightLine, English), Prompt(HowElsePrompt, ResponsePath, 3, English)]
  }

  /** What `handle_spanish_transfer` says for the raw speech. */
  function SpanishTransferPlan(speech: string): seq<Step> {
    if Text.ContainsAny(Text.Lower(speech), AffirmativesEs) then [Speak(ConnectLineEs, Spanish)]
    else [Speak(AlrightLineEs, Spanish), Prompt(HowElsePromptEs, SpanishResponsePath, 3, Spanish)]
  }

  /** What `handle_spanish_appointment` says for the raw speech. */
  function SpanishAppointmentPlan(speech: string): seq<Step> {
    var s := Text.Lower(speech);
    var first :=
      if Text.ContainsAny(s, MorningWordsEs) then MorningLineEs
      else if Text.ContainsAny(s, AfternoonWordsEs) then AfternoonLineEs
      else UnclearLineEs;
    [Speak(first, Spanish), Speak(SchedulingConnectLineEs, Spanish)]
  }

  // ------------------------------------------------------------ handlers

  /**
   * `voice()`: the ambiance, then, on a first call (no `SpeechResult`), the
   * recorded greeting in a `<Gather>` to /handle-response and a redirect back
   * to /voice; otherwise the speech goes to the speech log and the reply is
   * only a redirect to /handle-response. `caller` is the `From` parameter and
   * `ts` the formatted current time.
   */
  method Voice(log: TwilioUtils.LogFile, ts: string, caller: string, speechResult: Option<string>) returns (response: TwiML)
    modifies log
    ensures fresh(response) && response.head == ResponseHead
    ensures speechResult.None? ==> log.content == old(log.content)
    ensures speechResult.Some? ==>
      log.content == old(log.content) + log.Written(TwilioUtils.SpeechLogEntry(ts, speechResult.value, Some(caller)))
    ensures speechResult.None? ==> response.verbs == [
      Ambiance,
      Nested(GatherAttrs("speech dtmf", Some(3), Some("auto"), ResponsePath, None, Some(English), Some("phone_call"), None, false),
             [Play(S3GreetingUrl, None, None)]),
      Redirect(VoicePath)]
    ensures speechResult.Some? ==> response.verbs == [Ambiance, Redirect(ResponsePath)]
  {
    response := new TwiML.Response();
    response.Play(OfficeAmbianceUrl, Some(0), Some(10));
    if speechResult.None? {
      var gather := new TwiML.Gather(BasicGather("speech dtmf", Some(3), Some("auto"), ResponsePath).(language := Some(English)));
      gather.SetAttrs(gather.head.attrs.(speechModel := Some("phone_call")));
      gather.Play(S3GreetingUrl, None, None);
      assert response.verbs == [Ambiance];
      assert gather.head.attrs == GatherAttrs("speech dtmf", Some(3), Some("auto"), ResponsePath, None, Some(English), Some("phone_call"), None, false);
      assert gather.verbs == [Play(S3GreetingUrl, None, None)];
      response.Append(gather);
      response.Redirect(VoicePath);
    } else {
      var _ := TwilioUtils.LogSpeechInput(log, ts, speechResult.value, Some(caller));
      response.Redirect(ResponsePath);
    }
  }

  /** `handle_spanish_response()`: the lower-cased speech goes to the speech log first. */
  method HandleSpanishResponse(tts: ElevenLabs.TtsService, log: TwilioUtils.LogFile, ts: string, caller: string,
                               speech: string, now: int) returns (response: TwiML)
    requires tts.cache.Valid()
    modifies tts, tts.cache, log
    ensures log.content == old(log.content) + log.Written(TwilioUtils.SpeechLogEntry(ts, Text.Lower(speech), Some(caller)))
    ensures old(tts.cache.entries) <= tts.cache.entries && old(tts.posts) <= tts.posts
    ensures !tts.IsConfigured() ==> tts.cache.entries == old(tts.cache.entries) && tts.posts == old(tts.posts)
    ensures fresh(response) && response.head == ResponseHead && tts.cache.Valid()
    ensures Extends([Ambiance], response.verbs, SpanishPlan(speech), tts)
    // Every line with an audio URL before the call is played as audio, and every file played is cached.
    ensures PlaysResolved(response.verbs[1..], SpanishPlan(speech), tts, old(tts.cache.entries))
    ensures AudioCached(response.verbs[1..], SpanishPlan(speech), tts, tts.cache.entries)
  {
    response := new TwiML.Response();
    response.Play(OfficeAmbianceUrl, Some(0), Some(10));
    var _ := TwilioUtils.LogSpeechInput(log, ts, Text.Lower(speech), Some(caller));
    Perform(response, tts, SpanishPlan(speech), now);
  }

  /**
   * `handle_response()`: `slots` stands for what the availability check
   * returns when the booking branch runs. The lower-cased speech goes to the
   * speech log, and once more when the Spanish handler takes over.
   */
  method HandleResponse(tts: ElevenLabs.TtsService, log: TwilioUtils.LogFile, ts: string, caller: string,
                        speech: string, slots: seq<TwilioUtils.Slot>, now: int)
    returns (response: TwiML)
    requires tts.cache.Valid()
    modifies tts, tts.cache, log
    ensures var entry := log.Written(TwilioUtils.SpeechLogEntry(ts, Text.Lower(speech), Some(caller)));
      log.content == old(log.content) + entry + (if RouteOf(Text.Lower(speech)) == DelegateToSpanish then entry else "")
    ensures old(tts.cache.entries) <= tts.cache.entries && old(tts.posts) <= tts.posts
    ensures !tts.IsConfigured() ==> tts.cache.entries == old(tts.cache.entries) && tts.posts == old(tts.posts)
    ensures fresh(response) && response.head == ResponseHead && tts.cache.Valid()
    ensures Extends([Ambiance], response.verbs, ResponsePlan(speech, slots), tts)
    // Every line with an audio URL before the call is played as audio, and every file played is cached.
    ensures PlaysResolved(response.verbs[1..], ResponsePlan(speech, slots), tts, old(tts.cache.entries))
    ensures AudioCached(response.verbs[1..], ResponsePlan(speech, slots), tts, tts.cache.entries)
  {
    response := new TwiML.Response();
    response.Play(OfficeAmbianceUrl, Some(0), Some(10));
    var s := Text.Lower(speech);
    var _ := TwilioUtils.LogSpeechInput(log, ts, s, Some(caller));
    var language := DetectLanguage(s);
    if AsksForSpanish(s) {
      Perform(response, tts, SwitchToSpanishPlan, now);
      return;
    }
    if language == Spanish {
      Text.LowerIdempotent(speech);
      response := HandleSpanishResponse(tts, log, ts, caller, s, now);
      return;
    }
    RespondInEnglish(response, tts, IntentOf(s), slots, now);
  }

  /** The English branches of `handle_response`: booking and rescheduling go to their helpers. */
  method RespondInEnglish(response: TwiML, tts: ElevenLabs.TtsService, intent: Intent, slots: seq<TwilioUtils.Slot>, now: int)
    requires tts.cache.Valid()
    modifies response, tts, tts.cache
    ensures old(tts.cache.entries) <= tts.cache.entries && old(tts.posts) <= tts.posts
    ensures !tts.IsConfigured() ==> tts.cache.entries == old(tts.cache.entries) && tts.posts == old(tts.posts)
    ensures tts.cache.Valid() && response.head == old(response.head)
    ensures Extends(old(response.verbs), response.verbs, EnglishPlan(intent, slots), tts)
    // Every line with an audio URL before the call is played as audio, and every file played is cached.
    ensures PlaysResolved(response.verbs[|old(response.verbs)|..], EnglishPlan(intent, slots), tts, old(tts.cache.entries))
    ensures AudioCached(response.verbs[|old(response.verbs)|..], EnglishPlan(intent, slots), tts, tts.cache.entries)
  {
    match intent {
      case Booking =>
        var _ := TwilioUtils.HandleAppointmentBooking(response, tts, slots, now);
      case Reschedule =>
        var _ := TwilioUtils.HandleAppointmentRescheduling(response, tts, slots, now);
      case _ =>
        Perform(response, tts, EnglishPlan(intent, slots), now);
    }
  }

  /** `handle_transfer()`: no ambiance. */
  method HandleTransfer(tts: ElevenLabs.TtsService, speech: string, now: int) returns (response: TwiML)
    requires tts.cache.Valid()
    modifies tts, tts.cache
    ensures old(tts.cache.entries) <= tts.cache.entries && old(tts.posts) <= tts.posts
    ensures !tts.IsConfigured() ==> tts.cache.entries == old(tts.cache.entries) && tts.posts == old(tts.posts)
    ensures fresh(response) && response.head == ResponseHead && tts.cache.Valid()
    ensures Renders(response.verbs, TransferPlan(speech), tts)
    // Every line with an audio URL before the call is played as audio, and every file played is cached.
    ensures PlaysResolved(response.verbs, TransferPlan(speech), tts, old(tts.cache.entries))
    ensures AudioCached(response.verbs, TransferPlan(speech), tts, tts.cache.entries)
  {
    response := new TwiML.Response();
    Perform(response, tts, TransferPlan(speech), now);
  }

  /** `handle_spanish_transfer()`. */
  method HandleSpanishTransfer(tts: ElevenLabs.TtsService, speech: string, now: int) returns (response: TwiML)
    requires tts.cache.Valid()
    modifies tts, tts.cache
    ensures old(tts.cache.entries) <= tts.cache.entries && old(tts.posts) <= tts.posts
    ensures !tts.IsConfigured() ==> tts.cache.entries == old(tts.cache.entries) && tts.posts == old(tts.posts)
    ensures fresh(response) && response.head == ResponseHead && tts.cache.Valid()
    ensures Renders(response.verbs, SpanishTransferPlan(speech), tts)
    // Every line with an audio URL before the call is played as audio, and every file played is cached.
    ensures PlaysResolved(response.verbs, SpanishTransferPlan(speech), tts, old(tts.cache.entries))
    ensures AudioCached(response.verbs, SpanishTransferPlan(speech), tts, tts.cache.entries)
  {
    response := new TwiML.Response();
    Perform(response, tts, SpanishTransferPlan(speech), now);
  }

  /** `handle_spanish_appointment()`. */
  method HandleSpanishAppointment(tts: ElevenLabs.TtsService, speech: string, now: int) returns (response: TwiML)
    requires tts.cache.Valid()
    modifies tts, tts.cache
    ensures old(tts.cache.entries) <= tts.cache.entries && old(tts.posts) <= tts.posts
    ensures !tts.IsConfigured() ==> tts.cache.entries == old(tts.cache.entries) && tts.posts == old(tts.posts)
    ensures fresh(response) && response.head == ResponseHead && tts.cache.Valid()
    ensures Renders(response.verbs, SpanishAppointmentPlan(speech), tts)
    // Every line with an audio URL before the call is played as audio, and every file played is cached.
    ensures PlaysResolved(response.verbs, SpanishAppointmentPlan(speech), tts, old(tts.cache.entries))
    ensures AudioCached(response.verbs, SpanishAppointmentPlan(speech), tts, tts.cache.entries)
  {
    response := new TwiML.Response();
    Perform(response, tts, SpanishAppointmentPlan(speech), now);
  }
}

module AppRoutesProperties {
  import opened Twiml
  import Text
  import ElevenLabs
  import opened ResponseBuilder
  import TwilioUtils
  import opened AppRoutes

  /** An explicit request for Spanish is honoured before anything else, and hands the call to the Spanish handler in es-MX. */
  lemma SpanishRequestFirst(speech: string, slots: seq<TwilioUtils.Slot>)
    requires AsksForSpanish(Text.Lower(speech))
    ensures ResponsePlan(speech, slots) == SwitchToSpanishPlan
    ensures PromptActions(ResponsePlan(speech, slots)) == [SpanishResponsePath]
    ensures forall k :: 0 <= k < |ResponsePlan(speech, slots)| ==> ResponsePlan(speech, slots)[k].language == Spanish
  {
  }

  /** English intents are reached only for speech detected as English, whatever its letter case. */
  lemma EnglishOnlyIfDetectedEnglish(speech: string)
    requires RouteOf(Text.Lower(speech)).EnglishIntent?
    ensures LanguageOf(speech) == English && !AsksForSpanish(Text.Lower(speech))
  {
    LanguageOfIgnoresCase(speech);
  }

  /** Speech detected as Spanish gets exactly the Spanish handler's reply. */
  lemma DelegationIsSpanishHandler(speech: string, slots: seq<TwilioUtils.Slot>)
    requires !AsksForSpanish(Text.Lower(speech)) && LanguageOf(speech) == Spanish
    ensures ResponsePlan(speech, slots) == SpanishPlan(speech)
  {
    LanguageOfIgnoresCase(speech);
    Text.LowerIdempotent(speech);
  }

  /** Asking to "reschedule" lands in booking: the booking phrase "schedule" occurs in it and is tried first. */
  lemma RescheduleWordBooks(s: string)
    requires Text.Contains(s, "reschedule")
    requires
      && !Text.ContainsAny(s, HumanPhrases)
      && !Text.ContainsAny(s, PaymentPhrases)
      && !Text.ContainsAny(s, InsurancePhrases)
      && !Text.ContainsAny(s, WalkInPhrases)
    ensures IntentOf(s) == Booking
  {
    assert Text.OccursAt("reschedule", "schedule", 2);
    Text.ContainsTransitive(s, "reschedule", "schedule");
    Text.ContainsAnyOf(s, "schedule", AppointmentPhrases);
  }

  /** Speech holding a booking phrase never reaches the reschedule branch. */
  lemma BookingPhraseBlocksReschedule(s: string, phrase: string, word: string)
    requires Text.Contains(s, phrase) && Text.Contains(phrase, word) && word in AppointmentPhrases
    ensures Text.ContainsAny(s, AppointmentPhrases)
  {
    Text.ContainsTransitive(s, phrase, word);
    Text.ContainsAnyOf(s, word, AppointmentPhrases);
  }

  /** "reschedule" holds the booking phrase "schedule". */
  lemma RescheduleHoldsBooking()
    ensures Text.ContainsAny("reschedule", AppointmentPhrases)
  {
    assert "reschedule"[2..10] == AppointmentPhrases[1];
    PhraseHoldsBooking("reschedule", 1, 2);
  }

  /** "change appointment" holds the booking phrase "appointment". */
  lemma ChangeAppointmentHoldsBooking()
    ensures Text.ContainsAny("change appointment", AppointmentPhrases)
  {
    assert "change appointment"[7..18] == AppointmentPhrases[0];
    PhraseHoldsBooking("change appointment", 0, 7);
  }

  /** "move appointment" holds the booking phrase "appointment". */
  lemma MoveAppointmentHoldsBooking()
    ensures Text.ContainsAny("move appointment", AppointmentPhrases)
  {
    assert "move appointment"[5..16] == AppointmentPhrases[0];
    PhraseHoldsBooking("move appointment", 0, 5);
  }

  /** A text in which the booking phrase number `k` occurs at `i` holds a booking phrase. */
  lemma PhraseHoldsBooking(p: string, k: nat, i: nat)
    requires k < |AppointmentPhrases| && Text.OccursAt(p, AppointmentPhrases[k], i)
    ensures Text.ContainsAny(p, AppointmentPhrases)
  {
    Text.OccursAtContains(p, AppointmentPhrases[k], i);
    Text.ContainsAnyOf(p, AppointmentPhrases[k], AppointmentPhrases);
  }

  /** A reschedule phrase without any booking phrase is "different time" or "another time". */
  lemma ReschedulePhraseWithoutBooking(s: string)
    requires Text.ContainsAny(s, ReschedulePhrases) && !Text.ContainsAny(s, AppointmentPhrases)
    ensures Text.Contains(s, "different time") || Text.Contains(s, "another time")
  {
    var covered := ["reschedule", "change appointment", "move appointment"];
    assert ReschedulePhrases == covered + ["different time", "another time"];
    Text.ContainsAnySplit(s, covered, ["different time", "another time"]);
    if Text.ContainsAny(s, covered) {
      RescheduleHoldsBooking();
      ChangeAppointmentHoldsBooking();
      MoveAppointmentHoldsBooking();
      Text.ContainsAnyCovered(s, covered, AppointmentPhrases);
      assert false;
    }
  }

  /** The reschedule branch is reached only through "different time" or "another time". */
  lemma RescheduleOnlyForOtherTime(s: string)
    requires IntentOf(s) == Reschedule
    ensures Text.Contains(s, "different time") || Text.Contains(s, "another time")
  {
    ReschedulePhraseWithoutBooking(s);
  }

  /** Unrecognised English speech gets the fallback line and exactly one `<Gather>`, posting to /handle-transfer. */
  lemma UnrecognizedOffersTransfer(speech: string, slots: seq<TwilioUtils.Slot>, vs: seq<Verb>, tts: ElevenLabs.TtsService)
    requires RouteOf(Text.Lower(speech)) == EnglishIntent(Unrecognized)
    requires Extends([Ambiance], vs, ResponsePlan(speech, slots), tts)
    ensures GatherActions(vs) == [TransferPath]
    ensures Voiced(vs[1], tts, NotSureLine, English)
  {
    var plan := ResponsePlan(speech, slots);
    assert vs == [Ambiance] + vs[1..];
    RendersGatherActions(vs[1..], plan, tts);
    assert Rendered(vs[1..][0], plan[0], tts);
  }

  /** In the Spanish handler a request for English comes first and sends the caller back to /handle-response in en-US. */
  lemma EnglishRequestFirst(speech: string)
    requires AsksForEnglish(Text.Lower(speech))
    ensures SpanishPlan(speech) == SwitchToEnglishPlan
    ensures PromptActions(SpanishPlan(speech)) == [ResponsePath]
  {
  }

  /**
   * The Spanish reschedule branch is reached only through "otra hora" or
   * "otro día": "cambiar cita" and "mover cita" contain "cita", and
   * "reprogramar" contains "programar", all booking phrases tried first.
   */
  lemma SpanishRescheduleOnlyForOtherTime(s: string)
    requires IntentEsOf(s) == RescheduleEs
    ensures Text.Contains(s, "otra hora") || Text.Contains(s, "otro día")
  {
    ReschedulePhraseWithoutBookingEs(s);
  }

  /** A Spanish reschedule phrase without any Spanish booking phrase is "otra hora" or "otro día". */
  lemma ReschedulePhraseWithoutBookingEs(s: string)
    requires Text.ContainsAny(s, ReschedulePhrasesEs) && !Text.ContainsAny(s, AppointmentPhrasesEs)
    ensures Text.Contains(s, "otra hora") || Text.Contains(s, "otro día")
  {
    var covered := ["cambiar cita", "mover cita", "reprogramar"];
    assert ReschedulePhrasesEs == covered + ["otra hora", "otro día"];
    Text.ContainsAnySplit(s, covered, ["otra hora", "otro día"]);
    if Text.ContainsAny(s, covered) {
      CambiarCitaHoldsBooking();
      MoverCitaHoldsBooking();
      ReprogramarHoldsBooking();
      Text.ContainsAnyCovered(s, covered, AppointmentPhrasesEs);
      assert false;
    }
  }

  /** "cambiar cita" holds the Spanish booking phrase "cita". */
  lemma CambiarCitaHoldsBooking()
    ensures Text.ContainsAny("cambiar cita", AppointmentPhrasesEs)
  {
    assert "cambiar cita"[8..12] == AppointmentPhrasesEs[0];
    PhraseHoldsBookingEs("cambiar cita", 0, 8);
  }

  /** "mover cita" holds the Spanish booking phrase "cita". */
  lemma MoverCitaHoldsBooking()
    ensures Text.ContainsAny("mover cita", AppointmentPhrasesEs)
  {
    assert "mover cita"[6..10] == AppointmentPhrasesEs[0];
    PhraseHoldsBookingEs("mover cita", 0, 6);
  }

  /** "reprogramar" holds the Spanish booking phrase "programar". */
  lemma ReprogramarHoldsBooking()
    ensures Text.ContainsAny("reprogramar", AppointmentPhrasesEs)
  {
    assert "reprogramar"[2..11] == AppointmentPhrasesEs[2];
    PhraseHoldsBookingEs("reprogramar", 2, 2);
  }

  /** A text in which the Spanish booking phrase number `k` occurs at `i` holds a Spanish booking phrase. */
  lemma PhraseHoldsBookingEs(p: string, k: nat, i: nat)
    requires k < |AppointmentPhrasesEs| && Text.OccursAt(p, AppointmentPhrasesEs[k], i)
    ensures Text.ContainsAny(p, AppointmentPhrasesEs)
  {
    Text.OccursAtContains(p, AppointmentPhrasesEs[k], i);
    Text.ContainsAnyOf(p, AppointmentPhrasesEs[k], AppointmentPhrasesEs);
  }


  /** `handle_transfer` connects exactly on an affirmative word; otherwise it asks again, posting to /handle-response. */
  lemma TransferConnectsIffAffirmative(speech: string)
    ensures TransferPlan(speech) == [Speak(ConnectLine, English)] <==> Text.ContainsAny(Text.Lower(speech), Affirmatives)
    ensures PromptActions(TransferPlan(speech)) == (if Text.ContainsAny(Text.Lower(speech), Affirmatives) then [] else [ResponsePath])
  {
  }

  /** Affirmatives are plain substrings: "book" contains "ok", so a caller who says "book" is connected. */
  lemma BookIsAffirmative(speech: string)
    requires Text.Contains(Text.Lower(speech), "book")
    ensures TransferPlan(speech) == [Speak(ConnectLine, English)]
  {
    assert Text.OccursAt("book", "ok", 2);
    Text.ContainsTransitive(Text.Lower(speech), "book", "ok");
    Text.ContainsAnyOf(Text.Lower(speech), "ok", Affirmatives);
  }

  /**
   * `handle_spanish_transfer` connects exactly on a Spanish affirmative word;
   * otherwise it asks again in Spanish, posting to /handle-spanish-response.
   */
  lemma SpanishTransferConnectsIffAffirmative(speech: string)
    ensures SpanishTransferPlan(speech) == [Speak(ConnectLineEs, Spanish)] <==> Text.ContainsAny(Text.Lower(speech), AffirmativesEs)
    ensures PromptActions(SpanishTransferPlan(speech)) ==
      (if Text.ContainsAny(Text.Lower(speech), AffirmativesEs) then [] else [SpanishResponsePath])
    ensures forall i | 0 <= i < |SpanishTransferPlan(speech)| :: SpanishTransferPlan(speech)[i].language == Spanish
  {
  }

  /** Likewise in Spanish: "necesito" contains "si". */
  lemma NecesitoIsAffirmative(speech: string)
    requires Text.Contains(Text.Lower(speech), "necesito")
    ensures SpanishTransferPlan(speech) == [Speak(ConnectLineEs, Spanish)]
  {
    assert Text.OccursAt("necesito", "si", 4);
    Text.ContainsTransitive(Text.Lower(speech), "necesito", "si");
    Text.ContainsAnyOf(Text.Lower(speech), "si", AffirmativesEs);
  }

  /** Morning words win over "tarde"/"noche", and every Spanish appointment reply ends by connecting to scheduling. */
  lemma SpanishAppointmentShape(speech: string)
    ensures |SpanishAppointmentPlan(speech)| == 2
    ensures SpanishAppointmentPlan(speech)[1] == Speak(SchedulingConnectLineEs, Spanish)
    ensures Text.Contains(Text.Lower(speech), "temprano") ==> SpanishAppointmentPlan(speech)[0] == Speak(MorningLineEs, Spanish)
  {
    if Text.Contains(Text.Lower(speech), "temprano") {
      Text.ContainsAnyOf(Text.Lower(speech), "temprano", MorningWordsEs);
    }
  }
}
