/**
 * The webhook handlers of the first bot (routes.py). All lines are spoken by
 * Polly's Joanna voice. The intent chain of `handle_response` tests the
 * booking words "appointment" and "schedule" together with the walk-in
 * phrases, so its two later booking branches can never run.
 */
module RootRoutes {
  import opened Wrappers
  import opened Twiml
  import Text
  import opened RootTwilioUtils

  /** `GREETING_MESSAGE` of config/config.py. */
  const GreetingMessage := "Hello! Thank you for calling Vanguard Chiropractic. How can I help you today?"
  const VoicePath := "/voice"

  const ConnectLine := "I'll connect you with someone right away. Please hold."
  const PaymentLine := "Yes, we accept all major credit cards including Visa, Mastercard, American Express, and Discover."
  const InsuranceLine := "We work with most major insurance providers. Our staff can verify your benefits before your appointment."
  const WalkInLine := "We do accept walk-ins based on availability, but we recommend scheduling an appointment to minimize wait time."
  const AlrightLine := "Alright. Is there anything else I can help you with today?"

  // ------------------------------------------------------------ voice

  /** The greeting `<Gather>`, in en-US. */
  const GreetingAttrs := GatherAttrs("speech dtmf", Some(3), Some("auto"), ResponsePath, None, Some("en-US"), Some("phone_call"), None, true)

  /** What `voice()` answers: an empty `<Say>`, then, on a first call only, the greeting `<Gather>` and a redirect back. */
  function VoiceVerbs(speechResult: Option<string>): seq<Verb> {
    [JoannaSays("")]
      + (if speechResult.None? then [Nested(GreetingAttrs, [JoannaSays(GreetingMessage)]), Redirect(VoicePath)] else [])
  }

  /** With a `SpeechResult`, `voice()` answers only the empty `<Say>`: no `<Gather>`, no redirect. */
  lemma VoiceWithSpeechIsSilent(speech: string)
    ensures VoiceVerbs(Some(speech)) == [JoannaSays("")]
    ensures GatherActions(VoiceVerbs(Some(speech))) == []
  {
  }

  /** A first call gets one `<Gather>` posting to /handle-response and ends by redirecting to /voice. */
  lemma FirstCallGreets()
    ensures GatherActions(VoiceVerbs(None)) == [ResponsePath]
    ensures VoiceVerbs(None)[|VoiceVerbs(None)| - 1] == Redirect(VoicePath)
  {
    var vs := VoiceVerbs(None);
    assert vs[1..][1..][1..] == [];
    assert GatherActions(vs[1..][1..]) == [];
  }

  // ------------------------------------------------------------ handle_response

  const HumanPhrases := ["talk to someone", "speak to someone", "talk to a person", "human"]
  const PaymentPhrases := ["credit card", "payment", "pay with card", "accept card"]
  const InsurancePhrases := ["insurance", "covered by insurance", "my insurance"]
  /** The walk-in branch also takes the booking words. */
  const WalkInPhrases := ["walk in", "walk-in", "appointment", "schedule"]
  const ReschedulePhrases := ["reschedule", "change appointment"]

  datatype Intent = TalkToHuman | Payment | Insurance | WalkIn | Booking | Reschedule | Unrecognized

  /** The `if/elif` chain of `handle_response` on lower-cased speech. */
  function IntentOf(s: string): (i: Intent)
    ensures i == TalkToHuman <==> Text.ContainsAny(s, HumanPhrases)
    ensures i == Payment <==> !Text.ContainsAny(s, HumanPhrases) && Text.ContainsAny(s, PaymentPhrases)
    ensures i == Insurance <==>
      && !Text.ContainsAny(s, HumanPhrases)
      && !Text.ContainsAny(s, PaymentPhrases)
      && Text.ContainsAny(s, InsurancePhrases)
    ensures i == WalkIn <==>
      && !Text.ContainsAny(s, HumanPhrases)
      && !Text.ContainsAny(s, PaymentPhrases)
      && !Text.ContainsAny(s, InsurancePhrases)
      && Text.ContainsAny(s, WalkInPhrases)
    ensures i == Booking ==> Text.Contains(s, "appointment") && !Text.ContainsAny(s, WalkInPhrases)
    ensures i == Reschedule ==> Text.ContainsAny(s, ReschedulePhrases) && !Text.ContainsAny(s, WalkInPhrases)
    ensures i == Unrecognized ==>
      && !Text.ContainsAny(s, HumanPhrases)
      && !Text.ContainsAny(s, PaymentPhrases)
      && !Text.ContainsAny(s, InsurancePhrases)
      && !Text.ContainsAny(s, WalkInPhrases)
      && !Text.ContainsAny(s, ReschedulePhrases)
  {
    if Text.ContainsAny(s, HumanPhrases) then TalkToHuman
    else if Text.ContainsAny(s, PaymentPhrases) then Payment
    else if Text.ContainsAny(s, InsurancePhrases) then Insurance
    else if Text.ContainsAny(s, WalkInPhrases) then WalkIn
    else if Text.Contains(s, "appointment") then Booking
    else if Text.ContainsAny(s, ReschedulePhrases) then Reschedule
    else Unrecognized
  }

  /** The `'appointment' in speech_result` branch never runs: the walk-in test already holds "appointment". */
  lemma BookingUnreachable(s: string)
    ensures IntentOf(s) != Booking
  {
    if Text.Contains(s, "appointment") {
      Text.ContainsAnyOf(s, "appointment", WalkInPhrases);
    }
  }

  /**
   * The reschedule branch never runs either: "reschedule" holds "schedule"
   * and "change appointment" holds "appointment", both walk-in phrases.
   */
  lemma RescheduleUnreachable(s: string)
    ensures IntentOf(s) != Reschedule
  {
    if IntentOf(s) == Reschedule {
      assert Text.ContainsAny("reschedule", WalkInPhrases) by {
        assert Text.OccursAt("reschedule", "schedule", 2);
        Text.OccursAtContains("reschedule", "schedule", 2);
        Text.ContainsAnyOf("reschedule", "schedule", WalkInPhrases);
      }
      assert Text.ContainsAny("change appointment", WalkInPhrases) by {
        assert Text.OccursAt("change appointment", "appointment", 7);
        Text.OccursAtContains("change appointment", "appointment", 7);
        Text.ContainsAnyOf("change appointment", "appointment", WalkInPhrases);
      }
      Text.ContainsAnyCovered(s, ReschedulePhrases, WalkInPhrases);
      assert false;
    }
  }

  /** What `handle_response` answers for the raw speech. */
  function ResponseVerbs(speech: string): (vs: seq<Verb>) {
    var s := Text.Lower(speech);
    match IntentOf(s)
    case TalkToHuman => [JoannaSays(ConnectLine)]
    case Payment => [JoannaSays(PaymentLine)]
    case Insurance => [JoannaSays(InsuranceLine)]
    case WalkIn => [JoannaSays(WalkInLine)]
    case Booking => BookingUnreachable(s); assert false; []
    case Reschedule => RescheduleUnreachable(s); assert false; []
    case Unrecognized => FallbackVerbs
  }

  /** Asking to book, schedule or reschedule gets the walk-in line, unless an earlier branch caught it. */
  lemma BookingWordsGetWalkInLine(speech: string)
    requires
      && !Text.ContainsAny(Text.Lower(speech), HumanPhrases)
      && !Text.ContainsAny(Text.Lower(speech), PaymentPhrases)
      && !Text.ContainsAny(Text.Lower(speech), InsurancePhrases)
    requires Text.Contains(Text.Lower(speech), "appointment") || Text.Contains(Text.Lower(speech), "reschedule")
    ensures ResponseVerbs(speech) == [JoannaSays(WalkInLine)]
  {
    var s := Text.Lower(speech);
    if Text.Contains(s, "appointment") {
      Text.ContainsAnyOf(s, "appointment", WalkInPhrases);
    } else {
      assert Text.OccursAt("reschedule", "schedule", 2);
      Text.OccursAtContains("reschedule", "schedule", 2);
      Text.ContainsTransitive(s, "reschedule", "schedule");
      Text.ContainsAnyOf(s, "schedule", WalkInPhrases);
    }
  }

  /** Unrecognised speech gets the fallback line and exactly one `<Gather>`, posting to /handle-transfer. */
  lemma UnrecognizedOffersTransfer(speech: string)
    requires IntentOf(Text.Lower(speech)) == Unrecognized
    ensures ResponseVerbs(speech)[0] == JoannaSays(FallbackLine)
    ensures GatherActions(ResponseVerbs(speech)) == [TransferPath]
  {
    assert FallbackVerbs[1..][1..] == [];
  }

  // ------------------------------------------------------------ handle_transfer

  const TransferWords := ["yes", "yeah", "sure", "please"]

  /** What `handle_transfer` answers for the raw speech and keyed digits (`""` when none). */
  function TransferVerbs(speech: string, digits: string): seq<Verb> {
    if Text.ContainsAny(Text.Lower(speech), TransferWords) || digits == "1" then [JoannaSays(ConnectLine)]
    else [JoannaSays(AlrightLine), Redirect(VoicePath)]
  }

  /** `handle_transfer` connects exactly on a transfer word or the key 1; otherwise it redirects to /voice. */
  lemma TransferConnectsIff(speech: string, digits: string)
    ensures TransferVerbs(speech, digits) == [JoannaSays(ConnectLine)] <==>
      Text.ContainsAny(Text.Lower(speech), TransferWords) || digits == "1"
    ensures TransferVerbs(speech, digits) != [JoannaSays(ConnectLine)] ==> TransferVerbs(speech, digits)[1] == Redirect(VoicePath)
  {
  }

  // ------------------------------------------------------------ handlers

  /** `voice()`; `speechResult` is the `SpeechResult` parameter, if the request has one. */
  method Voice(speechResult: Option<string>) returns (response: TwiML)
    ensures fresh(response) && response.head == ResponseHead
    ensures response.verbs == VoiceVerbs(speechResult)
  {
    response := new TwiML.Response();
    response.Say("", Some(Joanna), None);
    if speechResult.None? {
      var gather := new TwiML.Gather(GreetingAttrs);
      gather.Say(GreetingMessage, Some(Joanna), None);
      assert gather.verbs == [JoannaSays(GreetingMessage)];
      response.Append(gather);
      response.Redirect(VoicePath);
      assert response.verbs == [JoannaSays("")] + [VoiceVerbs(None)[1], Redirect(VoicePath)];
    }
  }

  /** `handle_response()`: the chain, tested in the source's order. */
  method HandleResponse(speech: string) returns (response: TwiML)
    ensures fresh(response) && response.head == ResponseHead
    ensures response.verbs == ResponseVerbs(speech)
  {
    response := new TwiML.Response();
    var s := Text.Lower(speech);
    if Text.ContainsAny(s, HumanPhrases) {
      response.Say(ConnectLine, Some(Joanna), None);
    } else if Text.ContainsAny(s, PaymentPhrases) {
      response.Say(PaymentLine, Some(Joanna), None);
    } else if Text.ContainsAny(s, InsurancePhrases) {
      response.Say(InsuranceLine, Some(Joanna), None);
    } else if Text.ContainsAny(s, WalkInPhrases) {
      response.Say(WalkInLine, Some(Joanna), None);
    } else if Text.Contains(s, "appointment") {
      BookingUnreachable(s);
      assert false;
    } else if Text.ContainsAny(s, ReschedulePhrases) {
      RescheduleUnreachable(s);
      assert false;
    } else {
      response.Say(FallbackLine, Some(Joanna), None);
      var gather := new TwiML.Gather(PromptAttrs(TransferPath));
      gather.Say(FallbackPrompt, Some(Joanna), None);
      assert gather.verbs == [JoannaSays(FallbackPrompt)];
      response.Append(gather);
      assert response.verbs == [JoannaSays(FallbackLine)] + [FallbackVerbs[1]];
    }
  }

  /** `handle_transfer()`. */
  method HandleTransfer(speech: string, digits: string) returns (response: TwiML)
    ensures fresh(response) && response.head == ResponseHead
    ensures response.verbs == TransferVerbs(speech, digits)
  {
    response := new TwiML.Response();
    var s := Text.Lower(speech);
    if Text.ContainsAny(s, TransferWords) || digits == "1" {
      response.Say(ConnectLine, Some(Joanna), None);
    } else {
      response.Say(AlrightLine, Some(Joanna), None);
      response.Redirect(VoicePath);
    }
  }
}
