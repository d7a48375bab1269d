/**
 * The call-handling helpers of the first bot (twilio_utils.py). Each helper
 * speaks in Polly's Joanna voice into the response it is given, may append a
 * `<Gather>`, and hands the same response back.
 */
module RootTwilioUtils {
  import opened Wrappers
  import opened Twiml
  import Text

  const Joanna := "Polly.Joanna"

  // Route paths, as `url_for` gives them.
  const ResponsePath := "/handle-response"
  const TransferPath := "/handle-transfer"

  const GreetingLine := "Thank you for calling Vanguard Chiropractic. How can I help you today?"
  const BookingLine := "I'd be happy to help you schedule an appointment. Our next available slots are tomorrow at 10 AM or Friday at 2 PM."
  const BookingPrompt := "Would either of those times work for you?"
  const RescheduleLine := "I understand you'd like to reschedule your appointment. To better assist you, I'll need to connect you with our scheduling team."
  const MissedCallLine := "I'm sorry we missed your call. Our team will call you back as soon as possible."
  const FallbackLine := "I'm not totally sure how to answer that, but I can connect you with someone if you'd like."
  const FallbackPrompt := "Would you like me to connect you with someone?"

  /** A `<Say>` in the Joanna voice. */
  function JoannaSays(text: string): Verb {
    Say(text, Some(Joanna), None)
  }

  /** The `<Gather>` the helpers open: speech or keys, 3 seconds, posting to `action`. */
  function PromptAttrs(action: string): GatherAttrs {
    GatherAttrs("speech dtmf", Some(3), Some("auto"), action, None, None, Some("phone_call"), None, false)
  }

  // ------------------------------------------------------------ FAQ

  /** The keys of `faq_responses`, in dictionary order. */
  const FaqKeys := ["hours", "location", "services", "insurance", "payment", "appointment", "walk_in"]

  /** The answers of `faq_responses`, key by key. */
  const FaqAnswers := [
    "Our hours are Monday through Friday from 9 AM to 6 PM, and Saturday from 10 AM to 2 PM.",
    "We're located at 123 Main Street, Suite 200, in downtown.",
    "We offer a full range of chiropractic services including adjustments, massage therapy, and rehabilitation.",
    "We accept most major insurance plans. Our staff can verify your benefits before your appointment.",
    "We accept all major credit cards, cash, and checks.",
    "We'd be happy to schedule an appointment for you. When would you like to come in?",
    "We do accept walk-ins based on availability, but we recommend scheduling an appointment to minimize wait time."
  ]

  /** The first key, from index `k` on, that occurs in `s`. */
  function FirstKeyFrom(s: string, k: nat): (r: Option<nat>)
    requires k <= |FaqKeys|
    ensures r.Some? ==> k <= r.value < |FaqKeys| && Text.Contains(s, FaqKeys[r.value])
    ensures r.Some? ==> forall j :: k <= j < r.value ==> !Text.Contains(s, FaqKeys[j])
    ensures r.None? ==> forall j :: k <= j < |FaqKeys| ==> !Text.Contains(s, FaqKeys[j])
    decreases |FaqKeys| - k
  {
    if k == |FaqKeys| then None
    else if Text.Contains(s, FaqKeys[k]) then Some(k)
    else FirstKeyFrom(s, k + 1)
  }

  /** The index of the key `handle_faq` answers for a question, if any. */
  function FaqMatch(question: string): (r: Option<nat>)
    ensures r.Some? ==> r.value < |FaqKeys| && Text.Contains(Text.Lower(question), FaqKeys[r.value])
    ensures r.Some? ==> forall j :: 0 <= j < r.value ==> !Text.Contains(Text.Lower(question), FaqKeys[j])
    ensures r.None? <==> !Text.ContainsAny(Text.Lower(question), FaqKeys)
  {
    FirstKeyFrom(Text.Lower(question), 0)
  }

  /** The first key found is the only index with the two properties of `FaqMatch`. */
  lemma FaqMatchUnique(question: string, k: nat)
    requires k < |FaqKeys| && Text.Contains(Text.Lower(question), FaqKeys[k])
    requires forall j :: 0 <= j < k ==> !Text.Contains(Text.Lower(question), FaqKeys[j])
    ensures FaqMatch(question) == Some(k)
  {
    Text.ContainsAnyOf(Text.Lower(question), FaqKeys[k], FaqKeys);
  }

  /** What `handle_fallback` appends. */
  const FallbackVerbs := [JoannaSays(FallbackLine), Nested(PromptAttrs(TransferPath), [JoannaSays(FallbackPrompt)])]

  /** What `handle_faq` appends for a question. */
  function FaqVerbs(question: string): seq<Verb> {
    match FaqMatch(question)
    case Some(k) => [JoannaSays(FaqAnswers[k])]
    case None => FallbackVerbs
  }

  /** A question holding a key gets that one answer; any other gets the fallback and one `<Gather>` to /handle-transfer. */
  lemma FaqShape(question: string)
    ensures Text.ContainsAny(Text.Lower(question), FaqKeys) ==> |FaqVerbs(question)| == 1 && GatherActions(FaqVerbs(question)) == []
    ensures !Text.ContainsAny(Text.Lower(question), FaqKeys) ==> FaqVerbs(question)[0] == JoannaSays(FallbackLine)
    ensures !Text.ContainsAny(Text.Lower(question), FaqKeys) ==> GatherActions(FaqVerbs(question)) == [TransferPath]
  {
    if !Text.ContainsAny(Text.Lower(question), FaqKeys) {
      assert FallbackVerbs[1..][1..] == [];
    }
  }

  /**
   * The 'walk_in' answer needs the literal underscore text: speech spelling
   * "walk in" or "walk-in" never gets it.
   */
  lemma WalkInNeedsUnderscore(question: string)
    requires FaqMatch(question) == Some(6)
    ensures '_' in Text.Lower(question)
  {
    var s := Text.Lower(question);
    assert Text.Contains(s, "walk_in");
    var i :| 0 <= i <= |s| - 7 && Text.OccursAt(s, "walk_in", i);
    assert s[i + 4] == "walk_in"[4];
  }

  /** Keys are tried in dictionary order: a question about insurance and payment is answered about insurance. */
  lemma InsuranceBeforePayment(question: string)
    requires !Text.ContainsAny(Text.Lower(question), FaqKeys[..3])
    requires Text.Contains(Text.Lower(question), "insurance")
    ensures FaqVerbs(question) == [JoannaSays(FaqAnswers[3])]
  {
    forall j | 0 <= j < 3 ensures !Text.Contains(Text.Lower(question), FaqKeys[j]) {
      if Text.Contains(Text.Lower(question), FaqKeys[j]) {
        Text.ContainsAnyOf(Text.Lower(question), FaqKeys[j], FaqKeys[..3]);
      }
    }
    FaqMatchUnique(question, 3);
  }

  // ------------------------------------------------------------ helpers

  /** `handle_greeting(response, caller_number)`: the caller's number is not used. */
  method HandleGreeting(response: TwiML, callerNumber: Option<string>) returns (r: TwiML)
    modifies response
    ensures r == response && response.head == old(response.head)
    ensures response.verbs == old(response.verbs) + [JoannaSays(GreetingLine)]
  {
    response.Say(GreetingLine, Some(Joanna), None);
    return response;
  }

  /** `handle_faq(response, question)`: tries the keys in order and answers the first one found in the question. */
  method HandleFaq(response: TwiML, question: string) returns (r: TwiML)
    modifies response
    ensures r == response && response.head == old(response.head)
    ensures response.verbs == old(response.verbs) + FaqVerbs(question)
  {
    var s := Text.Lower(question);
    var k := 0;
    while k < |FaqKeys|
      invariant 0 <= k <= |FaqKeys|
      invariant forall j :: 0 <= j < k ==> !Text.Contains(s, FaqKeys[j])
      invariant response.verbs == old(response.verbs) && response.head == old(response.head)
    {
      if Text.Contains(s, FaqKeys[k]) {
        FaqMatchUnique(question, k);
        response.Say(FaqAnswers[k], Some(Joanna), None);
        return response;
      }
      k := k + 1;
    }
    r := HandleFallback(response);
  }

  /** `handle_appointment_booking(response, speech_input)`: the fixed offer, then a `<Gather>` back to /handle-response. */
  method HandleAppointmentBooking(response: TwiML, speechInput: Option<string>) returns (r: TwiML)
    modifies response
    ensures r == response && response.head == old(response.head)
    ensures response.verbs == old(response.verbs) + BookingVerbs
  {
    response.Say(BookingLine, Some(Joanna), None);
    var gather := new TwiML.Gather(PromptAttrs(ResponsePath));
    gather.Say(BookingPrompt, Some(Joanna), None);
    assert gather.verbs == [JoannaSays(BookingPrompt)];
    response.Append(gather);
    assert response.verbs == old(response.verbs) + [JoannaSays(BookingLine)] + [BookingVerbs[1]];
    return response;
  }

  /** What `handle_appointment_booking` appends. */
  const BookingVerbs := [JoannaSays(BookingLine), Nested(PromptAttrs(ResponsePath), [JoannaSays(BookingPrompt)])]

  /** The booking offer is one line and one `<Gather>` posting to /handle-response. */
  lemma BookingShape()
    ensures GatherActions(BookingVerbs) == [ResponsePath] && BookingVerbs[0] == JoannaSays(BookingLine)
  {
    assert BookingVerbs[1..][1..] == [];
  }

  /** `handle_appointment_rescheduling(response, speech_input)`: one line, no transfer. */
  method HandleAppointmentRescheduling(response: TwiML, speechInput: Option<string>) returns (r: TwiML)
    modifies response
    ensures r == response && response.head == old(response.head)
    ensures response.verbs == old(response.verbs) + [JoannaSays(RescheduleLine)]
  {
    response.Say(RescheduleLine, Some(Joanna), None);
    return response;
  }

  /** `handle_missed_call(response, caller_number)`. */
  method HandleMissedCall(response: TwiML, callerNumber: Option<string>) returns (r: TwiML)
    modifies response
    ensures r == response && response.head == old(response.head)
    ensures response.verbs == old(response.verbs) + [JoannaSays(MissedCallLine)]
  {
    response.Say(MissedCallLine, Some(Joanna), None);
    return response;
  }

  /** `handle_fallback(response)`: the fallback line, then a `<Gather>` offering a transfer. */
  method HandleFallback(response: TwiML) returns (r: TwiML)
    modifies response
    ensures r == response && response.head == old(response.head)
    ensures response.verbs == old(response.verbs) + FallbackVerbs
  {
    response.Say(FallbackLine, Some(Joanna), None);
    var gather := new TwiML.Gather(PromptAttrs(TransferPath));
    gather.Say(FallbackPrompt, Some(Joanna), None);
    assert gather.verbs == [JoannaSays(FallbackPrompt)];
    response.Append(gather);
    assert response.verbs == old(response.verbs) + [JoannaSays(FallbackLine)] + [FallbackVerbs[1]];
    return response;
  }
}
