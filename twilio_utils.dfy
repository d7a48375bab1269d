/**
 * Call-handling helpers of the main bot (app/twilio_utils.py): the FAQ answer
 * chain, the offer of open appointment slots, rescheduling, and the entries
 * written to the speech and error logs.
 */
module TwilioUtils {
  import opened Wrappers
  import opened Twiml
  import Text
  import ElevenLabs
  import opened ResponseBuilder

  /** `ERROR_MESSAGES['appointment_error']` of config/config.py. */
  const AppointmentError := "I'm sorry, but I'm having trouble with the appointment system. Let me connect you with someone who can help."

  // ---------------------------------------------------------------- logs

  /**
   * A log file, appended to in place. `writable` is false when creating the
   * logs directory or opening the file for appending raises (a permission
   * refused, a full disk).
   */
  class LogFile {
    const writable: bool
    var content: string

    constructor (writable: bool)
      ensures this.writable == writable && content == ""
    {
      this.writable := writable;
      content := "";
    }

    /** What one logging call leaves appended: the whole entry, or nothing when the file cannot be written. */
    function Written(entry: string): string {
      if writable then entry else ""
    }

    method Append(entry: string)
      modifies this
      ensures content == old(content) + entry
    {
      content := content + entry;
    }
  }

  /** The `[caller] ` part of a speech log entry, present only for a truthy caller. */
  function CallerTag(caller: Option<string>): (tag: string)
    ensures tag == "" <==> !Truthy(caller)
  {
    if Truthy(caller) then "[" + caller.value + "] " else ""
  }

  /** The line `log_speech_input` writes: `[ts] `, then `[caller] ` for a truthy caller, then the text. */
  function SpeechLogEntry(ts: string, text: string, caller: Option<string>): (entry: string)
    ensures Text.StartsWith(entry, "[" + ts + "] ") && Text.EndsWith(entry, text + "\n")
    ensures Truthy(caller) ==> entry[|ts| + 3..] == "[" + caller.value + "] " + text + "\n"
    ensures !Truthy(caller) ==> entry[|ts| + 3..] == text + "\n"
  {
    "[" + ts + "] " + CallerTag(caller) + text + "\n"
  }

  /** The line `log_error` writes. */
  function ErrorLogEntry(ts: string, message: string): (entry: string)
    ensures Text.StartsWith(entry, "[" + ts + "] ERROR: ") && Text.EndsWith(entry, message + "\n")
    ensures |entry| == |ts| + |message| + 11
  {
    "[" + ts + "] ERROR: " + message + "\n"
  }

  /** `log_speech_input(speech_text, caller)`; `ts` is the formatted current time. */
  method LogSpeechInput(log: LogFile, ts: string, text: string, caller: Option<string>) returns (ok: bool)
    modifies log
    ensures ok == log.writable
    ensures ok ==> log.content == old(log.content) + SpeechLogEntry(ts, text, caller)
    ensures !ok ==> log.content == old(log.content)
  {
    if !log.writable {
      return false;
    }
    var entry := "[" + ts + "] ";
    if Truthy(caller) {
      entry := entry + ("[" + caller.value + "] ");
    }
    assert entry == "[" + ts + "] " + CallerTag(caller);
    entry := entry + text + "\n";
    log.Append(entry);
    return true;
  }

  /** `log_error(error_message)`. */
  method LogError(log: LogFile, ts: string, message: string) returns (ok: bool)
    modifies log
    ensures ok == log.writable
    ensures ok ==> log.content == old(log.content) + ErrorLogEntry(ts, message)
    ensures !ok ==> log.content == old(log.content)
  {
    if !log.writable {
      return false;
    }
    log.Append("[" + ts + "] ERROR: " + message + "\n");
    return true;
  }

  // ---------------------------------------------------------------- FAQ

  datatype FaqTopic = Hours | Location | InsuranceFaq | Cost | UnknownQuestion

  /** The branch of `handle_faq`'s chain a question takes: the first whose words occur. */
  function FaqTopicOf(q: string): (t: FaqTopic)
    ensures t == Hours <==> Text.Contains(q, "hours") || Text.Contains(q, "open")
    ensures t == Location <==>
      !(Text.Contains(q, "hours") || Text.Contains(q, "open"))
      && (Text.Contains(q, "location") || Text.Contains(q, "address") || Text.Contains(q, "where"))
    ensures t == InsuranceFaq <==>
      !Text.ContainsAny(q, ["hours", "open", "location", "address", "where"]) && Text.Contains(q, "insurance")
    ensures t == UnknownQuestion <==> !Text.ContainsAny(q, ["hours", "open", "location", "address", "where", "insurance", "cost", "price", "fee"])
  {
    if Text.Contains(q, "hours") || Text.Contains(q, "open") then Hours
    else if Text.Contains(q, "location") || Text.Contains(q, "address") || Text.Contains(q, "where") then Location
    else if Text.Contains(q, "insurance") then InsuranceFaq
    else if Text.Contains(q, "cost") || Text.Contains(q, "price") || Text.Contains(q, "fee") then Cost
    else UnknownQuestion
  }

  function FaqLine(t: FaqTopic): string {
    match t
    case Hours => "We're open Monday through Friday from 9 AM to 6 PM, and Saturdays from 9 AM to noon."
    case Location => "We're located at 123 Main Street, Suite 100, in downtown Austin."
    case InsuranceFaq => "We accept most major insurance plans. Our staff can verify your benefits before your appointment."
    case Cost => "The cost varies depending on your treatment plan and insurance coverage. We offer a free initial consultation to discuss your specific needs."
    case UnknownQuestion => "I'm not sure I have the answer to that. Would you like me to connect you with someone who can help?"
  }

  /** `handle_faq(response, question)`: one line spoken; true exactly when the question was recognised. */
  method HandleFaq(response: TwiML, tts: ElevenLabs.TtsService, question: string, now: int) returns (answered: bool)
    requires tts.cache.Valid()
    modifies response, tts, tts.cache
    ensures old(tts.cache.entries) <= tts.cache.entries && old(tts.posts) <= tts.posts
    ensures !tts.IsConfigured() ==> tts.cache.entries == old(tts.cache.entries) && tts.posts == old(tts.posts)
    ensures tts.cache.Valid() && response.head == old(response.head)
    ensures Extends(old(response.verbs), response.verbs, [Speak(FaqLine(FaqTopicOf(question)), English)], tts)
    // Every line with an audio URL before the call is played as audio, and every file played is cached.
    ensures PlaysResolved(response.verbs[|old(response.verbs)|..], [Speak(FaqLine(FaqTopicOf(question)), English)], tts, old(tts.cache.entries))
    ensures AudioCached(response.verbs[|old(response.verbs)|..], [Speak(FaqLine(FaqTopicOf(question)), English)], tts, tts.cache.entries)
    ensures answered <==> FaqTopicOf(question) != UnknownQuestion
  {
    var topic := FaqTopicOf(question);
    Perform(response, tts, [Speak(FaqLine(topic), English)], now);
    answered := topic != UnknownQuestion;
  }

  /** The hours branch is tried first: a question on opening hours of the new location is about hours. */
  lemma FaqHoursFirst(q: string)
    requires Text.Contains(q, "hours") && Text.Contains(q, "location") && Text.Contains(q, "insurance")
    ensures FaqTopicOf(q) == Hours
  {
  }

  // ---------------------------------------------------------------- booking

  /** An open slot as the availability check returns it; `None` when it has no 'formatted_time'. */
  datatype Slot = Slot(formattedTime: Option<string>)

  const SlotsIntro := "We have the following appointments available: "
  const SlotsQuestion := "Would any of these times work for you?"
  const NoSlotsLine := "I'm sorry, but I don't see any available appointments in the next few days. Let me connect you with our scheduling team."
  const BookingAction := "/handle-appointment"

  /** The slots `handle_appointment_booking` reads out: at most the first three. */
  function Offered(slots: seq<Slot>): (o: seq<Slot>)
    ensures |o| <= 3 && o <= slots
    ensures |slots| >= 3 ==> |o| == 3
  {
    if |slots| <= 3 then slots else slots[..3]
  }

  /** `formatted_time + ". "` for each slot, or `None` if one lacks its formatted time (a `KeyError`). */
  function SlotList(ss: seq<Slot>): (r: Option<string>)
    ensures r.Some? <==> forall i :: 0 <= i < |ss| ==> ss[i].formattedTime.Some?
  {
    if ss == [] then Some("")
    else if ss[|ss| - 1].formattedTime.None? then None
    else match SlotList(ss[..|ss| - 1])
      case None => None
      case Some(init) => Some(init + ss[|ss| - 1].formattedTime.value + ". ")
  }

  /** The spoken list names every offered time, each followed by ". ". */
  lemma {:induction false} SlotListNamesEach(ss: seq<Slot>, k: int)
    requires SlotList(ss).Some? && 0 <= k < |ss|
    ensures Text.Contains(SlotList(ss).value, ss[k].formattedTime.value + ". ")
  {
    var init := SlotList(ss[..|ss| - 1]);
    var last := ss[|ss| - 1].formattedTime.value + ". ";
    assert SlotList(ss).value == init.value + last;
    if k == |ss| - 1 {
      assert Text.OccursAt(init.value + last, last, |init.value|);
    } else {
      assert ss[..|ss| - 1][k] == ss[k];
      SlotListNamesEach(ss[..|ss| - 1], k);
      var i :| 0 <= i <= |init.value| - |ss[k].formattedTime.value + ". "| && Text.OccursAt(init.value, ss[k].formattedTime.value + ". ", i);
      assert (init.value + last)[i..i + |ss[k].formattedTime.value + ". "|] == init.value[i..i + |ss[k].formattedTime.value + ". "|];
      assert Text.OccursAt(init.value + last, ss[k].formattedTime.value + ". ", i);
    }
  }

  /** The prompt offering the slots, or `None` when building it raises. */
  function SlotsPrompt(slots: seq<Slot>): (r: Option<string>)
    ensures r.Some? ==> Text.StartsWith(r.value, SlotsIntro) && Text.EndsWith(r.value, SlotsQuestion)
  {
    match SlotList(Offered(slots))
    case None => None
    case Some(list) => Some(SlotsIntro + list + SlotsQuestion)
  }

  /** The prompt names each of the first three slots. */
  lemma SlotsPromptNamesOffered(slots: seq<Slot>, k: int)
    requires SlotsPrompt(slots).Some? && 0 <= k < |slots| && k < 3
    ensures Text.Contains(SlotsPrompt(slots).value, slots[k].formattedTime.value + ". ")
  {
    var o := Offered(slots);
    assert o[k] == slots[k];
    SlotListNamesEach(o, k);
    var list := SlotList(o).value;
    var w := slots[k].formattedTime.value + ". ";
    var i :| 0 <= i <= |list| - |w| && Text.OccursAt(list, w, i);
    var p := SlotsIntro + list + SlotsQuestion;
    assert p[|SlotsIntro| + i..|SlotsIntro| + i + |w|] == list[i..i + |w|];
    assert Text.OccursAt(p, w, |SlotsIntro| + i);
  }

  /** Slots after the third never change the prompt. */
  lemma SlotsPromptIgnoresRest(slots: seq<Slot>, more: seq<Slot>)
    requires |slots| >= 3
    ensures SlotsPrompt(slots + more) == SlotsPrompt(slots)
  {
    assert Offered(slots + more) == Offered(slots);
  }

  /**
   * The loop of `handle_appointment_booking` that builds `slots_text`, over
   * `available_slots[:3]`; `None` stands for the `KeyError` of a slot without
   * a formatted time.
   */
  method BuildSlotsText(slots: seq<Slot>) returns (text: Option<string>)
    ensures text == SlotsPrompt(slots)
  {
    var offered := if |slots| <= 3 then slots else slots[..3];
    var acc := SlotsIntro;
    var i := 0;
    while i < |offered|
      invariant 0 <= i <= |offered|
      invariant SlotList(offered[..i]).Some? && acc == SlotsIntro + SlotList(offered[..i]).value
    {
      if offered[i].formattedTime.None? {
        assert offered[..i + 1][i] == offered[i];
        assert SlotList(offered) == None by {
          assert !(forall j :: 0 <= j < |offered| ==> offered[j].formattedTime.Some?);
        }
        return None;
      }
      assert offered[..i + 1][..i] == offered[..i];
      acc := acc + offered[i].formattedTime.value + ". ";
      i := i + 1;
    }
    assert offered[..i] == offered;
    text := Some(acc + SlotsQuestion);
  }

  /** What `handle_appointment_booking` says for the given availability. */
  function BookingPlan(slots: seq<Slot>): seq<Step> {
    if |slots| == 0 then [Speak(NoSlotsLine, English)]
    else match SlotsPrompt(slots)
      case None => [Speak(AppointmentError, English)]
      case Some(prompt) => [Prompt(prompt, BookingAction, 5, English)]
  }

  /** What `handle_appointment_booking` returns. */
  predicate BookingOffered(slots: seq<Slot>) {
    |slots| > 0 && SlotsPrompt(slots).Some?
  }

  /**
   * The booking reply is one step; it offers slots in a `<Gather>` posting to
   * /handle-appointment with timeout 5 exactly when the result is true.
   */
  lemma BookingPlanShape(slots: seq<Slot>)
    ensures |BookingPlan(slots)| == 1
    ensures BookingPlan(slots)[0].Prompt? <==> BookingOffered(slots)
    ensures BookingOffered(slots) ==> BookingPlan(slots)[0] == Prompt(SlotsPrompt(slots).value, BookingAction, 5, English)
    ensures |slots| == 0 ==> BookingPlan(slots) == [Speak(NoSlotsLine, English)]
  {
  }

  /** `handle_appointment_booking(response, speech_result)`, `slots` standing for `check_availability()`. */
  method HandleAppointmentBooking(response: TwiML, tts: ElevenLabs.TtsService, slots: seq<Slot>, now: int)
    returns (offered: bool)
    requires tts.cache.Valid()
    modifies response, tts, tts.cache
    ensures old(tts.cache.entries) <= tts.cache.entries && old(tts.posts) <= tts.posts
    ensures !tts.IsConfigured() ==> tts.cache.entries == old(tts.cache.entries) && tts.posts == old(tts.posts)
    ensures tts.cache.Valid() && response.head == old(response.head)
    ensures Extends(old(response.verbs), response.verbs, BookingPlan(slots), tts)
    // Every line with an audio URL before the call is played as audio, and every file played is cached.
    ensures PlaysResolved(response.verbs[|old(response.verbs)|..], BookingPlan(slots), tts, old(tts.cache.entries))
    ensures AudioCached(response.verbs[|old(response.verbs)|..], BookingPlan(slots), tts, tts.cache.entries)
    ensures offered == BookingOffered(slots)
  {
    if |slots| == 0 {
      Perform(response, tts, [Speak(NoSlotsLine, English)], now);
      return false;
    }
    var text := BuildSlotsText(slots);
    if text.None? {
      Perform(response, tts, [Speak(AppointmentError, English)], now);
      return false;
    }
    Perform(response, tts, [Prompt(text.value, BookingAction, 5, English)], now);
    return true;
  }

  const RescheduleLine := "I'd be happy to help you reschedule. Let me check what times we have available."

  /** `handle_appointment_rescheduling`: the reschedule line, then exactly what booking does and returns. */
  method HandleAppointmentRescheduling(response: TwiML, tts: ElevenLabs.TtsService, slots: seq<Slot>, now: int)
    returns (offered: bool)
    requires tts.cache.Valid()
    modifies response, tts, tts.cache
    ensures old(tts.cache.entries) <= tts.cache.entries && old(tts.posts) <= tts.posts
    ensures !tts.IsConfigured() ==> tts.cache.entries == old(tts.cache.entries) && tts.posts == old(tts.posts)
    ensures tts.cache.Valid() && response.head == old(response.head)
    ensures Extends(old(response.verbs), response.verbs, [Speak(RescheduleLine, English)] + BookingPlan(slots), tts)
    // Every line with an audio URL before the call is played as audio, and every file played is cached.
    ensures PlaysResolved(response.verbs[|old(response.verbs)|..], [Speak(RescheduleLine, English)] + BookingPlan(slots), tts, old(tts.cache.entries))
    ensures AudioCached(response.verbs[|old(response.verbs)|..], [Speak(RescheduleLine, English)] + BookingPlan(slots), tts, tts.cache.entries)
    ensures offered == BookingOffered(slots)
  {
    Perform(response, tts, [Speak(RescheduleLine, English)], now);
    ghost var middle := response.verbs;
    ghost var cached := tts.cache.entries;
    offered := HandleAppointmentBooking(response, tts, slots, now);
    ExtendsTrans(old(response.verbs), middle, response.verbs, [Speak(RescheduleLine, English)], BookingPlan(slots), tts);
    assert response.verbs[|old(response.verbs)|..] == middle[|old(response.verbs)|..] + response.verbs[|middle|..];
    AudioAppend(middle[|old(response.verbs)|..], response.verbs[|middle|..], [Speak(RescheduleLine, English)], BookingPlan(slots),
                tts, old(tts.cache.entries), cached, tts.cache.entries);
  }
}
