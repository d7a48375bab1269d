/**
 * The single-file Flask bot of app.py: booking requests to GoHighLevel, the
 * OpenAI conversation history, speech played from temporary audio files, the
 * keyword replies used when OpenAI is not configured, and the catch-all route.
 * OpenAI, ElevenLabs, GoHighLevel, datetime parsing and base64 are opaque: they
 * are constant function fields or parameters.
 */
module App {
  import opened Wrappers
  import opened Twiml
  import Text
  import Files
  import ElevenLabs
  import ResponseBuilder

  const BusinessName := "Vanguard Chiropractic"
  const BusinessLocation := "123 Main Street, Suite 456, in downtown Austin"
  const BusinessPhone := "(830) 429-4111"
  const Central := "America/Chicago"

  // ------------------------------------------------------------ booking (book_appointment_internal)

  /** The fields a booking request must carry, in the order they are checked. */
  const RequiredFields: seq<string> := ["name", "phone", "email", "selectedSlot"]

  const GhlConfigError := "GoHighLevel API configuration incomplete"
  const ContactError := "Failed to create contact"
  const ContactIdError := "Failed to get contact ID"
  const AppointmentError := "Failed to book appointment"

  function MissingFieldError(field: string): (e: string)
    ensures Text.StartsWith(e, "Missing '") && Text.EndsWith(e, "' field")
    ensures |e| == |field| + 16
    ensures e[|"Missing '"|..|e| - |"' field"|] == field
  {
    "Missing '" + field + "' field"
  }

  /** What a booking gives back: the success dictionary, or `{"error": …, "details": …}`. */
  datatype BookResult =
    | Booked(scheduledTime: string, appointment: string)
    | Failed(error: string, details: Option<string>)

  /** The first of `fields` that `data` lacks. */
  function FirstMissing(data: map<string, string>, fields: seq<string>): (r: Option<string>)
    ensures r.None? <==> forall k :: 0 <= k < |fields| ==> fields[k] in data
    ensures r.Some? ==> exists k :: (0 <= k < |fields| && fields[k] == r.value && r.value !in data
      && forall j :: 0 <= j < k ==> fields[j] in data)
  {
    if fields == [] then None
    else if fields[0] !in data then Some(fields[0])
    else
      var r := FirstMissing(data, fields[1..]);
      if r.Some? then
        var k :| 1 <= k + 1 <= |fields| && 0 <= k < |fields[1..]| && fields[1..][k] == r.value
          && forall j :: 0 <= j < k ==> fields[1..][j] in data;
        assert fields[k + 1] == r.value;
        r
      else r
  }

  /** `data` carries every required field. */
  predicate HasRequired(data: map<string, string>) {
    "name" in data && "phone" in data && "email" in data && "selectedSlot" in data
  }

  /** Validation finds nothing missing exactly when every required field is present. */
  lemma NothingMissing(data: map<string, string>)
    ensures FirstMissing(data, RequiredFields).None? <==> HasRequired(data)
  {
    if HasRequired(data) {
      forall k | 0 <= k < |RequiredFields| ensures RequiredFields[k] in data {
      }
    } else if "name" !in data {
      assert RequiredFields[0] !in data;
    } else if "phone" !in data {
      assert RequiredFields[1] !in data;
    } else if "email" !in data {
      assert RequiredFields[2] !in data;
    } else {
      assert RequiredFields[3] !in data;
    }
  }

  /** `data['name'].split(' ')[0]`. */
  function FirstName(name: string): string {
    Text.Split(name, ' ')[0]
  }

  /** `" ".join(name.split(' ')[1:])` when the name has more than one part, else `""`. */
  function LastName(name: string): string {
    var parts := Text.Split(name, ' ');
    if |parts| > 1 then Text.Join(parts[1..], " ") else ""
  }

  /** A name with a space is split at its first space: the two halves, joined by a space, give it back. */
  lemma NameSplitRoundTrip(name: string)
    requires ' ' in name
    ensures FirstName(name) + " " + LastName(name) == name
    ensures ' ' !in FirstName(name)
  {
    var parts := Text.Split(name, ' ');
    Text.SplitCount(name, ' ');
    Text.JoinSplit(name, ' ');
    Text.SplitPartsLackSeparator(name, ' ');
    assert Text.Join(parts, " ") == parts[0] + " " + Text.Join(parts[1..], " ");
  }

  /** A name without a space is all first name. */
  lemma SingleWordName(name: string)
    requires ' ' !in name
    ensures FirstName(name) == name && LastName(name) == ""
  {
    Text.SplitCount(name, ' ');
    Text.JoinSplit(name, ' ');
  }

  /** Both cases of the name split. */
  lemma NameSplit(name: string)
    ensures ' ' in name ==> FirstName(name) + " " + LastName(name) == name
    ensures ' ' !in name ==> FirstName(name) == name && LastName(name) == ""
  {
    if ' ' in name {
      NameSplitRoundTrip(name);
    } else {
      SingleWordName(name);
    }
  }

  /** `contact_data.get('id') or contact_data.get('contact', {}).get('id')`, when that is truthy. */
  function ContactId(id: Option<string>, nestedId: Option<string>): (r: Option<string>)
    ensures r.Some? ==> r.value != ""
    ensures r.Some? <==> ResponseBuilder.Truthy(id) || ResponseBuilder.Truthy(nestedId)
    ensures ResponseBuilder.Truthy(id) ==> r == id
  {
    if ResponseBuilder.Truthy(id) then id
    else if ResponseBuilder.Truthy(nestedId) then nestedId
    else None
  }

  /** The result of `datetime.fromisoformat` localised to Central time and printed with `isoformat()`. */
  datatype ParsedSlot = Iso(text: string) | ParseError(message: string)

  datatype ContactPayload = ContactPayload(email: string, phone: string, firstName: string, lastName: string,
                                           locationId: string)

  datatype CalendarPayload = CalendarPayload(calendarId: string, contactId: string, startTime: string,
                                             title: string, description: string, locationId: string,
                                             timezone: string, selectedTimezone: string, selectedSlot: string)

  /** A reply of the contacts endpoint: its status, its text, and the `id` and `contact.id` of its JSON body. */
  datatype ContactReply = ContactReply(status: int, text: string, id: Option<string>, nestedId: Option<string>)

  datatype HttpReply = HttpReply(status: int, text: string)

  datatype Post = ContactPost(contact: ContactPayload) | CalendarPost(calendar: CalendarPayload)

  predicate Accepted(status: int) {
    status == 200 || status == 201
  }

  /** The contact sent for a request that has passed validation. */
  function ContactFor(data: map<string, string>, locationId: string): (p: ContactPayload)
    requires HasRequired(data)
    ensures p.email == data["email"] && p.phone == data["phone"] && p.locationId == locationId
    ensures ' ' in data["name"] ==> p.firstName + " " + p.lastName == data["name"]
    ensures ' ' !in data["name"] ==> p.firstName == data["name"] && p.lastName == ""
  {
    var name := data["name"];
    NameSplit(name);
    ContactPayload(data["email"], data["phone"], FirstName(name), LastName(name), locationId)
  }

  /** The appointment sent for contact `contactId` at `startTime`. */
  function CalendarFor(data: map<string, string>, calendarId: string, locationId: string,
                       contactId: string, startTime: string): (p: CalendarPayload)
    requires HasRequired(data)
    ensures p.contactId == contactId && p.startTime == startTime && p.selectedSlot == data["selectedSlot"]
    ensures p.timezone == Central && p.selectedTimezone == Central && p.calendarId == calendarId
  {
    CalendarPayload(calendarId, contactId, startTime, "Appointment with " + data["name"],
                    "Appointment booked via Vanguard Voice Bot", locationId, Central, Central,
                    data["selectedSlot"])
  }

  /** A request body, which the booking updates in place. */
  class JsonBody {
    var fields: map<string, string>

    constructor (fields: map<string, string>)
      ensures this.fields == fields
    {
      this.fields := fields;
    }
  }

  /** The GoHighLevel account and the requests posted to it. */
  class GoHighLevel {
    const apiKey: string
    const locationId: string
    const calendarId: string
    const contacts: ContactPayload -> ContactReply
    const appointments: CalendarPayload -> HttpReply
    var posts: seq<Post>

    constructor (apiKey: string, locationId: string, calendarId: string,
                 contacts: ContactPayload -> ContactReply, appointments: CalendarPayload -> HttpReply)
      ensures this.apiKey == apiKey && this.locationId == locationId && this.calendarId == calendarId
      ensures this.contacts == contacts && this.appointments == appointments && posts == []
    {
      this.apiKey := apiKey;
      this.locationId := locationId;
      this.calendarId := calendarId;
      this.contacts := contacts;
      this.appointments := appointments;
      posts := [];
    }

    /** `all([GHL_API_KEY, GHL_LOCATION_ID, GHL_CALENDAR_ID])`. */
    predicate Configured() {
      apiKey != "" && locationId != "" && calendarId != ""
    }

    method PostContact(p: ContactPayload) returns (r: ContactReply)
      modifies this
      ensures r == contacts(p) && posts == old(posts) + [ContactPost(p)]
    {
      posts := posts + [ContactPost(p)];
      r := contacts(p);
    }

    method PostAppointment(p: CalendarPayload) returns (r: HttpReply)
      modifies this
      ensures r == appointments(p) && posts == old(posts) + [CalendarPost(p)]
    {
      posts := posts + [CalendarPost(p)];
      r := appointments(p);
    }
  }

  /** True when a request passes validation, configuration and slot parsing and reaches the contacts endpoint. */
  predicate Reaches(data: map<string, string>, ghl: GoHighLevel, parseSlot: string -> ParsedSlot) {
    HasRequired(data) && ghl.Configured() && parseSlot(data["selectedSlot"]).Iso?
  }

  /** True when a request reaching the endpoints gets a contact with a usable id and an accepted appointment. */
  predicate Books(data: map<string, string>, ghl: GoHighLevel, parseSlot: string -> ParsedSlot) {
    && Reaches(data, ghl, parseSlot)
    && var reply := ghl.contacts(ContactFor(data, ghl.locationId));
       var id := ContactId(reply.id, reply.nestedId);
       && Accepted(reply.status) && id.Some?
       && Accepted(ghl.appointments(CalendarFor(data, ghl.calendarId, ghl.locationId, id.value,
                                                parseSlot(data["selectedSlot"]).text)).status)
  }

  /**
   * `book_appointment_internal(data)`. Validation stops at the first missing
   * field with no request sent; a booking succeeds only when the contact is
   * created with a usable id and the appointment is accepted.
   */
  method BookInternal(data: JsonBody, ghl: GoHighLevel, parseSlot: string -> ParsedSlot) returns (r: BookResult)
    modifies data, ghl
    ensures FirstMissing(old(data.fields), RequiredFields).Some? ==>
      r == Failed(MissingFieldError(FirstMissing(old(data.fields), RequiredFields).value), None)
    ensures HasRequired(old(data.fields)) && !ghl.Configured() ==>
      r == Failed(GhlConfigError, None)
    ensures (HasRequired(old(data.fields)) && ghl.Configured()
             && parseSlot(old(data.fields)["selectedSlot"]).ParseError?) ==>
      r == Failed("Invalid datetime format: " + parseSlot(old(data.fields)["selectedSlot"]).message, None)
    ensures !Reaches(old(data.fields), ghl, parseSlot) ==> data.fields == old(data.fields) && ghl.posts == old(ghl.posts)
    ensures Reaches(old(data.fields), ghl, parseSlot) ==>
      && data.fields == (if "selectedTimezone" in old(data.fields) then old(data.fields)
                         else old(data.fields)["selectedTimezone" := Central])
    // Reaching the endpoints: the contact is posted, and the appointment only for an accepted contact with an id.
    ensures Reaches(old(data.fields), ghl, parseSlot) ==>
      var reply := ghl.contacts(ContactFor(old(data.fields), ghl.locationId));
      var id := ContactId(reply.id, reply.nestedId);
      ghl.posts == old(ghl.posts) + [ContactPost(ContactFor(old(data.fields), ghl.locationId))]
        + (if Accepted(reply.status) && id.Some?
           then [CalendarPost(CalendarFor(old(data.fields), ghl.calendarId, ghl.locationId, id.value,
                                          parseSlot(old(data.fields)["selectedSlot"]).text))]
           else [])
    // The three upstream failures, each with the reply text where the source returns it as details.
    ensures Reaches(old(data.fields), ghl, parseSlot) ==>
      var reply := ghl.contacts(ContactFor(old(data.fields), ghl.locationId));
      var id := ContactId(reply.id, reply.nestedId);
      && (!Accepted(reply.status) ==> r == Failed(ContactError, Some(reply.text)))
      && (Accepted(reply.status) && id.None? ==> r == Failed(ContactIdError, None))
      && (Accepted(reply.status) && id.Some? ==>
            var booking := ghl.appointments(CalendarFor(old(data.fields), ghl.calendarId, ghl.locationId, id.value,
                                                        parseSlot(old(data.fields)["selectedSlot"]).text));
            r == (if Accepted(booking.status) then Booked(parseSlot(old(data.fields)["selectedSlot"]).text, booking.text)
                  else Failed(AppointmentError, Some(booking.text))))
    ensures r.Booked? ==> (Reaches(old(data.fields), ghl, parseSlot)
      && r.scheduledTime == parseSlot(old(data.fields)["selectedSlot"]).text)
    ensures r.Booked? <==> Books(old(data.fields), ghl, parseSlot)
  {
    var missing := FirstMissing(data.fields, RequiredFields);
    NothingMissing(data.fields);
    if missing.Some? {
      return Failed(MissingFieldError(missing.value), None);
    }
    if !ghl.Configured() {
      return Failed(GhlConfigError, None);
    }
    var parsed := parseSlot(data.fields["selectedSlot"]);
    if parsed.ParseError? {
      return Failed("Invalid datetime format: " + parsed.message, None);
    }
    var request := data.fields;
    if "selectedTimezone" !in data.fields {
      data.fields := data.fields["selectedTimezone" := Central];
    }
    var contact := ghl.PostContact(ContactFor(request, ghl.locationId));
    if !Accepted(contact.status) {
      return Failed(ContactError, Some(contact.text));
    }
    var id := ContactId(contact.id, contact.nestedId);
    if id.None? {
      return Failed(ContactIdError, None);
    }
    var booking := ghl.PostAppointment(CalendarFor(request, ghl.calendarId, ghl.locationId, id.value, parsed.text));
    if Accepted(booking.status) {
      return Booked(parsed.text, booking.text);
    }
    return Failed(AppointmentError, Some(booking.text));
  }

  /** The status `/book` answers a booking result with. */
  function BookStatus(r: BookResult): (code: int)
    ensures code == 200 <==> r.Booked?
    ensures code == 400 <==> r.Failed? && Text.Contains(r.error, "Invalid")
    ensures code == 500 <==> r.Failed? && !Text.Contains(r.error, "Invalid")
  {
    if r.Booked? then 200
    else if Text.Contains(r.error, "Invalid") then 400
    else 500
  }

  /** A missing field is a server error: its message does not say "Invalid". */
  lemma MissingFieldIs500(field: string)
    requires field in RequiredFields
    ensures BookStatus(Failed(MissingFieldError(field), None)) == 500
  {
    if Text.Contains(MissingFieldError(field), "Invalid") {
      Text.ContainsFirstChar(MissingFieldError(field), "Invalid");
      assert false;
    }
  }

  /** An unparsable slot is a client error. */
  lemma BadSlotIs400(message: string)
    ensures BookStatus(Failed("Invalid datetime format: " + message, None)) == 400
  {
    assert Text.OccursAt("Invalid datetime format: " + message, "Invalid", 0);
  }

  /** Incomplete GoHighLevel settings are a server error. */
  lemma UnconfiguredIs500()
    ensures BookStatus(Failed(GhlConfigError, None)) == 500
  {
    if Text.Contains(GhlConfigError, "Invalid") {
      Text.ContainsChar(GhlConfigError, "Invalid", 6);
      assert false;
    }
  }

  /** The upstream failures after the contact post are server errors: none of their messages says "Invalid". */
  lemma UpstreamFailuresAre500(details: Option<string>)
    ensures BookStatus(Failed(ContactError, details)) == 500
    ensures BookStatus(Failed(ContactIdError, details)) == 500
    ensures BookStatus(Failed(AppointmentError, details)) == 500
  {
    if Text.Contains(ContactError, "Invalid") {
      Text.ContainsChar(ContactError, "Invalid", 2);
      assert false;
    }
    if Text.Contains(ContactIdError, "Invalid") {
      Text.ContainsChar(ContactIdError, "Invalid", 2);
      assert false;
    }
    if Text.Contains(AppointmentError, "Invalid") {
      Text.ContainsChar(AppointmentError, "Invalid", 2);
      assert false;
    }
  }

  // ------------------------------------------------------------ what is still missing (twilio_collect_info)

  /** How `twilio_collect_info` names each required field to the caller, in the same order. */
  const FieldLabels: seq<string> := ["name", "phone number", "email address", "preferred appointment time"]

  /** `appointment_info.get(field)` is truthy: the extraction produced a dictionary holding a non-empty value. */
  predicate Provided(info: Option<map<string, string>>, field: string) {
    info.Some? && field in info.value && info.value[field] != ""
  }

  /** `appointment_info and all(appointment_info.get(field) for field in [...])`: booking is attempted. */
  predicate Bookable(info: Option<map<string, string>>) {
    forall k :: 0 <= k < |RequiredFields| ==> Provided(info, RequiredFields[k])
  }

  /** `missing_fields`: the label of every field not provided, in the order of `FieldLabels`. */
  function MissingFields(info: Option<map<string, string>>): (labels: seq<string>)
    ensures forall k :: 0 <= k < |FieldLabels| ==> (FieldLabels[k] in labels <==> !Provided(info, RequiredFields[k]))
    ensures forall i, j :: 0 <= i < j < |labels| ==> LabelRank(labels[i]) < LabelRank(labels[j])
  {
    (if !Provided(info, "name") then ["name"] else [])
    + (if !Provided(info, "phone") then ["phone number"] else [])
    + (if !Provided(info, "email") then ["email address"] else [])
    + (if !Provided(info, "selectedSlot") then ["preferred appointment time"] else [])
  }

  /** The position of a label in `FieldLabels`. */
  function LabelRank(field: string): nat {
    if field == "name" then 0
    else if field == "phone number" then 1
    else if field == "email address" then 2
    else 3
  }

  /** Nothing is reported missing exactly when booking is attempted instead. */
  lemma NothingMissingIffBookable(info: Option<map<string, string>>)
    ensures MissingFields(info) == [] <==> Bookable(info)
  {
    if MissingFields(info) == [] {
      forall k | 0 <= k < |RequiredFields| ensures Provided(info, RequiredFields[k]) {
        assert FieldLabels[k] !in MissingFields(info);
      }
    }
    if Bookable(info) {
      assert Provided(info, RequiredFields[0]) && Provided(info, RequiredFields[1]);
      assert Provided(info, RequiredFields[2]) && Provided(info, RequiredFields[3]);
    }
  }

  /** When nothing could be extracted, all four fields are asked for, in order. */
  lemma NothingExtractedMissesAll()
    ensures MissingFields(None) == FieldLabels
  {
  }

  // ------------------------------------------------------------ conversation history (generate_openai_response)

  datatype Message = Message(role: string, content: string)

  const KnowledgeBaseApology :=
    "I'm sorry, but I'm having trouble accessing my knowledge base right now. Please try again later."

  /** The system message's text for the business's name, address and telephone number. */
  function SystemPrompt(name: string, location: string, phone: string): string {
    PromptIntro + name + PromptJob + name + PromptLocation + location + PromptPhone + phone + PromptHours
  }

  // The fixed pieces of the system message, between the business's details.
  const PromptIntro: string := "You are a helpful voice assistant for "
  const PromptJob: string := ". \n"
    + "                Your job is to help callers schedule appointments, provide information about business hours, \n"
    + "                and answer questions about the location. Be conversational, friendly, and concise since this is a phone call.\n"
    + "                \n"
    + "                Business information:\n"
    + "                - Name: "
  const PromptLocation: string := "\n                - Location: "
  const PromptPhone: string := "\n                - Phone: "
  const PromptHours: string := "\n"
    + "                - Hours: Monday-Friday 9 AM to 6 PM, Saturday 10 AM to 2 PM, closed on Sundays\n"
    + "                \n"
    + "                When scheduling appointments, collect the caller's name, phone number, email, and preferred appointment time.\n"
    + "                Once you have all this information, you'll help book the appointment.\n"
    + "                "


  /** The system message names the business, its address and its telephone number. */
  lemma SystemPromptNamesBusiness(name: string, location: string, phone: string)
    ensures Text.Contains(SystemPrompt(name, location, phone), name)
    ensures Text.Contains(SystemPrompt(name, location, phone), location)
    ensures Text.Contains(SystemPrompt(name, location, phone), phone)
  {
    FilledTemplateContains(PromptIntro, name, PromptJob, PromptLocation, location, PromptPhone, phone, PromptHours);
  }

  /** The template `a n b n c l d p e` contains each of the values `n`, `l` and `p` put into it. */
  lemma FilledTemplateContains(a: string, n: string, b: string, c: string, l: string, d: string, p: string, e: string)
    ensures Text.Contains(a + n + b + n + c + l + d + p + e, n)
    ensures Text.Contains(a + n + b + n + c + l + d + p + e, l)
    ensures Text.Contains(a + n + b + n + c + l + d + p + e, p)
  {
    var s := a + n + b + n + c + l + d + p + e;
    assert s == a + n + (b + n + c + l + d + p + e);
    Text.ContainsMiddle(a, n, b + n + c + l + d + p + e);
    assert s == (a + n + b + n + c) + l + (d + p + e);
    Text.ContainsMiddle(a + n + b + n + c, l, d + p + e);
    Text.ContainsMiddle(a + n + b + n + c + l + d, p, e);
  }



  /** How many messages of `ms` have the role "system". */
  function SystemCount(ms: seq<Message>): nat {
    if ms == [] then 0 else (if ms[0].role == "system" then 1 else 0) + SystemCount(ms[1..])
  }

  /** `any(msg.get("role") == "system" for msg in conversation_history)`. */
  predicate HasSystem(ms: seq<Message>) {
    exists i :: 0 <= i < |ms| && ms[i].role == "system"
  }

  lemma {:induction false} SystemCountPositive(ms: seq<Message>)
    ensures SystemCount(ms) > 0 <==> HasSystem(ms)
  {
    if ms != [] {
      SystemCountPositive(ms[1..]);
      if HasSystem(ms[1..]) {
        var i :| 0 <= i < |ms[1..]| && ms[1..][i].role == "system";
        assert ms[i + 1].role == "system";
      }
      if HasSystem(ms) && ms[0].role != "system" {
        var i :| 0 <= i < |ms| && ms[i].role == "system";
        assert ms[1..][i - 1].role == "system";
      }
    }
  }

  /** The history with the system message `system` put in front when it has none. */
  function WithSystem(ms: seq<Message>, system: Message): seq<Message> {
    if HasSystem(ms) then ms else [system] + ms
  }

  /** The history always ends up with a system message, and with exactly one when it had none. */
  lemma WithSystemCount(ms: seq<Message>, system: Message)
    requires system.role == "system"
    ensures HasSystem(WithSystem(ms, system))
    ensures SystemCount(WithSystem(ms, system)) == if SystemCount(ms) == 0 then 1 else SystemCount(ms)
    ensures !HasSystem(ms) ==> WithSystem(ms, system)[0] == system && WithSystem(ms, system)[1..] == ms
  {
    SystemCountPositive(ms);
    if !HasSystem(ms) {
      var w := [system] + ms;
      assert w[0].role == "system";
      assert w[1..] == ms;
    }
  }

  /** Later turns never add a second system message: appending user and assistant turns keeps one in place. */
  lemma {:induction false} SystemCountAppend(a: seq<Message>, b: seq<Message>)
    ensures SystemCount(a + b) == SystemCount(a) + SystemCount(b)
  {
    if a == [] {
      assert a + b == b;
    } else {
      assert (a + b)[1..] == a[1..] + b;
      SystemCountAppend(a[1..], b);
    }
  }

  /** A conversation's message list, which `generate_openai_response` changes in place. */
  class ChatHistory {
    var messages: seq<Message>

    constructor ()
      ensures messages == []
    {
      messages := [];
    }
  }

  /** The OpenAI settings, the chat completion endpoint, and `conversation_contexts`. */
  class OpenAi {
    const apiKey: string
    /** The system message a conversation starts with. */
    const system: Message
    /** The stripped-before text of the first choice for a message list, or `None` when the call raises. */
    const complete: seq<Message> -> Option<string>
    var contexts: map<string, ChatHistory>

    /** The business's name, address and telephone number come from the environment. */
    constructor (apiKey: string, complete: seq<Message> -> Option<string>, name: string, location: string, phone: string)
      ensures this.apiKey == apiKey && this.complete == complete && contexts == map[]
      ensures system == Message("system", SystemPrompt(name, location, phone))
    {
      this.apiKey := apiKey;
      system := Message("system", SystemPrompt(name, location, phone));
      this.complete := complete;
      contexts := map[];
    }

    /**
     * `generate_openai_response(prompt, conversation_history, call_sid)`. The
     * user turn is recorded before the endpoint is called, so a failed call
     * leaves it in the history without an answer.
     */
    method GenerateResponse(prompt: string, history: ChatHistory, callSid: Option<string>) returns (text: string)
      modifies this, history
      ensures apiKey == "" ==> text == KnowledgeBaseApology && history.messages == old(history.messages)
      ensures apiKey != "" ==>
        var sent := WithSystem(old(history.messages), system) + [Message("user", prompt)];
        match complete(sent)
        case None => text == KnowledgeBaseApology && history.messages == sent
        case Some(reply) =>
          && text == Text.Strip(reply)
          && history.messages == sent + [Message("assistant", text)]
          && contexts == if ResponseBuilder.Truthy(callSid) then old(contexts)[callSid.value := history] else old(contexts)
      ensures (apiKey == "" || complete(WithSystem(old(history.messages), system) + [Message("user", prompt)]).None?) ==>
        contexts == old(contexts)
    {
      if apiKey == "" {
        return KnowledgeBaseApology;
      }
      if !HasSystem(history.messages) {
        history.messages := [system] + history.messages;
      }
      history.messages := history.messages + [Message("user", prompt)];
      var reply := complete(history.messages);
      if reply.None? {
        return KnowledgeBaseApology;
      }
      text := Text.Strip(reply.value);
      history.messages := history.messages + [Message("assistant", text)];
      if ResponseBuilder.Truthy(callSid) {
        contexts := contexts[callSid.value := history];
      }
    }
  }

  // ------------------------------------------------------------ speech from temporary audio files (enhanced_say)

  const JoannaVoice := ResponseBuilder.DefaultVoice
  const AudioPrefix := "/audio/"
  const TwilioVoicePath := "/twilio/voice"
  const TwilioIntentPath := "/twilio/intent"
  const ConfirmPath := "/twilio/appointment_confirm"
  const CollectNamePath := "/twilio/collect_name"

  /** The `audio_files` key under which the file served as `/audio/<name>` is recorded. */
  function AudioKey(name: string): (key: string)
    ensures Text.StartsWith(key, AudioPrefix) && key[|AudioPrefix|..] == name
  {
    AudioPrefix + name
  }

  /** Different file names are recorded under different keys. */
  lemma AudioKeyInjective(a: string, b: string)
    requires AudioKey(a) == AudioKey(b)
    ensures a == b
  {
    assert a == AudioKey(a)[|AudioPrefix|..];
  }

  /** `s.rstrip('/')`. */
  function RStripSlash(s: string): (r: string)
    ensures |r| <= |s| && r == s[..|r|] && (r == "" || r[|r| - 1] != '/')
    ensures forall i :: |r| <= i < |s| ==> s[i] == '/'
  {
    if s != "" && s[|s| - 1] == '/' then RStripSlash(s[..|s| - 1]) else s
  }

  /** What `serve_audio` answers: the file's bytes with status 200, or "Audio file not found" with 404. */
  datatype AudioReply = AudioFile(content: seq<bv8>) | AudioNotFound

  /** The `<Gather>` of app.py's `enhanced_gather`. */
  function PromptGather(action: string): (a: GatherAttrs)
    ensures a.action == action && a.input == "speech dtmf" && a.timeout == Some(3) && a.language == Some("en-US")
  {
    GatherAttrs("speech dtmf", Some(3), Some("auto"), action, Some("POST"), Some("en-US"), None, None, false)
  }

  /** The speech-only `<Gather>` the keyword replies ask their follow-up question in. */
  function FollowUpGather(action: string): (a: GatherAttrs)
    ensures a.action == action && a.input == "speech" && a.timeout == None && a.language == Some("en-US")
  {
    GatherAttrs("speech", None, Some("auto"), action, Some("POST"), Some("en-US"), None, None, false)
  }

  /**
   * The ElevenLabs settings of app.py, the endpoint, the temporary directory
   * audio is written to, and `audio_files`. `urlRoot` is the request's
   * `url_root`; `fileKey` gives the URL-safe base64 of a temporary file's base name.
   */
  class Speech {
    const apiKey: string
    const voiceId: string
    const post: (string, string) -> ElevenLabs.ApiReply
    const urlRoot: string
    const fileKey: string -> string
    const tmp: Files.Directory
    var audioFiles: map<string, string>

    constructor (apiKey: string, voiceId: string, post: (string, string) -> ElevenLabs.ApiReply, urlRoot: string,
                 fileKey: string -> string, tmp: Files.Directory)
      ensures this.apiKey == apiKey && this.voiceId == voiceId && this.post == post && this.urlRoot == urlRoot
      ensures this.fileKey == fileKey && this.tmp == tmp && audioFiles == map[]
    {
      this.apiKey := apiKey;
      this.voiceId := voiceId;
      this.post := post;
      this.urlRoot := urlRoot;
      this.fileKey := fileKey;
      this.tmp := tmp;
      audioFiles := map[];
    }

    /** `generate_elevenlabs_audio(text)`: the audio, when both settings are present and the endpoint answers 200. */
    function Synthesize(text: string): (r: Option<seq<bv8>>)
      ensures r.Some? <==> apiKey != "" && voiceId != "" && post(voiceId, text).Reply? && post(voiceId, text).status == 200
      ensures r.Some? ==> r.value == post(voiceId, text).content
    {
      if apiKey == "" || voiceId == "" then None
      else match post(voiceId, text)
        case Reply(status, content) => if status == 200 then Some(content) else None
        case Raised => None
    }

    /** `if audio_content:`: audio came back and is not empty. */
    predicate Audible(text: string) {
      Synthesize(text).Some? && Synthesize(text).value != []
    }

    /** The URL played for the audio written to `tempPath`. */
    function PlayUrl(tempPath: string): (url: string)
      ensures Text.StartsWith(url, RStripSlash(urlRoot) + "/audio/")
      ensures url[|RStripSlash(urlRoot) + "/audio/"|..] == fileKey(tempPath)
      ensures !Text.EndsWith(RStripSlash(urlRoot), "/")
    {
      RStripSlash(urlRoot) + AudioKey(fileKey(tempPath))
    }

    /** The verb `enhanced_say` adds for `text` when the audio would go to `tempPath`. */
    function Spoken(text: string, tempPath: string): Verb
    {
      if Audible(text) then Play(PlayUrl(tempPath), None, None) else Say(text, Some(JoannaVoice), None)
    }

    /** `serve_audio(filename)`. */
    function ServeAudio(filename: string): (r: AudioReply)
      reads this, tmp
      ensures r.AudioFile? <==> (AudioKey(filename) in audioFiles && audioFiles[AudioKey(filename)] != ""
                                  && tmp.Exists(audioFiles[AudioKey(filename)]))
      ensures r.AudioFile? ==> exists f :: (f in tmp.entries && f.name == audioFiles[AudioKey(filename)]
                                            && f.content == r.content)
    {
      var key := AudioKey(filename);
      if key in audioFiles && audioFiles[key] != "" then
        match Files.Find(tmp.entries, audioFiles[key])
        case Some(f) => AudioFile(f.content)
        case None => AudioNotFound
      else AudioNotFound
    }

    /** What saying `text` leaves in `audio_files` and the temporary directory, given their earlier contents. */
    ghost predicate Stored(text: string, tempPath: string, now: int,
                           files: map<string, string>, entries: seq<Files.FileEntry>)
      reads this, tmp
    {
      if Audible(text) then
        && audioFiles == files[AudioKey(fileKey(tempPath)) := tempPath]
        && tmp.entries == Files.Without(entries, {tempPath}) + [Files.FileEntry(tempPath, Synthesize(text).value, now)]
      else
        audioFiles == files && tmp.entries == entries
    }

    /**
     * `enhanced_say(response, text)`: the audio is written to the new temporary
     * file `tempPath` and played from its `/audio/` URL, which `serve_audio` then
     * answers with that audio; without audio, Polly Joanna says the text.
     */
    method EnhancedSay(response: TwiML, text: string, tempPath: string, now: int)
      requires tmp.Valid()
      modifies response, this, tmp
      ensures tmp.Valid() && response.head == old(response.head)
      ensures response.verbs == old(response.verbs) + [Spoken(text, tempPath)]
      ensures Stored(text, tempPath, now, old(audioFiles), old(tmp.entries))
      ensures Audible(text) && tempPath != "" ==> ServeAudio(fileKey(tempPath)) == AudioFile(Synthesize(text).value)
    {
      var audio := Synthesize(text);
      if audio.Some? && audio.value != [] {
        tmp.Write(tempPath, audio.value, now);
        audioFiles := audioFiles[AudioKey(fileKey(tempPath)) := tempPath];
        response.Play(RStripSlash(urlRoot) + AudioKey(fileKey(tempPath)), None, None);
        var last := |tmp.entries| - 1;
        assert tmp.entries[last].name == tempPath;
        assert tempPath in Files.Names(tmp.entries);
        var found := Files.Find(tmp.entries, tempPath);
        var i :| 0 <= i < |tmp.entries| && tmp.entries[i] == found.value;
        assert i == last;
      } else {
        response.Say(text, Some(JoannaVoice), None);
      }
    }

    /** app.py's `enhanced_gather(response, text, action)`: one `<Gather>` holding the spoken prompt, then a redirect. */
    method EnhancedGather(response: TwiML, text: string, action: string, tempPath: string, now: int)
      requires tmp.Valid()
      modifies response, this, tmp
      ensures tmp.Valid() && response.head == old(response.head)
      ensures response.verbs == old(response.verbs)
        + [Nested(PromptGather(action), [Spoken(text, tempPath)]), Redirect(TwilioVoicePath)]
      ensures Stored(text, tempPath, now, old(audioFiles), old(tmp.entries))
    {
      var gather := new TwiML.Gather(PromptGather(action));
      EnhancedSay(gather, text, tempPath, now);
      assert gather.verbs == [Spoken(text, tempPath)];
      assert response.verbs == old(response.verbs);
      response.Append(gather);
      response.Redirect(TwilioVoicePath);
    }
  }

  // ------------------------------------------------------------ keyword replies without OpenAI

  /**
   * A keyword reply: a line spoken with `enhanced_say` followed by a question in
   * a speech `<Gather>`, or a line asked again with `enhanced_gather`.
   */
  datatype KeywordReply =
    | SayThenAsk(line: string, action: string, question: string)
    | AskAgain(line: string, action: string)

  /** The verbs of a keyword reply whose line became the verb `spoken`. */
  function Rendering(reply: KeywordReply, spoken: Verb): seq<Verb> {
    match reply
    case SayThenAsk(_, action, question) =>
      [spoken, Nested(FollowUpGather(action), [Say(question, Some(JoannaVoice), None)])]
    case AskAgain(_, action) =>
      [Nested(PromptGather(action), [spoken]), Redirect(TwilioVoicePath)]
  }

  /** Every keyword reply holds exactly one `<Gather>`, and it posts to the reply's action. */
  lemma RenderingGathers(reply: KeywordReply, spoken: Verb)
    requires !spoken.Nested?
    ensures GatherActions(Rendering(reply, spoken)) == [reply.action]
  {
    var vs := Rendering(reply, spoken);
    assert GatherActions(vs[1..]) == GatherActions(vs[1..][1..]) + (if vs[1].Nested? then [vs[1].attrs.action] else []) by {
      assert vs[1..][0] == vs[1];
    }
    assert vs[1..][1..] == [];
  }

  datatype CallIntent = WantsAppointment | WantsHours | WantsLocation | Unrecognised

  const AppointmentWords: seq<string> := ["appointment", "schedule", "book", "visit"]
  const HoursWords: seq<string> := ["hours", "open", "close", "time"]
  const LocationWords: seq<string> := ["location", "address", "where", "directions"]

  /** The keyword chain of `twilio_intent` when OpenAI is not configured: the first list that matches wins. */
  function IntentOf(speech: string): (i: CallIntent)
    ensures i == WantsAppointment <==> Text.ContainsAny(speech, AppointmentWords)
    ensures i == WantsHours <==> !Text.ContainsAny(speech, AppointmentWords) && Text.ContainsAny(speech, HoursWords)
    ensures i == WantsLocation <==> (!Text.ContainsAny(speech, AppointmentWords) && !Text.ContainsAny(speech, HoursWords)
                                     && Text.ContainsAny(speech, LocationWords))
  {
    if Text.ContainsAny(speech, AppointmentWords) then WantsAppointment
    else if Text.ContainsAny(speech, HoursWords) then WantsHours
    else if Text.ContainsAny(speech, LocationWords) then WantsLocation
    else Unrecognised
  }

  const OfferLine :=
    "I'd be happy to help you schedule an appointment. Let me check what we have available... It looks like we have an opening tomorrow at 2:30 PM. Would that work for your schedule?"
  const HoursLine :=
    "We're open Monday through Friday from 9 AM to 6 PM, and Saturday from 10 AM to 2 PM. We're closed on Sundays to give our staff a well-deserved break."
  const LocationLine := "We're located at " + BusinessLocation
    + ". We're right across from the public library, in the building with the blue awning. There's plenty of parking available in the front and back of the building."
  const NotCaughtLine :=
    "I'm sorry, I didn't quite catch that. Are you calling about scheduling an appointment, our hours, or our location?"

  const OtherOptionsQuestion := "If that time doesn't work, just let me know and I can check some other options for you."
  const AnythingElseQuestion := "Is there anything else I can help you with today?"
  const MoreToKnowQuestion := "Is there anything else you'd like to know?"

  /** The reply `twilio_intent` gives each intent. */
  function IntentReply(i: CallIntent): (r: KeywordReply)
    ensures i == WantsAppointment <==> r.action == ConfirmPath
    ensures i == Unrecognised <==> r.AskAgain?
  {
    match i
    case WantsAppointment =>
      SayThenAsk(OfferLine, ConfirmPath, OtherOptionsQuestion)
    case WantsHours => SayThenAsk(HoursLine, TwilioIntentPath, AnythingElseQuestion)
    case WantsLocation => SayThenAsk(LocationLine, TwilioIntentPath, MoreToKnowQuestion)
    case Unrecognised => AskAgain(NotCaughtLine, TwilioIntentPath)
  }

  /** Asking to reschedule, or when an appointment is, is taken as a request for an appointment. */
  lemma AppointmentWordsFirst(speech: string)
    requires Text.Contains(speech, "reschedule") || Text.Contains(speech, "appointment")
    ensures IntentOf(speech) == WantsAppointment
  {
    if Text.Contains(speech, "reschedule") {
      assert Text.OccursAt("reschedule", "schedule", 2);
      Text.ContainsTransitive(speech, "reschedule", "schedule");
      Text.ContainsAnyOf(speech, "schedule", AppointmentWords);
    } else {
      Text.ContainsAnyOf(speech, "appointment", AppointmentWords);
    }
  }

  /** A question about where the office is gets the opening hours if it mentions a time, such as "what time". */
  lemma TimeBeatsLocation(speech: string)
    requires Text.Contains(speech, "time") && !Text.ContainsAny(speech, AppointmentWords)
    ensures IntentOf(speech) == WantsHours
  {
    Text.ContainsAnyOf(speech, "time", HoursWords);
  }

  const ConfirmWords: seq<string> := ["yes", "sure", "okay", "fine", "good", "works", "perfect"]
  const DeclineWords: seq<string> := ["no", "not", "can't", "cannot", "don't", "different"]

  datatype Confirmation = Confirmed | Declined | Unsure

  /** The keyword chain of `twilio_appointment_confirm` when OpenAI is not configured. */
  function ConfirmationOf(speech: string): (c: Confirmation)
    ensures c == Confirmed <==> Text.ContainsAny(speech, ConfirmWords)
    ensures c == Declined <==> !Text.ContainsAny(speech, ConfirmWords) && Text.ContainsAny(speech, DeclineWords)
  {
    if Text.ContainsAny(speech, ConfirmWords) then Confirmed
    else if Text.ContainsAny(speech, DeclineWords) then Declined
    else Unsure
  }

  const ConfirmedLine :=
    "Great! I've booked your appointment for tomorrow at 2:30 PM. Can I get your name and phone number for our records?"
  const DeclinedLine :=
    "I understand that time doesn't work for you. Let me check what other times we have available... We also have an opening on Friday at 10:00 AM. Would that work better for you?"
  const UnsureLine :=
    "I'm sorry, I didn't understand if that time works for you. Would you like to book the appointment for tomorrow at 2:30 PM?"

  /** The reply `twilio_appointment_confirm` gives. */
  function ConfirmationReply(c: Confirmation): (r: KeywordReply)
    ensures c == Confirmed <==> r.action == CollectNamePath
    ensures c != Confirmed ==> r.action == ConfirmPath
  {
    match c
    case Confirmed => SayThenAsk(ConfirmedLine, CollectNamePath, "Please say your full name.")
    case Declined => SayThenAsk(DeclinedLine, ConfirmPath, "If that still doesn't work, we can check more options.")
    case Unsure => AskAgain(UnsureLine, ConfirmPath)
  }

  /** Agreement is tested first, so "not good" books the appointment. */
  lemma NotGoodConfirms(speech: string)
    requires Text.Contains(speech, "not good")
    ensures ConfirmationOf(speech) == Confirmed
  {
    assert Text.OccursAt("not good", "good", 4);
    Text.ContainsTransitive(speech, "not good", "good");
    Text.ContainsAnyOf(speech, "good", ConfirmWords);
  }

  /** "no" is a substring of "know", so "I don't know" without an agreeing word is a refusal. */
  lemma KnowDeclines(speech: string)
    requires Text.Contains(speech, "know") && !Text.ContainsAny(speech, ConfirmWords)
    ensures ConfirmationOf(speech) == Declined
  {
    assert Text.OccursAt("know", "no", 1);
    Text.ContainsTransitive(speech, "know", "no");
    Text.ContainsAnyOf(speech, "no", DeclineWords);
  }

  /** "not" and "cannot" add nothing to the refusal list: both contain "no". */
  lemma DeclineWordsCovered(speech: string)
    ensures Text.ContainsAny(speech, DeclineWords) <==> Text.ContainsAny(speech, ["no", "can't", "don't", "different"])
  {
    var shorter := ["no", "can't", "don't", "different"];
    if Text.ContainsAny(speech, DeclineWords) {
      assert Text.OccursAt("not", "no", 0) && Text.OccursAt("cannot", "no", 3);
      forall p | p in DeclineWords ensures Text.ContainsAny(p, shorter) {
        if p == "not" {
          Text.ContainsAnyOf(p, "no", shorter);
        } else if p == "cannot" {
          Text.ContainsAnyOf(p, "no", shorter);
        } else {
          assert Text.OccursAt(p, p, 0);
          Text.ContainsAnyOf(p, p, shorter);
        }
      }
      Text.ContainsAnyCovered(speech, DeclineWords, shorter);
    }
    if Text.ContainsAny(speech, shorter) {
      var p :| p in shorter && Text.Contains(speech, p);
      Text.ContainsAnyOf(speech, p, DeclineWords);
    }
  }

  /** Builds a keyword reply in a new response, the line spoken as `enhanced_say` or `enhanced_gather` speaks it. */
  method Answer(speech: Speech, reply: KeywordReply, tempPath: string, now: int) returns (verbs: seq<Verb>)
    requires speech.tmp.Valid()
    modifies speech, speech.tmp
    ensures speech.tmp.Valid()
    ensures verbs == Rendering(reply, speech.Spoken(reply.line, tempPath))
    ensures speech.Stored(reply.line, tempPath, now, old(speech.audioFiles), old(speech.tmp.entries))
  {
    var response := new TwiML.Response();
    if reply.SayThenAsk? {
      speech.EnhancedSay(response, reply.line, tempPath, now);
      ghost var spoken := response.verbs;
      var gather := new TwiML.Gather(FollowUpGather(reply.action));
      gather.Say(reply.question, Some(JoannaVoice), None);
      assert response.verbs == spoken == [speech.Spoken(reply.line, tempPath)];
      assert gather.head.attrs == FollowUpGather(reply.action);
      assert gather.verbs == [Say(reply.question, Some(JoannaVoice), None)];
      response.Append(gather);
      assert response.verbs == [speech.Spoken(reply.line, tempPath), Nested(FollowUpGather(reply.action), [Say(reply.question, Some(JoannaVoice), None)])];
      assert response.verbs == Rendering(reply, speech.Spoken(reply.line, tempPath));
    } else {
      speech.EnhancedGather(response, reply.line, reply.action, tempPath, now);
      assert response.verbs == Rendering(reply, speech.Spoken(reply.line, tempPath));
    }
    verbs := response.verbs;
  }

  /** `twilio_intent` without OpenAI: the lower-cased `SpeechResult` picks the reply. */
  method IntentFallback(speech: Speech, speechResult: Option<string>, tempPath: string, now: int)
    returns (verbs: seq<Verb>)
    requires speech.tmp.Valid()
    modifies speech, speech.tmp
    ensures speech.tmp.Valid()
    ensures var reply := IntentReply(IntentOf(Text.Lower(speechResult.GetOr(""))));
      verbs == Rendering(reply, speech.Spoken(reply.line, tempPath))
  {
    var said := Text.Lower(speechResult.GetOr(""));
    verbs := Answer(speech, IntentReply(IntentOf(said)), tempPath, now);
  }

  /** `twilio_appointment_confirm` without OpenAI. */
  method ConfirmFallback(speech: Speech, speechResult: Option<string>, tempPath: string, now: int)
    returns (verbs: seq<Verb>)
    requires speech.tmp.Valid()
    modifies speech, speech.tmp
    ensures speech.tmp.Valid()
    ensures var reply := ConfirmationReply(ConfirmationOf(Text.Lower(speechResult.GetOr(""))));
      verbs == Rendering(reply, speech.Spoken(reply.line, tempPath))
  {
    var said := Text.Lower(speechResult.GetOr(""));
    verbs := Answer(speech, ConfirmationReply(ConfirmationOf(said)), tempPath, now);
  }

  const PhoneThanks :=
    "Thank you for providing your contact information. Your appointment has been confirmed for tomorrow at 2:30 PM. We'll send a confirmation to your phone. Is there anything else I can help you with today?"
  const PhoneQuestion :=
    "You can say 'hours' for our business hours, 'location' for our address, or 'goodbye' to end the call."

  /**
   * `twilio_collect_phone`: the number kept is exactly the digits of what was
   * said, in order; the reply does not depend on it.
   */
  method CollectPhone(speech: Speech, speechResult: Option<string>, tempPath: string, now: int)
    returns (phone: string, verbs: seq<Verb>)
    requires speech.tmp.Valid()
    modifies speech, speech.tmp
    ensures speech.tmp.Valid()
    ensures phone == Text.Digits(speechResult.GetOr("")) && Text.AllDigits(phone)
    ensures forall c :: multiset(phone)[c] == if Text.IsDigit(c) then multiset(speechResult.GetOr(""))[c] else 0
    ensures verbs == Rendering(SayThenAsk(PhoneThanks, TwilioIntentPath, PhoneQuestion), speech.Spoken(PhoneThanks, tempPath))
  {
    var raw := speechResult.GetOr("");
    phone := Text.Digits(raw);
    Text.DigitsAreDigits(raw);
    Text.DigitsKeepEveryDigit(raw);
    verbs := Answer(speech, SayThenAsk(PhoneThanks, TwilioIntentPath, PhoneQuestion), tempPath, now);
  }

  // ------------------------------------------------------------ catch-all route

  /** A reply of the catch-all route: markup, or "Not Found" with status 404. */
  datatype RouteReply = Markup(verbs: seq<Verb>) | NotFound

  const ConnectLine := "Thank you for calling. I'll connect you with our voice assistant."

  /** `fallback_route(path)`: paths that look like mistyped webhooks are sent back to `/twilio-voice`. */
  method FallbackRoute(path: string) returns (r: RouteReply)
    ensures r.Markup? <==> Text.StartsWith(path, "twilio")
    ensures r.Markup? ==> r.verbs == [Say(ConnectLine, None, None), Redirect("/twilio-voice")]
  {
    if Text.StartsWith(path, "twilio") || Text.StartsWith(path, "twilio-") {
      TwilioHyphenPrefix(path);
      var response := new TwiML.Response();
      response.Say(ConnectLine, None, None);
      response.Redirect("/twilio-voice");
      return Markup(response.verbs);
    }
    return NotFound;
  }

  /** The second prefix test adds nothing: every path starting "twilio-" starts "twilio". */
  lemma TwilioHyphenPrefix(path: string)
    ensures Text.StartsWith(path, "twilio-") ==> Text.StartsWith(path, "twilio")
  {
    if Text.StartsWith(path, "twilio-") {
      assert path[..6] == path[..7][..6];
    }
  }
}
