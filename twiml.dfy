/**
 * TwiML, the markup the bot returns to the telephony platform, as a tree of
 * verbs. A `<Response>` and a `<Gather>` are both built by appending verbs in
 * place, so both are objects of class `TwiML`.
 */
module Twiml {
  import opened Wrappers

  /** The attributes a `<Gather>` carries; `None` stands for an attribute left out. */
  datatype GatherAttrs = GatherAttrs(
    input: string,
    timeout: Option<nat>,
    speechTimeout: Option<string>,
    action: string,
    httpMethod: Option<string>,
    language: Option<string>,
    speechModel: Option<string>,
    hints: Option<string>,
    enhanced: bool)

  /** One verb of the markup. A volume of 0.1 is written as 10 percent. */
  datatype Verb =
    | Say(text: string, voice: Option<string>, language: Option<string>)
    | Play(url: string, loop: Option<nat>, volumePercent: Option<nat>)
    | Nested(attrs: GatherAttrs, children: seq<Verb>)
    | Redirect(url: string)

  /** What an element is: the document root or a `<Gather>` with its attributes. */
  datatype Head = ResponseHead | GatherHead(attrs: GatherAttrs)

  /** The `<Gather>` attributes the Python constructor `Gather(input=…, timeout=…, speech_timeout=…, action=…)` sets. */
  function BasicGather(input: string, timeout: Option<nat>, speechTimeout: Option<string>, action: string): (a: GatherAttrs)
    ensures a.action == action && a.language == None && a.speechModel == None && a.hints == None
  {
    GatherAttrs(input, timeout, speechTimeout, action, None, None, None, None, false)
  }

  /** The `action` of each `<Gather>` at the top level of `vs`, in order. */
  function GatherActions(vs: seq<Verb>): (actions: seq<string>)
    ensures |actions| <= |vs|
  {
    if vs == [] then []
    else (if vs[0].Nested? then [vs[0].attrs.action] else []) + GatherActions(vs[1..])
  }

  lemma {:induction false} GatherActionsAppend(a: seq<Verb>, b: seq<Verb>)
    ensures GatherActions(a + b) == GatherActions(a) + GatherActions(b)
  {
    if a != [] {
      assert (a + b)[1..] == a[1..] + b;
      GatherActionsAppend(a[1..], b);
    } else {
      assert a + b == b;
    }
  }

  /** A `<Response>` or `<Gather>` under construction (twilio's `VoiceResponse` and `Gather`). */
  class TwiML {
    var head: Head
    var verbs: seq<Verb>

    /** `VoiceResponse()`. */
    constructor Response()
      ensures head == ResponseHead && verbs == []
    {
      head := ResponseHead;
      verbs := [];
    }

    /** `Gather(**attrs)`. */
    constructor Gather(attrs: GatherAttrs)
      ensures head == GatherHead(attrs) && verbs == []
    {
      head := GatherHead(attrs);
      verbs := [];
    }

    /** The finished element as a verb of its parent. */
    function AsVerb(): (v: Verb)
      reads this
      requires head.GatherHead?
      ensures v.Nested? && v.attrs == head.attrs && v.children == verbs
    {
      Nested(head.attrs, verbs)
    }

    method Say(text: string, voice: Option<string>, language: Option<string>)
      modifies this
      ensures head == old(head)
      ensures verbs == old(verbs) + [Verb.Say(text, voice, language)]
    {
      verbs := verbs + [Verb.Say(text, voice, language)];
    }

    method Play(url: string, loop: Option<nat>, volumePercent: Option<nat>)
      modifies this
      ensures head == old(head)
      ensures verbs == old(verbs) + [Verb.Play(url, loop, volumePercent)]
    {
      verbs := verbs + [Verb.Play(url, loop, volumePercent)];
    }

    method Redirect(url: string)
      modifies this
      ensures head == old(head)
      ensures verbs == old(verbs) + [Verb.Redirect(url)]
    {
      verbs := verbs + [Verb.Redirect(url)];
    }

    /** `response.append(gather)`: the gather, as it stands, becomes the last verb. */
    method Append(child: TwiML)
      requires child != this && child.head.GatherHead?
      modifies this
      ensures head == old(head)
      ensures verbs == old(verbs) + [Nested(child.head.attrs, child.verbs)]
    {
      verbs := verbs + [Nested(child.head.attrs, child.verbs)];
    }

    /** Verbs appended by code outside the model, given as what it appended. */
    method Extend(more: seq<Verb>)
      modifies this
      ensures head == old(head)
      ensures verbs == old(verbs) + more
    {
      verbs := verbs + more;
    }

    /** Setting `gather.speech_model` or `gather.hints`. */
    method SetAttrs(attrs: GatherAttrs)
      requires head.GatherHead?
      modifies this
      ensures head == GatherHead(attrs) && verbs == old(verbs)
    {
      head := GatherHead(attrs);
    }
  }
}
