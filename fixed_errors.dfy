/**
 * Error replies of the rebuilt bot (fixed_voice_bot/app/error_handler.py).
 * An error is logged with its type, text and caller, and the caller only ever
 * hears one of the fixed messages of `ERROR_MESSAGES`, chosen by error type.
 */
module FixedErrors {
  import opened Wrappers
  import opened Twiml
  import Text

  const GeneralError := "We're sorry, an application error has occurred. Please try again later or call back during business hours to speak with our staff."
  const InputNotUnderstood := "I'm sorry, I didn't understand that. Could you please repeat?"
  const AppointmentError := "I'm having trouble with our scheduling system. Let me connect you with our staff who can help schedule your appointment."
  const TransferError := "I'm having trouble transferring your call. Please call back during business hours to speak with our staff."

  /** `ERROR_MESSAGES` of fixed_voice_bot/config/config.py. */
  const ErrorMessages: map<string, string> := map[
    "general" := GeneralError,
    "input_not_understood" := InputNotUnderstood,
    "appointment_error" := AppointmentError,
    "transfer_error" := TransferError]

  /** The default `error_type`. */
  const General := "general"

  /** The Polly voice of the plain `<Say>`. */
  const Joanna := "Polly.Joanna"

  /** The line `handle_error` logs: the type and text of the error, and the caller when one is given. */
  function ErrorLogLine(error: string, errorType: string, caller: Option<string>): (line: string)
    ensures Text.StartsWith(line, "Error (" + errorType + "): " + error)
    ensures caller.Some? && caller.value != "" ==> Text.EndsWith(line, " - Caller: " + caller.value)
    ensures !(caller.Some? && caller.value != "") ==> line == "Error (" + errorType + "): " + error
  {
    "Error (" + errorType + "): " + error + (if caller.Some? && caller.value != "" then " - Caller: " + caller.value else "")
  }

  /** `handle_error(error, error_type, caller_number)`: the message for the type, or the general one. */
  function HandleError(error: string, errorType: string, caller: Option<string>): (message: string)
    ensures errorType in ErrorMessages ==> message == ErrorMessages[errorType]
    ensures errorType !in ErrorMessages ==> message == GeneralError
    ensures message in ErrorMessages.Values
  {
    if errorType in ErrorMessages then ErrorMessages[errorType] else ErrorMessages[General]
  }

  /** The caller hears neither the error text nor their own number: the message depends on the type alone. */
  lemma MessageIgnoresDetails(e1: string, e2: string, errorType: string, c1: Option<string>, c2: Option<string>)
    ensures HandleError(e1, errorType, c1) == HandleError(e2, errorType, c2)
  {
  }

  /** Only the four configured messages can be heard, and an unknown type is heard as a general error. */
  lemma FourMessages(error: string, errorType: string, caller: Option<string>)
    ensures HandleError(error, errorType, caller) in {GeneralError, InputNotUnderstood, AppointmentError, TransferError}
    ensures HandleError(error, errorType, caller) == GeneralError <==> errorType !in ErrorMessages || errorType == General
  {
    var m := HandleError(error, errorType, caller);
    if errorType in ErrorMessages && errorType != General {
      assert errorType in {"input_not_understood", "appointment_error", "transfer_error"};
      assert m != GeneralError;
    }
  }

  /**
   * `create_error_response(error, error_type, speak_function)`: the verbs of
   * the fresh `<Response>`. A given `speak_function` is represented by the
   * verbs it appends for a message; without one the message is a single
   * `<Say>` in Polly's Joanna voice.
   */
  function ErrorResponse(error: string, errorType: string, speak: Option<string -> seq<Verb>>): (vs: seq<Verb>)
    ensures speak.Some? ==> vs == speak.value(HandleError(error, errorType, None))
    ensures speak.None? ==> vs == [Say(HandleError(error, errorType, None), Some(Joanna), None)]
    ensures speak.None? ==> vs[0].text in ErrorMessages.Values
  {
    var message := HandleError(error, errorType, None);
    if speak.Some? then speak.value(message) else [Say(message, Some(Joanna), None)]
  }

  /** Without a speak function, an error of unknown type is answered with exactly the general message. */
  lemma UnknownTypeSaysGeneral(error: string, errorType: string)
    requires errorType !in ErrorMessages
    ensures ErrorResponse(error, errorType, None) == [Say(GeneralError, Some(Joanna), None)]
  {
  }
}
