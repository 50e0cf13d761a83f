/**
  The error variants the core raises (`AiCriticError` in src/errors.rs), with the
  payloads that matter to the model. `NoTextField`, `NotArray` and `NonStringElement`
  are raised by src/chatter_json.rs although src/errors.rs does not declare them.
*/
module Errors {

  datatype AiCriticError =
      /** An I/O failure (`std::io::Error`), with its message. */
    | Io(message: string)
      /** A failed request to the chat service (`OpenAIError`), with its message. */
    | OpenAI(message: string)
      /** A child process ended without an exit code (killed by a signal). */
    | ProcessTerminated
      /** The test binary exited with a code other than 0 or 101. */
    | TestingFailed(code: int)
      /** A JSON value was not of the expected kind. */
    | NotJsonObject
      /** Required keys that a JSON object lacks. The source collects them from a
          hash-set difference, in no particular order, so the model keeps a set. */
    | MissingJsonFields(fields: set<string>)
      /** A `serde_json::Error`: text that is not JSON, or a value of the wrong shape. */
    | JsonParseError(message: string)
      /** Every attempt of the chat retry loop was spent. */
    | MaxRetriesExceeded(retries: nat)
      /** The chosen answer carried no text. */
    | NoTextField
      /** A field expected to hold an array held something else. */
    | NotArray
      /** An array expected to hold only strings held something else. */
    | NonStringElement
}
