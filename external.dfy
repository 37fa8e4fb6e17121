/**
 * Library code the core calls but that is not modelled: SHA-256 (`hashContent`),
 * `JSON.stringify` and Handlebars templates. Each stays uninterpreted: it is a
 * function value handed to the model, and no property of the model depends on
 * what it computes beyond the facts stated here (a SHA-256 digest is 64
 * lower-case hexadecimal characters).
 */
module External {

  /** The JavaScript values the core serialises: strings, arrays and objects whose keys keep their literal order. */
  datatype Json = Str(s: string) | Arr(items: seq<Json>) | Obj(fields: seq<(string, Json)>)

  predicate IsHexDigit(c: char) {
    '0' <= c <= '9' || 'a' <= c <= 'f'
  }

  /** A hex-encoded SHA-256 digest, as `digest('hex')` writes it. */
  type Digest = d: string | |d| == 64 && forall i :: 0 <= i < |d| ==> IsHexDigit(d[i])
    witness seq(64, _ => '0')

  /** `hashContent` and `JSON.stringify`. */
  datatype Codecs = Codecs(hash: string -> Digest, stringify: Json -> string)

  /**
   * A compiled Handlebars template: `source` is what `template.toString()` yields and
   * `render` is the call `template(args)`.
   */
  datatype Template = Template(source: string, render: Json -> string)
}

/** The chat messages exchanged with the backend (`OpenAIMessage`). */
module Conversation {
  import opened External

  datatype Role = System | User | Assistant

  datatype Message = Message(role: Role, content: string)

  function RoleName(r: Role): string {
    match r
    case System => "system"
    case User => "user"
    case Assistant => "assistant"
  }

  /** A message as the object `{role, content}` that `JSON.stringify` receives. */
  function MessageJson(m: Message): Json {
    Obj([("role", Str(RoleName(m.role))), ("content", Str(m.content))])
  }

  function MessagesJson(ms: seq<Message>): Json {
    Arr(seq(|ms|, i requires 0 <= i < |ms| => MessageJson(ms[i])))
  }
}
