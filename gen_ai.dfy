/** The shapes exchanged with the hosted image model: the request record the
    client sends, the structured reply it reads, and what the client hands
    back to its caller. Optional fields of the reply are `Option`s so that
    every optional-chaining step of the decoder is an explicit case. */
module GenAI {

  datatype Option<+T> = None | Some(value: T)

  /** An inline binary payload: its MIME type and its base64 text, kept as
      text (the client never decodes it). */
  datatype InlineData = InlineData(mimeType: string, data: string)

  /** One content part of a candidate: text, inline binary data, or both absent. */
  datatype Part = Part(text: Option<string>, inlineData: Option<InlineData>)

  datatype Content = Content(parts: Option<seq<Part>>)

  datatype Candidate = Candidate(content: Option<Content>)

  /** The reply of the generation service; `candidates` may be missing. */
  datatype Response = Response(candidates: Option<seq<Candidate>>)

  /** A text part of the outgoing request. */
  datatype RequestPart = RequestPart(text: string)

  /** The request record: model identifier, the parts of the single content,
      and the image aspect ratio of the image configuration. */
  datatype Request = Request(model: string, parts: seq<RequestPart>, aspectRatio: string)

  /** What the network call produces: a reply, or an error it raised. */
  datatype Reply = Replied(response: Response) | Failed(reason: string)

  /** What the client's asynchronous call settles to: it throws an error
      with a message, or returns a data URI or null. */
  datatype Outcome = Threw(message: string) | Returned(image: Option<string>)
}
