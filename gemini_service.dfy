/** The generation client: builds the one request sent to the image model and
    decodes its reply into a thrown error, a data URI (section 2 of RFC 2397,
    `data:<mediatype>;base64,<data>`) or null. */
module GeminiService {
  import opened GenAI

  const ModelId: string := "gemini-2.5-flash-image"
  const AspectRatio: string := "16:9"
  const NoResponseMessage: string := "No response from AI model."

  /** The request record for a prompt: the fixed model, one text part, 16:9. */
  function BuildRequest(prompt: string): (req: Request)
    ensures req.model == ModelId && req.aspectRatio == AspectRatio
    ensures |req.parts| == 1 && req.parts[0].text == prompt
  {
    Request(ModelId, [RequestPart(prompt)], AspectRatio)
  }

  /** The parts of the first candidate when every link of the optional chain
      `candidates?.[0]?.content?.parts` is present, and None otherwise. */
  function FirstCandidateParts(response: Response): Option<seq<Part>>
  {
    match response.candidates
    case None => None
    case Some(candidates) =>
      if |candidates| == 0 then None
      else match candidates[0].content
        case None => None
        case Some(content) => content.parts
  }

  predicate HasInline(part: Part)
  {
    part.inlineData.Some?
  }

  /** The data URI for an inline payload. Its contract reads the three fields
      back out of the string: the `data:` scheme, the media type, the
      `;base64,` marker and the payload, in that order and nothing else. */
  function DataUri(inline: InlineData): (uri: string)
    ensures |uri| == 13 + |inline.mimeType| + |inline.data|
    ensures uri[..5] == "data:"
    ensures uri[5..5 + |inline.mimeType|] == inline.mimeType
    ensures uri[5 + |inline.mimeType|..13 + |inline.mimeType|] == ";base64,"
    ensures uri[13 + |inline.mimeType|..] == inline.data
  {
    "data:" + inline.mimeType + ";base64," + inline.data
  }

  /** The index of the first part carrying inline data, or |parts| if none does. */
  function FirstInline(parts: seq<Part>): (i: nat)
    ensures i <= |parts|
    ensures forall j :: 0 <= j < i ==> !HasInline(parts[j])
    ensures i < |parts| ==> HasInline(parts[i])
  {
    if parts == [] then 0
    else if HasInline(parts[0]) then 0
    else 1 + FirstInline(parts[1..])
  }

  /** What the scan of a present part list yields. */
  function FirstImageUri(parts: seq<Part>): Option<string>
  {
    var i := FirstInline(parts);
    if i < |parts| then Some(DataUri(parts[i].inlineData.value)) else None
  }

  /** The decoding of a reply: the structure check, then the scan. */
  function Decode(response: Response): Outcome
  {
    match FirstCandidateParts(response)
    case None => Threw(NoResponseMessage)
    case Some(parts) => Returned(FirstImageUri(parts))
  }

  /** The whole client call against a service: one request, then either the
      service's error rethrown unchanged or the decoded reply. */
  function Generate(prompt: string, service: Request -> Reply): Outcome
  {
    match service(BuildRequest(prompt))
    case Failed(reason) => Threw(reason)
    case Replied(response) => Decode(response)
  }

  /** The client call as the source runs it: send the request, check the
      structure, then walk the parts in order and return at the first one
      with inline data. */
  method GenerateBaseImage(prompt: string, service: Request -> Reply) returns (outcome: Outcome)
    ensures outcome == Generate(prompt, service)
  {
    var reply := service(BuildRequest(prompt));
    if reply.Failed? {
      return Threw(reply.reason);
    }
    var structured := FirstCandidateParts(reply.response);
    if structured.None? {
      return Threw(NoResponseMessage);
    }
    var parts := structured.value;
    for k := 0 to |parts|
      invariant forall j :: 0 <= j < k ==> !HasInline(parts[j])
    {
      if parts[k].inlineData.Some? {
        return Returned(Some(DataUri(parts[k].inlineData.value)));
      }
    }
    return Returned(None);
  }

  // ----- Properties of the decoder -----

  /** A missing candidate list, an empty one, a first candidate without
      content, or content without parts is a hard error with the fixed
      message, never a null return. */
  lemma MissingStructureThrows(response: Response)
    requires response.candidates.None?
          || |response.candidates.value| == 0
          || response.candidates.value[0].content.None?
          || response.candidates.value[0].content.value.parts.None?
    ensures Decode(response) == Threw(NoResponseMessage)
  {
  }

  /** Conversely, the decoder throws only on a missing structure: whenever
      the first candidate's part list is present, it returns. */
  lemma PresentStructureReturns(response: Response)
    requires response.candidates.Some? && |response.candidates.value| > 0
    requires response.candidates.value[0].content.Some?
    requires response.candidates.value[0].content.value.parts.Some?
    ensures Decode(response).Returned?
  {
  }

  /** An empty but present part list yields null, not an error. */
  lemma EmptyPartsReturnNull(response: Response)
    requires FirstCandidateParts(response) == Some([])
    ensures Decode(response) == Returned(None)
  {
  }

  /** Null is returned exactly when the part list is present and no part
      carries inline data. */
  lemma NullIffNoInlinePart(response: Response)
    ensures Decode(response) == Returned(None)
        <==> FirstCandidateParts(response).Some?
             && forall j :: 0 <= j < |FirstCandidateParts(response).value| ==>
                  !HasInline(FirstCandidateParts(response).value[j])
  {
  }

  /** The data URI of the first part with inline data is returned. */
  lemma FirstInlinePartReturned(response: Response, i: nat)
    requires FirstCandidateParts(response).Some?
    requires i < |FirstCandidateParts(response).value|
    requires HasInline(FirstCandidateParts(response).value[i])
    requires forall j :: 0 <= j < i ==> !HasInline(FirstCandidateParts(response).value[j])
    ensures Decode(response)
         == Returned(Some(DataUri(FirstCandidateParts(response).value[i].inlineData.value)))
  {
  }

  /** Parts without inline data in front of the rest are skipped. */
  lemma {:induction false} LeadingPartsSkipped(prefix: seq<Part>, rest: seq<Part>)
    requires forall j :: 0 <= j < |prefix| ==> !HasInline(prefix[j])
    ensures FirstInline(prefix + rest) == |prefix| + FirstInline(rest)
    ensures FirstImageUri(prefix + rest) == FirstImageUri(rest)
  {
    if prefix != [] {
      assert (prefix + rest)[1..] == prefix[1..] + rest;
      LeadingPartsSkipped(prefix[1..], rest);
    } else {
      assert prefix + rest == rest;
    }
  }

  /** Once a part with inline data has been found, nothing appended after it
      changes the result: a second inline part is never returned. */
  lemma {:induction false} LaterPartsIgnored(parts: seq<Part>, suffix: seq<Part>)
    requires FirstImageUri(parts).Some?
    ensures FirstInline(parts + suffix) == FirstInline(parts)
    ensures FirstImageUri(parts + suffix) == FirstImageUri(parts)
  {
    assert parts != [];
    if !HasInline(parts[0]) {
      assert (parts + suffix)[1..] == parts[1..] + suffix;
      LaterPartsIgnored(parts[1..], suffix);
    }
  }

  /** Only the first candidate is looked at: the candidates after it never
      change the outcome. */
  lemma OnlyFirstCandidateMatters(first: Candidate, others: seq<Candidate>)
    ensures Decode(Response(Some([first] + others))) == Decode(Response(Some([first])))
  {
  }

  /** Every string the client returns is a data URI, so it is non-empty. */
  lemma ReturnedImageIsDataUri(prompt: string, service: Request -> Reply)
    requires Generate(prompt, service).Returned? && Generate(prompt, service).image.Some?
    ensures |Generate(prompt, service).image.value| >= 13
    ensures Generate(prompt, service).image.value[..5] == "data:"
  {
  }

  /** An error raised by the network call reaches the caller unchanged. */
  lemma TransportErrorRethrown(prompt: string, service: Request -> Reply)
    requires service(BuildRequest(prompt)).Failed?
    ensures Generate(prompt, service) == Threw(service(BuildRequest(prompt)).reason)
  {
  }

  /** The outcome depends on nothing but the service's answer to the single
      request carrying the prompt: two services that answer that request
      alike give the same outcome, whatever they do on other requests. */
  lemma OnlyThePromptRequestMatters(prompt: string, s1: Request -> Reply, s2: Request -> Reply)
    requires s1(BuildRequest(prompt)) == s2(BuildRequest(prompt))
    ensures Generate(prompt, s1) == Generate(prompt, s2)
  {
  }

  /** Two different payloads of the same media type never give the same URI. */
  lemma DataUriInjective(a: InlineData, b: InlineData)
    requires DataUri(a) == DataUri(b)
    requires a.mimeType == b.mimeType
    ensures a == b
  {
  }
}
