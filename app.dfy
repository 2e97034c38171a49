/** The cover editor's view state: the five state cells of the page and the
    events that change them (text edits, the start and the resolution of a
    generation, and the text reset), with the enable rules of its buttons. */
module CoverApp {
  import opened GenAI
  import GeminiService

  const DefaultQuote: string := "កុំបោះបង់ ពេលវាពិបាក"
  const DefaultSubtitle: string := "Don't give up when it's hard"
  const ImagePrompt: string := "An inspirational life quote cover image, sunrise over a long empty road leading to mountains, soft blue and warm orange gradient sky, symbol of hope, perseverance, and new beginnings, minimalist and calm style, cinematic lighting, emotional atmosphere, high quality, clean, professional photography, no people close-up, no text overlay, center space for text placement."
  const FailedMessage: string := "Failed to generate image. Please try again."
  const UnexpectedMessage: string := "An unexpected error occurred."

  /** JavaScript truthiness of a string: only the empty string is falsy. */
  predicate Truthy(s: string)
  {
    s != ""
  }

  /** A generation that delivers a truthy image string. */
  predicate Succeeded(outcome: Outcome)
  {
    outcome.Returned? && outcome.image.Some? && Truthy(outcome.image.value)
  }

  /** The message shown after a failed generation. */
  function FailureMessage(outcome: Outcome): (message: string)
    requires !Succeeded(outcome)
    ensures message != ""
    ensures outcome.Returned? ==> message == FailedMessage
    ensures outcome.Threw? && outcome.message != "" ==> message == outcome.message
    ensures outcome.Threw? && outcome.message == "" ==> message == UnexpectedMessage
  {
    match outcome
    case Returned(_) => FailedMessage
    case Threw(m) => if Truthy(m) then m else UnexpectedMessage
  }

  class App {
    var quote: string
    var subtitle: string
    var imageSrc: Option<string>
    var isGenerating: bool
    var error: Option<string>

    /** While a generation is in flight no error is shown; a shown error and
        a shown image are never the empty string. */
    ghost predicate Valid()
      reads this
    {
      (isGenerating ==> error == None) &&
      (error.Some? ==> error.value != "") &&
      (imageSrc.Some? ==> imageSrc.value != "")
    }

    /** The generate button is enabled unless a generation is in flight. */
    predicate GenerateEnabled()
      reads this
    {
      !isGenerating
    }

    /** The download button is enabled when an image is shown and no
        generation is in flight. */
    predicate DownloadEnabled()
      reads this
    {
      imageSrc.Some? && Truthy(imageSrc.value) && !isGenerating
    }

    /** The state at start-up: default texts, no image, idle, no error. */
    constructor ()
      ensures Valid()
      ensures quote == DefaultQuote && subtitle == DefaultSubtitle
      ensures imageSrc == None && !isGenerating && error == None
      ensures GenerateEnabled() && !DownloadEnabled()
    {
      quote := DefaultQuote;
      subtitle := DefaultSubtitle;
      imageSrc := None;
      isGenerating := false;
      error := None;
    }

    /** Editing the quote replaces it as typed and touches nothing else. */
    method SetQuote(text: string)
      requires Valid()
      modifies this
      ensures Valid()
      ensures quote == text
      ensures subtitle == old(subtitle) && imageSrc == old(imageSrc)
      ensures isGenerating == old(isGenerating) && error == old(error)
    {
      quote := text;
    }

    /** Editing the subtitle replaces it as typed and touches nothing else. */
    method SetSubtitle(text: string)
      requires Valid()
      modifies this
      ensures Valid()
      ensures subtitle == text
      ensures quote == old(quote) && imageSrc == old(imageSrc)
      ensures isGenerating == old(isGenerating) && error == old(error)
    {
      subtitle := text;
    }

    /** The synchronous part of a generate click: mark busy and clear the
        error. The button is disabled while busy, hence the precondition. */
    method StartGenerate()
      requires Valid() && GenerateEnabled()
      modifies this
      ensures Valid()
      ensures isGenerating && error == None
      ensures quote == old(quote) && subtitle == old(subtitle) && imageSrc == old(imageSrc)
      ensures !GenerateEnabled() && !DownloadEnabled()
    {
      isGenerating := true;
      error := None;
    }

    /** The part of a generate click after the client call settles: show the
        image, or keep the previous image and show an error; in every case
        the page is idle again. */
    method Resolve(outcome: Outcome)
      requires Valid() && isGenerating
      modifies this
      ensures Valid()
      ensures !isGenerating && GenerateEnabled()
      ensures quote == old(quote) && subtitle == old(subtitle)
      ensures Succeeded(outcome) ==> imageSrc == outcome.image && error == None
      ensures !Succeeded(outcome) ==>
                imageSrc == old(imageSrc) && error == Some(FailureMessage(outcome))
      ensures DownloadEnabled() <==> imageSrc.Some?
    {
      match outcome {
        case Returned(image) =>
          if image.Some? && Truthy(image.value) {
            imageSrc := image;
          } else {
            error := Some(FailedMessage);
          }
        case Threw(message) =>
          error := Some(if Truthy(message) then message else UnexpectedMessage);
      }
      isGenerating := false;
    }

    /** A whole generate click: start, one client call with the fixed prompt
        against the given service, and the resolution of its outcome. */
    method HandleGenerate(service: Request -> Reply)
      requires Valid() && GenerateEnabled()
      modifies this
      ensures Valid()
      ensures !isGenerating
      ensures quote == old(quote) && subtitle == old(subtitle)
      ensures var outcome := GeminiService.Generate(ImagePrompt, service);
              if Succeeded(outcome)
              then imageSrc == outcome.image && error == None
              else imageSrc == old(imageSrc) && error == Some(FailureMessage(outcome))
      ensures imageSrc != old(imageSrc) ==> imageSrc.Some? && imageSrc.value[..5] == "data:"
    {
      StartGenerate();
      var outcome := GeminiService.GenerateBaseImage(ImagePrompt, service);
      if outcome.Returned? && outcome.image.Some? {
        GeminiService.ReturnedImageIsDataUri(ImagePrompt, service);
      }
      Resolve(outcome);
    }

    /** The reset button: both texts back to their defaults, nothing else. */
    method ResetText()
      requires Valid()
      modifies this
      ensures Valid()
      ensures quote == DefaultQuote && subtitle == DefaultSubtitle
      ensures imageSrc == old(imageSrc) && isGenerating == old(isGenerating) && error == old(error)
    {
      quote := DefaultQuote;
      subtitle := DefaultSubtitle;
    }
  }

  /** The default page, then one generate click answered by a single PNG part. */
  method PngCoverScenario() returns (app: App)
    ensures app.quote == DefaultQuote && app.subtitle == DefaultSubtitle
    ensures app.imageSrc == Some("data:image/png;base64,Abc123")
    ensures app.error == None && !app.isGenerating && app.DownloadEnabled()
  {
    var png := Part(None, Some(InlineData("image/png", "Abc123")));
    var response := Response(Some([Candidate(Some(Content(Some([png]))))]));
    var service: Request -> Reply := _ => Replied(response);
    assert GeminiService.FirstCandidateParts(response) == Some([png]);
    assert GeminiService.FirstInline([png]) == 0;
    assert GeminiService.DataUri(png.inlineData.value) == "data:image/png;base64,Abc123";
    assert service(GeminiService.BuildRequest(ImagePrompt)) == Replied(response);
    app := new App();
    app.HandleGenerate(service);
  }
}
