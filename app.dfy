/**
 * The generation handler of the main screen: it validates the inputs of the selected mode,
 * calls the matching service function and reflects the outcome in the `loading`, `error`
 * and `generatedUrl` state that the result area renders.
 */
module App {
  import opened Wrappers
  import opened Types
  import opened GeminiService

  const CatalogInputsMissingMessage: string := "Por favor, carregue a foto da joia e a referência."
  const PromptMissingMessage: string := "Por favor, insira um prompt."
  const EditInputsMissingMessage: string := "Imagem e instruções necessárias."
  const UnknownErrorMessage: string := "Ocorreu um erro desconhecido."

  /** A call of one of the three service functions, with the arguments passed. */
  datatype ServiceCall =
    | CatalogCall(productImageBase64: string, productMimeType: string,
                  referenceImageBase64: string, referenceMimeType: string, ratio: AspectRatio)
    | CreativeCall(prompt: string, ratio: AspectRatio)
    | EditCall(imageBase64: string, mimeType: string, instructions: string)

  /** The message thrown when the inputs of `mode` are incomplete. */
  function MissingInputMessage(mode: GeneratorMode): (m: string)
    ensures m != ""
  {
    match mode
    case Catalog => CatalogInputsMissingMessage
    case Creative => PromptMissingMessage
    case Edit => EditInputsMissingMessage
  }

  /** The service call the handler makes for these inputs, or the validation message it throws instead. */
  function PlannedCall(
    mode: GeneratorMode, jewelryImage: Option<ImageFile>, referenceImage: Option<ImageFile>,
    textPrompt: string, editSourceImage: Option<ImageFile>, aspectRatio: AspectRatio): (r: Result<ServiceCall>)
    ensures mode == Catalog ==> (r.Failure? <==> jewelryImage.None? || referenceImage.None?)
    ensures mode == Creative ==> (r.Failure? <==> textPrompt == "")
    ensures mode == Edit ==> (r.Failure? <==> editSourceImage.None? || textPrompt == "")
    ensures r.Failure? ==> r.error == MissingInputMessage(mode)
    ensures r.Success? && mode == Catalog ==> r.value == CatalogCall(
      jewelryImage.value.base64, jewelryImage.value.mimeType,
      referenceImage.value.base64, referenceImage.value.mimeType, aspectRatio)
    ensures r.Success? && mode == Creative ==> r.value == CreativeCall(textPrompt, aspectRatio)
    ensures r.Success? && mode == Edit ==> r.value == EditCall(
      editSourceImage.value.base64, editSourceImage.value.mimeType, textPrompt)
  {
    match mode
    case Catalog =>
      if jewelryImage.None? || referenceImage.None? then Failure(CatalogInputsMissingMessage)
      else Success(CatalogCall(jewelryImage.value.base64, jewelryImage.value.mimeType,
                               referenceImage.value.base64, referenceImage.value.mimeType, aspectRatio))
    case Creative =>
      if textPrompt == "" then Failure(PromptMissingMessage)
      else Success(CreativeCall(textPrompt, aspectRatio))
    case Edit =>
      if editSourceImage.None? || textPrompt == "" then Failure(EditInputsMissingMessage)
      else Success(EditCall(editSourceImage.value.base64, editSourceImage.value.mimeType, textPrompt))
  }

  /** What the service function named by `call` returns or throws. */
  function CallResult(call: ServiceCall, apiKey: Option<string>, provider: Provider): (r: Result<string>)
    ensures !HasApiKey(apiKey) ==> r == Failure(ApiKeyMissingMessage)
  {
    match call
    case CatalogCall(pb, pm, rb, rm, ratio) => CatalogResult(apiKey, provider, pb, pm, rb, rm, ratio)
    case CreativeCall(prompt, ratio) => CreativeResult(apiKey, provider, prompt, ratio)
    case EditCall(b, m, instructions) => EditResult(apiKey, provider, b, m, instructions)
  }

  /** `err.message || UnknownErrorMessage`: the text shown for a thrown error. */
  function ErrorText(message: string): (text: string)
    ensures text != ""
    ensures message != "" ==> text == message
    ensures message == "" ==> text == UnknownErrorMessage
  {
    if message == "" then UnknownErrorMessage else message
  }

  /** What the result area renders from: the spinner flag, the error and the produced image. */
  datatype ViewState = ViewState(loading: bool, error: Option<string>, generatedUrl: Option<string>)

  /** The state a run of the handler ends in, given the planned call. */
  function Outcome(planned: Result<ServiceCall>, apiKey: Option<string>, provider: Provider): (s: ViewState)
    ensures !s.loading
    ensures s.error.Some? <==> s.generatedUrl.None?
    ensures s.error.Some? ==> s.error.value != ""
    ensures planned.Failure? ==> s == ViewState(false, Some(ErrorText(planned.error)), None)
    ensures planned.Success? && CallResult(planned.value, apiKey, provider).Success? ==>
      s.generatedUrl == Some(CallResult(planned.value, apiKey, provider).value)
    ensures planned.Success? && CallResult(planned.value, apiKey, provider).Failure? ==>
      s.error == Some(ErrorText(CallResult(planned.value, apiKey, provider).error))
  {
    var result := match planned
      case Failure(m) => Failure(m)
      case Success(call) => CallResult(call, apiKey, provider);
    match result
    case Success(url) => ViewState(false, None, Some(url))
    case Failure(m) => ViewState(false, Some(ErrorText(m)), None)
  }

  /** Incomplete inputs end in their validation message, whatever the key and the service would do. */
  lemma ValidationFailureIgnoresService(
    mode: GeneratorMode, jewelryImage: Option<ImageFile>, referenceImage: Option<ImageFile>,
    textPrompt: string, editSourceImage: Option<ImageFile>, aspectRatio: AspectRatio,
    apiKey: Option<string>, provider: Provider)
    requires PlannedCall(mode, jewelryImage, referenceImage, textPrompt, editSourceImage, aspectRatio).Failure?
    ensures Outcome(PlannedCall(mode, jewelryImage, referenceImage, textPrompt, editSourceImage, aspectRatio),
      apiKey, provider) == ViewState(false, Some(MissingInputMessage(mode)), None)
  {
  }

  /** Complete inputs without an API key end in the configuration error. */
  lemma MissingKeyOutcome(call: ServiceCall, apiKey: Option<string>, provider: Provider)
    requires !HasApiKey(apiKey)
    ensures Outcome(Success(call), apiKey, provider) == ViewState(false, Some(ApiKeyMissingMessage), None)
  {
  }

  /**
   * A creative run for "emerald ring on marble pedestal" in the square ratio, against a service
   * that returns one image, ends showing that image as a JPEG data URL.
   */
  lemma CreativeScenario(apiKey: string, provider: Provider, bytes: string)
    requires apiKey != "" && bytes != ""
    requires provider.generateImages(Client(apiKey), CreativeRequest("emerald ring on marble pedestal", Square))
      == Success(ImagesResponse(Some([GeneratedImage(Some(Image(Some(bytes))))])))
    ensures Outcome(PlannedCall(Creative, None, None, "emerald ring on marble pedestal", None, Square),
      Some(apiKey), provider) == ViewState(false, None, Some("data:image/jpeg;base64," + bytes))
  {
    var prompt := "emerald ring on marble pedestal";
    assert PlannedCall(Creative, None, None, prompt, None, Square) == Success(CreativeCall(prompt, Square));
    var response := provider.generateImages(Client(apiKey), CreativeRequest(prompt, Square)).value;
    assert FirstImageBytes(response) == Some(bytes);
    CreativeResultCases(Some(apiKey), provider, prompt, Square);
    assert CallResult(CreativeCall(prompt, Square), Some(apiKey), provider)
      == Success(DataUrlPrefix("image/jpeg") + bytes);
    assert DataUrlPrefix("image/jpeg") == "data:image/jpeg;base64,";
    assert Outcome(Success(CreativeCall(prompt, Square)), Some(apiKey), provider)
      == ViewState(false, None, Some(DataUrlPrefix("image/jpeg") + bytes));
  }

  /** The state of the main screen that the generation handler reads and writes. */
  class Generator {
    var mode: GeneratorMode
    var jewelryImage: Option<ImageFile>
    var referenceImage: Option<ImageFile>
    var textPrompt: string
    var editSourceImage: Option<ImageFile>
    var aspectRatio: AspectRatio
    var generatedUrl: Option<string>
    var loading: bool
    var error: Option<string>
    /** The calls made to the image service so far, oldest first (a record for specification only). */
    ghost var serviceCalls: seq<ServiceCall>

    /** The initial state of the screen. */
    constructor ()
      ensures mode == Catalog && jewelryImage.None? && referenceImage.None?
      ensures textPrompt == "" && editSourceImage.None? && aspectRatio == Square
      ensures generatedUrl.None? && !loading && error.None?
      ensures serviceCalls == []
    {
      mode := Catalog;
      jewelryImage, referenceImage := None, None;
      textPrompt := "";
      editSourceImage := None;
      aspectRatio := Square;
      generatedUrl, loading, error := None, false, None;
      serviceCalls := [];
    }

    /** The call the current inputs lead to. */
    function Planned(): Result<ServiceCall>
      reads this`mode, this`jewelryImage, this`referenceImage, this`textPrompt,
        this`editSourceImage, this`aspectRatio
    {
      PlannedCall(mode, jewelryImage, referenceImage, textPrompt, editSourceImage, aspectRatio)
    }

    /** `handleGenerate`: one complete run, from pressing the button to the rendered outcome. */
    method HandleGenerate(apiKey: Option<string>, provider: Provider)
      modifies this`loading, this`error, this`generatedUrl, this`serviceCalls
      ensures ViewState(loading, error, generatedUrl) == Outcome(Planned(), apiKey, provider)
      ensures serviceCalls == old(serviceCalls) + (if Planned().Success? then [Planned().value] else [])
    {
      loading := true;
      error := None;
      generatedUrl := None;
      var result := Attempt(apiKey, provider);
      match result {
        case Success(url) =>
          generatedUrl := Some(url);
        case Failure(message) =>
          error := Some(ErrorText(message));
      }
      loading := false;
    }

    /**
     * The `try` block of the handler, run while the spinner shows and no previous error or
     * image is displayed: validation, then at most one service call.
     */
    method Attempt(apiKey: Option<string>, provider: Provider) returns (r: Result<string>)
      requires loading && error.None? && generatedUrl.None?
      modifies this`serviceCalls
      ensures Planned().Failure? ==> r == Failure(Planned().error) && serviceCalls == old(serviceCalls)
      ensures Planned().Success? ==>
        r == CallResult(Planned().value, apiKey, provider) && serviceCalls == old(serviceCalls) + [Planned().value]
    {
      var planned := PlannedCall(mode, jewelryImage, referenceImage, textPrompt, editSourceImage, aspectRatio);
      if planned.Failure? {
        return Failure(planned.error);
      }
      r := Dispatch(planned.value, apiKey, provider);
    }

    /**
     * Calls the service function named by `call` and records the call: this is the only
     * member through which the screen reaches the service.
     */
    method Dispatch(call: ServiceCall, apiKey: Option<string>, provider: Provider) returns (r: Result<string>)
      modifies this`serviceCalls
      ensures r == CallResult(call, apiKey, provider)
      ensures serviceCalls == old(serviceCalls) + [call]
    {
      serviceCalls := serviceCalls + [call];
      match call
      case CatalogCall(pb, pm, rb, rm, ratio) =>
        r := GenerateCatalogImage(apiKey, provider, pb, pm, rb, rm, ratio);
      case CreativeCall(prompt, ratio) =>
        r := GenerateCreativeImage(apiKey, provider, prompt, ratio);
      case EditCall(b, m, instructions) =>
        r := EditImage(apiKey, provider, b, m, instructions);
    }
  }
}
