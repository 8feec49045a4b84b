/**
 * The client of the image-generation service: the credential check, the requests the three
 * modes build, and how an image is extracted from the reply. The service itself is an
 * oracle (`Provider`): the model fixes what is sent to it and what is made of its answer.
 *
 * Each entry point comes twice: a function (`CatalogResult`, `CreativeResult`, `EditResult`,
 * `ContentResult`) that says what the call returns or throws, for lemmas and for the app's
 * specification to use, and a method (`GenerateCatalogImage`, `GenerateCreativeImage`,
 * `EditImage`, `SendContent`) that does it the way the service code does, with the loop over
 * the reply's parts (`FindImageData`), proved equal to its function.
 */
module GeminiService {
  import opened Wrappers
  import opened Text
  import opened Types

  const ApiKeyMissingMessage: string := "API_KEY não configurada no ambiente."
  const CatalogFailureMessage: string := "A IA não retornou uma imagem válida. Tente novamente."
  const CreativeFailureMessage: string := "Erro ao gerar imagem criativa."
  const EditFailureMessage: string := "Erro ao editar imagem."

  /** The multimodal model used by the catalog and edit modes. */
  const ContentModel: string := "gemini-2.5-flash-image"
  /** The text-to-image model used by the creative mode. */
  const ImagesModel: string := "imagen-4.0-generate-001"

  /** The text the edit mode puts before the user's instructions. */
  const EditInstructionsLabel: string := "Edit instructions: "

  /** The catalog prompt, before and after the format it names. */
  const CatalogPromptHead: string :=
    "\n    Aja como um fotógrafo profissional de joias de luxo.\n"
    + "    OBJETIVO: Criar uma foto de catálogo perfeita.\n"
    + "    \n"
    + "    INSTRUÇÕES:\n"
    + "    1. Pegue a JOIA da 'Imagem do Produto'.\n"
    + "    2. Aplique o ESTILO, ILUMINAÇÃO e FUNDO da 'Imagem de Referência'.\n"
    + "    3. Preserve a geometria exata, cor e detalhes da joia original.\n"
    + "    4. O resultado deve ser uma composição fotorrealista de alta qualidade em formato "
  const CatalogPromptTail: string := ".\n  "

  /** A configured SDK client, holding the key it was built with. */
  datatype Client = Client(apiKey: string)

  // What is sent.

  /** Base64 payload and MIME type of an image sent inline. */
  datatype Blob = Blob(data: string, mimeType: string)
  datatype RequestPart = InlineDataPart(inlineData: Blob) | TextPart(text: string)
  datatype ImageConfig = ImageConfig(aspectRatio: string)
  /** A multimodal content request: model, ordered parts and an optional output shape. */
  datatype ContentRequest = ContentRequest(model: string, parts: seq<RequestPart>, imageConfig: Option<ImageConfig>)
  /** A text-to-image request. */
  datatype ImagesRequest = ImagesRequest(
    model: string, prompt: string, numberOfImages: nat, outputMimeType: string, aspectRatio: string)

  // What comes back; every field may be missing.

  datatype ResponseBlob = ResponseBlob(data: Option<string>)
  datatype ResponsePart = ResponsePart(inlineData: Option<ResponseBlob>, text: Option<string>)
  datatype Content = Content(parts: Option<seq<ResponsePart>>)
  datatype Candidate = Candidate(content: Option<Content>)
  datatype ContentResponse = ContentResponse(candidates: Option<seq<Candidate>>)
  datatype Image = Image(imageBytes: Option<string>)
  datatype GeneratedImage = GeneratedImage(image: Option<Image>)
  datatype ImagesResponse = ImagesResponse(generatedImages: Option<seq<GeneratedImage>>)

  /** The remote service: each call returns a response or throws an error with some message. */
  datatype Provider = Provider(
    generateContent: (Client, ContentRequest) -> Result<ContentResponse>,
    generateImages: (Client, ImagesRequest) -> Result<ImagesResponse>)

  /** The key is set and not empty. */
  predicate HasApiKey(apiKey: Option<string>)
    ensures HasApiKey(apiKey) <==> apiKey.Some? && |apiKey.value| > 0
  {
    apiKey.Some? && apiKey.value != ""
  }

  /** The client for the configured key; a missing or empty key is a configuration error. */
  function GetAiClient(apiKey: Option<string>): (r: Result<Client>)
    ensures r.Success? <==> HasApiKey(apiKey)
    ensures r.Success? ==> r.value.apiKey == apiKey.value
    ensures r.Failure? ==> r.error == ApiKeyMissingMessage
  {
    if apiKey.None? || apiKey.value == "" then Failure(ApiKeyMissingMessage)
    else Success(Client(apiKey.value))
  }

  /**
   * The payload of a data URL: the second comma-separated field, or the whole input when
   * there is no comma or that field is empty; the empty string stays empty.
   */
  function StripBase64Prefix(base64: string): (r: string)
    ensures r == "" <==> base64 == ""
    ensures r != base64 ==> ',' !in r && |r| < |base64|
  {
    if base64 == "" then ""
    else
      var fields := Split(base64, ',');
      if |fields| >= 2 && fields[1] != "" then
        JoinSplit(base64, ',');
        assert base64 == fields[0] + [','] + Join(fields[1..], ',');
        fields[1]
      else base64
  }

  /** Input without a comma is passed through. */
  lemma StripWithoutComma(s: string)
    requires ',' !in s
    ensures StripBase64Prefix(s) == s
  {
    SplitWithoutSeparator(s, ',');
  }

  /**
   * Input with a comma: `a,b` followed by nothing or by a comma and more gives `b`,
   * unless `b` is empty, in which case the input is passed through.
   */
  lemma StripSecondField(a: string, b: string, tail: string)
    requires ',' !in a && ',' !in b
    requires tail == "" || tail[0] == ','
    ensures var s := a + [','] + b + tail;
      StripBase64Prefix(s) == if b != "" then b else s
  {
    var s := a + [','] + b + tail;
    assert s == a + [','] + (b + tail);
    SplitAtFirst(a, b + tail, ',');
    if tail == "" {
      assert b + tail == b;
      SplitWithoutSeparator(b, ',');
    } else {
      assert b + tail == b + [','] + tail[1..];
      SplitAtFirst(b, tail[1..], ',');
    }
  }

  /** Stripping `data:<m>;base64,<p>` gives back `p` when neither holds a comma and `p` is not empty. */
  lemma StripDataUrl(m: string, p: string)
    requires ',' !in m && ',' !in p && p != ""
    ensures StripBase64Prefix(DataUrlPrefix(m) + p) == p
  {
    var a := "data:" + m + ";base64";
    assert DataUrlPrefix(m) + p == a + [','] + p + "";
    StripSecondField(a, p, "");
  }

  /** The output shape of catalog mode: 9:16 for the story ratio, square for every other. */
  function CatalogAspectRatio(ratio: AspectRatio): (r: string)
    ensures r == AspectRatioWire(Story) <==> ratio == Story
    ensures r == AspectRatioWire(Square) <==> ratio != Story
    ensures r == AspectRatioWire(ratio) <==> ratio in {Story, Square}
  {
    if ratio == Story then "9:16" else "1:1"
  }

  /** The catalog instructions, naming the output format. */
  function CatalogPrompt(ratioInstruction: string): (p: string)
    ensures |p| == |CatalogPromptHead| + |ratioInstruction| + |CatalogPromptTail|
    ensures StartsWith(p, CatalogPromptHead)
    ensures p[|CatalogPromptHead|..|CatalogPromptHead| + |ratioInstruction|] == ratioInstruction
    ensures p[|CatalogPromptHead| + |ratioInstruction|..] == CatalogPromptTail
  {
    var p := CatalogPromptHead + ratioInstruction + CatalogPromptTail;
    assert p[..|CatalogPromptHead|] == CatalogPromptHead;
    p
  }

  /** The prompt determines the format it names: different formats give different prompts. */
  lemma CatalogPromptNamesFormat(x: string, y: string)
    requires CatalogPrompt(x) == CatalogPrompt(y)
    ensures x == y
  {
  }

  /** The catalog request: product image, then reference image, then the instructions. */
  function CatalogRequest(
    productImageBase64: string, productMimeType: string,
    referenceImageBase64: string, referenceMimeType: string, ratio: AspectRatio): (r: ContentRequest)
    ensures r.model == ContentModel && |r.parts| == 3
    ensures r.parts[0] == InlineDataPart(Blob(StripBase64Prefix(productImageBase64), productMimeType))
    ensures r.parts[1] == InlineDataPart(Blob(StripBase64Prefix(referenceImageBase64), referenceMimeType))
    ensures r.imageConfig.Some? && r.imageConfig.value.aspectRatio == CatalogAspectRatio(ratio)
    ensures r.parts[2] == TextPart(CatalogPrompt(r.imageConfig.value.aspectRatio))
  {
    var ratioInstruction := CatalogAspectRatio(ratio);
    ContentRequest(
      ContentModel,
      [ InlineDataPart(Blob(StripBase64Prefix(productImageBase64), productMimeType)),
        InlineDataPart(Blob(StripBase64Prefix(referenceImageBase64), referenceMimeType)),
        TextPart(CatalogPrompt(ratioInstruction)) ],
      Some(ImageConfig(if ratio == Story then "9:16" else "1:1")))
  }

  /** The creative request: one JPEG image for the prompt as typed, in the chosen ratio. */
  function CreativeRequest(prompt: string, ratio: AspectRatio): (r: ImagesRequest)
    ensures r.model == ImagesModel && r.numberOfImages == 1 && r.outputMimeType == "image/jpeg"
    ensures r.prompt == prompt
    ensures ParseAspectRatio(r.aspectRatio) == Some(ratio)
  {
    ParseAspectRatioWire(ratio);
    ImagesRequest(ImagesModel, prompt, 1, "image/jpeg", AspectRatioWire(ratio))
  }

  /** The edit request: the image, then the labelled instructions; no output shape. */
  function EditRequest(imageBase64: string, mimeType: string, instructions: string): (r: ContentRequest)
    ensures r.model == ContentModel && r.imageConfig.None?
    ensures |r.parts| == 2
    ensures r.parts[0] == InlineDataPart(Blob(StripBase64Prefix(imageBase64), mimeType))
    ensures r.parts[1] == TextPart(EditInstructionsLabel + instructions)
  {
    var text := EditInstructionsLabel + instructions;
    ContentRequest(ContentModel, [InlineDataPart(Blob(StripBase64Prefix(imageBase64), mimeType)), TextPart(text)], None)
  }

  /** `part.inlineData?.data` is truthy: the part carries non-empty image data. */
  predicate CarriesImage(part: ResponsePart)
    ensures CarriesImage(part) ==> part.inlineData.Some? && part.inlineData.value.data.Some?
    ensures CarriesImage(part) ==> |part.inlineData.value.data.value| > 0
    ensures part.inlineData.Some? && part.inlineData.value.data.Some? && part.inlineData.value.data.value != "" ==>
      CarriesImage(part)
    ensures part.inlineData.None? || part.inlineData.value.data.None? ==> !CarriesImage(part)
  {
    part.inlineData.Some? && part.inlineData.value.data.Some? && part.inlineData.value.data.value != ""
  }

  /** The image data of a part that carries some. */
  function ImageData(part: ResponsePart): string
    requires CarriesImage(part)
  {
    part.inlineData.value.data.value
  }

  /** `response.candidates?.[0]?.content?.parts`. */
  function CandidateParts(response: ContentResponse): (r: Option<seq<ResponsePart>>)
    ensures response.candidates.None? || |response.candidates.value| == 0 ==> r.None?
    ensures r.Some? <==> (
      && response.candidates.Some? && |response.candidates.value| > 0
      && response.candidates.value[0].content.Some?
      && response.candidates.value[0].content.value.parts.Some?)
    ensures r.Some? ==>
      && response.candidates.Some? && |response.candidates.value| > 0
      && response.candidates.value[0].content.Some?
      && r == response.candidates.value[0].content.value.parts
  {
    if response.candidates.Some? && |response.candidates.value| > 0
      && response.candidates.value[0].content.Some?
    then response.candidates.value[0].content.value.parts
    else None
  }

  /** The data of the first part that carries an image; earlier parts are skipped. */
  function FirstImageData(parts: seq<ResponsePart>): (r: Option<string>)
    ensures r.Some? <==> exists i :: 0 <= i < |parts| && CarriesImage(parts[i])
    ensures r.Some? ==> exists k :: (0 <= k < |parts| && CarriesImage(parts[k]) && r.value == ImageData(parts[k])
      && forall j :: 0 <= j < k ==> !CarriesImage(parts[j]))
    ensures r.Some? ==> r.value != ""
  {
    if |parts| == 0 then None
    else if CarriesImage(parts[0]) then Some(ImageData(parts[0]))
    else
      var r := FirstImageData(parts[1..]);
      assert forall i :: 1 <= i < |parts| ==> parts[i] == parts[1..][i - 1];
      r
  }

  /** The loop over the reply's parts, returning at the first one with image data. */
  method FindImageData(parts: seq<ResponsePart>) returns (data: Option<string>)
    ensures data == FirstImageData(parts)
  {
    var i := 0;
    while i < |parts|
      invariant 0 <= i <= |parts|
      invariant FirstImageData(parts[i..]) == FirstImageData(parts)
    {
      if CarriesImage(parts[i]) {
        return Some(ImageData(parts[i]));
      }
      assert parts[i..][1..] == parts[i + 1..];
      i := i + 1;
    }
    return None;
  }

  /** What a content request yields: an error the call threw, a PNG data URL, or `failure`. */
  function ContentResult(client: Client, provider: Provider, request: ContentRequest, failure: string): (r: Result<string>)
    ensures var reply := provider.generateContent(client, request);
      reply.Failure? ==> r == Failure(reply.error)
    ensures var reply := provider.generateContent(client, request);
      reply.Success? ==>
        (r.Success? <==> var parts := CandidateParts(reply.value);
          parts.Some? && exists i :: 0 <= i < |parts.value| && CarriesImage(parts.value[i]))
    ensures var reply := provider.generateContent(client, request);
      reply.Success? && r.Failure? ==> r.error == failure
  {
    match provider.generateContent(client, request)
    case Failure(e) => Failure(e)
    case Success(response) =>
      match CandidateParts(response)
      case None => Failure(failure)
      case Some(parts) =>
        match FirstImageData(parts)
        case None => Failure(failure)
        case Some(data) => Success(DataUrlPrefix("image/png") + data)
  }

  /** Sends a content request and extracts the first image from the first candidate. */
  method SendContent(client: Client, provider: Provider, request: ContentRequest, failure: string)
    returns (r: Result<string>)
    ensures r == ContentResult(client, provider, request, failure)
  {
    var response := provider.generateContent(client, request);
    if response.Failure? {
      return Failure(response.error);
    }
    var parts := CandidateParts(response.value);
    if parts.Some? {
      var data := FindImageData(parts.value);
      if data.Some? {
        return Success(DataUrlPrefix("image/png") + data.value);
      }
    }
    return Failure(failure);
  }

  /** A reply whose parts carry no image data, text only for example, is the fixed failure. */
  lemma NoImageYieldsFailure(client: Client, provider: Provider, request: ContentRequest, failure: string)
    requires provider.generateContent(client, request).Success?
    requires var parts := CandidateParts(provider.generateContent(client, request).value);
      parts.Some? ==> forall i :: 0 <= i < |parts.value| ==> !CarriesImage(parts.value[i])
    ensures ContentResult(client, provider, request, failure) == Failure(failure)
  {
  }

  /** A reply with image data yields a PNG data URL of the first such part's data. */
  lemma FirstImageYieldsDataUrl(
    client: Client, provider: Provider, request: ContentRequest, failure: string,
    parts: seq<ResponsePart>, k: nat)
    requires provider.generateContent(client, request).Success?
    requires CandidateParts(provider.generateContent(client, request).value) == Some(parts)
    requires k < |parts| && CarriesImage(parts[k])
    requires forall j :: 0 <= j < k ==> !CarriesImage(parts[j])
    ensures ContentResult(client, provider, request, failure) == Success(DataUrlPrefix("image/png") + ImageData(parts[k]))
  {
    var r := FirstImageData(parts);
    assert r.Some?;
    var k' :| 0 <= k' < |parts| && CarriesImage(parts[k']) && r.value == ImageData(parts[k'])
      && forall j :: 0 <= j < k' ==> !CarriesImage(parts[j]);
    assert k' == k;
  }

  /** What `generateCatalogImage` returns or throws. */
  function CatalogResult(
    apiKey: Option<string>, provider: Provider,
    productImageBase64: string, productMimeType: string,
    referenceImageBase64: string, referenceMimeType: string, ratio: AspectRatio): (r: Result<string>)
    ensures !HasApiKey(apiKey) ==> r == Failure(ApiKeyMissingMessage)
    ensures HasApiKey(apiKey) ==> r == ContentResult(Client(apiKey.value), provider,
      CatalogRequest(productImageBase64, productMimeType, referenceImageBase64, referenceMimeType, ratio),
      CatalogFailureMessage)
  {
    match GetAiClient(apiKey)
    case Failure(e) => Failure(e)
    case Success(client) =>
      ContentResult(client, provider,
        CatalogRequest(productImageBase64, productMimeType, referenceImageBase64, referenceMimeType, ratio),
        CatalogFailureMessage)
  }

  /** `generateCatalogImage`: composes the product into the reference's style. */
  method GenerateCatalogImage(
    apiKey: Option<string>, provider: Provider,
    productImageBase64: string, productMimeType: string,
    referenceImageBase64: string, referenceMimeType: string, ratio: AspectRatio)
    returns (r: Result<string>)
    ensures r == CatalogResult(apiKey, provider, productImageBase64, productMimeType,
      referenceImageBase64, referenceMimeType, ratio)
  {
    var client := GetAiClient(apiKey);
    if client.Failure? {
      return Failure(client.error);
    }
    var request := CatalogRequest(productImageBase64, productMimeType, referenceImageBase64, referenceMimeType, ratio);
    r := SendContent(client.value, provider, request, CatalogFailureMessage);
  }

  /** `response.generatedImages?.[0]?.image?.imageBytes`, when truthy. */
  function FirstImageBytes(response: ImagesResponse): (r: Option<string>)
    ensures r.Some? ==> r.value != ""
    ensures var images := response.generatedImages;
      r.Some? <==> (
        && images.Some? && |images.value| > 0 && images.value[0].image.Some?
        && images.value[0].image.value.imageBytes.Some? && images.value[0].image.value.imageBytes.value != "")
    ensures r.Some? ==> r == response.generatedImages.value[0].image.value.imageBytes
  {
    if response.generatedImages.Some? && |response.generatedImages.value| > 0
      && response.generatedImages.value[0].image.Some?
      && response.generatedImages.value[0].image.value.imageBytes.Some?
      && response.generatedImages.value[0].image.value.imageBytes.value != ""
    then response.generatedImages.value[0].image.value.imageBytes
    else None
  }

  /** Only the first generated image is consulted: whatever follows it does not change the bytes. */
  lemma FirstImageBytesIgnoresLaterImages(first: GeneratedImage, rest: seq<GeneratedImage>, others: seq<GeneratedImage>)
    ensures FirstImageBytes(ImagesResponse(Some([first] + rest))) == FirstImageBytes(ImagesResponse(Some([first] + others)))
  {
  }

  /** Only the first candidate is consulted: whatever follows it does not change the parts. */
  lemma CandidatePartsIgnoresLaterCandidates(first: Candidate, rest: seq<Candidate>, others: seq<Candidate>)
    ensures CandidateParts(ContentResponse(Some([first] + rest))) == CandidateParts(ContentResponse(Some([first] + others)))
  {
  }

  /** What `generateCreativeImage` returns or throws. */
  function CreativeResult(apiKey: Option<string>, provider: Provider, prompt: string, ratio: AspectRatio): (r: Result<string>)
    ensures !HasApiKey(apiKey) ==> r == Failure(ApiKeyMissingMessage)
    ensures HasApiKey(apiKey) ==>
      var reply := provider.generateImages(Client(apiKey.value), CreativeRequest(prompt, ratio));
      reply.Failure? ==> r == Failure(reply.error)
    ensures HasApiKey(apiKey) ==>
      var reply := provider.generateImages(Client(apiKey.value), CreativeRequest(prompt, ratio));
      reply.Success? ==> (r.Failure? <==> FirstImageBytes(reply.value).None?)
    ensures HasApiKey(apiKey) && r.Failure? ==>
      var reply := provider.generateImages(Client(apiKey.value), CreativeRequest(prompt, ratio));
      reply.Success? ==> r.error == CreativeFailureMessage
    ensures r.Success? ==> StartsWith(r.value, DataUrlPrefix("image/jpeg"))
  {
    match GetAiClient(apiKey)
    case Failure(e) => Failure(e)
    case Success(client) =>
      match provider.generateImages(client, CreativeRequest(prompt, ratio))
      case Failure(e) => Failure(e)
      case Success(response) =>
        match FirstImageBytes(response)
        case None => Failure(CreativeFailureMessage)
        case Some(bytes) =>
          var url := DataUrlPrefix("image/jpeg") + bytes;
          assert url[..|DataUrlPrefix("image/jpeg")|] == DataUrlPrefix("image/jpeg");
          Success(url)
  }

  /** The creative result is the first generated image, or the fixed failure when it has no bytes. */
  lemma CreativeResultCases(apiKey: Option<string>, provider: Provider, prompt: string, ratio: AspectRatio)
    requires HasApiKey(apiKey)
    requires provider.generateImages(Client(apiKey.value), CreativeRequest(prompt, ratio)).Success?
    ensures var response := provider.generateImages(Client(apiKey.value), CreativeRequest(prompt, ratio)).value;
      CreativeResult(apiKey, provider, prompt, ratio) ==
        if FirstImageBytes(response).Some? then Success(DataUrlPrefix("image/jpeg") + FirstImageBytes(response).value)
        else Failure(CreativeFailureMessage)
  {
  }

  /** `generateCreativeImage`: one image from the prompt alone. */
  method GenerateCreativeImage(apiKey: Option<string>, provider: Provider, prompt: string, ratio: AspectRatio)
    returns (r: Result<string>)
    ensures r == CreativeResult(apiKey, provider, prompt, ratio)
  {
    var client := GetAiClient(apiKey);
    if client.Failure? {
      return Failure(client.error);
    }
    var response := provider.generateImages(client.value, CreativeRequest(prompt, ratio));
    if response.Failure? {
      return Failure(response.error);
    }
    var imageBytes := FirstImageBytes(response.value);
    if imageBytes.Some? {
      return Success(DataUrlPrefix("image/jpeg") + imageBytes.value);
    }
    return Failure(CreativeFailureMessage);
  }

  /** What `editImage` returns or throws. */
  function EditResult(apiKey: Option<string>, provider: Provider, imageBase64: string, mimeType: string, instructions: string)
    : (r: Result<string>)
    ensures !HasApiKey(apiKey) ==> r == Failure(ApiKeyMissingMessage)
    ensures HasApiKey(apiKey) ==> r == ContentResult(Client(apiKey.value), provider,
      EditRequest(imageBase64, mimeType, instructions), EditFailureMessage)
  {
    match GetAiClient(apiKey)
    case Failure(e) => Failure(e)
    case Success(client) =>
      ContentResult(client, provider, EditRequest(imageBase64, mimeType, instructions), EditFailureMessage)
  }

  /** `editImage`: applies the instructions to one image. */
  method EditImage(apiKey: Option<string>, provider: Provider, imageBase64: string, mimeType: string, instructions: string)
    returns (r: Result<string>)
    ensures r == EditResult(apiKey, provider, imageBase64, mimeType, instructions)
  {
    var client := GetAiClient(apiKey);
    if client.Failure? {
      return Failure(client.error);
    }
    r := SendContent(client.value, provider, EditRequest(imageBase64, mimeType, instructions), EditFailureMessage);
  }

  /** A successful content result is a PNG data URL with a non-empty payload. */
  lemma ContentSuccessIsPngDataUrl(client: Client, provider: Provider, request: ContentRequest, failure: string)
    requires ContentResult(client, provider, request, failure).Success?
    ensures var url := ContentResult(client, provider, request, failure).value;
      StartsWith(url, DataUrlPrefix("image/png")) && |url| > |DataUrlPrefix("image/png")|
  {
    var url := ContentResult(client, provider, request, failure).value;
    assert url[..|DataUrlPrefix("image/png")|] == DataUrlPrefix("image/png");
  }
}
