/** The request gateway of services/geminiService.ts. Each operation first
    obtains a client, which needs the API key read from the environment at
    call time, then sends one request and selects one payload out of the
    nested response, or throws a fixed Error.

    The remote service is not modelled: each operation takes `apiKey`, the
    value of the environment variable at call time, and `response`, what the
    service answers to the request (or the Error its call throws). The
    answer is consulted only when the request is sent; `Call.sent` lists the
    requests an operation sends, with the key each one carries. */
module GeminiService {
  import opened JsValues
  import opened Types

  const NO_API_KEY := "API_KEY environment variable not set."
  const NO_IMAGE_IN_RESPONSE := "No image generated in response."
  const IMAGE_GENERATION_FAILED := "Image generation failed."
  const SPEECH_GENERATION_FAILED := "Text-to-speech generation failed."
  /** What reading index 0 of an undefined `generatedImages` throws. */
  const UNDEFINED_INDEX := "Cannot read properties of undefined (reading '0')"

  const EDIT_MODEL := "gemini-2.5-flash-image"
  const IMAGE_MODEL := "imagen-4.0-generate-001"
  const SPEECH_MODEL := "gemini-2.5-flash-preview-tts"
  const TEXT_MODEL := "gemini-flash-lite-latest"
  const SPEECH_VOICE := "Kore"
  const IMAGE_OUTPUT_MIME_TYPE := "image/jpeg"

  // ---------------------------------------------------------------------------
  // Responses, every field of which may be absent

  /** Inline binary data: base64 text and its MIME type. */
  datatype Blob = Blob(data: Option<string>, mimeType: Option<string>)
  datatype Part = Part(inlineData: Option<Blob>, text: Option<string>)
  datatype Content = Content(parts: Option<seq<Part>>)
  datatype Candidate = Candidate(content: Option<Content>)
  /** The answer to generateContent; `text` is the text the SDK assembles from it. */
  datatype ContentResponse = ContentResponse(candidates: Option<seq<Candidate>>, text: Option<string>)

  datatype StoredImage = StoredImage(imageBytes: Option<string>)
  datatype GeneratedImage = GeneratedImage(image: Option<StoredImage>)
  /** The answer to generateImages. */
  datatype ImagesResponse = ImagesResponse(generatedImages: Option<seq<GeneratedImage>>)

  // ---------------------------------------------------------------------------
  // Requests

  datatype Modality = ImageModality | AudioModality

  datatype Request =
    | EditImageRequest(model: string, imageData: string, imageMimeType: string, prompt: string, modality: Modality)
    | GenerateImagesRequest(model: string, prompt: string, numberOfImages: nat, outputMimeType: string, aspectRatio: AspectRatio)
    | SpeechRequest(model: string, text: string, modality: Modality, voiceName: string)
    | TextRequest(model: string, prompt: string)

  /** A request sent by a client made with `apiKey`. */
  datatype Sent = Sent(apiKey: string, request: Request)

  /** What one operation did: the requests it sent, and what it returned or threw. */
  datatype Call<+T> = Call(sent: seq<Sent>, result: Result<T>)

  // ---------------------------------------------------------------------------
  // Client and selectors

  /** getAiClient: the key a client is made with, or the Error thrown when the variable is unset or empty. */
  function GetAiClient(apiKey: Option<string>): (r: Result<string>)
    ensures r.Success? <==> Truthy(apiKey)
    ensures r.Success? ==> r == Success(apiKey.value)
    ensures r.Failure? ==> r.message == NO_API_KEY
  {
    if Truthy(apiKey) then Success(apiKey.value) else Failure(NO_API_KEY)
  }

  /** `response.candidates?.[0]?.content?.parts`, where any missing link leaves no parts. */
  function FirstCandidateParts(response: ContentResponse): seq<Part>
  {
    match response.candidates
    case Some(cs) =>
      if |cs| > 0 && cs[0].content.Some? && cs[0].content.value.parts.Some?
      then cs[0].content.value.parts.value
      else []
    case None => []
  }

  /** The position `parts.find(part => part.inlineData)` stops at: the first part with inline data,
      or `|parts|` when no part has any. */
  function FindInlineData(parts: seq<Part>): (i: nat)
    ensures i <= |parts|
    ensures i < |parts| ==> parts[i].inlineData.Some?
    ensures forall j :: 0 <= j < i ==> parts[j].inlineData.None?
    decreases |parts|
  {
    if parts == [] then 0
    else if parts[0].inlineData.Some? then 0
    else 1 + FindInlineData(parts[1..])
  }

  // ---------------------------------------------------------------------------
  // The four operations

  /** editImage: sends the image and the instruction, and returns the inline data of the first part
      of the first candidate that has inline data. */
  function EditImage(apiKey: Option<string>, base64Image: string, mimeType: string, prompt: string,
                     response: Result<ContentResponse>): (r: Call<Blob>)
    ensures !Truthy(apiKey) ==> r == Call([], Failure(NO_API_KEY))
    ensures Truthy(apiKey) ==>
      r.sent == [Sent(apiKey.value, EditImageRequest(EDIT_MODEL, base64Image, mimeType, prompt, ImageModality))]
    ensures Truthy(apiKey) && response.Failure? ==> r.result == Failure(response.message)
    ensures Truthy(apiKey) && response.Success? ==>
      var parts := FirstCandidateParts(response.value);
      (r.result.Success? <==> exists i :: 0 <= i < |parts| && parts[i].inlineData.Some?) &&
      (r.result.Failure? ==> r.result.message == NO_IMAGE_IN_RESPONSE) &&
      (r.result.Success? ==> exists i :: 0 <= i < |parts| && parts[i].inlineData == Some(r.result.value) &&
                                         forall j :: 0 <= j < i ==> parts[j].inlineData.None?)
  {
    match GetAiClient(apiKey)
    case Failure(m) => Call([], Failure(m))
    case Success(key) =>
      var sent := [Sent(key, EditImageRequest(EDIT_MODEL, base64Image, mimeType, prompt, ImageModality))];
      match response
      case Failure(m) => Call(sent, Failure(m))
      case Success(resp) =>
        var parts := FirstCandidateParts(resp);
        var i := FindInlineData(parts);
        if i < |parts| then Call(sent, Success(parts[i].inlineData.value))
        else Call(sent, Failure(NO_IMAGE_IN_RESPONSE))
  }

  /** generateImage: asks for exactly one JPEG image at the caller's aspect ratio, and returns
      the bytes of the first generated image. */
  function GenerateImage(apiKey: Option<string>, prompt: string, aspectRatio: AspectRatio,
                         response: Result<ImagesResponse>): (r: Call<string>)
    ensures !Truthy(apiKey) ==> r == Call([], Failure(NO_API_KEY))
    ensures Truthy(apiKey) ==>
      |r.sent| == 1 && r.sent[0].apiKey == apiKey.value &&
      r.sent[0].request.GenerateImagesRequest? &&
      r.sent[0].request.aspectRatio == aspectRatio &&
      r.sent[0].request.numberOfImages == 1 &&
      r.sent[0].request.outputMimeType == IMAGE_OUTPUT_MIME_TYPE &&
      r.sent[0].request.prompt == prompt
    ensures Truthy(apiKey) && response.Failure? ==> r.result == Failure(response.message)
    ensures Truthy(apiKey) && response.Success? && response.value.generatedImages.None? ==>
      r.result == Failure(UNDEFINED_INDEX)
    ensures Truthy(apiKey) && response.Success? && response.value.generatedImages.Some? ==>
      var images := response.value.generatedImages.value;
      var bytes := if |images| > 0 && images[0].image.Some? then images[0].image.value.imageBytes else None;
      (Truthy(bytes) ==> r.result == Success(bytes.value)) &&
      (!Truthy(bytes) ==> r.result == Failure(IMAGE_GENERATION_FAILED))
    ensures r.result.Success? ==> r.result.value != ""
  {
    match GetAiClient(apiKey)
    case Failure(m) => Call([], Failure(m))
    case Success(key) =>
      var sent := [Sent(key, GenerateImagesRequest(IMAGE_MODEL, prompt, 1, IMAGE_OUTPUT_MIME_TYPE, aspectRatio))];
      match response
      case Failure(m) => Call(sent, Failure(m))
      case Success(resp) =>
        match resp.generatedImages
        case None => Call(sent, Failure(UNDEFINED_INDEX))
        case Some(images) =>
          if |images| > 0 && images[0].image.Some? && Truthy(images[0].image.value.imageBytes)
          then Call(sent, Success(images[0].image.value.imageBytes.value))
          else Call(sent, Failure(IMAGE_GENERATION_FAILED))
  }

  /** generateSpeech: sends the text for the fixed voice, and returns the audio data of the
      first part of the first candidate; no other part is looked at. */
  function GenerateSpeech(apiKey: Option<string>, text: string, response: Result<ContentResponse>): (r: Call<string>)
    ensures !Truthy(apiKey) ==> r == Call([], Failure(NO_API_KEY))
    ensures Truthy(apiKey) ==>
      r.sent == [Sent(apiKey.value, SpeechRequest(SPEECH_MODEL, text, AudioModality, SPEECH_VOICE))]
    ensures Truthy(apiKey) && response.Failure? ==> r.result == Failure(response.message)
    ensures Truthy(apiKey) && response.Success? ==>
      var parts := FirstCandidateParts(response.value);
      var data := if |parts| > 0 && parts[0].inlineData.Some? then parts[0].inlineData.value.data else None;
      (Truthy(data) ==> r.result == Success(data.value)) &&
      (!Truthy(data) ==> r.result == Failure(SPEECH_GENERATION_FAILED))
    ensures r.result.Success? ==> r.result.value != ""
  {
    match GetAiClient(apiKey)
    case Failure(m) => Call([], Failure(m))
    case Success(key) =>
      var sent := [Sent(key, SpeechRequest(SPEECH_MODEL, text, AudioModality, SPEECH_VOICE))];
      match response
      case Failure(m) => Call(sent, Failure(m))
      case Success(resp) =>
        var parts := FirstCandidateParts(resp);
        if |parts| > 0 && parts[0].inlineData.Some? && Truthy(parts[0].inlineData.value.data)
        then Call(sent, Success(parts[0].inlineData.value.data.value))
        else Call(sent, Failure(SPEECH_GENERATION_FAILED))
  }

  /** generateQuickText: sends the prompt and returns the response's text as it is, even undefined. */
  function GenerateQuickText(apiKey: Option<string>, prompt: string, response: Result<ContentResponse>): (r: Call<Option<string>>)
    ensures !Truthy(apiKey) ==> r == Call([], Failure(NO_API_KEY))
    ensures Truthy(apiKey) ==> r.sent == [Sent(apiKey.value, TextRequest(TEXT_MODEL, prompt))]
    ensures Truthy(apiKey) && response.Failure? ==> r.result == Failure(response.message)
    ensures Truthy(apiKey) && response.Success? ==> r.result == Success(response.value.text)
  {
    match GetAiClient(apiKey)
    case Failure(m) => Call([], Failure(m))
    case Success(key) =>
      var sent := [Sent(key, TextRequest(TEXT_MODEL, prompt))];
      match response
      case Failure(m) => Call(sent, Failure(m))
      case Success(resp) => Call(sent, Success(resp.text))
  }

  // ---------------------------------------------------------------------------
  // Properties relating several answers

  /** editImage ignores every part after the first one with inline data: two responses whose first
      candidate's parts agree up to that part's inline data give the same result, and with a key
      that result is the inline data. */
  lemma EditImageIgnoresLaterParts(apiKey: Option<string>, base64Image: string, mimeType: string, prompt: string,
                                   r1: ContentResponse, r2: ContentResponse, before: seq<Part>,
                                   hit1: Part, hit2: Part, after1: seq<Part>, after2: seq<Part>)
    requires forall j :: 0 <= j < |before| ==> before[j].inlineData.None?
    requires hit1.inlineData.Some? && hit2.inlineData == hit1.inlineData
    requires FirstCandidateParts(r1) == before + [hit1] + after1
    requires FirstCandidateParts(r2) == before + [hit2] + after2
    ensures EditImage(apiKey, base64Image, mimeType, prompt, Success(r1)).result ==
            EditImage(apiKey, base64Image, mimeType, prompt, Success(r2)).result
    ensures Truthy(apiKey) ==>
      EditImage(apiKey, base64Image, mimeType, prompt, Success(r1)).result == Success(hit1.inlineData.value)
  {
    FindInlineDataAfter(before, hit1, after1);
    FindInlineDataAfter(before, hit2, after2);
  }

  /** The search stops at the first part that has inline data. */
  lemma {:induction false} FindInlineDataAfter(before: seq<Part>, hit: Part, after: seq<Part>)
    requires forall j :: 0 <= j < |before| ==> before[j].inlineData.None?
    requires hit.inlineData.Some?
    ensures FindInlineData(before + [hit] + after) == |before|
    decreases |before|
  {
    var parts := before + [hit] + after;
    if before != [] {
      assert parts[1..] == before[1..] + [hit] + after;
      FindInlineDataAfter(before[1..], hit, after);
    }
  }

  /** generateSpeech does not search: in any response whose first candidate's first part has no
      inline data, audio in a later part is not found. */
  lemma SpeechLooksOnlyAtFirstPart(apiKey: Option<string>, text: string, response: ContentResponse,
                                   first: Part, rest: seq<Part>)
    requires Truthy(apiKey)
    requires FirstCandidateParts(response) == [first] + rest
    requires first.inlineData.None?
    ensures GenerateSpeech(apiKey, text, Success(response)).result == Failure(SPEECH_GENERATION_FAILED)
  {
  }
}
