/** The image editor of components/ImageEditor.tsx: an uploaded image and an
    instruction go to the editing operation of the service, the edited image
    comes back as a data URL, and the download handler derives a file name
    from that URL's MIME type.

    The remote answer is a parameter of Submit, as in the service model; the
    anchor element the download handler clicks is modelled by what it would
    save (or by the Error the handler throws). */
module ImageEditing {
  import opened JsValues
  import opened Types
  import opened GeminiService

  const NEEDS_IMAGE_AND_PROMPT := "Please upload an image and provide a prompt."
  const EDIT_FAILED_PREFIX := "Error editing image: "
  const DEFAULT_EXTENSION := "png"
  const DOWNLOAD_STEM := "edited-image."
  /** What calling `split` on an undefined MIME type throws. */
  const SPLIT_OF_UNDEFINED := "Cannot read properties of undefined (reading 'split')"

  // ---------------------------------------------------------------------------
  // Data URLs and the download name

  /** `data:${mimeType};base64,${data}`, where an undefined part is spelled "undefined". */
  function DataUrl(mimeType: Option<string>, data: Option<string>): string
  {
    "data:" + Interpolate(mimeType) + ";base64," + Interpolate(data)
  }

  /** `url.split(';')[0].split(':')[1]`: the text between the first ':' and the next ':' of the
      part before the first ';', or undefined when that part has no ':'. */
  function MimeTypeOf(url: string): (m: Option<string>)
    ensures m.Some? ==> ':' !in m.value && ';' !in m.value
  {
    var head := Split(url, ';')[0];
    assert ';' !in head;
    var m := Field(head, ':', 1);
    if m.Some? then
      SubFieldFree(head, ':', ';');
      m
    else m
  }

  /** `mimeType.split('/')[1] || 'png'`. */
  function Extension(mimeType: string): (e: string)
    ensures e != "" && '/' !in e
  {
    var subtype := Field(mimeType, '/', 1);
    if Truthy(subtype) then subtype.value else DEFAULT_EXTENSION
  }

  /** The `download` name handleDownload gives the link, or None when computing it throws
      because the URL carries no MIME type. */
  function DownloadName(url: string): Option<string>
  {
    match MimeTypeOf(url)
    case Some(m) => Some(DOWNLOAD_STEM + Extension(m))
    case None => None
  }

  /** A field of a split cannot hold a character its whole string lacks. */
  lemma {:induction false} SubFieldFree(s: string, sep: char, c: char)
    requires c !in s
    ensures forall k :: 0 <= k < |Split(s, sep)| ==> c !in Split(s, sep)[k]
    decreases |s|
  {
    if s != [] {
      assert c !in s[1..] by {
        forall x | x in s[1..] ensures x != c {
          var i :| 0 <= i < |s[1..]| && s[1..][i] == x;
          assert s[i + 1] == x;
        }
      }
      SubFieldFree(s[1..], sep, c);
    }
  }

  /** The MIME type read back from a data URL is the written one cut at its first ';' and then
      at its first ':'; the part before the first ':' when it has no ';', and the whole of it when
      it has neither. */
  lemma MimeTypeOfDataUrl(mimeType: Option<string>, data: Option<string>)
    ensures MimeTypeOf(DataUrl(mimeType, data)) == Some(Split(Split(Interpolate(mimeType), ';')[0], ':')[0])
    ensures ';' !in Interpolate(mimeType) ==>
      MimeTypeOf(DataUrl(mimeType, data)) == Some(Split(Interpolate(mimeType), ':')[0])
    ensures ';' !in Interpolate(mimeType) && ':' !in Interpolate(mimeType) ==>
      MimeTypeOf(DataUrl(mimeType, data)) == Some(Interpolate(mimeType))
  {
    var m := Interpolate(mimeType);
    var first := Split(m, ';')[0];
    DataUrlHead(mimeType, data);
    SplitAtSeparator("data", first, ':');
    if ';' !in m {
      SplitFree(m, ';');
      if ':' !in m {
        SplitFree(m, ':');
      }
    }
  }

  /** The part of a data URL before its first ';' is the scheme followed by the written MIME type
      up to its own first ';'. */
  lemma DataUrlHead(mimeType: Option<string>, data: Option<string>)
    ensures Split(DataUrl(mimeType, data), ';')[0] == "data" + [':'] + Split(Interpolate(mimeType), ';')[0]
  {
    var m := Interpolate(mimeType);
    var tail := "base64," + Interpolate(data);
    var rest := m + [';'] + tail;
    var url := DataUrl(mimeType, data);
    assert url == "data:" + rest by {
      assert ";base64," + Interpolate(data) == [';'] + tail;
    }
    SplitFirstField(m, tail, ';');
    assert ';' !in "data:";
    SplitAfterFree("data:", rest, ';');
    assert "data:" == "data" + [':'];
  }

  /** A MIME type "type/subtype" with a slash-free type part gets its subtype as the extension,
      up to a second '/'; an empty subtype gets the default. */
  lemma ExtensionOfSubtype(kind: string, subtype: string)
    requires '/' !in kind
    ensures Extension(kind + "/" + subtype) ==
      (if Split(subtype, '/')[0] != "" then Split(subtype, '/')[0] else DEFAULT_EXTENSION)
  {
    assert kind + "/" + subtype == kind + ['/'] + subtype;
    SplitAtSeparator(kind, subtype, '/');
  }

  /** A MIME type without any '/' always downloads with the default extension. */
  lemma ExtensionWithoutSubtype(mimeType: string)
    requires '/' !in mimeType
    ensures Extension(mimeType) == DEFAULT_EXTENSION
  {
    SplitFree(mimeType, '/');
  }

  /** An edited image whose MIME type is "type/subtype" (no separators inside either part)
      downloads as "edited-image.subtype", or "edited-image.png" when the subtype is empty. */
  lemma DownloadNameOfEdit(kind: string, subtype: string, data: Option<string>)
    requires '/' !in kind && '/' !in subtype
    requires ':' !in kind + "/" + subtype && ';' !in kind + "/" + subtype
    ensures DownloadName(DataUrl(Some(kind + "/" + subtype), data)) ==
      Some(DOWNLOAD_STEM + (if subtype != "" then subtype else DEFAULT_EXTENSION))
  {
    MimeTypeOfDataUrl(Some(kind + "/" + subtype), data);
    ExtensionOfSubtype(kind, subtype);
    SplitFree(subtype, '/');
  }

  /** An edited image whose MIME type came back undefined is written as "data:undefined;...",
      and so still downloads, as a PNG. */
  lemma DownloadNameOfUntypedEdit(data: Option<string>)
    ensures DownloadName(DataUrl(None, data)) == Some(DOWNLOAD_STEM + DEFAULT_EXTENSION)
  {
    assert ':' !in "undefined" && ';' !in "undefined" && '/' !in "undefined";
    MimeTypeOfDataUrl(None, data);
    ExtensionWithoutSubtype("undefined");
  }

  /** A URL that has no ':' before its first ';' makes the download handler throw. */
  lemma DownloadThrowsWithoutScheme(url: string)
    requires ':' !in Split(url, ';')[0]
    ensures DownloadName(url) == None
  {
    SplitFree(Split(url, ';')[0], ':');
  }

  /** What handleDownload does: nothing, a save of `href` under `filename`, or a thrown Error. */
  datatype DownloadAction = NoDownload | Save(href: string, filename: string) | Throws(message: string)

  // ---------------------------------------------------------------------------
  // The component

  class ImageEditor {
    var originalImage: Option<UploadedImage>
    var prompt: string
    var generatedImage: Option<string>
    var isLoading: bool
    var error: Option<string>
    /** The requests sent to the remote, oldest first. */
    var sent: seq<Sent>

    /** The component's initial state. */
    constructor ()
      ensures originalImage == None && prompt == "" && generatedImage == None
      ensures !isLoading && error == None && sent == []
    {
      originalImage := None;
      prompt := "";
      generatedImage := None;
      isLoading := false;
      error := None;
      sent := [];
    }

    /** handleFileChange: a file that was read replaces the image and clears the result and the
        error; a file that could not be read only sets the error. */
    method FileChange(picked: Option<PickedFile>)
      modifies this`originalImage, this`generatedImage, this`error
      ensures picked.None? ==>
        originalImage == old(originalImage) && generatedImage == old(generatedImage) && error == old(error)
      ensures picked.Some? && picked.value.contents.Success? ==>
        originalImage == Some(UploadedImage(picked.value.objectUrl, picked.value.contents.value, picked.value.fileType)) &&
        generatedImage == None && error == None
      ensures picked.Some? && picked.value.contents.Failure? ==>
        originalImage == old(originalImage) && generatedImage == old(generatedImage) && error == Some(READ_FAILED)
    {
      if picked.Some? {
        match picked.value.contents
        case Success(base64) =>
          originalImage := Some(UploadedImage(picked.value.objectUrl, base64, picked.value.fileType));
          generatedImage := None;
          error := None;
        case Failure(_) =>
          error := Some(READ_FAILED);
      }
    }

    method SetPrompt(text: string)
      modifies this`prompt
      ensures prompt == text
    {
      prompt := text;
    }

    /** handleSubmit: without an image or with an empty prompt only an error is shown.
        Otherwise the image is sent for editing; the edited image is shown as a data URL,
        or the failure is reported, and loading stops either way. */
    method Submit(apiKey: Option<string>, response: Result<ContentResponse>)
      modifies this`isLoading, this`error, this`generatedImage, this`sent
      ensures old(originalImage).None? || old(prompt) == "" ==>
        error == Some(NEEDS_IMAGE_AND_PROMPT) && generatedImage == old(generatedImage) &&
        isLoading == old(isLoading) && sent == old(sent)
      ensures old(originalImage).Some? && old(prompt) != "" ==>
        var call := EditImage(apiKey, originalImage.value.base64, originalImage.value.mimeType, prompt, response);
        sent == old(sent) + call.sent && !isLoading &&
        (call.result.Success? ==>
          generatedImage == Some(DataUrl(call.result.value.mimeType, call.result.value.data)) && error == None) &&
        (call.result.Failure? ==>
          generatedImage == None && error == Some(EDIT_FAILED_PREFIX + call.result.message))
    {
      if originalImage.None? || prompt == "" {
        error := Some(NEEDS_IMAGE_AND_PROMPT);
        return;
      }
      isLoading := true;
      error := None;
      generatedImage := None;
      var call := EditImage(apiKey, originalImage.value.base64, originalImage.value.mimeType, prompt, response);
      sent := sent + call.sent;
      match call.result {
        case Success(result) =>
          generatedImage := Some(DataUrl(result.mimeType, result.data));
        case Failure(message) =>
          error := Some(EDIT_FAILED_PREFIX + message);
      }
      isLoading := false;
    }

    /** handleDownload: nothing without an image; otherwise the image is saved under a name
        made from the MIME type in its URL, unless that URL has none and the handler throws. */
    method Download() returns (action: DownloadAction)
      ensures action.NoDownload? <==> generatedImage.None? || generatedImage.value == ""
      ensures action.Save? <==> Truthy(generatedImage) && MimeTypeOf(generatedImage.value).Some?
      ensures action.Save? ==>
        action.href == generatedImage.value &&
        action.filename == DOWNLOAD_STEM + Extension(MimeTypeOf(generatedImage.value).value)
      ensures action.Throws? ==> action.message == SPLIT_OF_UNDEFINED
    {
      if !Truthy(generatedImage) {
        return NoDownload;
      }
      var url := generatedImage.value;
      match DownloadName(url)
      case Some(filename) =>
        action := Save(url, filename);
      case None =>
        action := Throws(SPLIT_OF_UNDEFINED);
    }
  }

  /** Every image a successful edit shows can be downloaded: its URL is truthy and carries a
      MIME type, whatever MIME type and data the response held, even when undefined. */
  lemma EditedImageDownloads(result: Blob)
    ensures Truthy(Some(DataUrl(result.mimeType, result.data)))
    ensures MimeTypeOf(DataUrl(result.mimeType, result.data)).Some?
  {
    MimeTypeOfDataUrl(result.mimeType, result.data);
  }
}
