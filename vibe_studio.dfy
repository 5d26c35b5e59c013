/** The image studio (features/VibeStudio.tsx:11-55): a prompt, an optional
    uploaded photo read from a data URL, and a generate action that records
    the prompt as the shared vibe. The request it sends is built as
    `generateHolidayVibeImage` builds it (services/geminiService.ts:12-24); the
    model's answer enters as a parameter. */
module VibeStudio {
  import opened Wrappers
  import opened Text
  import opened DataUrl
  import opened AgentMemory
  import opened AppShell
  import opened LiveProtocol

  /** `'create' | 'edit'`. */
  datatype Mode = Create | Edit

  /** The `parts` of the image request: the photo to edit, when one is sent as
      inline data, and the instruction text. */
  datatype ImageRequest = ImageRequest(inline: Option<Image>, text: string)

  const EditLead: string := "Edit this image. Visual style and theme based on this description: "
  const EditTail: string := ". Keep the main subject intact."
  const CoverLead: string :=
    "A high quality, festive holiday card cover art. Visual style and theme based on this description: "
  const CoverTail: string := ". No text on the image."

  /** The request for `context` and the optional photo: the photo goes inline
      with the edit instruction when both its payload and its type are
      non-empty strings (`imageBase64 && imageMime`); otherwise the
      cover-art instruction is sent alone. */
  function BuildRequest(context: string, image: Option<Image>): (r: ImageRequest)
    ensures r.inline.Some? ==> r.inline == image && |r.text| >= |EditLead| && r.text[..|EditLead|] == EditLead
    ensures r.inline.None? ==> |r.text| >= |CoverLead| && r.text[..|CoverLead|] == CoverLead
  {
    if image.Some? && image.value.data != "" && image.value.mime != "" then
      ImageRequest(image, EditLead + context + EditTail)
    else
      ImageRequest(None, CoverLead + context + CoverTail)
  }

  /** The request carries the photo exactly when a photo with a non-empty payload
      and type is given, and its instruction always quotes the context. */
  lemma BuildRequestCarries(context: string, image: Option<Image>)
    ensures var r := BuildRequest(context, image);
      (r.inline.Some? <==> image.Some? && image.value.data != "" && image.value.mime != "") &&
      (r.inline.Some? ==> r.inline == image) &&
      Contains(r.text, context)
  {
    var r := BuildRequest(context, image);
    assert OccursAt(context, context, 0);
    if r.inline.Some? {
      OccursInContext(EditLead, context, EditTail, context, 0);
    } else {
      OccursInContext(CoverLead, context, CoverTail, context, 0);
    }
  }

  /** A photo the data-URL pattern accepted is always sent: its payload and its
      type are never empty. */
  lemma UploadedPhotoIsSent(context: string, img: Image)
    requires IsMimeType(img.mime) && IsPayload(img.data)
    ensures BuildRequest(context, Some(img)).inline == Some(img)
  {
  }

  class Studio {
    var prompt: string
    var loading: bool
    var generatedImage: Option<string>
    var mode: Mode
    var uploadedImage: Option<Image>
    /** The root component whose `updateMemory` this page is given. */
    const app: App

    /** An uploaded image is always a pair of groups the data-URL pattern produced. */
    ghost predicate Valid()
      reads this
    {
      uploadedImage.Some? ==> IsMimeType(uploadedImage.value.mime) && IsPayload(uploadedImage.value.data)
    }

    /** The initial component state (features/VibeStudio.tsx:12-17). */
    constructor (app: App)
      ensures Valid()
      ensures prompt == "" && !loading && generatedImage == None && mode == Create && uploadedImage == None
      ensures this.app == app
    {
      prompt := "";
      loading := false;
      generatedImage := None;
      mode := Create;
      uploadedImage := None;
      this.app := app;
    }

    /** The textarea's `onChange`. */
    method SetPrompt(text: string)
      modifies this`prompt
      ensures prompt == text
    {
      prompt := text;
    }

    /** The reader's `onloadend` with the file read as a data URL: a match
        stores its two groups and switches to editing; a string the pattern
        rejects changes nothing. */
    method OnFileLoaded(result: string)
      requires Valid()
      modifies this`uploadedImage, this`mode
      ensures Valid()
      ensures Parse(result).Some? ==> uploadedImage == Parse(result) && mode == Edit
      ensures Parse(result).None? ==> uploadedImage == old(uploadedImage) && mode == old(mode)
      ensures uploadedImage.Some? && uploadedImage != old(uploadedImage) ==>
        Matches(result, uploadedImage.value)
    {
      var matches := Parse(result);
      if matches.Some? {
        uploadedImage := matches;
        mode := Edit;
      }
    }

    /** "Create New": back to creating from nothing, dropping any upload. */
    method ClickCreateNew()
      modifies this`mode, this`uploadedImage
      ensures Valid()
      ensures mode == Create && uploadedImage == None
    {
      mode := Create;
      uploadedImage := None;
    }

    /** "Edit Photo": switches to editing and opens the file picker, whose answer
        arrives later through `OnFileLoaded`. */
    method ClickEditPhoto()
      modifies this`mode
      ensures mode == Edit
    {
      mode := Edit;
    }

    /** The preview `<img>` shown in edit mode with an upload: the upload printed
        with the data-URL template, which the pattern reads back as that very upload. */
    function Preview(): (r: Option<string>)
      requires Valid()
      reads this
      ensures r.Some? <==> mode == Edit && uploadedImage.Some?
      ensures r.Some? ==> Parse(r.value) == uploadedImage
    {
      if mode == Edit && uploadedImage.Some? then
        ParseSerialize(uploadedImage.value);
        Some(Serialize(uploadedImage.value))
      else None
    }

    /** `handleGenerate`, with `response` the model's answer (or the failure of
        the call). An empty prompt returns at once: no request, no change.
        Otherwise the request for the prompt and the upload is sent; an image in
        the answer is shown and recorded as `vibe = prompt` in the shared
        memory; a failure changes neither; `loading` is false afterwards. */
    method HandleGenerate(response: Result<GenerateResponse>) returns (request: Option<ImageRequest>)
      requires Valid()
      modifies this`loading, this`generatedImage, app
      ensures Valid()
      ensures prompt == "" ==>
        request == None && loading == old(loading) && generatedImage == old(generatedImage) &&
        app.memory == old(app.memory)
      ensures prompt != "" ==> request == Some(BuildRequest(prompt, uploadedImage)) && !loading
      ensures prompt != "" && response.Ok? && ExtractCover(response.value).Ok? ==>
        generatedImage == Some(ExtractCover(response.value).value) &&
        app.memory == Merge(old(app.memory), map[Vibe := Str(prompt)])
      ensures prompt != "" && !(response.Ok? && ExtractCover(response.value).Ok?) ==>
        generatedImage == old(generatedImage) && app.memory == old(app.memory)
      ensures app.view == old(app.view)
    {
      if prompt == "" {
        return None;
      }
      loading := true;
      request := Some(BuildRequest(prompt, uploadedImage));
      var result := if response.Ok? then ExtractCover(response.value) else Err(response.message);
      if result.Ok? {
        generatedImage := Some(result.value);
        app.UpdateMemory(map[Vibe := Str(prompt)]);
      }
      loading := false;
    }
  }
}
