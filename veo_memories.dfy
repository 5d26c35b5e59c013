/** The video page (features/VeoMemories.tsx:4-64): an API-key flag read from
    the host page, a photo read from a data URL, a prompt, and a generate
    action whose failure may revoke the key. The host's answers and the
    outcome of the video request enter as parameters. */
module VeoMemories {
  import opened Wrappers
  import opened Text
  import opened DataUrl

  const DefaultPrompt: string := "A cinematic holiday movie scene with slow motion snow"

  /** The error text by which the video service reports a key without access. */
  const KeyNotFound: string := "Requested entity was not found"

  /** The error `generateVeoVideo` throws itself when no video comes back
      (services/geminiService.ts:93). */
  const NoVideoMessage: string := "Video generation failed"

  /** How the awaited `generateVeoVideo` call ends: with the video's URL, or by
      throwing a value that may or may not carry a `message` string. */
  datatype Outcome = Video(url: string) | Failure(message: Option<string>)

  /** `e.message?.includes(KeyNotFound)`: the failure says the key has no access.
      A thrown value without a message never does. */
  function RevokesKey(outcome: Outcome): (r: bool)
    ensures r <==> outcome.Failure? && outcome.message.Some? && Contains(outcome.message.value, KeyNotFound)
  {
    outcome.Failure? && outcome.message.Some? && Includes(outcome.message.value, KeyNotFound)
  }

  /** The service's own "no video" error does not revoke the key, while an error
      that reports the missing entity anywhere in its text does. */
  lemma RevocationExamples()
    ensures !RevokesKey(Failure(Some(NoVideoMessage)))
    ensures !RevokesKey(Failure(None))
    ensures RevokesKey(Failure(Some("404: " + KeyNotFound + ".")))
  {
    assert |NoVideoMessage| < |KeyNotFound|;
    var m := "404: " + KeyNotFound + ".";
    assert m[5..5 + |KeyNotFound|] == KeyNotFound;
    assert OccursAt(m, KeyNotFound, 5);
  }

  /** The request `generate` sends: the prompt and the photo. */
  datatype VideoRequest = VideoRequest(prompt: string, image: Image)

  class Memories {
    var image: Option<Image>
    var prompt: string
    var generating: bool
    var videoUrl: Option<string>
    var apiKeyReady: bool

    /** A stored photo is always a pair of groups the data-URL pattern produced. */
    ghost predicate Valid()
      reads this
    {
      image.Some? ==> IsMimeType(image.value.mime) && IsPayload(image.value.data)
    }

    /** The initial component state (features/VeoMemories.tsx:5-9). */
    constructor ()
      ensures Valid()
      ensures image == None && prompt == DefaultPrompt && !generating && videoUrl == None && !apiKeyReady
    {
      image := None;
      prompt := DefaultPrompt;
      generating := false;
      videoUrl := None;
      apiKeyReady := false;
    }

    /** `checkApiKey` on mount: with a host page (`window.aistudio`) the flag
        becomes its answer; without one the flag is left alone. */
    method CheckApiKey(hasHost: bool, hostHasKey: bool)
      modifies this`apiKeyReady
      ensures apiKeyReady == (if hasHost then hostHasKey else old(apiKeyReady))
    {
      if hasHost {
        apiKeyReady := hostHasKey;
      }
    }

    /** `handleSelectKey`: with a host page the key dialog opens and the flag is
        set optimistically, whatever the user picked. */
    method HandleSelectKey(hasHost: bool)
      modifies this`apiKeyReady
      ensures apiKeyReady == (hasHost || old(apiKeyReady))
    {
      if hasHost {
        apiKeyReady := true;
      }
    }

    /** The prompt field's `onChange`. */
    method SetPrompt(text: string)
      modifies this`prompt
      ensures prompt == text
    {
      prompt := text;
    }

    /** The reader's `onloadend`: a match stores its two groups; a string the
        pattern rejects changes nothing. */
    method OnFileLoaded(result: string)
      requires Valid()
      modifies this`image
      ensures Valid()
      ensures image == (if Parse(result).Some? then Parse(result) else old(image))
      ensures image.Some? && image != old(image) ==> Matches(result, image.value)
    {
      var matches := Parse(result);
      if matches.Some? {
        image := matches;
      }
    }

    /** `generate`, with `outcome` how the awaited request ended. Without a photo
        nothing happens. Otherwise the old video is cleared and the request for
        the prompt and the photo is sent; a video URL is shown, a failure
        leaves no video and revokes the key exactly when `RevokesKey` says so;
        `generating` is false afterwards. */
    method Generate(outcome: Outcome) returns (request: Option<VideoRequest>)
      requires Valid()
      modifies this`generating, this`videoUrl, this`apiKeyReady
      ensures Valid()
      ensures old(image) == None ==>
        request == None && generating == old(generating) && videoUrl == old(videoUrl) &&
        apiKeyReady == old(apiKeyReady)
      ensures old(image).Some? ==>
        request == Some(VideoRequest(prompt, image.value)) && !generating &&
        videoUrl == (if outcome.Video? then Some(outcome.url) else None) &&
        apiKeyReady == (if RevokesKey(outcome) then false else old(apiKeyReady))
    {
      if image == None {
        return None;
      }
      generating := true;
      videoUrl := None;
      request := Some(VideoRequest(prompt, image.value));
      match outcome {
        case Video(url) =>
          videoUrl := Some(url);
        case Failure(message) =>
          if message.Some? && Includes(message.value, KeyNotFound) {
            apiKeyReady := false;
          }
      }
      generating := false;
    }
  }
}
