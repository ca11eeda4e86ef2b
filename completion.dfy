/**
 * Message formatting for the built-in providers (src/lib/completion.ts):
 * the request body `formatMessageForProvider` builds from the user's text,
 * the attached images and the system prompt, and the base64 payload
 * `fileToBase64` cuts out of a data URL.
 */
module Completion {
  import opened Wrappers
  import opened JsValues
  import opened Text
  import opened Seqs

  /** An attached file; `mediaType` is the file's `type`, `base64` its encoded content. */
  datatype AttachedFile = AttachedFile(id: string, name: string, mediaType: string, base64: string, size: int)

  /** `data:<type>;base64,<data>`. */
  function DataUrl(image: AttachedFile): string {
    "data:" + image.mediaType + ";base64," + image.base64
  }

  /**
   * The part of `fileToBase64` that is not file reading: `result.split(",")[1]`
   * of the data URL the reader produced, `undefined` when there is no comma.
   */
  function FileToBase64(dataUrl: string): (r: Option<string>)
    ensures r.Some? <==> ',' in dataUrl
  {
    var pieces := Split(dataUrl, ',');
    SplitFindsSep(dataUrl, ',');
    if |pieces| > 1 then Some(pieces[1]) else None
  }

  /** A text splits into more than one piece exactly when the separator occurs in it. */
  lemma {:induction false} SplitFindsSep(s: string, sep: char)
    ensures |Split(s, sep)| > 1 <==> sep in s
  {
    if s != [] {
      SplitFindsSep(s[1..], sep);
      assert s == [s[0]] + s[1..];
    }
  }

  /**
   * Reading back the data URL of an image gives its base64 content whenever
   * the media type and the content hold no comma (base64 never does).
   */
  lemma DataUrlRoundTrip(image: AttachedFile)
    requires ',' !in image.mediaType && ',' !in image.base64
    ensures FileToBase64(DataUrl(image)) == Some(image.base64)
  {
    var head := "data:" + image.mediaType + ";base64";
    assert ',' !in head by {
      assert head == "data:" + (image.mediaType + ";base64");
      forall i | 0 <= i < |head| ensures head[i] != ',' {
        if i >= 5 && i < 5 + |image.mediaType| {
          assert head[i] == image.mediaType[i - 5];
        }
      }
    }
    assert DataUrl(image) == head + [','] + image.base64;
    SplitPrefix(head, image.base64, ',');
    SplitNoSep(image.base64, ',');
  }

  /** The system prompt counts only when it is a non-empty string. */
  predicate Prompted(systemPrompt: Option<string>) {
    systemPrompt.Some? && systemPrompt.value != ""
  }

  function Message(role: string, content: Json): Json {
    Obj(map["role" := Str(role), "content" := content])
  }

  /** The optional leading system message; gemini has no system role. */
  function SystemMessages(providerId: string, systemPrompt: Option<string>): (r: seq<Json>)
    ensures |r| <= 1
    ensures r != [] <==> Prompted(systemPrompt) && providerId != "gemini"
    ensures r != [] ==> r[0] == Message("system", Str(systemPrompt.value))
  {
    if Prompted(systemPrompt) && providerId != "gemini" then [Message("system", Str(systemPrompt.value))] else []
  }

  function TextPart(text: string): Json {
    Obj(map["type" := Str("text"), "text" := Str(text)])
  }

  /** An OpenAI-style image part: the image as a data URL. */
  function ImageUrlPart(image: AttachedFile): Json {
    Obj(map["type" := Str("image_url"), "image_url" := Obj(map["url" := Str(DataUrl(image))])])
  }

  /** A Claude image block with a base64 source. */
  function ClaudeImagePart(image: AttachedFile): Json {
    Obj(map["type" := Str("image"),
            "source" := Obj(map["type" := Str("base64"), "media_type" := Str(image.mediaType), "data" := Str(image.base64)])])
  }

  /** A Gemini inline-data part. */
  function InlinePart(image: AttachedFile): Json {
    Obj(map["inline_data" := Obj(map["mime_type" := Str(image.mediaType), "data" := Str(image.base64)])])
  }

  /** Gemini's text: the system prompt, a blank line and the text, or the text alone. */
  function GeminiText(text: string, systemPrompt: Option<string>): string {
    if Prompted(systemPrompt) then systemPrompt.value + "\n\n" + text else text
  }

  /** The user message of openai, grok and claude: the bare text, or a text part followed by the image parts. */
  function UserContent(text: string, images: seq<AttachedFile>, imagePart: AttachedFile -> Json): Json {
    if images == [] then Str(text) else Arr([TextPart(text)] + Map(imagePart, images))
  }

  /** `images.forEach(image => parts.push(imagePart(image)))` after a first part. */
  method PushParts(first: Json, images: seq<AttachedFile>, imagePart: AttachedFile -> Json) returns (parts: seq<Json>)
    ensures parts == [first] + Map(imagePart, images)
  {
    parts := [first];
    var i := 0;
    while i < |images|
      invariant 0 <= i <= |images|
      invariant parts == [first] + Map(imagePart, images[..i])
    {
      assert images[..i + 1] == images[..i] + [images[i]];
      MapSnoc(imagePart, images[..i], images[i]);
      parts := parts + [imagePart(images[i])];
      i := i + 1;
    }
    assert images[..i] == images;
  }

  /**
   * `formatMessageForProvider`: gemini gets one user `contents` entry whose
   * parts are the (prompted) text and one inline part per image; openai,
   * grok and claude get `messages` with the optional system message and one
   * user message; any other provider gets only the optional system message.
   */
  method FormatMessageForProvider(providerId: string, text: string, images: seq<AttachedFile>, systemPrompt: Option<string>)
    returns (r: Json)
    ensures providerId == "gemini" ==>
      r == Obj(map["contents" := Arr([Obj(map["role" := Str("user"),
                                              "parts" := Arr([Obj(map["text" := Str(GeminiText(text, systemPrompt))])]
                                                             + Map(InlinePart, images))])])])
    ensures providerId == "openai" || providerId == "grok" ==>
      r == Obj(map["messages" := Arr(SystemMessages(providerId, systemPrompt)
                                     + [Message("user", UserContent(text, images, ImageUrlPart))])])
    ensures providerId == "claude" ==>
      r == Obj(map["messages" := Arr(SystemMessages(providerId, systemPrompt)
                                     + [Message("user", UserContent(text, images, ClaudeImagePart))])])
    ensures providerId !in {"gemini", "openai", "grok", "claude"} ==>
      r == Obj(map["messages" := Arr(SystemMessages(providerId, systemPrompt))])
  {
    var messages: seq<Json> := [];
    if Prompted(systemPrompt) {
      if providerId != "gemini" {
        messages := messages + [Message("system", Str(systemPrompt.value))];
      }
    }
    assert messages == SystemMessages(providerId, systemPrompt);
    // The openai branch also tests for gemini before prefixing the prompt; that test is always false there.
    if providerId == "openai" || providerId == "grok" {
      if |images| == 0 {
        messages := messages + [Message("user", Str(text))];
      } else {
        var content := PushParts(TextPart(text), images, ImageUrlPart);
        messages := messages + [Message("user", Arr(content))];
      }
    } else if providerId == "claude" {
      if |images| == 0 {
        messages := messages + [Message("user", Str(text))];
      } else {
        var content := PushParts(TextPart(text), images, ClaudeImagePart);
        messages := messages + [Message("user", Arr(content))];
      }
    } else if providerId == "gemini" {
      var first := Obj(map["text" := Str(if Prompted(systemPrompt) then systemPrompt.value + "\n\n" + text else text)]);
      var parts := PushParts(first, images, InlinePart);
      return Obj(map["contents" := Arr([Obj(map["role" := Str("user"), "parts" := Arr(parts)])])]);
    }
    return Obj(map["messages" := Arr(messages)]);
  }

  /**
   * The image parts of an openai request carry the images in order, and each
   * one's base64 content reads back out of its data URL.
   */
  lemma ImagePartsInOrder(text: string, images: seq<AttachedFile>, i: nat)
    requires i < |images| && ',' !in images[i].mediaType && ',' !in images[i].base64
    ensures var c := UserContent(text, images, ImageUrlPart);
      && c.Arr? && |c.items| == |images| + 1
      && c.items[i + 1] == ImageUrlPart(images[i])
      && FileToBase64(DataUrl(images[i])) == Some(images[i].base64)
  {
    DataUrlRoundTrip(images[i]);
  }
}
