/** functions/src/index.ts: the `generateArt` callable. It checks for the Gemini
    API key, asks the text model for a JSON analysis of the stock data, asks
    the image model for a picture of the object that analysis names, turns
    every inline image part into a data URL and assembles the reply. The
    Gemini service, `JSON.stringify` and `JSON.parse` are foreign: the service is
    a class whose answers are a function of the call, and the two JSON
    operations are function values. */
module Backend {
  import opened Common
  import opened Types

  const TextModel := "gemini-3-flash-preview"
  const ImageModel := "gemini-2.5-flash-image"
  const JsonMimeType := "application/json"
  const AspectRatio := "16:9"
  const DataUrlPrefix := "data:image/png;base64,"
  const FallbackImageUrl := "https://picsum.photos/800/450"

  /** The template literal of the text request, around `${dataStr}`. */
  const TextPromptHead := "You are the Lead Manager AI for Lake9.com. \n      Analyze this stock data: "
  const TextPromptTail := ". \n      Task your sub-AIs: \n      1. CurveGen: Create a simple mathematical expression representing the trend.\n      2. Doppelganger: Identify a real-world physical object (e.g. a car fender, a mountain range, an animal's spine) that mirrors this curve shape. \n      3. Narrative: Create a short viral-ready summary.\n      \n      Provide a JSON response."

  /** The template literal of the image request, around `${parsed.doppelgangerPrompt}`. */
  const ImagePromptHead := "Create a sleek, artistic, 3D rendered visualization of "
  const ImagePromptTail := ". It should look like high-end product design, minimalist, with a chrome or obsidian finish. 4K resolution, cinematic lighting."

  const DoppelgangerDescription := "Detailed prompt for image generation of the matching object"

  /** `functions.https.HttpsError(code, message)`. */
  datatype HttpsError = HttpsError(code: string, message: string)

  const ApiKeyMissing := HttpsError("failed-precondition", "API key not configured")
  const ProcessingFailed := HttpsError("internal", "Failed to process AI request")

  /** `${x}` for a value that may be `undefined`. */
  function Interpolate(x: Option<string>): string {
    x.GetOr("undefined")
  }

  /** One property of the response schema: always `Type.STRING`. */
  datatype Property = Property(name: string, description: Option<string>)

  /** The `responseSchema` object: its properties and the required ones. */
  datatype Schema = Schema(properties: seq<Property>, required: seq<string>)

  /** The `config` of a `generateContent` call. */
  datatype Config =
    | JsonOutput(responseMimeType: string, responseSchema: Schema)
    | ImageOutput(aspectRatio: string)

  /** `{ mimeType, data }` of an inline part. */
  datatype Blob = Blob(mimeType: Option<string>, data: Option<string>)

  datatype Part = Part(text: Option<string>, inlineData: Option<Blob>)

  /** `contents`: a plain prompt string or `{ parts }`. */
  datatype Contents = Prompt(prompt: string) | Parts(parts: seq<Part>)

  datatype ContentRequest = ContentRequest(model: string, contents: Contents, config: Config)

  datatype Content = Content(parts: Option<seq<Part>>)

  datatype Candidate = Candidate(content: Option<Content>)

  /** A `GenerateContentResponse`: the `text` accessor and the candidates. */
  datatype ContentResponse = ContentResponse(text: Option<string>, candidates: Option<seq<Candidate>>)

  /** What the text model is asked to return, as `JSON.parse` sees it; a field
      that is missing reads as `undefined`. */
  datatype Analysis = Analysis(
    summary: Option<string>, doppelgangerPrompt: Option<string>,
    mathExpression: Option<string>, visualNarrative: Option<string>)

  /** The object `generateArt` resolves with: an `AIProcessingResult` whose
      text fields are `undefined` when the analysis lacks them. */
  datatype Reply = Reply(
    summary: Option<string>, doppelgangerPrompt: Option<string>,
    mathExpression: Option<string>, imageUrls: seq<string>, visualNarrative: Option<string>)

  /** The reply as the client's `AIProcessingResult`, when every field is there. */
  function AsResult(r: Reply): (a: Option<AIProcessingResult>)
    ensures a.Some? <==> r.summary.Some? && r.doppelgangerPrompt.Some? && r.mathExpression.Some? && r.visualNarrative.Some?
    ensures a.Some? ==> a.value.imageUrls == r.imageUrls && a.value.summary == r.summary.value
  {
    if r.summary.Some? && r.doppelgangerPrompt.Some? && r.mathExpression.Some? && r.visualNarrative.Some? then
      Some(AIProcessingResult(r.summary.value, r.doppelgangerPrompt.value, r.mathExpression.value, r.imageUrls, r.visualNarrative.value))
    else None
  }

  /** The schema the text request demands: four string properties, all required. */
  function AnalysisSchema(): Schema {
    Schema(
      [Property("summary", None), Property("doppelgangerPrompt", Some(DoppelgangerDescription)),
       Property("mathExpression", None), Property("visualNarrative", None)],
      ["summary", "doppelgangerPrompt", "mathExpression", "visualNarrative"])
  }

  /** Step 1: the request to the manager model. */
  function TextRequest(dataStr: string): (q: ContentRequest)
    ensures q.model == TextModel && q.config.JsonOutput? && q.config.responseMimeType == JsonMimeType
    ensures q.contents.Prompt? && StartsWith(q.contents.prompt, TextPromptHead + dataStr)
  {
    var prompt := TextPromptHead + dataStr + TextPromptTail;
    assert prompt[..|TextPromptHead + dataStr|] == TextPromptHead + dataStr;
    ContentRequest(TextModel, Prompt(prompt), JsonOutput(JsonMimeType, AnalysisSchema()))
  }

  /** Step 2: the request to the image model; an absent prompt is written
      into the text as `undefined`. */
  function ImageRequest(doppelganger: Option<string>): (q: ContentRequest)
    ensures q.model == ImageModel && q.config == ImageOutput(AspectRatio)
    ensures q.contents.Parts? && |q.contents.parts| == 1 && q.contents.parts[0].inlineData.None?
    ensures q.contents.parts[0].text == Some(ImagePromptHead + Interpolate(doppelganger) + ImagePromptTail)
  {
    ContentRequest(ImageModel, Parts([Part(Some(ImagePromptHead + Interpolate(doppelganger) + ImagePromptTail), None)]), ImageOutput(AspectRatio))
  }

  /** `textResponse.text || '{}'`. */
  function ResponseText(response: ContentResponse): (s: string)
    ensures Truthy(response.text) ==> s == response.text.value
    ensures !Truthy(response.text) ==> s == "{}"
  {
    if Truthy(response.text) then response.text.value else "{}"
  }

  /** `imageResponse.candidates?.[0]?.content?.parts || []`. */
  function FirstParts(response: ContentResponse): (parts: seq<Part>)
    ensures response.candidates.None? || |response.candidates.value| == 0 ==> parts == []
    ensures response.candidates.Some? && |response.candidates.value| > 0 ==>
      parts == (match response.candidates.value[0].content
                case None => []
                case Some(c) => c.parts.GetOr([]))
  {
    if response.candidates.None? || |response.candidates.value| == 0 then []
    else match response.candidates.value[0].content
      case None => []
      case Some(c) => c.parts.GetOr([])
  }

  /** The data URL of an inline part. */
  function DataUrl(b: Blob): string {
    DataUrlPrefix + Interpolate(b.data)
  }

  /** The URLs the loop pushes for `parts`, front to back. */
  function DataUrls(parts: seq<Part>): seq<string> {
    if |parts| == 0 then []
    else (if parts[0].inlineData.Some? then [DataUrl(parts[0].inlineData.value)] else []) + DataUrls(parts[1..])
  }

  /** How many of `parts` carry inline data. */
  function InlineCount(parts: seq<Part>): nat {
    if |parts| == 0 then 0
    else (if parts[0].inlineData.Some? then 1 else 0) + InlineCount(parts[1..])
  }

  lemma {:induction false} DataUrlsAppend(a: seq<Part>, b: seq<Part>)
    ensures DataUrls(a + b) == DataUrls(a) + DataUrls(b)
    ensures InlineCount(a + b) == InlineCount(a) + InlineCount(b)
  {
    if |a| == 0 {
      assert a + b == b;
    } else {
      assert (a + b)[1..] == a[1..] + b;
      DataUrlsAppend(a[1..], b);
    }
  }

  /** One URL per inline part, in part order: the `i`-th inline part's URL
      sits at the position given by the inline parts before it, and there are
      no other URLs. */
  lemma {:induction false} DataUrlsInOrder(parts: seq<Part>)
    ensures |DataUrls(parts)| == InlineCount(parts)
    ensures forall i :: 0 <= i < |parts| && parts[i].inlineData.Some? ==>
      InlineCount(parts[..i]) < |DataUrls(parts)| &&
      DataUrls(parts)[InlineCount(parts[..i])] == DataUrl(parts[i].inlineData.value)
    ensures forall j :: 0 <= j < |DataUrls(parts)| ==> StartsWith(DataUrls(parts)[j], DataUrlPrefix)
  {
    if |parts| > 0 {
      DataUrlsInOrder(parts[1..]);
      var head := if parts[0].inlineData.Some? then [DataUrl(parts[0].inlineData.value)] else [];
      var rest := DataUrls(parts[1..]);
      assert DataUrls(parts) == head + rest;
      forall i | 0 <= i < |parts| && parts[i].inlineData.Some?
        ensures InlineCount(parts[..i]) < |DataUrls(parts)|
        ensures DataUrls(parts)[InlineCount(parts[..i])] == DataUrl(parts[i].inlineData.value)
      {
        if i > 0 {
          assert parts[..i] == [parts[0]] + parts[1..][..i - 1];
          DataUrlsAppend([parts[0]], parts[1..][..i - 1]);
          assert [parts[0]][1..] == [];
          assert parts[1..][i - 1] == parts[i];
        }
      }
      forall j | 0 <= j < |DataUrls(parts)|
        ensures StartsWith(DataUrls(parts)[j], DataUrlPrefix)
      {
        if j >= |head| {
          assert DataUrls(parts)[j] == rest[j - |head|];
        }
      }
    }
  }

  /** No URL is collected exactly when no part carries inline data. */
  lemma {:induction false} DataUrlsEmpty(parts: seq<Part>)
    ensures DataUrls(parts) == [] <==> forall i :: 0 <= i < |parts| ==> parts[i].inlineData.None?
  {
    if |parts| > 0 {
      DataUrlsEmpty(parts[1..]);
      if parts[0].inlineData.None? {
        forall i | 1 <= i < |parts| ensures parts[i] == parts[1..][i - 1] { }
      }
    }
  }

  /** The `for … of` loop of lines 82-87. */
  method CollectImageUrls(parts: seq<Part>) returns (imageUrls: seq<string>)
    ensures imageUrls == DataUrls(parts)
  {
    imageUrls := [];
    for i := 0 to |parts|
      invariant imageUrls == DataUrls(parts[..i])
    {
      assert parts[..i + 1] == parts[..i] + [parts[i]];
      DataUrlsAppend(parts[..i], [parts[i]]);
      if parts[i].inlineData.Some? {
        imageUrls := imageUrls + [DataUrl(parts[i].inlineData.value)];
      }
    }
    assert parts[..|parts|] == parts;
  }

  /** The collected URLs, or the fixed placeholder when there are none. */
  function ImageUrls(collected: seq<string>): (urls: seq<string>)
    ensures |urls| > 0
    ensures |collected| > 0 ==> urls == collected
    ensures |collected| == 0 ==> urls == [FallbackImageUrl]
  {
    if |collected| > 0 then collected else [FallbackImageUrl]
  }

  /** The placeholder is used exactly when the image model returned no inline
      part, and otherwise every URL is a PNG data URL. */
  lemma FallbackExactlyWithoutImages(parts: seq<Part>)
    ensures ImageUrls(DataUrls(parts)) == [FallbackImageUrl] <==> forall i :: 0 <= i < |parts| ==> parts[i].inlineData.None?
    ensures (exists i :: 0 <= i < |parts| && parts[i].inlineData.Some?) ==>
      forall j :: 0 <= j < |ImageUrls(DataUrls(parts))| ==> StartsWith(ImageUrls(DataUrls(parts))[j], DataUrlPrefix)
  {
    DataUrlsEmpty(parts);
    DataUrlsInOrder(parts);
    if DataUrls(parts) != [] {
      var u := DataUrls(parts)[0];
      assert u[..|DataUrlPrefix|] == DataUrlPrefix;
      assert u[0] == 'd' != FallbackImageUrl[0];
    }
  }

  /** The reply assembled from the analysis and the collected URLs. */
  function Assemble(parsed: Analysis, collected: seq<string>): (r: Reply)
    ensures r.summary == parsed.summary && r.doppelgangerPrompt == parsed.doppelgangerPrompt
    ensures r.mathExpression == parsed.mathExpression && r.visualNarrative == parsed.visualNarrative
    ensures r.imageUrls == ImageUrls(collected) && |r.imageUrls| > 0
  {
    Reply(parsed.summary, parsed.doppelgangerPrompt, parsed.mathExpression, ImageUrls(collected), parsed.visualNarrative)
  }

  /** The Gemini API behind `new GoogleGenAI({ apiKey })`. `respond(k, key, q)`
      is its answer to the `k`-th call, made with key `key`; an `Err` is a
      rejected promise. Every call is appended to `log`. */
  class Gemini {
    const respond: (nat, string, ContentRequest) -> Outcome<ContentResponse>
    var log: seq<(string, ContentRequest)>

    constructor (respond: (nat, string, ContentRequest) -> Outcome<ContentResponse>)
      ensures this.respond == respond && log == []
    {
      this.respond := respond;
      log := [];
    }

    /** `ai.models.generateContent(request)`. */
    method GenerateContent(apiKey: string, request: ContentRequest) returns (r: Outcome<ContentResponse>)
      modifies this
      ensures log == old(log) + [(apiKey, request)]
      ensures r == respond(|old(log)|, apiKey, request)
    {
      r := respond(|log|, apiKey, request);
      log := log + [(apiKey, request)];
    }
  }

  /** `generateArt(data)`. `apiKey` is the `GEMINI_API_KEY` secret,
      `stringify` is `JSON.stringify` on the stock points and `parse` is
      `JSON.parse` on the analysis; every failure after the key check is
      reported as the one internal error. */
  method GenerateArt(gemini: Gemini, apiKey: Option<string>, stockData: seq<StockPoint>,
                     stringify: seq<StockPoint> -> string, parse: string -> Outcome<Analysis>)
    returns (r: Result<Reply, HttpsError>)
    modifies gemini
    ensures !Truthy(apiKey) ==> r == Err(ApiKeyMissing) && gemini.log == old(gemini.log)
    ensures Truthy(apiKey) ==>
      var k := |old(gemini.log)|;
      var textRequest := TextRequest(stringify(stockData));
      var text := gemini.respond(k, apiKey.value, textRequest);
      && |gemini.log| > k && gemini.log[..k + 1] == old(gemini.log) + [(apiKey.value, textRequest)]
      && (text.Err? ==> r == Err(ProcessingFailed) && |gemini.log| == k + 1)
      && (text.Ok? && parse(ResponseText(text.value)).Err? ==> r == Err(ProcessingFailed) && |gemini.log| == k + 1)
      && (text.Ok? && parse(ResponseText(text.value)).Ok? ==>
            var parsed := parse(ResponseText(text.value)).value;
            var imageRequest := ImageRequest(parsed.doppelgangerPrompt);
            var image := gemini.respond(k + 1, apiKey.value, imageRequest);
            && gemini.log == old(gemini.log) + [(apiKey.value, textRequest), (apiKey.value, imageRequest)]
            && (image.Err? ==> r == Err(ProcessingFailed))
            && (image.Ok? ==> r == Ok(Assemble(parsed, DataUrls(FirstParts(image.value))))))
  {
    if !Truthy(apiKey) {
      return Err(ApiKeyMissing);
    }
    var key := apiKey.value;
    var dataStr := stringify(stockData);
    var text := gemini.GenerateContent(key, TextRequest(dataStr));
    if text.Err? {
      return Err(ProcessingFailed);
    }
    var parsed := parse(ResponseText(text.value));
    if parsed.Err? {
      return Err(ProcessingFailed);
    }
    var image := gemini.GenerateContent(key, ImageRequest(parsed.value.doppelgangerPrompt));
    if image.Err? {
      return Err(ProcessingFailed);
    }
    var imageUrls := CollectImageUrls(FirstParts(image.value));
    r := Ok(Assemble(parsed.value, imageUrls));
  }
}
