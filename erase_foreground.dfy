/** `erase_foreground`: validates the key and the image source, builds the headers and the
    JSON body, and hands them to the shared retry loop. */
module EraseForeground {
  import opened Wrappers
  import opened Http
  import opened Executor

  const Endpoint := "https://engine.prod.bria-api.com/v1/erase_foreground"

  const KeyMissing := "API key is missing"
  const ImageMissing := "Either image_data or image_url must be provided"

  /** The arguments of `erase_foreground`. */
  datatype Params = Params(
    apiKey: string,
    imageData: Option<seq<Byte>>,
    imageUrl: Option<string>,
    contentModeration: bool)

  /** The arguments with every optional one left at its default. */
  function Defaults(apiKey: string): (p: Params)
  {
    Params(apiKey, None, None, false)
  }

  /** Whether the caller gave an image to work on, inline or by URL. */
  predicate HasImage(p: Params) {
    Truthy(p.imageData) || Truthy(p.imageUrl)
  }

  /** The headers: the two JSON headers, the key under `api_token`, and the key as a bearer token. */
  ghost predicate HeadersFor(apiKey: string, headers: Headers) {
    && headers.Keys == {"Accept", "Content-Type", "api_token", "Authorization"}
    && headers["Accept"] == ApplicationJson
    && headers["Content-Type"] == ApplicationJson
    && headers["api_token"] == apiKey
    && headers["Authorization"] == "Bearer " + apiKey
  }

  method BuildHeaders(apiKey: string) returns (headers: Headers)
    ensures HeadersFor(apiKey, headers)
  {
    headers := map[
      "Accept" := ApplicationJson,
      "Content-Type" := ApplicationJson,
      "api_token" := apiKey,
      "Authorization" := "Bearer " + apiKey];
  }

  /** The body: the moderation flag always, then the URL if one was given, otherwise the
      image bytes as `encode` renders them (base64 in the source). */
  ghost predicate PayloadFor(p: Params, encode: seq<Byte> -> string, data: Body) {
    && data.Keys == {ContentModeration} + (if Truthy(p.imageUrl) then {ImageUrl} else {File})
    && data[ContentModeration] == Bool(p.contentModeration)
    && (Truthy(p.imageUrl) ==> data[ImageUrl] == Str(p.imageUrl.value))
    && (!Truthy(p.imageUrl) ==> p.imageData.Some? && data[File] == Str(encode(p.imageData.value)))
  }

  method BuildPayload(p: Params, encode: seq<Byte> -> string) returns (data: Body)
    requires HasImage(p)
    ensures PayloadFor(p, encode, data)
  {
    data := map[ContentModeration := Bool(p.contentModeration)];
    if Truthy(p.imageUrl) {
      data := data[ImageUrl := Str(p.imageUrl.value)];
    } else {
      data := data[File := Str(encode(p.imageData.value))];
    }
  }

  /** `erase_foreground`: a missing key, then a missing image, fail before anything is sent;
      otherwise one request is built and the retry loop runs against the responses `oracle`. */
  method EraseForeground(p: Params, encode: seq<Byte> -> string, oracle: seq<Response>)
    returns (result: Result<Value, Failure>, trace: seq<Event>, sent: Option<Request>)
    requires |oracle| >= MaxAttempts
    ensures p.apiKey == [] ==> result == Failure(InvalidInput(KeyMissing)) && trace == [] && sent == None
    ensures p.apiKey != [] && !HasImage(p) ==>
              result == Failure(InvalidInput(ImageMissing)) && trace == [] && sent == None
    ensures p.apiKey != [] && HasImage(p) ==>
              && sent.Some?
              && sent.value.url == Endpoint
              && sent.value.timeout == Some(DefaultTimeout)
              && HeadersFor(p.apiKey, sent.value.headers)
              && PayloadFor(p, encode, sent.value.body)
              && Call(result, trace) == Run(oracle, 0, None)
  {
    if p.apiKey == [] {
      return Failure(InvalidInput(KeyMissing)), [], None;
    }
    if !HasImage(p) {
      return Failure(InvalidInput(ImageMissing)), [], None;
    }
    var headers := BuildHeaders(p.apiKey);
    var data := BuildPayload(p, encode);
    sent := Some(Request(Endpoint, headers, data, Some(DefaultTimeout)));
    result, trace := Execute(oracle);
  }

  /** The defaults give no image, so a call that leaves both image arguments out fails with
      ImageMissing (or KeyMissing, for an empty key) before anything is sent. */
  lemma DefaultsHaveNoImage(apiKey: string)
    ensures !HasImage(Defaults(apiKey))
    ensures !Defaults(apiKey).contentModeration
  {
  }

  /** The body names exactly one image source, and the URL wins when both are given. */
  lemma OneImageSource(p: Params, encode: seq<Byte> -> string, data: Body)
    requires PayloadFor(p, encode, data)
    ensures (ImageUrl in data) != (File in data)
    ensures Truthy(p.imageUrl) && Truthy(p.imageData) ==> ImageUrl in data && File !in data
  {
    assert ImageUrl != File;
  }
}
