/** `lifestyle_shot_by_text`: builds the headers and a body whose extra fields depend on the
    placement mode, then makes a single request with no retry. */
module LifestyleShot {
  import opened Wrappers
  import opened Http
  import opened PyStr
  import opened Executor

  const Endpoint := "https://engine.prod.bria-api.com/v1/product/lifestyle_shot_by_text"

  /** Every failure of the request is reported under this prefix. */
  const FailurePrefix := "Lifestyle shot generation failed: "

  /** The placement modes that send the shot size. */
  const ShotSizeModes: seq<string> := ["automatic", "manual_placement", "custom_coordinates"]

  /** The arguments of `lifestyle_shot_by_text`. */
  datatype Params = Params(
    apiKey: string,
    imageData: seq<Byte>,
    sceneDescription: string,
    placementType: string,
    numResults: int,
    sync: bool,
    fast: bool,
    optimizeDescription: bool,
    originalQuality: bool,
    excludeElements: Option<string>,
    shotSize: seq<int>,
    manualPlacementSelection: seq<string>,
    paddingValues: seq<int>,
    foregroundImageSize: Option<seq<int>>,
    foregroundImageLocation: Option<seq<int>>,
    forceRmbg: bool,
    contentModeration: bool,
    sku: Option<string>)

  /** The arguments with every optional one left at its default. */
  function Defaults(apiKey: string, imageData: seq<Byte>, sceneDescription: string): (p: Params)
  {
    Params(apiKey, imageData, sceneDescription, "original", 4, false, true, true, false, None,
           [1000, 1000], ["upper_left"], [0, 0, 0, 0], None, None, false, false, None)
  }

  /** The headers: the stripped key under `api_token` and the two JSON headers; no bearer token. */
  ghost predicate HeadersFor(apiKey: string, headers: Headers) {
    && headers.Keys == {"api_token", "Accept", "Content-Type"}
    && headers["api_token"] == Strip(apiKey)
    && headers["Accept"] == ApplicationJson
    && headers["Content-Type"] == ApplicationJson
  }

  method BuildHeaders(apiKey: string) returns (headers: Headers)
    ensures HeadersFor(apiKey, headers)
    ensures "Authorization" !in headers
  {
    headers := map["api_token" := Strip(apiKey), "Accept" := ApplicationJson, "Content-Type" := ApplicationJson];
  }

  /** The ten fields every body carries, the count passed through as given. */
  const AlwaysKeys: set<Field> := {
    File, SceneDescription, PlacementType, NumResults, Sync, Fast, OptimizeDescription,
    OriginalQuality, ForceRmbg, ContentModeration}

  /** The fields that depend on the placement mode. */
  const PlacementKeys: set<Field> := {
    ShotSize, ManualPlacementSelection, PaddingValues, ForegroundImageSize, ForegroundImageLocation}

  ghost predicate AlwaysFor(p: Params, encode: seq<Byte> -> string, data: Body) {
    && AlwaysKeys <= data.Keys
    && data[File] == Str(encode(p.imageData))
    && data[SceneDescription] == Str(p.sceneDescription)
    && data[PlacementType] == Str(p.placementType)
    && data[NumResults] == Int(p.numResults)
    && data[Sync] == Bool(p.sync)
    && data[Fast] == Bool(p.fast)
    && data[OptimizeDescription] == Bool(p.optimizeDescription)
    && data[OriginalQuality] == Bool(p.originalQuality)
    && data[ForceRmbg] == Bool(p.forceRmbg)
    && data[ContentModeration] == Bool(p.contentModeration)
  }

  /** The placement fields: the shot size for the three sized modes, the anchor for manual
      placement, the padding for manual padding, and the foreground box, where given, for
      custom coordinates. */
  ghost predicate PlacementFor(p: Params, data: Body) {
    var mode := p.placementType;
    && (ShotSize in data <==> mode in ShotSizeModes)
    && (mode in ShotSizeModes ==> data[ShotSize] == IntList(p.shotSize))
    && (ManualPlacementSelection in data <==> mode == "manual_placement")
    && (mode == "manual_placement" ==> data[ManualPlacementSelection] == StrList(p.manualPlacementSelection))
    && (PaddingValues in data <==> mode == "manual_padding")
    && (mode == "manual_padding" ==> data[PaddingValues] == IntList(p.paddingValues))
    && (ForegroundImageSize in data <==> mode == "custom_coordinates" && Truthy(p.foregroundImageSize))
    && (ForegroundImageSize in data ==> data[ForegroundImageSize] == IntList(p.foregroundImageSize.value))
    && (ForegroundImageLocation in data <==> mode == "custom_coordinates" && Truthy(p.foregroundImageLocation))
    && (ForegroundImageLocation in data ==> data[ForegroundImageLocation] == IntList(p.foregroundImageLocation.value))
  }

  /** The whole body for `p`, and nothing else. */
  ghost predicate PayloadFor(p: Params, encode: seq<Byte> -> string, data: Body) {
    && data.Keys <= AlwaysKeys + PlacementKeys + {ExcludeElements, Sku}
    && AlwaysFor(p, encode, data)
    && ExcludeFor(p, data)
    && PlacementFor(p, data)
    && SkuFor(p, data)
  }

  /** The exclusion list is sent only when given and fast mode is off. */
  ghost predicate ExcludeFor(p: Params, data: Body) {
    && (ExcludeElements in data <==> Truthy(p.excludeElements) && !p.fast)
    && (ExcludeElements in data ==> data[ExcludeElements] == Str(p.excludeElements.value))
  }

  /** The SKU is sent only when given. */
  ghost predicate SkuFor(p: Params, data: Body) {
    && (Sku in data <==> Truthy(p.sku))
    && (Sku in data ==> data[Sku] == Str(p.sku.value))
  }

  /** The body, built as the source builds it: the ten fixed fields, then each conditional one. */
  method BuildPayload(p: Params, encode: seq<Byte> -> string) returns (data: Body)
    ensures PayloadFor(p, encode, data)
  {
    data := FixedFields(p, encode);
    ghost var fixed := data;
    data := AddExclude(p, data);
    ghost var excluded := data;
    data := AddPlacement(p, data);
    ghost var placed := data;
    Untouched(excluded, placed, PlacementKeys, Sku);
    data := AddSku(p, data);
    AlwaysKept(p, encode, fixed, excluded);
    AlwaysKept(p, encode, excluded, placed);
    AlwaysKept(p, encode, placed, data);
    ExcludeKept(p, excluded, placed, PlacementKeys);
    ExcludeKept(p, placed, data, {Sku});
    PlacementKept(p, placed, data);
  }

  /** The exclusion list, added only when given and fast mode is off. */
  method AddExclude(p: Params, before: Body) returns (data: Body)
    requires before.Keys == AlwaysKeys
    ensures Grows(before, data, {ExcludeElements}) && ExcludeFor(p, data)
    ensures Sku !in data && data.Keys !! PlacementKeys
  {
    data := before;
    if Truthy(p.excludeElements) && !p.fast {
      data := data[ExcludeElements := Str(p.excludeElements.value)];
    }
  }

  /** The SKU, added only when given. */
  method AddSku(p: Params, before: Body) returns (data: Body)
    requires Sku !in before
    ensures Grows(before, data, {Sku}) && SkuFor(p, data)
  {
    data := before;
    if Truthy(p.sku) {
      data := data[Sku := Str(p.sku.value)];
    }
  }

  /** Adding fields other than the exclusion list leaves it as it was. */
  lemma ExcludeKept(p: Params, before: Body, after: Body, added: set<Field>)
    requires ExcludeFor(p, before) && Grows(before, after, added) && ExcludeElements !in added
    ensures ExcludeFor(p, after)
  {
    Untouched(before, after, added, ExcludeElements);
  }

  /** The ten fields every body starts with. */
  method FixedFields(p: Params, encode: seq<Byte> -> string) returns (data: Body)
    ensures data.Keys == AlwaysKeys && AlwaysFor(p, encode, data)
  {
    var imageBase64 := encode(p.imageData);
    data := map[
      File := Str(imageBase64),
      SceneDescription := Str(p.sceneDescription),
      PlacementType := Str(p.placementType),
      NumResults := Int(p.numResults),
      Sync := Bool(p.sync),
      Fast := Bool(p.fast),
      OptimizeDescription := Bool(p.optimizeDescription),
      OriginalQuality := Bool(p.originalQuality),
      ForceRmbg := Bool(p.forceRmbg),
      ContentModeration := Bool(p.contentModeration)];
  }

  /** A body that keeps every field of one holding the fixed fields holds them too. */
  lemma AlwaysKept(p: Params, encode: seq<Byte> -> string, before: Body, after: Body)
    requires AlwaysFor(p, encode, before)
    requires forall k :: k in before ==> k in after && after[k] == before[k]
    ensures AlwaysFor(p, encode, after)
  {
  }

  /** Adding the SKU leaves the placement fields as they were. */
  lemma PlacementKept(p: Params, before: Body, after: Body)
    requires PlacementFor(p, before)
    requires Grows(before, after, {Sku})
    ensures PlacementFor(p, after)
  {
  }

  /** The mode-dependent fields, added to a body that holds none of them. */
  method AddPlacement(p: Params, before: Body) returns (data: Body)
    requires before.Keys !! PlacementKeys
    ensures Grows(before, data, PlacementKeys)
    ensures PlacementFor(p, data)
  {
    data := before;
    if p.placementType in ShotSizeModes {
      data := data[ShotSize := IntList(p.shotSize)];
    }
    if p.placementType == "manual_placement" {
      data := data[ManualPlacementSelection := StrList(p.manualPlacementSelection)];
    }
    if p.placementType == "manual_padding" {
      data := data[PaddingValues := IntList(p.paddingValues)];
    }
    if p.placementType == "custom_coordinates" {
      if Truthy(p.foregroundImageSize) {
        data := data[ForegroundImageSize := IntList(p.foregroundImageSize.value)];
      }
      if Truthy(p.foregroundImageLocation) {
        data := data[ForegroundImageLocation := IntList(p.foregroundImageLocation.value)];
      }
    }
  }

  /** `lifestyle_shot_by_text`: one request, no timeout, no retry; a JSON response is returned
      and every other outcome is reported under FailurePrefix. */
  method LifestyleShotByText(p: Params, encode: seq<Byte> -> string, response: Response)
    returns (result: Result<Value, Failure>, trace: seq<Event>, sent: Request)
    ensures sent.url == Endpoint && sent.timeout == None
    ensures HeadersFor(p.apiKey, sent.headers) && PayloadFor(p, encode, sent.body)
    ensures trace == [Attempt(0)]
    ensures response.Ok? ==> result == Success(response.body)
    ensures !response.Ok? ==> result == Failure(Wrapped(FailurePrefix, response))
  {
    var headers := BuildHeaders(p.apiKey);
    var data := BuildPayload(p, encode);
    sent := Request(Endpoint, headers, data, None);
    trace := [Attempt(0)];
    match response {
      case Ok(body) => result := Success(body);
      case _ => result := Failure(Wrapped(FailurePrefix, response));
    }
  }

  /** The anchor and the padding exclude each other: at most one of them is sent. */
  lemma AnchorOrPadding(p: Params, data: Body)
    requires PlacementFor(p, data)
    ensures !(ManualPlacementSelection in data && PaddingValues in data)
  {
    assert "manual_placement" != "manual_padding" by {
      assert "manual_placement"[8] != "manual_padding"[8];
    }
  }

  /** Under the default mode "original" no placement field is sent, and with the default
      fast mode no exclusion list is sent either. */
  lemma DefaultsSendNoPlacement(apiKey: string, imageData: seq<Byte>, scene: string,
                                encode: seq<Byte> -> string, data: Body)
    requires PayloadFor(Defaults(apiKey, imageData, scene), encode, data)
    ensures data.Keys == AlwaysKeys
  {
    var p := Defaults(apiKey, imageData, scene);
    assert p.placementType !in ShotSizeModes by {
      assert p.placementType[0] == 'o';
      assert forall m :: m in ShotSizeModes ==> m[0] != 'o';
    }
    assert p.placementType != "manual_placement" && p.placementType != "manual_padding"
        && p.placementType != "custom_coordinates" by {
      assert p.placementType[0] == 'o';
    }
  }

  /** The body is fully determined by the arguments. */
  lemma PayloadDetermined(p: Params, encode: seq<Byte> -> string, d1: Body, d2: Body)
    requires PayloadFor(p, encode, d1) && PayloadFor(p, encode, d2)
    ensures d1 == d2
  {
    forall k | k in d1 || k in d2 ensures k in d1 && k in d2 && d1[k] == d2[k] {
      if k in AlwaysKeys {
        AlwaysAgree(p, encode, d1, d2, k);
      } else if k in PlacementKeys {
        PlacementAgree(p, d1, d2, k);
      }
    }
    assert d1.Keys == d2.Keys;
  }

  /** Two bodies holding the fixed fields for the same parameters agree on them. */
  lemma AlwaysAgree(p: Params, encode: seq<Byte> -> string, d1: Body, d2: Body, k: Field)
    requires AlwaysFor(p, encode, d1) && AlwaysFor(p, encode, d2) && k in AlwaysKeys
    ensures k in d1 && k in d2 && d1[k] == d2[k]
  {
  }

  /** Two bodies holding the placement fields for the same parameters agree on them. */
  lemma PlacementAgree(p: Params, d1: Body, d2: Body, k: Field)
    requires PlacementFor(p, d1) && PlacementFor(p, d2) && k in PlacementKeys
    ensures k in d1 <==> k in d2
    ensures k in d1 ==> d1[k] == d2[k]
  {
  }
}
