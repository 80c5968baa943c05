/** The values a request is made of: JSON values, a JSON body, header maps and the request itself. */
module Http {
  import opened Wrappers

  /** A byte of image data. */
  type Byte = b: int | 0 <= b < 256

  /** A JSON value as it appears in a request body or a decoded response. */
  datatype Value =
    | Null
    | Bool(b: bool)
    | Int(n: int)
    | Real(x: real)
    | Str(s: string)
    | IntList(ints: seq<int>)
    | StrList(strs: seq<string>)
    | Array(items: seq<Value>)
    | Object(fields: map<string, Value>)

  /** The fields a request body can carry. Each is sent under its `Name`. */
  datatype Field =
    // text-to-image HD
    | Prompt | NumResults | Sync | NegativePrompt | AspectRatio | Seed | StepsNum
    | TextGuidanceScale | Medium | PromptEnhancement | EnhanceImage | ContentModeration | IpSignal
    // erase foreground
    | ImageUrl | File
    // lifestyle shot by text
    | SceneDescription | PlacementType | Fast | OptimizeDescription | OriginalQuality | ForceRmbg
    | ExcludeElements | ShotSize | ManualPlacementSelection | PaddingValues
    | ForegroundImageSize | ForegroundImageLocation | Sku

  /** The JSON key a field is sent under. */
  function Name(f: Field): string {
    match f
    case Prompt => "prompt"
    case NumResults => "num_results"
    case Sync => "sync"
    case NegativePrompt => "negative_prompt"
    case AspectRatio => "aspect_ratio"
    case Seed => "seed"
    case StepsNum => "steps_num"
    case TextGuidanceScale => "text_guidance_scale"
    case Medium => "medium"
    case PromptEnhancement => "prompt_enhancement"
    case EnhanceImage => "enhance_image"
    case ContentModeration => "content_moderation"
    case IpSignal => "ip_signal"
    case ImageUrl => "image_url"
    case File => "file"
    case SceneDescription => "scene_description"
    case PlacementType => "placement_type"
    case Fast => "fast"
    case OptimizeDescription => "optimize_description"
    case OriginalQuality => "original_quality"
    case ForceRmbg => "force_rmbg"
    case ExcludeElements => "exclude_elements"
    case ShotSize => "shot_size"
    case ManualPlacementSelection => "manual_placement_selection"
    case PaddingValues => "padding_values"
    case ForegroundImageSize => "foreground_image_size"
    case ForegroundImageLocation => "foreground_image_location"
    case Sku => "sku"
  }

  /** A JSON object body, keyed by field; optional fields are absent. */
  type Body = map<Field, Value>

  /** HTTP header name to header value. */
  type Headers = map<string, string>

  /** One POST request: where it goes, what it carries, and its timeout in seconds (None: no timeout). */
  datatype Request = Request(url: string, headers: Headers, body: Body, timeout: Option<nat>)

  /** `after` keeps every field of `before` unchanged and adds fields only from `added`. */
  ghost predicate Grows(before: Body, after: Body, added: set<Field>) {
    && (forall k :: k in before ==> k in after && after[k] == before[k])
    && after.Keys <= before.Keys + added
  }

  /** A field outside `added` is in `after` exactly as it was in `before`. */
  lemma Untouched(before: Body, after: Body, added: set<Field>, f: Field)
    requires Grows(before, after, added) && f !in added
    ensures f in after <==> f in before
    ensures f in before ==> after[f] == before[f]
  {
  }

  const ApplicationJson := "application/json"

  /** Python truthiness of an optional string or list: present and non-empty. */
  predicate Truthy<T>(o: Option<seq<T>>) {
    o.Some? && |o.value| > 0
  }
}
