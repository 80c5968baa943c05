/** `generate_hd_image`: validates the prompt, builds the JSON body and the headers,
    and hands them to the shared retry loop. */
module HdImageGeneration {
  import opened Wrappers
  import opened Http
  import opened Executor

  /** The URL is this prefix followed by the model version. */
  const Endpoint := "https://engine.prod.bria-api.com/v1/text-to-image/hd/"

  const PromptRequired := "Prompt is required for image generation"

  /** The arguments of `generate_hd_image`, already typed. */
  datatype Params = Params(
    prompt: string,
    apiKey: string,
    modelVersion: string,
    numResults: int,
    aspectRatio: string,
    sync: bool,
    seed: Option<int>,
    negativePrompt: Option<string>,
    stepsNum: Option<int>,
    textGuidanceScale: Option<real>,
    medium: Option<string>,
    promptEnhancement: bool,
    enhanceImage: bool,
    contentModeration: bool,
    ipSignal: bool)

  /** The arguments with every optional one left at its default. */
  function Defaults(prompt: string, apiKey: string): (p: Params)
  {
    Params(prompt, apiKey, "2.2", 1, "1:1", true, None, None, None, None, None, false, false, false, false)
  }

  /** `max(lo, min(x, hi))` on integers: x pulled into [lo, hi]. */
  function ClampInt(x: int, lo: int, hi: int): (r: int)
    requires lo <= hi
    ensures lo <= r <= hi
    ensures lo <= x <= hi ==> r == x
    ensures x < lo ==> r == lo
    ensures hi < x ==> r == hi
  {
    var m := if x < hi then x else hi;
    if lo < m then m else lo
  }

  /** `max(lo, min(x, hi))` on reals: ClampInt again, since Dafny's int and real are separate
      types and the source clamps a float here. */
  function ClampReal(x: real, lo: real, hi: real): (r: real)
    requires lo <= hi
    ensures lo <= r <= hi
    ensures lo <= x <= hi ==> r == x
    ensures x < lo ==> r == lo
    ensures hi < x ==> r == hi
  {
    var m := if x < hi then x else hi;
    if lo < m then m else lo
  }

  /** The fields that carry a value of the caller's: the leading ones and the tunables. */
  const LeadKeys: set<Field> := {Prompt, NumResults, Sync, NegativePrompt, AspectRatio, Seed}
  const TunableKeys: set<Field> := {StepsNum, TextGuidanceScale, Medium}
  const ValueKeys: set<Field> := LeadKeys + TunableKeys

  /** The fields that are boolean switches. */
  const FlagKeys: set<Field> := {PromptEnhancement, EnhanceImage, ContentModeration, IpSignal}

  /** A boolean flag is sent only when set, and then as `true`. */
  ghost predicate FlagField(data: Body, name: Field, flag: bool) {
    && (name in data <==> flag)
    && (flag ==> data[name] == Bool(true))
  }

  /** An optional string is sent only when truthy, and then as given. */
  ghost predicate TextField(data: Body, name: Field, o: Option<string>) {
    && (name in data <==> Truthy(o))
    && (Truthy(o) ==> data[name] == Str(o.value))
  }

  /** The value fields for `p`: the required ones, the clamped tunables, and each optional
      one exactly when its argument is given. */
  ghost predicate ValuesFor(p: Params, data: Body) {
    LeadFor(p, data) && TunablesFor(p, data)
  }

  /** The prompt, the clamped result count, the sync switch, and the negative prompt, aspect
      ratio and seed where given. */
  ghost predicate LeadFor(p: Params, data: Body) {
    && Prompt in data && data[Prompt] == Str(p.prompt)
    && NumResults in data && data[NumResults] == Int(ClampInt(p.numResults, 1, 4))
    && Sync in data && data[Sync] == Bool(p.sync)
    && TextField(data, NegativePrompt, p.negativePrompt)
    && (AspectRatio in data <==> p.aspectRatio != [])
    && (p.aspectRatio != [] ==> data[AspectRatio] == Str(p.aspectRatio))
    && (Seed in data <==> p.seed.Some?)
    && (p.seed.Some? ==> data[Seed] == Int(p.seed.value))
  }

  /** The step count and guidance scale, clamped, and the medium, each where given. */
  ghost predicate TunablesFor(p: Params, data: Body) {
    && (StepsNum in data <==> p.stepsNum.Some?)
    && (p.stepsNum.Some? ==> data[StepsNum] == Int(ClampInt(p.stepsNum.value, 20, 50)))
    && (TextGuidanceScale in data <==> p.textGuidanceScale.Some?)
    && (p.textGuidanceScale.Some? ==>
          data[TextGuidanceScale] == Real(ClampReal(p.textGuidanceScale.value, 1.0, 10.0)))
    && TextField(data, Medium, p.medium)
  }

  /** The flag fields for `p`: each present, as `true`, exactly when its switch is on. */
  ghost predicate FlagsFor(p: Params, data: Body) {
    && FlagField(data, PromptEnhancement, p.promptEnhancement)
    && FlagField(data, EnhanceImage, p.enhanceImage)
    && FlagField(data, ContentModeration, p.contentModeration)
    && FlagField(data, IpSignal, p.ipSignal)
  }

  /** What the body for `p` holds, and nothing else. */
  ghost predicate PayloadFor(p: Params, data: Body) {
    data.Keys <= ValueKeys + FlagKeys && ValuesFor(p, data) && FlagsFor(p, data)
  }

  /** The body, filled in field by field as the source does. */
  method BuildPayload(p: Params) returns (data: Body)
    ensures PayloadFor(p, data)
    ensures data[NumResults].Int? && 1 <= data[NumResults].n <= 4
    ensures 1 <= p.numResults <= 4 ==> data[NumResults] == Int(p.numResults)
    ensures StepsNum in data ==> data[StepsNum].Int? && 20 <= data[StepsNum].n <= 50
    ensures TextGuidanceScale in data ==>
              data[TextGuidanceScale].Real? && 1.0 <= data[TextGuidanceScale].x <= 10.0
  {
    var fields := ValueFields(p);
    data := AddFlags(p, fields);
  }

  /** The value fields, in the order the source adds them. */
  method ValueFields(p: Params) returns (data: Body)
    ensures data.Keys <= ValueKeys && ValuesFor(p, data)
  {
    data := LeadFields(p);
    ghost var lead := data;
    data := AddTunables(p, data);
    LeadKept(p, lead, data);
  }

  /** The prompt, result count and sync switch, then the negative prompt, aspect ratio and
      seed where given. */
  method LeadFields(p: Params) returns (data: Body)
    ensures data.Keys <= LeadKeys && LeadFor(p, data)
  {
    data := map[Prompt := Str(p.prompt), NumResults := Int(ClampInt(p.numResults, 1, 4)), Sync := Bool(p.sync)];
    if Truthy(p.negativePrompt) {
      data := data[NegativePrompt := Str(p.negativePrompt.value)];
    }
    if p.aspectRatio != [] {
      data := data[AspectRatio := Str(p.aspectRatio)];
    }
    if p.seed.Some? {
      data := data[Seed := Int(p.seed.value)];
    }
  }

  /** The clamped step count and guidance scale and the medium, each where given, added to a
      body that holds only leading fields. */
  method AddTunables(p: Params, before: Body) returns (data: Body)
    requires before.Keys <= LeadKeys
    ensures Grows(before, data, TunableKeys) && TunablesFor(p, data)
  {
    data := before;
    if p.stepsNum.Some? {
      data := data[StepsNum := Int(ClampInt(p.stepsNum.value, 20, 50))];
    }
    if p.textGuidanceScale.Some? {
      data := data[TextGuidanceScale := Real(ClampReal(p.textGuidanceScale.value, 1.0, 10.0))];
    }
    if Truthy(p.medium) {
      data := data[Medium := Str(p.medium.value)];
    }
  }

  /** Adding tunables leaves the leading fields as they were. */
  lemma LeadKept(p: Params, before: Body, after: Body)
    requires LeadFor(p, before) && Grows(before, after, TunableKeys)
    ensures LeadFor(p, after)
  {
    Untouched(before, after, TunableKeys, NegativePrompt);
    Untouched(before, after, TunableKeys, AspectRatio);
    Untouched(before, after, TunableKeys, Seed);
  }

  /** The four switches, added to a body that holds only value fields. */
  method AddFlags(p: Params, fields: Body) returns (data: Body)
    requires fields.Keys <= ValueKeys
    ensures data.Keys <= fields.Keys + FlagKeys
    ensures forall k :: k in fields ==> k in data && data[k] == fields[k]
    ensures FlagsFor(p, data)
  {
    data := fields;
    if p.promptEnhancement {
      data := data[PromptEnhancement := Bool(true)];
    }
    if p.enhanceImage {
      data := data[EnhanceImage := Bool(true)];
    }
    if p.contentModeration {
      data := data[ContentModeration := Bool(true)];
    }
    if p.ipSignal {
      data := data[IpSignal := Bool(true)];
    }
  }

  /** What the headers for `apiKey` hold: the two JSON headers always, and the key under
      `api_token` and as a bearer token only when the key is non-empty. */
  ghost predicate HeadersFor(apiKey: string, headers: Headers) {
    && headers.Keys == {"Accept", "Content-Type"} + (if apiKey != [] then {"api_token", "Authorization"} else {})
    && headers["Accept"] == ApplicationJson
    && headers["Content-Type"] == ApplicationJson
    && (apiKey != [] ==> headers["api_token"] == apiKey && headers["Authorization"] == "Bearer " + apiKey)
  }

  method BuildHeaders(apiKey: string) returns (headers: Headers)
    ensures HeadersFor(apiKey, headers)
  {
    headers := map["Accept" := ApplicationJson, "Content-Type" := ApplicationJson];
    if apiKey != [] {
      headers := headers["api_token" := apiKey];
      headers := headers["Authorization" := "Bearer " + apiKey];
    }
  }

  /** `generate_hd_image`: an empty prompt fails before anything is sent; otherwise one request
      is built and the retry loop runs against the server's responses `oracle`. */
  method GenerateHdImage(p: Params, oracle: seq<Response>)
    returns (result: Result<Value, Failure>, trace: seq<Event>, sent: Option<Request>)
    requires |oracle| >= MaxAttempts
    ensures p.prompt == [] ==> result == Failure(InvalidInput(PromptRequired)) && trace == [] && sent == None
    ensures p.prompt != [] ==>
              && sent.Some?
              && sent.value.url == Endpoint + p.modelVersion
              && sent.value.timeout == Some(DefaultTimeout)
              && PayloadFor(p, sent.value.body)
              && HeadersFor(p.apiKey, sent.value.headers)
              && Call(result, trace) == Run(oracle, 0, None)
  {
    if p.prompt == [] {
      return Failure(InvalidInput(PromptRequired)), [], None;
    }
    var data := BuildPayload(p);
    var url := Endpoint + p.modelVersion;
    var headers := BuildHeaders(p.apiKey);
    sent := Some(Request(url, headers, data, Some(DefaultTimeout)));
    result, trace := Execute(oracle);
  }

  /** The body is fully determined: two bodies that both satisfy PayloadFor(p, _) are equal. */
  lemma PayloadDetermined(p: Params, d1: Body, d2: Body)
    requires PayloadFor(p, d1) && PayloadFor(p, d2)
    ensures d1 == d2
  {
    forall k | k in d1 || k in d2 ensures k in d1 && k in d2 && d1[k] == d2[k] {
      if k in LeadKeys {
        LeadAgree(p, d1, d2, k);
      } else if k in TunableKeys {
        TunablesAgree(p, d1, d2, k);
      } else {
        FlagsAgree(p, d1, d2, k);
      }
    }
    assert d1.Keys == d2.Keys;
  }

  /** Two bodies holding the leading fields for the same parameters agree on them. */
  lemma LeadAgree(p: Params, d1: Body, d2: Body, k: Field)
    requires LeadFor(p, d1) && LeadFor(p, d2) && k in LeadKeys
    ensures k in d1 <==> k in d2
    ensures k in d1 ==> d1[k] == d2[k]
  {
  }

  /** Two bodies holding the tunables for the same parameters agree on them. */
  lemma TunablesAgree(p: Params, d1: Body, d2: Body, k: Field)
    requires TunablesFor(p, d1) && TunablesFor(p, d2) && k in TunableKeys
    ensures k in d1 <==> k in d2
    ensures k in d1 ==> d1[k] == d2[k]
  {
  }

  /** Two bodies holding the switches for the same parameters agree on them. */
  lemma FlagsAgree(p: Params, d1: Body, d2: Body, k: Field)
    requires FlagsFor(p, d1) && FlagsFor(p, d2) && k in FlagKeys
    ensures k in d1 <==> k in d2
    ensures k in d1 ==> d1[k] == d2[k]
  {
  }

  /** No field but `sync` is ever sent as `false`: a flag that is off is left out. */
  lemma OnlySyncMayBeFalse(p: Params, data: Body)
    requires PayloadFor(p, data)
    ensures forall k :: k in data && data[k] == Bool(false) ==> k == Sync
  {
    forall k | k in data && data[k] == Bool(false)
      ensures k == Sync
    {
      assert k in ValueKeys + FlagKeys;
    }
  }

  /** With every optional argument at its default, the body is the prompt, one result, sync on
      and the aspect ratio "1:1", and nothing else. */
  lemma DefaultsPayload(prompt: string, apiKey: string, data: Body)
    requires PayloadFor(Defaults(prompt, apiKey), data)
    ensures data == map[Prompt := Str(prompt), NumResults := Int(1), Sync := Bool(true), AspectRatio := Str("1:1")]
  {
    var p := Defaults(prompt, apiKey);
    var expected := map[Prompt := Str(prompt), NumResults := Int(1), Sync := Bool(true), AspectRatio := Str("1:1")];
    assert LeadFor(p, expected);
    assert TunablesFor(p, expected);
    assert FlagsFor(p, expected);
    PayloadDetermined(p, data, expected);
  }

  /** The documented clamps: 5 steps become 20, 999 become 50. */
  lemma StepsClampExamples()
    ensures ClampInt(5, 20, 50) == 20 && ClampInt(999, 20, 50) == 50
  {
  }
}
