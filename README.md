# adsnap-studio API clients, modelled in Dafny

adsnap-studio calls a third-party image API through three thin client functions:

- `generate_hd_image` turns a text prompt into an HD image.
- `erase_foreground` removes the foreground of an image and fills in the background.
- `lifestyle_shot_by_text` places a product image in a scene described in words.

Each function builds a JSON body and a header map, POSTs them, and returns the decoded JSON
response or raises an error. The first two also check their arguments before building anything:
`generate_hd_image` requires a prompt, and `erase_foreground` requires a key and an image.
`lifestyle_shot_by_text` checks none of its arguments.

The first two functions share one retry loop, written out twice in the source:

- up to three attempts;
- a 4xx status other than 429 stops the call at once;
- a body that is not JSON is meant to stop the call at once (with requests 2.27 or later it is retried instead; see "## Findings");
- 429, 5xx and transport failures are retried after an exponential backoff of 1.5 s and then 2.25 s.

The third function makes a single attempt with no timeout and wraps any failure under a fixed prefix.

The model has these modules:

- `Wrappers`: `Option` and `Result`.
- `Http`: JSON values, request bodies keyed by the `Field` datatype, headers and the request record. `Name` gives the JSON key each field is sent under.
- `PyStr`: Python slicing with negative indices, and `str.strip` with Python's whitespace set.
- `Masking`: `_mask_key`, the form in which a key appears in log lines.
- `Executor`: the shared retry loop.
  - The network is an oracle: the sequence of responses the server gives, one per attempt.
  - The clock is a trace of `Attempt` and `Sleep` events.
  - The loop is the method `Execute`. It is proved equal to the recursive specification `Run`.
  - `Run` is proved equal to a closed form `Expected`, in which the first attempt that settles decides the call.
  - The lemmas about how a call ends and about the shape of its trace are stated on top of that closed form.
- `HdImageGeneration`, `EraseForeground`, `LifestyleShot`: the three public functions.
  - Each body and each header map is built by a method, as the source builds it.
  - Each method is proved against a predicate. The predicate says which fields are present, exactly when, and with which value.
  - Lemmas show that the body is determined by the arguments, and check particular promises such as the clamps and the defaults.

## Model

| member | source | states |
|---|---|---|
| PyStr.SliceIndex | services/hd_image_generation.py:13 | a Python slice bound lies in [0, len]: a bound in range is kept, a negative one counts back from the end, one above len becomes len, and one below -len becomes 0 |
| PyStr.Slice | services/hd_image_generation.py:13 | a slice is never longer than its sequence; `s[:k]` with k >= 0 is the first min(k, len) items, and `s[-k:]` with k > 0 is the last min(k, len) items |
| PyStr.SliceSplit | services/hd_image_generation.py:13 | `s[:k] + s[k:] == s` for every integer k, in range or not |
| PyStr.SkipSpace | services/lifestyle_shot.py:32 | returns the first non-whitespace index at or after `i`; everything skipped is whitespace |
| PyStr.SkipSpaceBack | services/lifestyle_shot.py:32 | returns the end of the text before the trailing whitespace; everything skipped is whitespace |
| PyStr.Strip | services/lifestyle_shot.py:32 | `str.strip()` is no longer than its input, and the result neither starts nor ends with whitespace |
| PyStr.StripFixedPoint | services/lifestyle_shot.py:32 | a string is left unchanged by strip exactly when it is empty or has no whitespace at either end |
| PyStr.StripIdempotent | services/lifestyle_shot.py:32 | stripping a stripped key changes nothing |
| PyStr.StripIsTrimmedInfix | services/lifestyle_shot.py:32 | the stripped key is a contiguous piece of the key, and only whitespace was removed around it |
| Masking.MaskKey | services/hd_image_generation.py:10-13 | a missing or empty key gives `<no-key>`; otherwise the result is the first min(4, len) characters, `...`, and the last min(4, len) characters |
| Masking.MaskKeyLongKey | services/erase_foreground.py:11-14 | a key of 8 or more characters is logged as 11 characters: its first four, three dots, its last four |
| Masking.MaskKeyHidesLongKey | services/erase_foreground.py:11-14 | a key longer than 11 characters never occurs inside its masked form |
| Masking.MaskKeyShortKey | services/hd_image_generation.py:10-13 | a key of 1 to 4 characters is logged whole, twice, around the dots |
| Masking.MaskKeyExample | services/hd_image_generation.py:13 | "abcd1234efgh" is logged as "abcd...efgh" |
| Executor.Settle | services/hd_image_generation.py:84-99 | an attempt ends the call exactly when its response is not transient (a falsy status, 429, 5xx and transport failures go on); JSON ends it with that JSON, and only JSON ends it in success. The kind and payload of the other endings are stated by ClientErrorStops and DecodeErrorStops |
| Executor.RunStep | services/hd_image_generation.py:79-106 | one iteration of the loop: a settled attempt ends the call with that outcome; a transient one is followed by the sleep before the next attempt, if any, and the rest of the loop |
| Executor.Execute | services/hd_image_generation.py:74-109 | the while loop with its attempt counter, backoff and last error computes exactly the result and the event trace of `Run` |
| Executor.FirstSettled | services/erase_foreground.py:64-110 | the first attempt whose response is not transient, or 3 if none is; every attempt before it is transient |
| Executor.FirstSettledAt | services/erase_foreground.py:64-110 | the first settled attempt is `k` when all earlier attempts are transient and attempt `k` is not |
| Executor.AttemptsMade | services/hd_image_generation.py:79 | a call makes between 1 and RETRY_COUNT + 1 = 3 attempts |
| Executor.RunFromClosedForm | services/erase_foreground.py:64-115 | from any attempt on, the loop comes to the closed form: the first settled attempt decides the outcome, or the call is exhausted with the third response |
| Executor.RunIsExpected | services/hd_image_generation.py:74-109 | the loop and the closed form agree on every sequence of server responses |
| Executor.ScheduleLength | services/hd_image_generation.py:101-106 | n attempts produce 2n - 1 events: one sleep between every two attempts |
| Executor.ScheduleAt | services/hd_image_generation.py:101-106 | event 2j is attempt j and event 2j + 1 is the sleep before attempt j + 1 |
| Executor.SchedulePaced | services/hd_image_generation.py:101-106 | the schedule of n attempts alternates attempts numbered in order with the sleep before each next attempt |
| Executor.TraceShape | services/erase_foreground.py:64-110 | every call's trace alternates attempts numbered 0, 1, ... with sleeps, has 2 * attempts - 1 events, and ends with its last attempt, never with a sleep |
| Executor.GrowthPositive | services/hd_image_generation.py:104 | RETRY_BACKOFF ** n is positive |
| Executor.GrowthIncreasing | services/hd_image_generation.py:104 | RETRY_BACKOFF ** n strictly increases with n |
| Executor.SleepValues | services/hd_image_generation.py:104 | the sleeps are 1.0 * 1.5 ** 1 = 1.5 s and 1.0 * 1.5 ** 2 = 2.25 s |
| Executor.SleepsIncrease | services/erase_foreground.py:103-110 | in any trace of the loop each sleep is strictly longer than the ones before it |
| Executor.SuccessIff | services/hd_image_generation.py:83-86 | a call returns a value exactly when the first settled attempt returned JSON, and it returns that JSON |
| Executor.ClientErrorStops | services/hd_image_generation.py:87-92 | after transient attempts, a 4xx other than 429 ends the call at that attempt with its status and body text |
| Executor.DecodeErrorStops | services/hd_image_generation.py:97-99 | after transient attempts, a body that is not JSON ends the call at that attempt with a decode error and no retry |
| Executor.ExhaustedIff | services/hd_image_generation.py:108-109 | a call is exhausted exactly when all three attempts are transient; it then reports 3 attempts and the third response, after sleeps of 1.5 and 2.25 s |
| Executor.ServerErrorThenSuccess | services/hd_image_generation.py:93-106 | a 500 followed by JSON returns that JSON after two attempts and one 1.5 s sleep |
| Executor.NotFoundFailsAtOnce | services/hd_image_generation.py:91-92 | a 404 fails after one attempt, with status 404 and the body text |
| Executor.AsCaught | services/hd_image_generation.py:95-99 | with requests 2.27 or later, a non-JSON body is caught by the RequestException clause, as a transport failure is, so it becomes transient |
| Executor.AllAsCaught | services/erase_foreground.py:96-100 | the responses as the loop as written classifies them, one for one |
| Executor.NeverDecodeErrorAsWritten | services/erase_foreground.py:99-100 | as written, no call ever ends with the non-JSON error: that clause is unreachable |
| Executor.NotJsonRetriedAsWritten | services/hd_image_generation.py:95-99 | three non-JSON bodies exhaust the call as written after three attempts and two sleeps; the loop as intended fails after the first attempt |
| HdImageGeneration.ClampInt | services/hd_image_generation.py:38 | `max(lo, min(x, hi))` lies in [lo, hi], keeps x inside it, and gives the bound x passes |
| HdImageGeneration.ClampReal | services/hd_image_generation.py:50 | the same clamp on the guidance scale |
| HdImageGeneration.BuildPayload | services/hd_image_generation.py:36-60 | the body holds exactly the value fields and switches for the arguments; num_results lies in [1, 4] and is kept when already in range, steps_num lies in [20, 50], and text_guidance_scale lies in [1.0, 10.0] |
| HdImageGeneration.ValueFields | services/hd_image_generation.py:36-52 | prompt, clamped num_results and sync always; each optional value exactly when given, and only value fields |
| HdImageGeneration.LeadFields | services/hd_image_generation.py:36-46 | prompt, num_results and sync, then negative_prompt when truthy, aspect_ratio when non-empty, and seed when not None |
| HdImageGeneration.AddTunables | services/hd_image_generation.py:47-52 | steps_num and text_guidance_scale clamped when not None, and medium when truthy; every earlier field is kept |
| HdImageGeneration.LeadKept | services/hd_image_generation.py:47-52 | adding the tunables does not disturb the leading fields |
| HdImageGeneration.AddFlags | services/hd_image_generation.py:53-60 | each switch is present, as `true`, exactly when it is on; the value fields are kept |
| HdImageGeneration.BuildHeaders | services/hd_image_generation.py:65-72 | Accept and Content-Type are always sent; api_token and a bearer Authorization header are sent exactly when the key is non-empty |
| HdImageGeneration.GenerateHdImage | services/hd_image_generation.py:32-109 | an empty prompt fails before any request; otherwise the request goes to the endpoint plus the model version, with a 15 s timeout, these headers and this body, and the call ends as the retry loop does |
| HdImageGeneration.PayloadDetermined | services/hd_image_generation.py:36-60 | the body is fully determined by the arguments |
| HdImageGeneration.LeadAgree | services/hd_image_generation.py:36-46 | two bodies for the same arguments agree on the leading fields |
| HdImageGeneration.TunablesAgree | services/hd_image_generation.py:47-52 | two bodies for the same arguments agree on the tunables |
| HdImageGeneration.FlagsAgree | services/hd_image_generation.py:53-60 | two bodies for the same arguments agree on the switches |
| HdImageGeneration.OnlySyncMayBeFalse | services/hd_image_generation.py:53-60 | no field except sync is ever sent as `false`: a switch that is off is left out |
| HdImageGeneration.DefaultsPayload | services/hd_image_generation.py:15-60 | with every optional argument at its default, the body is exactly prompt, num_results 1, sync true and aspect_ratio "1:1" |
| HdImageGeneration.StepsClampExamples | services/hd_image_generation.py:48 | 5 steps are sent as 20, and 999 as 50 |
| EraseForeground.BuildHeaders | services/erase_foreground.py:42-47 | exactly four headers: Accept, Content-Type, api_token with the key, and Authorization with the key as a bearer token |
| EraseForeground.BuildPayload | services/erase_foreground.py:50-57 | content_moderation always, then image_url when truthy, otherwise the encoded image bytes under file, and nothing else |
| EraseForeground.EraseForeground | services/erase_foreground.py:33-115 | a missing key fails first, then a missing image, both before any request; otherwise the request goes to the endpoint with a 15 s timeout, these headers and this body, and the call ends as the retry loop does |
| EraseForeground.DefaultsHaveNoImage | services/erase_foreground.py:17-37 | the defaults give no image and no moderation, so by EraseForeground's contract a call with a non-empty key that leaves both image arguments out fails with the missing-image error before anything is sent |
| EraseForeground.OneImageSource | services/erase_foreground.py:54-57 | the body names exactly one image source, and the URL wins when both are given |
| LifestyleShot.BuildHeaders | services/lifestyle_shot.py:31-35 | exactly three headers: the stripped key under api_token and the two JSON headers; no Authorization header |
| LifestyleShot.FixedFields | services/lifestyle_shot.py:38-52 | the ten fields every body carries, with the image base64-encoded and the count passed through unclamped |
| LifestyleShot.AddExclude | services/lifestyle_shot.py:54-55 | exclude_elements is added exactly when it is truthy and fast mode is off |
| LifestyleShot.AddPlacement | services/lifestyle_shot.py:57-70 | shot_size for the three sized modes, the anchor for manual_placement, the padding for manual_padding, and each truthy foreground box for custom_coordinates; earlier fields are kept |
| LifestyleShot.AddSku | services/lifestyle_shot.py:72-73 | sku is added exactly when it is truthy |
| LifestyleShot.BuildPayload | services/lifestyle_shot.py:41-73 | the body holds exactly the fixed fields, the exclusion list, the placement fields and the sku as the arguments call for, and nothing else |
| LifestyleShot.ExcludeKept | services/lifestyle_shot.py:57-73 | adding placement fields or the sku leaves the exclusion list as it was |
| LifestyleShot.AlwaysKept | services/lifestyle_shot.py:54-73 | the later conditional fields leave the ten fixed fields as they were |
| LifestyleShot.PlacementKept | services/lifestyle_shot.py:72-73 | adding the sku leaves the placement fields as they were |
| LifestyleShot.LifestyleShotByText | services/lifestyle_shot.py:29-89 | one attempt with no timeout to the endpoint, with these headers and this body; JSON is returned, and every other outcome fails under "Lifestyle shot generation failed: " |
| LifestyleShot.AnchorOrPadding | services/lifestyle_shot.py:60-64 | manual_placement_selection and padding_values are never sent together |
| LifestyleShot.DefaultsSendNoPlacement | services/lifestyle_shot.py:9-73 | with the default arguments (placement "original", fast mode on, no sku) only the ten fixed fields are sent |
| LifestyleShot.PayloadDetermined | services/lifestyle_shot.py:41-73 | the body is fully determined by the arguments |
| LifestyleShot.AlwaysAgree | services/lifestyle_shot.py:41-52 | two bodies for the same arguments agree on the fixed fields |
| LifestyleShot.PlacementAgree | services/lifestyle_shot.py:57-70 | two bodies for the same arguments agree on the placement fields |
| Http.Untouched | services/lifestyle_shot.py:54-73 | a field that a later step does not add is present, and has the same value, exactly as before that step |

## Left out

- Executor.Execute: a body that is not JSON ends the call with a decode error, as the ValueError clause reads; that is how requests before 2.27 behaves. The classification of requests 2.27 and later is modelled separately by `AsCaught` and `AllAsCaught` (see "## Findings").
- The log lines of services/lifestyle_shot.py:76-78 print the headers, so the stripped key appears there unmasked. Logging is not modelled, so this is not stated as a property.
- The network, `time.sleep` and the clock. Server responses are an oracle with one response per possible attempt. Sleeps are recorded as `Sleep` events with exact durations.
- GenerateHdImage and EraseForeground require at least three oracle responses. This comes from the oracle, not from the source: responses after the call has settled are never read.
- `print` and the log lines. `_mask_key` is modelled on its own, because the key appears only in those lines.
- `base64.b64encode(...).decode("utf-8")` (RFC 4648, section 4) is the parameter `encode`. The encoding itself is not modelled.
- Error message wording. A failure carries its kind, the status and body text, the number of attempts and the last response. The model does not produce the formatted message.
- Python exceptions other than those the `requests` clauses catch, e.g. a body that cannot be serialised as JSON. A `None` key passed to `lifestyle_shot_by_text`, which raises before the `try`, is not modelled either: arguments are typed.
- The coercions `int(seed)`, `int(steps_num)` and `float(text_guidance_scale)`. Arguments arrive already typed, so the errors they raise on non-numeric input are not modelled.
- HdImageGeneration.ClampReal: models the float clamp on exact reals. Rounding, NaN and infinities are not modelled.
- HdImageGeneration.ClampInt: requires `lo <= hi`. Python's `max(lo, min(x, hi))` is defined for any bounds, but the source only calls it with the constant ranges [1, 4] and [20, 50].
- Redirects and other 3xx handling inside `requests`. `raise_for_status` raises only for 4xx and 5xx, and the oracle only describes what comes back.
- The retry loop and `_mask_key` are written out twice in the source, once per file. Each is modelled once, and both call sites use the single copy.
- The mutable list defaults of `lifestyle_shot_by_text` are never mutated, so they are modelled as values.
- Body keys are the `Field` datatype rather than strings. `Http.Name` gives the JSON key each field is sent under. That distinct fields get distinct keys is visible in `Name`, but it is not proved.

## Findings

| source | as written | input that shows it | evidently intended | confidence | as-written member | corrected member |
|---|---|---|---|---|---|---|
| services/hd_image_generation.py:95-99 | `except requests.RequestException` comes before `except ValueError`. With requests 2.27 or later, the decode error raised by `resp.json()` is also a RequestException, so it is caught by the retry clause. | three 200 responses whose bodies are not JSON: the call is retried, sleeps 1.5 s and 2.25 s, and fails after 3 attempts | a body that is not JSON fails at once with the non-JSON error, as the comment on line 98 says | not executed; holds with requests 2.27 or later | Executor.NotJsonRetriedAsWritten | Executor.DecodeErrorStops |
| services/erase_foreground.py:96-100 | The same clause order. As written, the `Non-JSON response` error can never be raised. | any sequence of responses: as written, no call ends with the non-JSON error | a body that is not JSON fails at once with the non-JSON error | not executed; holds with requests 2.27 or later | Executor.NeverDecodeErrorAsWritten | Executor.DecodeErrorStops |
