# Hoohacks25 outdoor-assistant backend: a verified model of its deterministic core

The system is a Flask backend. It runs small Python worker scripts as child
processes, and it calls a star-chart service and an IP-geolocation service.
The workers ask a generative model for fish species, nearby outdoor spots or a
bird's identity. This project models, in Dafny, the parts of that system
whose behaviour is fixed by the code rather than by a remote service:

- **The fish-list text protocol.** The fish worker (`src/APIs/fishy.py`)
  cleans the model's reply into a list and prints it as a header followed by
  numbered lines `"i. name"`. It prints a fixed no-data line when the list is
  empty. The backend's `/api/fishy` view scrapes that text back into a list.
  The model proves the round trip for both kinds of list:
  - a non-empty list of clean names prints and scrapes back to the same list;
  - the empty list scrapes back to the no-data answer.
  The backend reads the worker's output in text mode, which turns every
  carriage return into a line break. The round trip therefore holds for names
  without carriage returns, and a name with one is shown to lose its second
  half.
- **The backend's decision tables** (`backend_app.py`):
  - coordinate validation and the outcome of `/api/plan_trip`;
  - the catch-all static route's guard;
  - form checks, the worker outcome and upload clean-up in `/api/identify`;
  - the fish parser;
  - client-IP and fallback-location selection and result mapping in `/api/astronomy`;
  - the result record of `run_script`.
- **The adventure finder** (`src/APIs/adventure_finder.py`):
  - code-fence stripping;
  - extraction of the `"locations"` list;
  - the zoom rule;
  - the loop that sorts the located places into one marker group per category.
- **The bird identifier** (`src/APIs/bird_identification.py`): the JSON
  document it prints, and its exit paths.
- **The star-chart client** (`src/APIs/astronomy_api.py`):
  - HTTP Basic credentials, which are Base64 (section 4 of RFC 4648) of the
    UTF-8 bytes of `id:secret` (section 2 of RFC 7617), with full UTF-8 and
    Base64 encoders and decoders;
  - the request payload;
  - the reduction of the service's answer;
  - the handling of the geolocation answer.

Python's own operations are modelled once:
- module `PyStr` covers `strip` with Python's whitespace set, `split` on a
  character, `startswith`, substring `in`, `removeprefix`/`removesuffix` and
  decimal rendering;
- module `PyJson` covers JSON values, truthiness, `dict.get`, the `in`
  operator on dicts, lists and texts (a `TypeError` on anything else), and `float()`.

`json.loads`, `float()` on a text, and `str()` of a non-text value are oracles,
passed in as function parameters. Child processes, remote calls and the file
system are inputs: how the process ended, what the service answered, and
whether the map file exists.

Behaviour the model follows because the code does it:
- An `X-Forwarded-For` value is cut and stripped only when it holds a comma.
  A single address is used as sent, spaces included (`backend_app.py:280-281`).
- In `/api/plan_trip`, a coordinate or radius that is a list, a dict or
  `null` makes `float()` raise `TypeError`. Only `ValueError` is caught, so
  the client gets Flask's own 500 page and not the 400 envelope
  (`backend_app.py:80-85`). The model calls this `Unhandled`.
- Coordinates equal to the number 0 count as missing (`backend_app.py:77`).
- A map file left over from an earlier run makes `/api/plan_trip` answer with
  the map URL even when this run wrote nothing. The existence check is an
  input to `PlanTrip.Outcome`.
- In `/api/identify`, `flora` maps to `flora_identification.py`, which is not
  part of the repository. Running it ends as a failed worker run, which
  `RunScript.Run` covers.

## Model

| member | source | states |
|---|---|---|
| RunScript.UniversalNewlines | backend_app.py:43-48 | the captured text holds no carriage return, and a text without one is captured unchanged |
| RunScript.CarriageReturnEndsLine | backend_app.py:43-48 | a carriage return (with a newline right after it, if any) is captured as one newline, and what comes before it is kept |
| RunScript.Run | backend_app.py:35-64 | success exactly when the child exited with status 0; the output is the child's stdout when it ran and empty otherwise; on success the error is the child's stderr, on failure a non-empty message |
| Fishy.CleanReply | src/APIs/fishy.py:22-23 | every entry of the cleaned list is non-empty, has no surrounding whitespace and holds no newline |
| Fishy.TopFish | src/APIs/fishy.py:14-26 | an exception from the model call gives the empty list |
| Fishy.StripEmptyIff | src/APIs/fishy.py:23 | a line is dropped exactly when it consists of whitespace only |
| Fishy.CleanLinesAppend | src/APIs/fishy.py:22-23 | cleaning works line by line, so the kept lines stay in their original order |
| Fishy.CleanOneLine | src/APIs/fishy.py:23 | a blank line cleans to nothing, any other line to its stripped self |
| Fishy.CleanReplyOfClean | src/APIs/fishy.py:22-23 | a reply whose lines are already clean is returned as exactly those lines |
| Fishy.ReportLinesShape | src/APIs/fishy.py:34-39 | an empty list prints only the no-data line; otherwise the header and then one line `"i. name"` per fish, numbered from 1 in list order |
| Fishy.Numbered | src/APIs/fishy.py:36-37 | one line per fish; `Fishy.NumberedAt` pins down the k-th line |
| Fishy.ReportLines | src/APIs/fishy.py:34-39 | one line more than there are fish, opening with the header, or with the no-data line for an empty list; `Fishy.ReportLinesShape` pins down the rest |
| Fishy.Printed | src/APIs/fishy.py:25-39 | at least one character per line, ending in a newline; `Fishy.PrintedIsJoin` shows it is the lines joined by newlines plus a final newline |
| Fishy.PrintedIsJoin | src/APIs/fishy.py:25-39 | printing lines one `print` at a time writes the newline-joined text and one more newline |
| Fishy.NumberedAt | src/APIs/fishy.py:36-37 | the k-th numbered line carries number start+k and the k-th name |
| Fishy.PrintNumbered | src/APIs/fishy.py:36-37 | the loop writes exactly the printed numbered lines, numbered from 1 |
| Fishy.PrintedAppend | src/APIs/fishy.py:25-39 | printing two runs of lines one after the other writes their texts one after the other |
| Fishy.RunMain | src/APIs/fishy.py:25-39 | the loop prints exactly the error line (if the call raised) followed by the report lines, each ended by a newline |
| FishParser.FirstListLine | backend_app.py:239-243 | no index exactly when no line opens the list; otherwise the index of a line that opens it |
| FishParser.FindListStart | backend_app.py:239-243 | the loop returns -1 exactly when no stripped line starts with "1.", else the first such line |
| FishParser.NamesAfterDots | backend_app.py:246 | at most one name per line; `FishParser.CollectNames` and `FishRoundTrip.ReportParsesBack` pin down which |
| FishParser.CollectNames | backend_app.py:246 | the loop collects, in line order from the opening line on, the stripped text after the first dot of every line that has a dot |
| FishParser.ParseFishText | backend_app.py:237-252 | a list exactly when some line opens it; no-data exactly when none does and the output mentions "No fish data available"; otherwise the raw output is kept |
| FishParser.FishResponse | backend_app.py:245-252 | every parse outcome is a 200 success envelope |
| FishParser.GetFishInfo | backend_app.py:232-261 | a failed run answers 500 with its error, an empty output 500 with the no-output message, any other output the parsed answer |
| FishRoundTrip.ReportParsesBack | backend_app.py:237-247 | formatting a non-empty list of clean names and scraping the text back gives the same list |
| FishRoundTrip.WorkerToEndpoint | backend_app.py:232-247 | whatever reply the model gave, if at least one fish survives cleaning and no cleaned name holds a carriage return, the endpoint's parse of the captured output is exactly the worker's list |
| FishRoundTrip.NoDataParsesBack | backend_app.py:248-249 | the empty-list output, captured in text mode, scrapes to the no-data answer; an error line printed first must be one line without a carriage return |
| FishRoundTrip.CarriageReturnSplitsName | backend_app.py:43-48 | a reply line `a + "\r" + b` is kept whole by the worker, but the endpoint's parse of the captured output is the list holding `a` alone |
| FishRoundTrip.HeaderKeepsOut | src/APIs/fishy.py:35 | the header line never opens the list |
| FishRoundTrip.FirstNumberedOpens | backend_app.py:241 | the line numbered 1 opens the list |
| PlanTrip.FirstFailure | backend_app.py:80-85 | the index of the first conversion that failed, all earlier ones having succeeded |
| PlanTrip.Validate | backend_app.py:73-85 | a missing or falsy coordinate is a 400; the first conversion that fails with `ValueError` is a 400 and with `TypeError` escapes; three numbers launch the worker with those numbers |
| PlanTrip.LaunchIff | backend_app.py:77-95 | the worker runs exactly when both coordinates are truthy and all three values convert, and it gets the converted numbers and the map path |
| PlanTrip.PlanTrip | backend_app.py:69-107 | a success exactly when validation launches the worker, the worker succeeds and the map file exists; a rejected request gets the validation answer |
| PlanTrip.Outcome | backend_app.py:97-107 | the map URL exactly when the worker succeeded and the map file exists; a 500 otherwise, carrying the worker's error when it failed |
| PlanTrip.RejectedWithoutWorker | backend_app.py:77-85 | a rejected request's answer does not depend on anything the worker would do |
| PlanTrip.ZeroIsMissing | backend_app.py:77-78 | a latitude of 0 is answered as missing |
| PlanTrip.TypeErrorEscapes | backend_app.py:80-85 | a list coordinate or a `null` radius ends in Flask's 500 page, not the 400 envelope |
| StaticRoutes.ServeFrontendFile | backend_app.py:124-130 | a 404 exactly for paths under `api/` and for the map's file name; every other path is sent from the front-end directory |
| StaticRoutes.ServeMap | backend_app.py:109-114 | the map file is sent exactly when it exists |
| StaticRoutes.ApiPathsNeverServed | backend_app.py:126-129 | no path under `api/` is served as a static file |
| Identify.Validate | backend_app.py:139-160 | the four 400 answers in their order; the worker runs exactly when an image, a type, a file name and a known type are all there, and it is the type's script |
| Identify.Outcome | backend_app.py:178-197 | the worker's JSON under `data` when it ran, printed JSON and reported no truthy error; each failure gives its own 500 message; success exactly in that case |
| Identify.UploadFolder.Save | backend_app.py:169-170 | the upload is in the folder exactly when saving did not raise |
| Identify.UploadFolder.CleanUp | backend_app.py:203-210 | the upload is gone afterwards unless removing it raised |
| Identify.IdentifyObject | backend_app.py:136-212 | a rejected request saves nothing; a save error is a 500; otherwise the outcome; the folder ends without the upload unless removal failed |
| Fences.StripFences | src/APIs/adventure_finder.py:113 | the result has no surrounding whitespace and is no longer than the reply; `Fences.FencedReply`, `Fences.UnfencedReply` and `Fences.BareFenceKept` pin it down |
| Fences.FencedReply | src/APIs/adventure_finder.py:113 | a reply wrapped in a json fence, with any whitespace around it, is reduced to the stripped text inside |
| Fences.UnfencedReply | src/APIs/adventure_finder.py:113 | a reply with neither fence is only trimmed |
| Fences.BareFenceKept | src/APIs/adventure_finder.py:113 | a reply opened by a fence that does not name json keeps its opening backticks |
| BirdIdentification.Envelope | src/APIs/bird_identification.py:76-98 | an empty reply, an exception and an unparsable reply each give their error document; the parse error keeps the raw reply |
| BirdIdentification.ReaderSeesStrippedText | src/APIs/bird_identification.py:83-84 | the printed document depends on the reply only through its fence-stripped text |
| BirdIdentification.ErrorEnvelopesCarryError | src/APIs/bird_identification.py:85-98 | every document that is not the model's own JSON is a dict with a non-empty `"error"` text |
| BirdIdentification.Run | src/APIs/bird_identification.py:14-102 | status 0 exactly when configuration, model loading and image reading succeed, and then exactly one document is printed; otherwise status 1, nothing on stdout and one stderr line |
| BirdThroughBackend.ErrorEnvelopeBecomes500 | backend_app.py:183-185 | an error document printed by the bird worker reaches the client as a 500 naming that error |
| BirdThroughBackend.ModelJsonReachesClient | backend_app.py:186-187 | the model's JSON without a truthy error reaches the client unchanged under `data` |
| BirdThroughBackend.FailedRunBecomes500 | backend_app.py:192-195 | a bird worker that exits with status 1 gives the script-failure 500 |
| AdventureFinder.Locations | src/APIs/adventure_finder.py:106-128 | the list is the reply's `"locations"` exactly when the reply is non-empty text whose fence-stripped form parses to a dict holding a list there; empty otherwise |
| AdventureFinder.TextMentioningLocations | src/APIs/adventure_finder.py:115 | a JSON text that contains "locations" passes the `in` test but still gives no locations |
| AdventureFinder.Zoom | src/APIs/adventure_finder.py:136 | zoom 11 exactly for a radius of at most 20 miles, 10 otherwise |
| AdventureFinder.ZoomNonIncreasing | src/APIs/adventure_finder.py:136 | a wider search never zooms in further |
| AdventureFinder.Place | src/APIs/adventure_finder.py:176-210 | only a dict is placed, in one of the eight groups and never at a zero coordinate; `AdventureFinder.PlaceSpec` states the full rule |
| AdventureFinder.GroupOf | src/APIs/adventure_finder.py:187-202 | every marker lands in one of the seven categories or the unknown group |
| AdventureFinder.PlaceSpec | src/APIs/adventure_finder.py:176-210 | a marker exactly for a dict whose coordinates (0 when missing) convert, are both non-zero and whose type is hashable; it keeps the coordinates, defaults the name and type, and takes its category's group and style or the grey unknown ones |
| AdventureFinder.BuildGroups | src/APIs/adventure_finder.py:169-210 | the groups are the seven categories plus the unknown group exactly when some marker needed it, and each holds its markers in input order |
| AdventureFinder.NoUnknownMarkers | src/APIs/adventure_finder.py:197-202 | the unknown group holds nothing until a marker of unknown type appears |
| AdventureFinder.GroupsPartition | src/APIs/adventure_finder.py:169-210 | summed over all eight groups, the group sizes equal the number of placed locations: no marker is lost or doubled |
| AdventureFinder.Finish | src/APIs/adventure_finder.py:41-229 | status 0 exactly when set-up succeeded; the map is written exactly when set-up succeeded, locations were found and rendering did not fail |
| AdventureThroughBackend.Worker | src/APIs/adventure_finder.py:41-229 | the backend sees a successful run exactly when the worker's set-up succeeded, with the worker's stdout as output |
| AdventureThroughBackend.NoLocationsNoMap | backend_app.py:97-107 | with no usable locations and no older map file, the trip planner answers 500 |
| AdventureThroughBackend.LocationsGiveMapUrl | backend_app.py:97-101 | a worker that found locations and rendered them leads to the map URL |
| Utf8.EncodeCharDecodes | src/APIs/astronomy_api.py:17 | each character's UTF-8 bytes decode back to that character, whatever follows |
| Utf8.DecodeEncode | src/APIs/astronomy_api.py:17 | decoding the UTF-8 encoding of any text gives the text back |
| Utf8.AsciiEncoding | src/APIs/astronomy_api.py:17 | an ASCII text encodes to one byte per character, its code |
| Base64.AlphabetInverse | src/APIs/astronomy_api.py:17 | the standard alphabet is one-to-one on 0..63 and never produces the pad character |
| Base64.EncodedLength | src/APIs/astronomy_api.py:17 | the encoding of n bytes has 4·⌈n/3⌉ characters |
| Base64.EncodedAlphabet | src/APIs/astronomy_api.py:17 | every character of an encoding is in the alphabet or is `=` |
| Base64.GroupRoundTrip | src/APIs/astronomy_api.py:17 | a group of three bytes decodes back from its four characters |
| Base64.DecodeEncode | src/APIs/astronomy_api.py:17 | decoding the encoding of any bytes gives the bytes back |
| AstronomyApi.AuthString | src/APIs/astronomy_api.py:12-17 | no credentials exactly when the id or the secret is missing or empty |
| AstronomyApi.AuthStringDecodes | src/APIs/astronomy_api.py:16-17 | the credentials decode back to `id:secret`, and have 4·⌈n/3⌉ characters for its n UTF-8 bytes |
| AstronomyApi.UserPassSplits | src/APIs/astronomy_api.py:16 | splitting the pair at its first colon gives back the id and the secret when the id has no colon |
| AstronomyApi.Payload | src/APIs/astronomy_api.py:71-94 | the observer has the given latitude, longitude and date (today when none); the view is an area with right ascension 1, declination equal to the latitude and zoom 2; the style is "default" unless given |
| AstronomyApi.ImageUrlFound | src/APIs/astronomy_api.py:102-103 | the image URL is found exactly when the answer holds `data.imageUrl` through two dicts |
| AstronomyApi.ChartResult | src/APIs/astronomy_api.py:96-118 | `success` with the image URL exactly when a good answer holds `data.imageUrl`; otherwise a non-empty error; a timeout, a 4xx/5xx answer and a redirect loop give their own errors |
| AstronomyApi.HighStatusSucceeds | src/APIs/astronomy_api.py:98-103 | a status of 600 or more is not raised for, so an answer holding the image URL is a success |
| AstronomyApi.StarChart | src/APIs/astronomy_api.py:60-64 | without credentials the result is only the missing-credentials error |
| AstronomyApi.MissingImageUrl | src/APIs/astronomy_api.py:104-106 | an answer without `"data"` gives the format error with the whole answer as details |
| AstronomyApi.ErrorBodyNeverUsed | src/APIs/astronomy_api.py:111-115 | as written, the details are the exception's text for every 4xx/5xx answer and every failure without an answer; only the 3xx answer of a redirect loop is truthy and has its body used |
| AstronomyApi.Details | src/APIs/astronomy_api.py:112 | the corrected details are the service's error body when there is one, the exception's text otherwise |
| AstronomyApi.ErrorBodyLost | src/APIs/astronomy_api.py:112 | for a 4xx/5xx answer, the body is missing from the details as written and present in the corrected details |
| AstronomyApi.LocationFromIp | src/APIs/astronomy_api.py:19-57 | no location without a key; a location only from a dict whose `loc` text splits at commas into exactly two numbers, latitude first; city, region, country and time zone are the answer's fields, null when absent |
| AstronomyApi.LocSplits | src/APIs/astronomy_api.py:36-40 | a `loc` of the form "lat,lon" gives that latitude and longitude |
| AstronomyEndpoint.ClientIp | backend_app.py:278-281 | the forwarded header, else the peer address; a value with a comma becomes its first entry, stripped and comma-free; other values are kept |
| AstronomyEndpoint.FirstForwardedAddress | backend_app.py:278-281 | behind proxies the first forwarded address is used, whatever the peer address |
| AstronomyEndpoint.ClientLocation | backend_app.py:283-293 | the fixed location for a loopback address or a missing key; otherwise the lookup's latitude and longitude, if any |
| AstronomyEndpoint.ChartRequest | backend_app.py:272-305 | a request is sent exactly when both credentials are set and a location is found; its observer holds that location and today's date, and the style is "default" |
| AstronomyEndpoint.ChartResponse | backend_app.py:307-314 | a success with the image URL under `data` exactly when the result's `success` is truthy; otherwise a 500 with the result's error and details (null when absent) |
| AstronomyEndpoint.Astronomy | backend_app.py:264-314 | missing credentials and a missing location give their 500s before any chart request |
| AstronomyEndpoint.SuccessIff | backend_app.py:272-314 | a success exactly when the credentials are set, a location is found and the chart service gives an image URL |
| AstronomyEndpoint.FallbackIgnoresLookup | backend_app.py:285-291 | with a loopback address or no key, neither the answer nor the request sent depends on the lookup, and the chart is centred on (38.8951, -77.0364) |
| AstronomyEndpoint.ServiceErrorDetails | backend_app.py:300-314 | a 4xx/5xx answer from the chart service becomes a 500 whose details are the service's body, with the corrected details |

## Left out

- Generative-model calls, HTTP requests, subprocess execution and the file system are outside the model. Their results are inputs: the reply or the exception, how the process ended, what the service answered, whether a save or a removal raised, and whether the map file exists.
- `json.loads`, `float()` on a text and `str()`/f-string rendering of non-text values are oracles passed as parameters. Floating point is modelled with exact reals, so NaN, infinities and rounding are not covered, and JSON integers and floats are one kind of number: the source's `1` and `2` in the payload are the model's `1.0` and `2.0`.
- JSON objects are maps, so the key order of a serialised document is not modelled, and neither is the indentation of the bird worker's printed JSON.
- `datetime.date.today()` is the `today` parameter of `AstronomyApi.Payload`.
- Log lines written to stderr, folium's tile layers, popups, tooltips and layer control, and the prompts sent to the model are not modelled. Argument parsing in the workers is not modelled either: the worker's input is taken as the numbers the backend passed.
- `secure_filename` and the random upload name are not modelled. The upload path is an input of `Identify.IdentifyObject`.
- `backend_app.py:212` is not modelled: after the file-name check a file part is always truthy, so that line cannot be reached.
- `backend_app.py:254-257` is not modelled: every step of the fish parser is total in the model, so that exception branch is never taken.
- The `ImportError` exit of the adventure finder (`src/APIs/adventure_finder.py:223-225`) is not modelled, because folium is imported at the top of the script.
- AdventureFinder.Finish: does not model which exception inside the mapping block occurred; `renderFails` stands for any of them.
- AstronomyApi.ChartResult: uses the corrected details (see Findings). The as-written behaviour is `AstronomyApi.DetailsAsWritten`. A body that is not JSON is treated as `requests`' own JSON error, which is a request failure in versions 2.27 and later of that library.
- AstronomyEndpoint.ServiceErrorDetails: states the corrected details, as `AstronomyApi.ChartResult` does. As written, the details of a 4xx/5xx answer are `str(e)` (`AstronomyApi.ErrorBodyNeverUsed`).
- AstronomyApi.LocationFromIp: does not model the ipinfo URL or the timeout; `ip_address` only selects the lookup, which is an input.
- FishRoundTrip.WorkerToEndpoint: holds only when no cleaned name holds a carriage return, and FishRoundTrip.NoDataParsesBack only when the error text holds none. Text-mode capture turns each carriage return into a newline, so a reply line `"Bass\rTrout"` comes back as `["Bass"]`. `FishRoundTrip.CarriageReturnSplitsName` states this case; other names with carriage returns are not followed through the parser.
- PlanTrip.PlanTrip and FishParser.GetFishInfo: do not model reading the request body (`request.json`, then `data.get`). A body that is JSON but not an object makes `data.get` raise `AttributeError`, which Flask answers with a 500 page. A missing or non-JSON body is refused by Flask with 400 or 415. Both happen before validation or the worker run. The model starts from the fields already read, which `PlanTrip.Request` holds.
- `src/APIs/app.py`, `src/APIs/astronomy.py`, `src/APIs/animal_identification.py` and the front end are not part of this model.

## Findings

| source | as written | input that shows it | evidently intended | confidence | as-written member | corrected member |
|---|---|---|---|---|---|---|
| src/APIs/astronomy_api.py:112 | `e.response.text if e.response else str(e)` tests the response's truthiness. `requests.Response` is falsy exactly for a status from 400 to 599, and those are the statuses `raise_for_status` raises for. So for every 4xx/5xx answer, and every failure without an answer, the details are `str(e)`. Only the 3xx answer carried by `TooManyRedirects` is truthy | the chart service answers 401 with the body `{"error":"bad credentials"}`: the details are the `HTTPError` text, not that body | `if e.response is not None`: the details carry the service's error body | high, not executed | AstronomyApi.ErrorBodyLost | AstronomyApi.Details |
