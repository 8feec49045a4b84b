# Jewelry image generator: upload normalisation, request building and the generation handler

This project is a Dafny model of the logic in a browser front-end that produces jewelry
photographs through an external image-generation service. Three modes exist:

- **catalog**: put a product photo into the style of a reference photo;
- **creative**: make an image from a text prompt;
- **edit**: change an image according to written instructions.

The model covers four parts of the application:

- **Types** (`types.dfy`). The five aspect ratios and their string values (`1:1`, `3:4`, `4:3`,
  `9:16`, `16:9`). The three generator modes, each serialised as its own name. The uploaded
  `ImageFile` record.
- **Upload normalisation** (`image_upload.dfy`). The browser reads a picked file as a data URL
  (`data:[<mediatype>][;base64],<data>`, section 3 of RFC 2397). When the file declares no MIME
  type, the uploader infers one from the lower-cased extension (png, webp, heic, otherwise jpeg).
  It also rewrites a `data:;base64,` or `data:application/octet-stream;base64,` prefix so that it
  names that type.
- **The service client** (`gemini_service.dfy`). This covers:
  - the API-key check that comes before every request;
  - stripping the data-URL prefix from image payloads;
  - the exact requests of the three modes: parts in order, fixed prompt texts, output shape,
    model names and image count;
  - the extraction of the image from the reply. Catalog and edit take the first part with
    inline data; creative takes the first generated image.

  The remote service is an oracle, `Provider`. Each of its two calls returns a reply or throws
  an error with some message. The model fixes what is sent to the oracle and what is made of its
  answer.
- **The generation handler** (`app.dfy`). The class `Generator` holds the screen state that the
  handler reads (mode, images, prompt, ratio) and writes (`loading`, `error`, `generatedUrl`).
  `HandleGenerate` does four things in order:
  - it clears the state;
  - it validates the inputs of the mode, with fixed Portuguese messages;
  - it calls at most one service function;
  - it ends with `loading` false and exactly one of `error` and `generatedUrl` set.

  `Generator.Dispatch` is the only member of the screen that calls the service, and it appends
  each call and its arguments to a ghost log, `serviceCalls`. With the log, the contract can say
  that incomplete inputs cause no call, and which arguments a call forwards.

`text.dfy` models the JavaScript string operations the code relies on: `startsWith`, `split`
with a one-character separator, `indexOf`, `replace` with a string pattern, and ASCII
`toLowerCase`. `wrappers.dfy` holds `Option` and `Result`; a `Failure` carries the message of the
thrown `Error`.

Behaviour the code does not have, though one might expect it:

- The creative prompt is sent verbatim. No photography suffix is added.
- The catalog and edit paths never read text parts of the reply. A reply without image data
  fails with the path's fixed message, so a refusal text from the provider is not surfaced.
- The edit request is the text `Edit instructions: ` followed by the instructions. There is no
  directive about resolution.
- The catalog prompt holds the four instructions written in the code. It has no clause about
  people or body parts.
- No history record is ever written.
- A typeless upload's data URL does not always name the inferred type. Only the prefixes
  `data:;base64,` and `data:application/octet-stream;base64,` are rewritten; any other prefix is
  kept, even one naming a different type. The reader's data URL is a free parameter of
  `ImageUpload.Normalize`, so the model assumes nothing about which prefix a reader produces for
  a file without a type.

## Model

| member | source | states |
|---|---|---|
| Types.AspectRatioWire | types.ts:1-7 | every ratio's string value has at least three characters, contains a colon, and holds nothing but digits and colons |
| Types.AspectRatioEnumeration | types.ts:1-7 | there are exactly five aspect ratios and their string values are pairwise distinct |
| Types.ParseAspectRatio | types.ts:2-6 | a string that parses to a ratio is that ratio's string value |
| Types.ParseAspectRatioWire | types.ts:2-6 | parsing a ratio's string value gives the ratio back |
| Types.Dimensions | types.ts:2-6 | every ratio's string value is `W:H` with positive decimal `W` and `H` without leading zeros |
| Types.ModeWire | types.ts:22-26 | every mode's string value is a non-empty run of upper-case letters |
| Types.ParseMode | types.ts:22-26 | a string that parses to a mode is that mode's string value |
| Types.ParseModeWire | types.ts:22-26 | each mode is serialised as its own name; the three values are distinct and parse back to the mode |
| Text.Split | components/ImageUpload.tsx:27 | `split` gives at least one field, and no field contains the separator |
| Text.JoinSplit | services/geminiService.ts:15 | joining the fields of a split with the separator gives back the string |
| Text.SplitJoin | services/geminiService.ts:15 | splitting a join of separator-free fields gives back the fields |
| Text.SplitWithoutSeparator | components/ImageUpload.tsx:27 | a string without the separator splits into itself alone |
| Text.SplitAtFirst | services/geminiService.ts:15 | the first separator ends the first field |
| Text.LastFieldIsAfterLastSeparator | components/ImageUpload.tsx:27 | `split(c).pop()` is a separator-free suffix, either the whole string or preceded by `c`; it is the whole string exactly when there is one field |
| Text.LastFieldWithoutSeparator | components/ImageUpload.tsx:27 | without a separator, the last field is the whole string |
| Text.LastFieldAfterSeparator | components/ImageUpload.tsx:27 | the text after a final separator is the last field, whatever precedes it |
| Text.IndexOf | components/ImageUpload.tsx:36 | the result is an occurrence with no earlier one, and there is none when the result is absent |
| Text.ReplaceFirst | components/ImageUpload.tsx:36-38 | a string that starts with the pattern gets the replacement in front of its unchanged rest; a string without the pattern is unchanged |
| Text.ToLower | components/ImageUpload.tsx:27 | lower-casing keeps the length, maps each character, and leaves no upper-case ASCII letter |
| ImageUpload.Extension | components/ImageUpload.tsx:27 | the extension contains no '.', is no longer than the name, and holds no upper-case ASCII letter |
| ImageUpload.ExtensionIsTextAfterLastDot | components/ImageUpload.tsx:27 | the extension is the lower-cased text after the last '.'; it is the whole name when there is no '.', and empty after a trailing '.' |
| ImageUpload.ExtensionOfDottedName | components/ImageUpload.tsx:27 | the extension of `stem.ext` is `ext` lower-cased, whatever dots `stem` holds |
| ImageUpload.UpperCaseExtension | components/ImageUpload.tsx:27 | the extension of any `<stem>.PNG` is "png" |
| ImageUpload.InferMimeType | components/ImageUpload.tsx:28-31 | png, webp and heic map to their image types, and every other extension (the empty one included) maps to image/jpeg, in both directions |
| ImageUpload.RepairDataUrl | components/ImageUpload.tsx:35-39 | a data URL changes only when it starts with `data:;base64,` or `data:application/octet-stream;base64,`, and a changed URL starts with `data:<mime>;base64,` |
| ImageUpload.RepairEmptyType | components/ImageUpload.tsx:35-36 | `data:;base64,<p>` becomes `data:<mime>;base64,<p>` |
| ImageUpload.RepairOctetStream | components/ImageUpload.tsx:37-38 | `data:application/octet-stream;base64,<p>` becomes `data:<mime>;base64,<p>` |
| ImageUpload.RepairOtherUnchanged | components/ImageUpload.tsx:35-39 | any other data URL is left untouched |
| ImageUpload.Normalize | components/ImageUpload.tsx:20-47 | the output keeps the file, its preview equals its base64 string, and its MIME type is never empty; a declared type passes through with the data URL unchanged; without one, the type is inferred from the extension and the URL is repaired with it |
| ImageUpload.NormalizedPrefixMatchesType | components/ImageUpload.tsx:26-39 | with no declared type, a repaired data URL's prefix names exactly the inferred type |
| ImageUpload.NormalizeIdempotent | components/ImageUpload.tsx:20-47 | uploading the output again, with the type it settled on, returns it unchanged |
| ImageUpload.UpperCaseExtensionUpload | components/ImageUpload.tsx:26-36 | a typeless `<stem>.PNG` read as `data:;base64,<p>` becomes image/png with `data:image/png;base64,<p>` |
| ImageUpload.NoExtensionFallback | components/ImageUpload.tsx:26-39 | a typeless name without a dot is its own extension, so unless it is png, webp or heic it falls back to image/jpeg; a data URL with a specific media type stays as it is |
| GeminiService.HasApiKey | services/geminiService.ts:6-7 | the key counts as present exactly when it is defined and has at least one character; undefined and the empty string are both falsy |
| GeminiService.GetAiClient | services/geminiService.ts:5-11 | a client exists exactly when the key is set and non-empty, and it holds that key; otherwise the result is the configuration error |
| GeminiService.StripBase64Prefix | services/geminiService.ts:13-16 | the result is empty exactly for the empty input; when it differs from the input, it is shorter and contains no comma |
| GeminiService.StripWithoutComma | services/geminiService.ts:15 | input without a comma is returned as it is |
| GeminiService.StripSecondField | services/geminiService.ts:13-16 | for `a,b` followed by nothing or by `,…`, the result is `b`, or the whole input when `b` is empty |
| GeminiService.StripDataUrl | services/geminiService.ts:13-16 | stripping `data:<m>;base64,<p>` gives `p` when neither holds a comma and `p` is not empty |
| GeminiService.CatalogAspectRatio | services/geminiService.ts:27 | story gives 9:16 and every other ratio gives 1:1; the chosen ratio is kept exactly when it is square or story |
| GeminiService.CatalogPrompt | services/geminiService.ts:29-38 | the prompt is the fixed instruction text, then the format it is given, then the fixed closing text |
| GeminiService.CatalogPromptNamesFormat | services/geminiService.ts:29-38 | different formats give different prompts: the prompt determines the format it names |
| GeminiService.CatalogRequest | services/geminiService.ts:40-54 | parts are product image, then reference image, each with its stripped data and MIME type, then the prompt; the prompt names the same ratio as `imageConfig.aspectRatio` |
| GeminiService.CreativeRequest | services/geminiService.ts:73-81 | one JPEG image is requested for the prompt verbatim, with the ratio's own string value |
| GeminiService.EditRequest | services/geminiService.ts:96-104 | one image part with stripped data, then `Edit instructions: ` and the instructions; no aspect-ratio config |
| GeminiService.CarriesImage | services/geminiService.ts:59 | a part carries an image exactly when its inline data has a data field that is not empty; a missing inline data or data field carries none |
| GeminiService.CandidateParts | services/geminiService.ts:57 | parts are found exactly when there is a first candidate whose content has parts, and they are those parts; without candidates, or with an empty list, there are none |
| GeminiService.CandidatePartsIgnoresLaterCandidates | services/geminiService.ts:57-58 | only the first candidate is consulted: later candidates do not change the parts |
| GeminiService.FirstImageData | services/geminiService.ts:57-62 | some data is found exactly when a part has non-empty inline data; it is the data of the first such part, so earlier parts are skipped |
| GeminiService.FindImageData | services/geminiService.ts:58-62 | the loop with early return finds exactly that first part's data |
| GeminiService.ContentResult | services/geminiService.ts:56-65 | a thrown error propagates with its message; otherwise the result succeeds exactly when the first candidate has parts and one of them carries image data, and every other failure is the path's fixed message |
| GeminiService.SendContent | services/geminiService.ts:56-65 | the method returns what `ContentResult` specifies, scanning the parts with `FindImageData` |
| GeminiService.NoImageYieldsFailure | services/geminiService.ts:57-65 | a reply without image data, text-only replies included, yields the path's fixed failure |
| GeminiService.FirstImageYieldsDataUrl | services/geminiService.ts:57-62 | when part `k` is the first with image data, the result is `data:image/png;base64,` followed by its data |
| GeminiService.ContentSuccessIsPngDataUrl | services/geminiService.ts:60 | a successful content result is a PNG data URL with a non-empty payload |
| GeminiService.CatalogResult | services/geminiService.ts:18-66 | without a key the result is the configuration error for every provider; with one, it is the reply to the catalog request |
| GeminiService.GenerateCatalogImage | services/geminiService.ts:18-66 | the method returns what `CatalogResult` specifies |
| GeminiService.FirstImageBytes | services/geminiService.ts:83-84 | bytes are found exactly when the first generated image has an image with non-empty bytes, and then they are those bytes |
| GeminiService.FirstImageBytesIgnoresLaterImages | services/geminiService.ts:83 | only the first generated image is consulted: later images do not change the bytes |
| GeminiService.CreativeResult | services/geminiService.ts:68-88 | without a key the result is the configuration error; with one, a thrown error propagates with its message, a reply fails exactly when it has no first-image bytes and then with the fixed message, and a success is a JPEG data URL |
| GeminiService.CreativeResultCases | services/geminiService.ts:83-87 | the creative result is `data:image/jpeg;base64,` and the first image's bytes, or the fixed failure |
| GeminiService.GenerateCreativeImage | services/geminiService.ts:68-88 | the method returns what `CreativeResult` specifies |
| GeminiService.EditResult | services/geminiService.ts:90-114 | without a key the result is the configuration error; with one, it is the reply to the edit request |
| GeminiService.EditImage | services/geminiService.ts:90-114 | the method returns what `EditResult` specifies |
| App.MissingInputMessage | App.tsx:69-84 | each mode's validation message is non-empty |
| App.PlannedCall | App.tsx:69-86 | catalog fails without both images, creative fails exactly for the empty prompt, and edit fails without an image or a prompt, each with its message; otherwise catalog forwards the jewelry then the reference then the ratio, creative the prompt and ratio, and edit the image and prompt without a ratio |
| App.CallResult | App.tsx:73-85 | without a key, every service call ends in the configuration error |
| App.Generator.Dispatch | App.tsx:73-85 | the call goes to the service function of its mode and returns its result, and it is appended to the call log |
| App.ErrorText | App.tsx:91 | the shown error is the thrown message, or the unknown-error text when that is empty; it is never empty |
| App.Outcome | App.tsx:61-95 | a run ends with `loading` false and exactly one of `error` and `generatedUrl` set; a validation failure shows its message; a success shows the service result |
| App.ValidationFailureIgnoresService | App.tsx:69-84 | with incomplete inputs the outcome is the validation message, whatever the key and the service would do |
| App.MissingKeyOutcome | App.tsx:66-91 | with complete inputs and no key, the outcome shows the configuration error |
| App.CreativeScenario | App.tsx:80-88 | a creative run for "emerald ring on marble pedestal" against a service returning one image shows that image as a JPEG data URL |
| App.Generator.constructor | App.tsx:16-30 | the initial screen state: catalog mode, no images, empty prompt, square ratio, nothing loading, no error, no result |
| App.Generator.HandleGenerate | App.tsx:61-95 | the final `loading`/`error`/`generatedUrl` state is `Outcome` of the current inputs; exactly the planned call, if any, is appended to the call log |
| App.Generator.Attempt | App.tsx:66-87 | runs while `loading` is true and error and result are cleared; a validation failure makes no service call, and otherwise exactly one call is made and its result returned |

## Left out

- Rendering and view switching are not modelled, because they are UI. This covers the JSX of
  App.tsx, the download link, the dashboard's fixed statistics and the two-button ratio selector.
- Authentication and the session subscription are not modelled: Login.tsx, the session
  `useEffect`, `handleLogout` and the client construction in services/supabaseClient.ts.
- History persistence is not modelled. The schema in services/supabaseClient.ts is only a
  comment, and no code writes a record.
- `FileReader.readAsDataURL` and base64 encoding are not modelled; the reader's data URL is a
  parameter of `ImageUpload.Normalize`.
- ImageUpload.Normalize: takes the reader's result as a string, so it does not capture a read
  that failed or was aborted, where `reader.result` is null. With a declared type, the code then
  hands on an `ImageFile` whose preview and base64 are null (`as string` checks nothing). Without
  one, `startsWith` at components/ImageUpload.tsx:35 throws and nothing is uploaded.
- The network calls of the SDK are oracles in `GeminiService.Provider`. Reading
  `process.env.API_KEY` becomes an `Option<string>` parameter.
- `console.error` logging is left out, because it has no effect on state.
- The file object in `ImageFile` is modelled by its name and declared type only
  (`Types.RawFile`), because the code reads nothing else from it.
- Text.ToLower: lower-cases ASCII letters only, where JavaScript follows Unicode. The inferred
  type still agrees for every name. Only two non-ASCII characters lower-case to text with an
  ASCII letter: the Kelvin sign becomes `k`, and the capital I with dot above becomes `i`
  followed by a combining dot. Neither can produce png, webp or heic.
- Text.ReplaceFirst: does not interpret `$` patterns in the replacement, as JavaScript's
  `replace` does. The only replacements used are `data:<mime>;base64,` with one of four fixed
  types, and none of them contains `$`.
- A thrown value without a message is modelled as a `Failure` whose message is empty, which
  leads to the same fallback text.
- The model is sequential. The handler's `await` lets the UI observe the intermediate state
  (`loading` true, no error, no result), which is the precondition of `App.Generator.Attempt`.
  Overlapping runs are not modelled; the source prevents them only by disabling the button
  while `loading` is true.
