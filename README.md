# Content agent web app: a verified model of its core logic

The web app prepares articles for an n8n content agent and publishes them.
This project models its five pieces of sequential logic in Dafny and proves what each one promises:

- **Spreadsheet validation** (`validateSpreadsheetData`, module `Spreadsheet`). The rows come already parsed from a CSV or Excel sheet. They are walked in order and every blank required column (`titulo`, `texto`, `target_phone`) yields a numbered error. Passing rows are trimmed into the output list. The model is a method with the source's single loop, proved equal to a specification function `Validate`. The lemmas are stated about that function.
- **Bulk publish** (`POST` of the bulk-publish route, module `BulkPublish`). It checks the posted items and falls back to a fixed answer when no webhook is configured. Otherwise it posts each item to the webhook strictly in turn, catching failures per item, pausing between calls and counting successes and failures. The webhook is a function from call number to outcome, the clock a function from call number to timestamp, and the pauses a counter. The method returns the posted payloads and the number of pauses beside the response.
- **Mock article** (`POST` of the generate route, module `Generate`). With no agent configured, a fixed article is built from the requested theme with `||` defaults. With an agent configured, the forward call is seen abstractly through its outcome.
- **Data-URL splitting** (module `DataUrl`). Both image helpers split a data URL with the pattern `^data:image\/(\w+);base64,(.+)$`. It is written as a hand-made parser and proved to accept exactly the strings of that form, with the same groups.
- **The image helpers**.
  - `uploadImageToSupabase` (module `Supabase`): the file path, the storage call and the single failure message.
  - `saveImageLocally` (module `Cloudinary`): the hexadecimal file name, the written file and the public path.

The shared modules are:

- `Text`: JavaScript's `trim`, and the decimal and hexadecimal renderings.
- `Scans`: three generic left-to-right scans (positions, concatenation, filter-and-map), with their lemmas.
- `Wrappers`: `Option` and `Result`.

JavaScript truthiness of an optional string is `Text.Truthy`, and `v || d` is `Text.Or`.

One point of the design is worth stating. A sheet is reported invalid as soon as one row fails, yet the code still returns the clean rows of that sheet in `data`. The model follows the code (web/lib/spreadsheet.ts:96-100). `Spreadsheet.DataIsPassingRows` and `Spreadsheet.FailureKeepsCleanRows` state this behaviour. The import screen ignores `data` when the sheet is invalid, so this is not a defect.

## Model

| member | source | states |
|---|---|---|
| Spreadsheet.ValidateSpreadsheetData | web/lib/spreadsheet.ts:57-101 | The single pass over the rows returns exactly `Validate(rows)`. Its loop keeps the errors so far equal to those of the rows seen, and the output equal to their clean forms |
| Spreadsheet.CheckRow | web/lib/spreadsheet.ts:67-81 | The three checks push exactly the row's errors, `RowErrors(row, index)` |
| Spreadsheet.Validate | web/lib/spreadsheet.ts:61-64 | An empty sheet gives `valid=false`, the single error `A planilha está vazia` and no rows. In every case `valid` holds exactly when the error list is empty |
| Spreadsheet.RowErrors | web/lib/spreadsheet.ts:71-84 | A row yields at most three errors, and none exactly when no required column is blank |
| Spreadsheet.RowErrorsSpec | web/lib/spreadsheet.ts:68-81 | The k-th error of a row is `Linha <index+2>: <label> é obrigatório` for its k-th blank column. One error per blank column, none for the rest |
| Spreadsheet.MissingFields | web/lib/spreadsheet.ts:71-81 | The listed columns are exactly the blank ones (absent, or trimming to `""`), in the order titulo, texto, target_phone |
| Spreadsheet.NormalizeSpec | web/lib/spreadsheet.ts:86-92 | A passing row's clean form has the required columns trimmed and non-empty. `subtitulo` is trimmed or `""`, and `image_url` is trimmed or absent when absent or blank |
| Spreadsheet.Normalize | web/lib/spreadsheet.ts:86-92 | The clean row of `validData.push`: `subtitulo` is `""` exactly when it is absent or blank, and `image_url` is absent exactly when it is absent or blank, and never empty otherwise. NormalizeSpec states the rest of its contract |
| Spreadsheet.DataIsPassingRows | web/lib/spreadsheet.ts:83-99 | `data` is the clean forms of exactly the passing rows, in input order. Its length plus the number of failing rows is the number of rows, whether or not the sheet is valid |
| Spreadsheet.FailingRows | web/lib/spreadsheet.ts:83-84 | The failing positions are exactly the rows with a blank required column |
| Spreadsheet.AllErrorsEmpty | web/lib/spreadsheet.ts:83-84 | No error is collected from the first `n` rows exactly when none of them fails |
| Spreadsheet.ValidIffAllRowsPass | web/lib/spreadsheet.ts:61-98 | The sheet is valid exactly when it is non-empty and no row fails |
| Spreadsheet.AllFilledIsValid | web/lib/spreadsheet.ts:66-99 | If the sheet is non-empty and every row has a non-blank titulo, texto and target_phone, the sheet is valid and row i of `data` is row i normalised |
| Spreadsheet.ErrorsInRowOrder | web/lib/spreadsheet.ts:83-84 | The errors are grouped by row in input order. The errors of rows before i, followed by row i's, open the list |
| Spreadsheet.NormalizeFixesClean | web/lib/spreadsheet.ts:86-92 | A normalised row fed back in passes and normalises to itself |
| Spreadsheet.RevalidateIsIdentity | web/lib/spreadsheet.ts:86-100 | When `data` is non-empty, validating it again gives `valid=true`, no errors and the same rows |
| Spreadsheet.FailureKeepsCleanRows | web/lib/spreadsheet.ts:96-100 | A failing row followed by a passing one gives an invalid sheet with only the first row's errors. `data` still holds the second row's clean form |
| Text.Trim | web/lib/spreadsheet.ts:71 | The trimmed string is no longer than the input and neither starts nor ends with whitespace |
| Text.TrimStart | web/lib/spreadsheet.ts:71 | `Trim(s)` is the part of `s` at some offset with only whitespace before and after it |
| Text.TrimSlice | web/lib/spreadsheet.ts:87 | `Trim(s)` is `s` with a whitespace-only prefix and a whitespace-only suffix removed |
| Text.TrimEmptyIffAllSpace | web/lib/spreadsheet.ts:71 | A column trims to `""` exactly when it is all whitespace |
| Text.TrimIdempotent | web/lib/spreadsheet.ts:87-91 | Trimming twice is trimming once |
| Text.NatToString | web/lib/spreadsheet.ts:68-72 | The decimal rendering is a non-empty string of digits with no leading zero |
| Text.NatToStringRoundTrip | web/app/api/bulk-publish/route.ts:83 | Reading the decimal rendering back gives the number |
| Text.NatToStringInjective | web/lib/supabase.ts:29 | Different numbers render differently |
| Text.HexEncode | web/lib/cloudinary.ts:17 | Hex-encoding gives two lowercase hexadecimal digits per byte |
| Text.HexRoundTrip | web/lib/cloudinary.ts:17 | Decoding the hex rendering gives the bytes back |
| BulkPublish.Post | web/app/api/bulk-publish/route.ts:3-94 | A body that cannot be read gives 500 with its message or `Failed to publish items`. Missing, non-array or empty items give 400 `No items provided`. With no webhook: one failed `Webhook URL not configured` entry per item, and nothing sent. Otherwise one payload per item in order, the results, the counts, the summary message and the pauses |
| BulkPublish.ResultFor | web/app/api/bulk-publish/route.ts:48-75 | Item i's entry carries index i and its target phone. It succeeds exactly when the reply is 2xx, and then has no error |
| BulkPublish.Results | web/app/api/bulk-publish/route.ts:22-77 | There is one entry per item attempted |
| BulkPublish.ResultsSpec | web/app/api/bulk-publish/route.ts:24-77 | Entry k of the results is item k's entry for the k-th call's outcome: every item is attempted once, in order, and a non-ok reply or a call that throws does not stop the loop |
| BulkPublish.FailureText | web/app/api/bulk-publish/route.ts:54-75 | A non-ok reply's error is `Webhook returned <status>: <body>`, and a thrown error's is its message |
| BulkPublish.CountsAddUp | web/app/api/bulk-publish/route.ts:79-86 | Successes plus failures equal the number of entries |
| BulkPublish.CountSuccess | web/app/api/bulk-publish/route.ts:79 | `results.filter(r => r.success).length` is at most the number of entries. Also stated by CountsAddUp, SuccessesAreOkCalls and AllOkSummary |
| BulkPublish.CountFailure | web/app/api/bulk-publish/route.ts:80 | `results.filter(r => !r.success).length` is at most the number of entries. Also stated by CountsAddUp and AllOkSummary |
| BulkPublish.SummaryMessage | web/app/api/bulk-publish/route.ts:83 | The `Enviados: <success> sucesso, <failures> falhas` message. Stated by Post, whose summary uses it with the two counts |
| BulkPublish.SuccessesAreOkCalls | web/app/api/bulk-publish/route.ts:48-79 | The success count is the number of calls that came back ok |
| BulkPublish.AllOkSummary | web/app/api/bulk-publish/route.ts:79-87 | When every call is ok, all items are successes and none is a failure |
| BulkPublish.AllOkCalls | web/app/api/bulk-publish/route.ts:48-53 | When every call is ok, the ok count is the number of calls |
| BulkPublish.MakePayload | web/app/api/bulk-publish/route.ts:32 | A payload's `image_url` is never an empty string: falsy becomes `null` |
| BulkPublish.PayloadsSpec | web/app/api/bulk-publish/route.ts:28-38 | Payload k copies item k's title, subtitle, text and target phone. `image_url` is `null` exactly when falsy, `cta_text` and `cta_link` are `null`, the source is `spreadsheet_import` and the timestamp is the k-th clock reading |
| BulkPublish.DelayBound | web/app/api/bulk-publish/route.ts:64-67 | There are at most n−1 pauses, none after the last item, and exactly n−1 when no call throws |
| BulkPublish.Delays | web/app/api/bulk-publish/route.ts:64-67 | After i calls there are at most i pauses, one per call that is not the last and did not throw. Post ties its counter to it, and DelayBound states the rest |
| BulkPublish.Unconfigured | web/app/api/bulk-publish/route.ts:13-18 | One entry per item, each `success:false` with error `Webhook URL not configured` |
| Generate.MockDefaults | web/app/api/generate/route.ts:32-39 | The theme is echoed. A falsy audience, tone, CTA text or link becomes `Geral`, `profissional_direto`, `Saiba mais` or `""` |
| Generate.MockResponse | web/app/api/generate/route.ts:32-83 | The mock object built from the request fields. Stated by MockDefaults, MockShape, FullTextIsLayout, FullTextEnds and FullTextIgnoresOtherFields |
| Generate.MockShape | web/app/api/generate/route.ts:40-60 | There are 3 titles, 2 image ideas, 4 bullets each opening with `🔸 `, 2 highlights and the tags `inovação`, `eficiência`, `gestão`. Each title ends with the theme |
| Generate.FullTextIsLayout | web/app/api/generate/route.ts:61-82 | `full_text` lays out the mock's own fields: `1) 2) 3)` the titles, `A) B)` the image ideas, then the lede under `LIDE:`, the bullets under `CORPO:` and the CTA text |
| Generate.FullTextEnds | web/app/api/generate/route.ts:61-82 | `full_text` opens with `TEMA: <theme>` and ends with `CTA:\n` plus the CTA text or `Saiba mais` |
| Generate.FullTextIgnoresOtherFields | web/app/api/generate/route.ts:37-82 | Requests with the same theme and effective CTA text give the same `full_text`, whatever their context, audience, tone or link |
| Generate.PostCases | web/app/api/generate/route.ts:3-91 | With an agent URL the body is forwarded and no mock is built: a 2xx JSON answer is passed through, anything else gives 502 `Falha na comunicação com o agente.`. Without one the mock is returned and nothing is forwarded. An unreadable body gives 500 |
| Generate.Post | web/app/api/generate/route.ts:3-91 | The body is forwarded exactly when it was read and an agent URL is set. The mock is the answer exactly when a read body is not forwarded. PostCases states the replies |
| DataUrl.WordEnd | web/lib/supabase.ts:20 | The run of `\w` characters scanned from i ends at the first non-word character or the end of the input |
| DataUrl.Parse | web/lib/supabase.ts:20-26 | The match and its two groups, as in web/lib/cloudinary.ts:8-14 too. A returned type is one or more `\w` and a returned payload one or more characters without a line terminator. Stated in full by ParseSound, ParseComplete, ParseIff and ParseNoneIff |
| DataUrl.ParseSound | web/lib/supabase.ts:20-26 | Whatever the parser returns is a match of the pattern, with these groups |
| DataUrl.ParseComplete | web/lib/supabase.ts:20-26 | Every match of the pattern is found, with the same groups |
| DataUrl.ParseIff | web/lib/cloudinary.ts:8-14 | The parser returns `(ext, data)` exactly when the input is `data:image/` + ext + `;base64,` + data. The ext is one or more `\w`, and the data is one or more characters with no line terminator |
| DataUrl.ParseNoneIff | web/lib/supabase.ts:20-23 | The parser fails exactly on inputs the pattern does not match |
| DataUrl.MatchUnique | web/lib/supabase.ts:25-26 | The groups are determined by the input. The type is the text between `data:image/` and the first `;`: the character after it is `;`, no earlier character is |
| DataUrl.FormatRoundTrip | web/lib/cloudinary.ts:8-14 | Formatting a well-shaped type and payload into a data URL and parsing it gives them back |
| Supabase.UploadAccepted | web/lib/supabase.ts:25-56 | A data URL with a configured client uploads to `images` at `gera-materias/<now>-<fragment>.<ext>`. The upload uses content type `image/<ext>`, cache `3600`, `upsert:false` and the payload. The caller gets the public URL, or `Failed to upload image to Supabase` |
| Supabase.UploadRejected | web/lib/supabase.ts:15-23 | An unconfigured client or an input that is not a data URL makes no storage call and gives `Failed to upload image to Supabase` |
| Supabase.UploadOutcome | web/lib/supabase.ts:12-61 | There is a URL exactly when the client is configured, the input matches and the upload succeeds. There is a storage call exactly when the first two hold. Every failure is the one message |
| Supabase.FileNameSpec | web/lib/supabase.ts:29 | The file name ends with `.` + ext. Names made at different clock readings differ, whatever their fragments and types, because the reading is the text before the first `-` |
| Supabase.UploadImage | web/lib/supabase.ts:12-61 | `uploadImageToSupabase`: every error is `Failed to upload image to Supabase`. A URL comes only after a storage call, and is the public URL of its path. Calls go to the `images` bucket without overwrite. Stated in full by UploadAccepted, UploadRejected and UploadOutcome |
| Cloudinary.SaveAccepted | web/lib/cloudinary.ts:13-33 | A data URL's file is named with 32 lowercase hex digits, `.` and the type, and holds the payload. The caller gets `/uploads/<name>`, or `Failed to save image` when the write fails |
| Cloudinary.SaveRejected | web/lib/cloudinary.ts:8-11 | An input that is not a data URL writes nothing and gives `Failed to save image` |
| Cloudinary.SaveOutcome | web/lib/cloudinary.ts:5-38 | There is a path exactly when the input matches and the write succeeds, and a file is written in exactly those cases. The path is `/uploads/` + the file name, and every failure is the one message |
| Cloudinary.FileNameInjective | web/lib/cloudinary.ts:17 | Different random bytes give different file names |
| Cloudinary.SaveImage | web/lib/cloudinary.ts:5-38 | `saveImageLocally`: every error is `Failed to save image`. A file is written exactly when a path is returned, and the path is `/uploads/` + the file name. Stated in full by SaveAccepted, SaveRejected and SaveOutcome |

## Left out

- `parseCSV` and `parseExcel` (web/lib/spreadsheet.ts:18-55) wrap CSV and spreadsheet libraries and the browser's file reader. The model starts from rows that are already parsed.
- Spreadsheet cells are modelled as optional strings only. A numeric cell from the Excel reader makes `.trim()` throw, and that case is not modelled.
- `Spreadsheet.Normalize` maps an absent required column to `""`. The source would throw there instead, but `Normalize` is used only on passing rows, where every required column is present.
- Bulk-publish items are modelled as records of optional strings. A `null` item, or one whose fields are not strings, is left out. A `null` item is the one case where a per-item failure stops the loop, so `BulkPublish.ResultsSpec` does not cover it. In the source, reading `item.titulo` throws inside the per-item `try` (web/app/api/bulk-publish/route.ts:28-29). The `catch` then reads `item.target_phone` again (route.ts:69-75), and that second error reaches the outer `catch`, which answers 500 with its message (route.ts:90-93). The items before the `null` one have already been posted; the items after it are never tried.
- An explicit `null` for a request field is not modelled: `None` stands for an absent key (`undefined`). So `Generate.MockResponse` interpolates an absent theme as `undefined`. A theme sent as `null` would be interpolated as `null` (web/app/api/generate/route.ts:41), and that case is not modelled.
- The bulk-publish and generate routes read JSON bodies. JSON values other than strings (numbers, objects) for the request fields are not modelled.
- `fetch`, `response.text()`, `response.json()` and `process.env` become parameters: an optional URL, a function from call number to outcome, and a forward outcome. Which side's failure made a call throw is not distinguished.
- `setTimeout` is reduced to a count of pauses. The 2000 ms fake delay of the mock branch is left out, and no timing or asynchrony is modelled.
- `new Date().toISOString()`, `Date.now()`, `Math.random()` and `crypto.randomBytes(16)` become parameters: a timestamp function, a clock reading, a name fragment and 16 bytes.
- The Supabase client and storage SDK are reduced to whether the client exists, whether the upload succeeds, and the public URL for a path. The `fs` calls are reduced to whether the directory and file writes succeed.
- `Buffer.from(data, 'base64')` is not modelled. The upload and the written file carry the base64 text whose decoding they hold.
- Generate.PostCases: the forwarded body is only the six fields the route reads, not whatever else the client sent.
- Console logging is left out.
- The history, publish and upload-image routes and the React components are left out: they are glue with no logic of their own beyond these pieces.
