# FileShrink: a verified model of its core

FileShrink is a small web application that compresses, converts and merges files. An
Express server exposes six upload routes, and each route hands the uploaded file to an
external tool:

- PDF compression with Ghostscript;
- MP4 to MP3 extraction with ffmpeg;
- image compression with sharp;
- video compression with ffmpeg and libx264;
- MP3 compression with ffmpeg;
- PDF merging with pdf-lib.

After each successful run the server counts it in per-tool usage counters. Of the React
client, four components are modelled: the merge list, and the image, video and audio
compressors. The statistics dashboard and the navigation shell are not.

This project models the logic of that core in Dafny and proves what it promises:

- `UsageStats`: the counter update `updateStats`, as a map transformation (`Recorded`).
  Lemmas cover runs of updates: totals count every use, day counts restart on a new
  date, and tools never used are untouched.
- `QualityTables`: the `quality` form field and its default. Each route has its own table
  from the field to a tool setting: Ghostscript profile, MP3 bitrate, codec quality, GIF
  palette size and constant rate factor.
- `MergeAssembly`: the page list the merge route builds from its uploads, in upload
  order, and the loop that builds it (`MergePages`, proved equal to `Assemble`).
- `Server`: a class whose state is three fields:
  - the counters;
  - the set of files in the upload directory;
  - the log of external tools started.

  There is one method per route. Each states the 400 guard, the tool started with its
  setting, the counter update, the response and the files left behind, for every
  outcome of the tool.
- `FileNames`: the JavaScript string operations the names are built with:
  - `lastIndexOf`;
  - the last element of `split('.')`;
  - `substring(0, lastIndexOf('.'))`;
  - `replace(/\.[^/.]+$/, "")`.

  `StripExtension` is proved to match the regular expression.
- `ClientFiles`, `MergePdfClient`, `ImageClient`, `MediaClient`: one class per component,
  holding its React state. One method per handler. The derived file names are proved to
  carry the extension they are meant to carry.

  VideoCompressor and AudioCompressor differ in their text, in the accepted MIME type, in
  the extension of the download name and in the URL they post to. VideoCompressor posts
  to the deployed server's /api/compress/video, while AudioCompressor posts to
  http://localhost:5000/api/compress/audio. The request itself is left out, so the model
  does not see the URL. Both are `MediaClient.MediaCompressor`, built with
  `VideoExtension` ("mp4") or `AudioExtension` ("mp3").

External tools and the browser are parameters:

- A `ToolOutcome` says whether a tool completed, failed (possibly after writing part of
  its output) or whether the route threw before starting it.
- PDF page lists and image sizes are abstract values in the upload.
- The date is passed in.
- The result of an axios request is an `Option` (the object URL, or None on failure).

## Model

| member | source | states |
|---|---|---|
| UsageStats.Recorded | server/src/index.ts:36-47 | A missing entry is created as (0, 0, today). Total rises by exactly one. A new date makes the day count exactly 1, the same date raises it by one, and lastDate becomes today. Every other tool's entry is unchanged, and the keys gain exactly the tool. |
| UsageStats.TotalCountsEveryUse | server/src/index.ts:46 | After any sequence of updates, a tool's total is its old total plus the number of updates of that tool. |
| UsageStats.TodayCountsTheDaysUses | server/src/index.ts:41-47 | After updates that all happen on one day, a used tool's day count is the number of its uses that day. Its old day count is added only if its stored date already was that day. |
| UsageStats.UnusedToolUntouched | server/src/index.ts:36-49 | A tool not among the updates keeps its entry, or stays absent. |
| Server.Server.UpdateStats | server/src/index.ts:27-53 | The in-place update of the counters field leaves exactly `Recorded` of the old counters; the upload directory and the tool log are unchanged. |
| QualityTables.EffectiveQuality | server/src/index.ts:127 | A missing or empty field is "medium", any other value is kept. |
| QualityTables.GhostscriptProfile | server/src/index.ts:130-132 | "/screen" if and only if "small", "/printer" if and only if "large", "/ebook" otherwise. |
| QualityTables.ExtractedMp3Kbps | server/src/index.ts:178-183 | 96 if and only if "small", 320 if and only if "large", 192 otherwise. |
| QualityTables.ImageCodecQuality | server/src/index.ts:225-230 | 50 if and only if "small", 95 if and only if "large", 80 otherwise. |
| QualityTables.GifColors | server/src/index.ts:256-258 | 64 if and only if "small", 128 if and only if "medium", 256 for every other value. |
| QualityTables.VideoCrf | server/src/index.ts:293-298 | 28 if and only if "small", 18 if and only if "large", 23 otherwise. |
| QualityTables.AudioKbps | server/src/index.ts:345-350 | 64 if and only if "small", 192 if and only if "large", 128 otherwise. |
| QualityTables.TiersAreOrdered | server/src/index.ts:181-183 | From small to large, bitrates, codec quality and palette size strictly rise, and the CRF strictly falls. The tables for those lines sit at 229-230, 257-258, 296-298 and 348-350. |
| QualityTables.MissingFieldIsMedium | server/src/index.ts:127 | A missing or empty field gets every table's medium value. |
| QualityTables.UnknownValueSplitsGifFromTheRest | server/src/index.ts:254-258 | An unknown non-empty value gets the medium value from every table except GIF, which gives it the large value, 256. |
| Server.ImageEncodingFor | server/src/index.ts:239-262 | jpeg/jpg give the JPEG encoder, png gives PNG, webp gives WebP, gif gives the GIF encoder with the palette table, and any other type is written as decoded. Codec quality comes from the quality table. |
| Server.ExtractedAudioName | server/src/index.ts:186-199 | The MP3 route's download name contains a '.', has the same regex-stripped stem as the upload, and has "mp3" as its last segment. Together these make it exactly the stripped name + ".mp3". |
| Server.Remaining | server/src/index.ts:143-163 | Files left after a request. Success removes inputs and output. An error removes the inputs and keeps a partial output. A route that throws before its tool starts changes nothing when its catch keeps the input; when the catch deletes the input, only the inputs go. No other file is touched. |
| Server.Server.constructor | server/src/index.ts:67-70 | The server starts with the persisted counters, no tool started, and whatever files earlier runs left in the upload directory, which is created only when missing. |
| Server.Server.Receive | server/src/index.ts:72-80 | multer's stored file joins the upload directory. |
| Server.Server.RunTool | server/src/index.ts:143-158 | A started tool is logged. Success counts the use and answers with the download. Both success and failure leave `Remaining`. |
| Server.Server.CompressPdf | server/src/index.ts:122-164 | No file gives 400 with nothing changed. Otherwise Ghostscript runs with the quality's profile, the output is compressed-filename.pdf, the download name is compressed-originalName, and the catch deletes the input. |
| Server.Server.ConvertMp4ToMp3 | server/src/index.ts:171-215 | No file gives 400 with nothing changed. Otherwise ffmpeg runs at the MP3 bitrate, the output is audio-filename.mp3, the download name is the stripped name plus ".mp3", and the catch keeps the input. |
| Server.Server.CompressImage | server/src/index.ts:222-280 | No file gives 400 with nothing changed. Otherwise sharp runs with the MIME type's encoder, the output is compressed-filename, the download name is compressed-originalName, and the catch deletes the input. |
| Server.Server.CompressVideo | server/src/index.ts:286-331 | No file gives 400 with nothing changed. Otherwise ffmpeg/libx264 runs at the quality's CRF, the output is compressed-filename.mp4, and the catch keeps the input. |
| Server.Server.CompressAudio | server/src/index.ts:338-379 | No file gives 400 with nothing changed. Otherwise ffmpeg runs at the quality's bitrate, the output is compressed-filename.mp3, and the catch keeps the input. |
| Server.Server.MergePdf | server/src/index.ts:386-439 | Missing or empty files give 400 with nothing changed. An unreadable file gives 500, deletes every input, and saves, counts and starts nothing. Otherwise the assembled pages are saved as merged-timestamp.pdf and downloaded as merged-document.pdf. A failed save gives 500 and deletes the inputs, and a write that failed part-way leaves the output file behind. |
| Server.CompletedRunCountsAndCleansUp | server/src/index.ts:150-157 | After a completed run the tool's total rose by one and neither inputs nor output remain. |
| Server.ErrorPathsCanLeaveFiles | server/src/index.ts:321-330 | A tool failing after a partial write leaves its output behind. An outer catch that does not delete leaves the input behind. |
| MergeAssembly.Contribution | server/src/index.ts:401-418 | A PDF gives all its pages, copied in order, or fails when unreadable. A jpeg/jpg/png gives exactly one page of the image's size with the image drawn over it all, or fails. Any other type gives no page. An image page is embedded as PNG if and only if the type is "image/png". |
| MergeAssembly.CopyPages | server/src/index.ts:404-405 | Every page of the document, in its order. |
| MergeAssembly.MergePages | server/src/index.ts:398-419 | The loop's result equals `Assemble`: the contributions concatenated in upload order, or the first failure. |
| MergeAssembly.PageCountAddsUp | server/src/index.ts:398-419 | A merged document has as many pages as its PDFs, plus one per image. |
| MergeAssembly.AssembleKeepsOrder | server/src/index.ts:398 | Merging a + b gives a's pages followed by b's. |
| MergeAssembly.PdfThenPngExample | server/src/index.ts:401-418 | A two-page PDF and an 800x600 PNG give the two pages, then an 800x600 image page. |
| FileNames.LastIndexOf | client/src/components/ImageCompressor.tsx:51 | `lastIndexOf`: -1 or an index holding the character, with none after it. |
| FileNames.LastSegment | client/src/components/ImageCompressor.tsx:23 | `split('.').pop()`: a '.'-free result no longer than the name, and the whole name when it has no '.'. That the result is exactly the text after the last '.' is `SplitAtLastDot`. |
| FileNames.BeforeLastDot | client/src/components/ImageCompressor.tsx:51 | `substring(0, lastIndexOf('.'))`: "" without a '.'; otherwise the prefix that ends just before a '.' with no '.' after it. |
| FileNames.SplitAtLastDot | client/src/components/ImageCompressor.tsx:23 | For a name with a '.', the text before the last '.', then '.', then `LastSegment` give the name back, so `LastSegment` is exactly the text after the last '.'. |
| FileNames.StripExtension | server/src/index.ts:186 | The result is a prefix of the name. |
| FileNames.ExtensionAtUnique | server/src/index.ts:186 | The regex `/\.[^/.]+$/` matches at most at one index. |
| FileNames.StripExtensionMatchesRegex | server/src/index.ts:186 | `replace(/\.[^/.]+$/, "")`: the name cut at the match, or unchanged without one. |
| FileNames.StripAddedExtension | server/src/index.ts:186 | Stripping a '.'- and '/'-free non-empty extension added to any base gives the base back. |
| FileNames.LastSegmentOfAdded | client/src/components/ImageCompressor.tsx:23 | The last segment of base + "." + ext is ext, when ext has no '.'. |
| FileNames.StripExtensionExamples | client/src/components/VideoCompressor.tsx:43 | "a.b.c" gives "a.b". "a.", "a" and "v1.0/clip" stay unchanged. ".bashrc" gives "". |
| ClientFiles.CompressedBaseName | client/src/components/VideoCompressor.tsx:43-44 | "compressed-" + the name cut where the regex matches, or the whole name when it does not match. |
| MergePdfClient.WithoutIndex | client/src/components/MergePdf.tsx:33-35 | An index in range drops exactly that element and keeps the rest in order. Any other index leaves the list unchanged. |
| MergePdfClient.AppendAll | client/src/components/MergePdf.tsx:40-44 | The form holds the files in list order. |
| MergePdfClient.MergePdf.constructor | client/src/components/MergePdf.tsx:7-11 | Empty list, blank status, not loading, no result, "merged-document". |
| MergePdfClient.MergePdf.OnDrop | client/src/components/MergePdf.tsx:13-20 | A non-empty drop appends after the listed files and clears status and result. An empty drop changes nothing. |
| MergePdfClient.MergePdf.RemoveFile | client/src/components/MergePdf.tsx:33-35 | The list becomes `WithoutIndex` of the old list; nothing else changes. |
| MergePdfClient.MergePdf.CanMerge | client/src/components/MergePdf.tsx:118 | Enabled if and only if not loading and at least two files are listed. An enabled button never reaches the empty-list guard of `handleMerge`. |
| MergePdfClient.MergePdf.HandleMerge | client/src/components/MergePdf.tsx:37-65 | No-op on an empty list. Otherwise it sends the files in order and is not loading afterwards. Success sets the URL and Succeeded; failure sets Errored. |
| MergePdfClient.MergePdf.HandleReset | client/src/components/MergePdf.tsx:67-72 | Empty list, no result, blank status, name "merged-document". |
| MergePdfClient.MergePdf.EditBaseFileName | client/src/components/MergePdf.tsx:137 | Only the base name changes. |
| MergePdfClient.MergePdf.DownloadName | client/src/components/MergePdf.tsx:143 | The name contains a '.', its last segment is "pdf" and the regex strip gives the base name back. Together these make it exactly the base name + ".pdf". |
| ImageClient.ExtensionOf | client/src/components/ImageCompressor.tsx:23-24 | "." + the text after the last '.', or ".jpg" when that text is empty; always at least two characters starting with '.'. |
| ImageClient.BaseNameOf | client/src/components/ImageCompressor.tsx:51-52 | A name without '.' gives exactly "img-". For a name with a '.' and a non-empty extension, the base name followed by `ExtensionOf` is "img-" + the original name. |
| ImageClient.NameWithoutDot | client/src/components/ImageCompressor.tsx:23-52 | A non-empty name without '.' gets "." + the whole name as its extension and exactly "img-" as its base name. |
| ImageClient.NameWithTrailingDot | client/src/components/ImageCompressor.tsx:23-52 | Any name ending in '.' gets ".jpg" as its extension and "img-" + the rest as its base name. |
| ImageClient.ImageCompressor.constructor | client/src/components/ImageCompressor.tsx:6-13 | No file, blank status, not loading, quality "medium", no result, empty name parts. |
| ImageClient.ImageCompressor.OnDrop | client/src/components/ImageCompressor.tsx:15-26 | Keeps the first accepted file, clears status and result, and stores that file's `ExtensionOf`. An empty drop changes nothing. |
| ImageClient.ImageCompressor.SetQuality | client/src/components/ImageCompressor.tsx:107 | Only the quality changes. |
| ImageClient.ImageCompressor.HandleCompress | client/src/components/ImageCompressor.tsx:35-64 | No-op without a file. Otherwise it sends the file and the current quality and is not loading afterwards. Success sets "img-" + `BeforeLastDot`, the URL and Succeeded; failure sets Errored. |
| ImageClient.ImageCompressor.HandleReset | client/src/components/ImageCompressor.tsx:66-72 | Clears the file, result, status, base name and extension. |
| ImageClient.ImageCompressor.EditBaseFileName | client/src/components/ImageCompressor.tsx:137 | Only the base name changes. |
| ImageClient.ImageCompressor.DownloadName | client/src/components/ImageCompressor.tsx:143 | The base name followed by the `ExtensionOf` the current file, kept so by the class invariant. |
| MediaClient.SuccessKeepsOriginalName | client/src/components/VideoCompressor.tsx:43-44 | After success on a file named stem.ext, base name + "." + ext is "compressed-" + the original name. |
| MediaClient.MediaCompressor.constructor | client/src/components/VideoCompressor.tsx:6-11 | No file, blank status, not loading, quality "medium", no result, empty base name. |
| MediaClient.MediaCompressor.OnDrop | client/src/components/VideoCompressor.tsx:13-19 | Keeps the first accepted file and clears status and result. An empty drop changes nothing. AudioCompressor.tsx:13-19 is the same. |
| MediaClient.MediaCompressor.SetQuality | client/src/components/VideoCompressor.tsx:98 | Only the quality changes. |
| MediaClient.MediaCompressor.HandleCompress | client/src/components/VideoCompressor.tsx:27-56 | No-op without a file. Otherwise it sends the file and the current quality and is not loading afterwards. Success sets `CompressedBaseName`, the URL and Succeeded; failure sets Errored. AudioCompressor.tsx:27-56 is the same. |
| MediaClient.MediaCompressor.HandleReset | client/src/components/VideoCompressor.tsx:58-63 | Clears the file, result, status and base name. AudioCompressor.tsx:58-63 is the same. |
| MediaClient.MediaCompressor.EditBaseFileName | client/src/components/AudioCompressor.tsx:128 | Only the base name changes. |
| MediaClient.MediaCompressor.DownloadName | client/src/components/AudioCompressor.tsx:134 | The name contains a '.', its last segment is the compressor's extension and the regex strip gives the base name back. Together these make it exactly the base name + "." + the extension: ".mp3" here, ".mp4" at VideoCompressor.tsx:134. |

## Left out

- External tools are not modelled. Ghostscript, ffmpeg, sharp and pdf-lib's parsing and encoding are outside the model. Their success or failure is the `ToolOutcome` parameter (for the merge save, `saved` and `partialWrite`). A PDF's pages and an image's size are abstract values of the upload.
- Reading and writing stats.json is left out: JSON parsing and printing, and the `try/catch` that swallows errors in `updateStats`. The counters are a map field, and the date is a parameter instead of `new Date()`.
- multer's storage is left out: the random unique file name, the 20-file limit of the merge route and `path.join`. Stored names are fields of the upload, and output names are relative to the upload directory.
- Order is not modelled. The `exec` callback, the ffmpeg `end`/`error` events and the `res.download` callback are treated as running to completion one request at a time. Interleaved requests, and the lost update they can cause on stats.json, are concurrency.
- The commented-out CloudConvert routes and the unused CloudConvert client are dead code.
- GET /api/stats, GET /api/status, StatsDashboard.tsx and App.tsx only fetch, render or navigate.
- React rendering, styles, the drop zone's accept filters, axios and `createObjectURL` are left out. A handler's request is one atomic step whose result is a parameter, and the status texts are the `Status` datatype.
- Bitrates are kbps numbers rather than the "96k" strings passed to ffmpeg.
- MergeAssembly.Contribution: the PNG/JPEG choice is modelled as equality with "image/png" rather than `includes('png')`. The two agree on the three image types that reach that branch.
- FileNames.LastSegment: its own contract does not say the result is the text after the last '.'. The lemma `SplitAtLastDot` states that, so the proofs about the image component do not have to unfold it.
- FileNames.StripExtension: its own contract states only that the result is a prefix. The exact relation to the regular expression is the lemma `StripExtensionMatchesRegex`.

## Where the code and its description differ

- Cleanup: none of the error paths deletes the output file. A tool that fails after writing part of its output leaves that file in the upload directory. The outer `catch` of the MP4-to-MP3, video and audio routes (server/src/index.ts:211-214, 327-330, 375-378) does not delete the uploaded input. The model follows the code: `Remaining` and `ErrorPathsCanLeaveFiles` state both gaps.
- The GIF table is the one table whose default for an unknown quality is the large value (256 colours), not the medium one (`UnknownValueSplitsGifFromTheRest`).
