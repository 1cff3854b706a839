/**
 * The Express server: six upload routes and the usage counters they update. The state is
 * what the routes leave behind them: the counters of stats.json, the files in the upload
 * directory (by their names there) and the external tools started so far. Whether a tool
 * succeeds is not known in advance and is a parameter of every route.
 */
module Server {
  import opened Options
  import opened FileNames
  import opened QualityTables
  import opened UsageStats
  import opened MergeAssembly

  /**
   * One file as multer hands it to a route: the client's file name, the declared MIME
   * type, the unique name multer stored it under, and (for the merge route) its content.
   */
  datatype Upload = Upload(originalName: string, mimetype: string, filename: string, body: Body)

  /** A request to one of the five single-file routes: the `file` part and the `quality` field. */
  datatype SingleRequest = SingleRequest(file: Option<Upload>, quality: Option<string>)

  /** A request to the merge route: the `files` parts, in the order the client appended them. */
  datatype MergeRequest = MergeRequest(files: Option<seq<Upload>>)

  /** The sharp output options chosen by the image route. */
  datatype ImageEncoding = JpegAt(quality: nat) | PngAt(quality: nat) | WebpAt(quality: nat) | GifWith(colors: nat) | AsDecoded

  /** An external tool started by a route, with the setting and the file names it was given. */
  datatype ToolCall =
    | Ghostscript(profile: string, input: string, output: string)
    | FfmpegToMp3(kbps: nat, input: string, output: string)
    | Sharp(encoding: ImageEncoding, input: string, output: string)
    | FfmpegX264(crf: nat, input: string, output: string)
    | FfmpegMp3(kbps: nat, input: string, output: string)
    | PdfLibSave(pages: seq<Page>, output: string)

  /**
   * How a tool run ends: it completes; it reports an error, possibly after writing part of
   * its output; or the route's code throws before the tool starts (the outer `catch`).
   */
  datatype ToolOutcome = Completed | Errored(leftPartialOutput: bool) | ThrewBeforeStart

  /** 400 with an error message, 500 with an error message, or the output file under a name. */
  datatype Response = BadRequest | ServerError | Download(path: string, name: string)

  /** The image route's choice of encoder, by the upload's MIME type. */
  function ImageEncodingFor(mimetype: string, quality: string): (e: ImageEncoding)
    ensures e.GifWith? <==> mimetype == "image/gif"
    ensures e.GifWith? ==> e.colors == GifColors(quality)
    ensures e.AsDecoded? <==> mimetype !in {"image/jpeg", "image/jpg", "image/png", "image/webp", "image/gif"}
    ensures e.JpegAt? || e.PngAt? || e.WebpAt? ==> e.quality == ImageCodecQuality(quality)
    ensures e.JpegAt? <==> mimetype == "image/jpeg" || mimetype == "image/jpg"
    ensures e.PngAt? <==> mimetype == "image/png"
    ensures e.WebpAt? <==> mimetype == "image/webp"
  {
    if mimetype == "image/jpeg" || mimetype == "image/jpg" then JpegAt(ImageCodecQuality(quality))
    else if mimetype == "image/png" then PngAt(ImageCodecQuality(quality))
    else if mimetype == "image/webp" then WebpAt(ImageCodecQuality(quality))
    else if mimetype == "image/gif" then GifWith(GifColors(quality))
    else AsDecoded
  }

  /**
   * The name under which the MP4-to-MP3 route sends its result: the original name with
   * its final extension replaced by "mp3".
   */
  function ExtractedAudioName(originalName: string): (name: string)
    ensures StripExtension(name) == StripExtension(originalName)
    ensures LastSegment(name) == "mp3"
    ensures '.' in name
  {
    var stem := StripExtension(originalName);
    StripAddedExtension(stem, "mp3");
    LastSegmentOfAdded(stem, "mp3");
    assert stem + "." + "mp3" == stem + ".mp3";
    assert (stem + ".mp3")[|stem|] == '.';
    stem + ".mp3"
  }

  /**
   * The files left in the upload directory once a request is over: the download callback
   * deletes input and output after success; the error paths delete the inputs only; an
   * outer `catch` deletes the inputs only where `catchDeletesInputs` says so.
   */
  function Remaining(before: set<string>, inputs: set<string>, output: string, outcome: ToolOutcome, catchDeletesInputs: bool): (after: set<string>)
    ensures forall f :: f in before && f !in inputs && f != output ==> f in after
    ensures after <= before + {output}
    ensures outcome.Completed? ==> inputs !! after && output !in after
    ensures outcome.Errored? ==> inputs !! after && (output in after <==> output !in inputs && (outcome.leftPartialOutput || output in before))
    ensures outcome.ThrewBeforeStart? && !catchDeletesInputs ==> after == before
    ensures outcome.ThrewBeforeStart? && catchDeletesInputs ==>
      inputs !! after && (output in after <==> output in before && output !in inputs)
  {
    match outcome
    case Completed => before - inputs - {output}
    case Errored(partial) => (if partial then before + {output} else before) - inputs
    case ThrewBeforeStart => if catchDeletesInputs then before - inputs else before
  }

  /** The names multer stored `files` under. */
  function StoredNames(files: seq<Upload>): set<string>
  {
    set k | 0 <= k < |files| :: files[k].filename
  }

  /** The merge loop's view of `files`: MIME type and content, in upload order. */
  function MergeInputs(files: seq<Upload>): seq<MergeInput>
  {
    seq(|files|, k requires 0 <= k < |files| => MergeInput(files[k].mimetype, files[k].body))
  }

  class Server {
    /** The contents of stats.json. */
    var stats: map<string, Entry>
    /** The files in the upload directory. */
    var storage: set<string>
    /** The external tools started so far, oldest first. */
    var toolCalls: seq<ToolCall>

    /**
     * The server at start-up: the counters read from stats.json and whatever files earlier
     * runs left in the upload directory (it is created only when missing, never emptied).
     */
    constructor (persisted: map<string, Entry>, leftover: set<string>)
      ensures stats == persisted && storage == leftover && toolCalls == []
    {
      stats := persisted;
      storage := leftover;
      toolCalls := [];
    }

    /** A route answered 400 and changed nothing. */
    ghost predicate Rejected(stats0: map<string, Entry>, storage0: set<string>, calls0: seq<ToolCall>, res: Response)
      reads this
    {
      res == BadRequest && stats == stats0 && storage == storage0 && toolCalls == calls0
    }

    /**
     * A route ran `call` for `tool` on `inputs` into `output`: the tool is logged unless the
     * route threw first, the counters move only when it completed, the files are those
     * Remaining leaves, and the answer is the download or a 500.
     */
    ghost predicate Handled(stats0: map<string, Entry>, storage0: set<string>, calls0: seq<ToolCall>,
                            tool: string, call: ToolCall, inputs: set<string>, output: string, name: string,
                            outcome: ToolOutcome, catchDeletesInputs: bool, today: string, res: Response)
      reads this
    {
      && toolCalls == calls0 + (if outcome.ThrewBeforeStart? then [] else [call])
      && stats == (if outcome.Completed? then Recorded(stats0, tool, today) else stats0)
      && storage == Remaining(storage0, inputs, output, outcome, catchDeletesInputs)
      && res == (if outcome.Completed? then Download(output, name) else ServerError)
    }

    /** multer stores an upload in the upload directory before the route runs. */
    method Receive(u: Upload)
      modifies this
      ensures storage == old(storage) + {u.filename}
      ensures stats == old(stats) && toolCalls == old(toolCalls)
    {
      storage := storage + {u.filename};
    }

    /** `updateStats(tool)` on the day `today`, with stats.json read and written as `stats`. */
    method UpdateStats(tool: string, today: string)
      modifies this
      ensures stats == Recorded(old(stats), tool, today)
      ensures storage == old(storage) && toolCalls == old(toolCalls)
    {
      if tool !in stats {
        stats := stats[tool := Entry(0, 0, today)];
      }
      var entry := stats[tool];
      if entry.lastDate != today {
        entry := entry.(today := 0, lastDate := today);
      }
      entry := entry.(total := entry.total + 1);
      entry := entry.(today := entry.today + 1);
      stats := stats[tool := entry];
    }

    /** What every route does once it has its tool call: run it, count it, answer, clean up. */
    method RunTool(tool: string, call: ToolCall, inputs: set<string>, output: string, name: string,
                   outcome: ToolOutcome, catchDeletesInputs: bool, today: string) returns (res: Response)
      modifies this
      ensures Handled(old(stats), old(storage), old(toolCalls), tool, call, inputs, output, name, outcome, catchDeletesInputs, today, res)
    {
      match outcome
      case ThrewBeforeStart =>
        res := ServerError;
        if catchDeletesInputs {
          storage := storage - inputs;
        }
      case Errored(partial) =>
        toolCalls := toolCalls + [call];
        if partial {
          storage := storage + {output};
        }
        res := ServerError;
        storage := storage - inputs;
      case Completed =>
        toolCalls := toolCalls + [call];
        storage := storage + {output};
        UpdateStats(tool, today);
        res := Download(output, name);
        storage := storage - inputs - {output};
    }

    /** POST /api/compress/pdf: Ghostscript with the profile of the quality field. */
    method CompressPdf(req: SingleRequest, outcome: ToolOutcome, today: string) returns (res: Response)
      modifies this
      ensures req.file.None? ==> Rejected(old(stats), old(storage), old(toolCalls), res)
      ensures req.file.Some? ==>
        var u := req.file.value;
        var output := "compressed-" + u.filename + ".pdf";
        Handled(old(stats), old(storage), old(toolCalls), PdfTool,
                Ghostscript(GhostscriptProfile(EffectiveQuality(req.quality)), u.filename, output),
                {u.filename}, output, "compressed-" + u.originalName, outcome, true, today, res)
    {
      if req.file.None? {
        return BadRequest;
      }
      var u := req.file.value;
      var profile := GhostscriptProfile(EffectiveQuality(req.quality));
      var output := "compressed-" + u.filename + ".pdf";
      res := RunTool(PdfTool, Ghostscript(profile, u.filename, output), {u.filename}, output,
                     "compressed-" + u.originalName, outcome, true, today);
    }

    /** POST /api/convert/mp4-to-mp3: ffmpeg to MP3 at the bitrate of the quality field. */
    method ConvertMp4ToMp3(req: SingleRequest, outcome: ToolOutcome, today: string) returns (res: Response)
      modifies this
      ensures req.file.None? ==> Rejected(old(stats), old(storage), old(toolCalls), res)
      ensures req.file.Some? ==>
        var u := req.file.value;
        var output := "audio-" + u.filename + ".mp3";
        Handled(old(stats), old(storage), old(toolCalls), Mp4ToMp3Tool,
                FfmpegToMp3(ExtractedMp3Kbps(EffectiveQuality(req.quality)), u.filename, output),
                {u.filename}, output, ExtractedAudioName(u.originalName), outcome, false, today, res)
    {
      if req.file.None? {
        return BadRequest;
      }
      var u := req.file.value;
      var kbps := ExtractedMp3Kbps(EffectiveQuality(req.quality));
      var output := "audio-" + u.filename + ".mp3";
      res := RunTool(Mp4ToMp3Tool, FfmpegToMp3(kbps, u.filename, output), {u.filename}, output,
                     ExtractedAudioName(u.originalName), outcome, false, today);
    }

    /** POST /api/compress/image: sharp, with the encoder of the upload's MIME type. */
    method CompressImage(req: SingleRequest, outcome: ToolOutcome, today: string) returns (res: Response)
      modifies this
      ensures req.file.None? ==> Rejected(old(stats), old(storage), old(toolCalls), res)
      ensures req.file.Some? ==>
        var u := req.file.value;
        var output := "compressed-" + u.filename;
        Handled(old(stats), old(storage), old(toolCalls), ImageTool,
                Sharp(ImageEncodingFor(u.mimetype, EffectiveQuality(req.quality)), u.filename, output),
                {u.filename}, output, "compressed-" + u.originalName, outcome, true, today, res)
    {
      if req.file.None? {
        return BadRequest;
      }
      var u := req.file.value;
      var encoding := ImageEncodingFor(u.mimetype, EffectiveQuality(req.quality));
      var output := "compressed-" + u.filename;
      res := RunTool(ImageTool, Sharp(encoding, u.filename, output), {u.filename}, output,
                     "compressed-" + u.originalName, outcome, true, today);
    }

    /** POST /api/compress/video: ffmpeg with libx264 at the CRF of the quality field. */
    method CompressVideo(req: SingleRequest, outcome: ToolOutcome, today: string) returns (res: Response)
      modifies this
      ensures req.file.None? ==> Rejected(old(stats), old(storage), old(toolCalls), res)
      ensures req.file.Some? ==>
        var u := req.file.value;
        var output := "compressed-" + u.filename + ".mp4";
        Handled(old(stats), old(storage), old(toolCalls), VideoTool,
                FfmpegX264(VideoCrf(EffectiveQuality(req.quality)), u.filename, output),
                {u.filename}, output, "compressed-" + u.originalName, outcome, false, today, res)
    {
      if req.file.None? {
        return BadRequest;
      }
      var u := req.file.value;
      var crf := VideoCrf(EffectiveQuality(req.quality));
      var output := "compressed-" + u.filename + ".mp4";
      res := RunTool(VideoTool, FfmpegX264(crf, u.filename, output), {u.filename}, output,
                     "compressed-" + u.originalName, outcome, false, today);
    }

    /** POST /api/compress/audio: ffmpeg at the MP3 bitrate of the quality field. */
    method CompressAudio(req: SingleRequest, outcome: ToolOutcome, today: string) returns (res: Response)
      modifies this
      ensures req.file.None? ==> Rejected(old(stats), old(storage), old(toolCalls), res)
      ensures req.file.Some? ==>
        var u := req.file.value;
        var output := "compressed-" + u.filename + ".mp3";
        Handled(old(stats), old(storage), old(toolCalls), AudioTool,
                FfmpegMp3(AudioKbps(EffectiveQuality(req.quality)), u.filename, output),
                {u.filename}, output, "compressed-" + u.originalName, outcome, false, today, res)
    {
      if req.file.None? {
        return BadRequest;
      }
      var u := req.file.value;
      var kbps := AudioKbps(EffectiveQuality(req.quality));
      var output := "compressed-" + u.filename + ".mp3";
      res := RunTool(AudioTool, FfmpegMp3(kbps, u.filename, output), {u.filename}, output,
                     "compressed-" + u.originalName, outcome, false, today);
    }

    /**
     * POST /api/merge/pdf: the files' pages in upload order, saved by pdf-lib as
     * merged-<timestamp>.pdf. A file pdf-lib cannot read fails the whole merge before
     * anything is saved; `saved` says whether saving and writing the document succeeded, and
     * `partialWrite` whether a failed write left part of the output file behind.
     */
    method MergePdf(req: MergeRequest, saved: bool, partialWrite: bool, timestamp: string, today: string) returns (res: Response)
      modifies this
      ensures req.files == None || req.files == Some([]) ==> Rejected(old(stats), old(storage), old(toolCalls), res)
      ensures req.files.Some? && req.files.value != [] ==>
        var files := req.files.value;
        var output := "merged-" + timestamp + ".pdf";
        match Assemble(MergeInputs(files))
        case Failed(_) =>
          res == ServerError && stats == old(stats) && toolCalls == old(toolCalls)
          && storage == old(storage) - StoredNames(files)
        case Pages(pages) =>
          Handled(old(stats), old(storage), old(toolCalls), MergePdfTool, PdfLibSave(pages, output),
                  StoredNames(files), output, "merged-document.pdf",
                  if saved then Completed else Errored(partialWrite), true, today, res)
    {
      if req.files.None? || req.files.value == [] {
        return BadRequest;
      }
      var files := req.files.value;
      var output := "merged-" + timestamp + ".pdf";
      var merged := MergePages(MergeInputs(files));
      match merged
      case Failed(_) =>
        res := ServerError;
        storage := storage - StoredNames(files);
      case Pages(pages) =>
        res := RunTool(MergePdfTool, PdfLibSave(pages, output), StoredNames(files), output,
                       "merged-document.pdf", if saved then Completed else Errored(partialWrite), true, today);
    }
  }

  /**
   * After a completed run the route's counter went up by one and neither its inputs nor
   * its output are left in the upload directory.
   */
  lemma CompletedRunCountsAndCleansUp(s: Server, stats0: map<string, Entry>, storage0: set<string>, calls0: seq<ToolCall>,
                                      tool: string, call: ToolCall, inputs: set<string>, output: string, name: string,
                                      catchDeletesInputs: bool, today: string, res: Response)
    requires s.Handled(stats0, storage0, calls0, tool, call, inputs, output, name, Completed, catchDeletesInputs, today, res)
    ensures TotalOf(s.stats, tool) == TotalOf(stats0, tool) + 1
    ensures inputs !! s.storage && output !in s.storage
    ensures s.toolCalls == calls0 + [call] && res == Download(output, name)
  {
  }

  /**
   * The cleanup gaps of the error paths: a tool that fails after writing part of its
   * output leaves that output behind, and an outer `catch` that does not delete the input
   * leaves the input behind.
   */
  lemma ErrorPathsCanLeaveFiles(before: set<string>, input: string, output: string)
    requires input in before && output !in before && input != output
    ensures output in Remaining(before, {input}, output, Errored(true), true)
    ensures input in Remaining(before, {input}, output, ThrewBeforeStart, false)
  {
  }
}
