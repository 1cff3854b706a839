/**
 * The VideoCompressor and AudioCompressor components. The two are the same component
 * apart from the text they show, the MIME type the drop zone accepts, the URL they post
 * to (the deployed server for video, localhost for audio; the request is not modelled)
 * and the extension of the download name: ".mp4" for video, ".mp3" for audio.
 */
module MediaClient {
  import opened Options
  import opened FileNames
  import opened ClientFiles

  /** The extension each compressor puts on its download name. */
  const VideoExtension := "mp4"
  const AudioExtension := "mp3"

  /** An extension the download name can end in: non-empty, with neither '.' nor '/'. */
  predicate PlainExtension(ext: string)
  {
    ext != "" && '.' !in ext && '/' !in ext
  }

  /**
   * After a successful compression of a file already named `stem.ext`, the proposed
   * download name is "compressed-" and the original name.
   */
  lemma SuccessKeepsOriginalName(stem: string, ext: string)
    requires PlainExtension(ext)
    ensures CompressedBaseName(stem + "." + ext) + "." + ext == "compressed-" + stem + "." + ext
  {
    StripAddedExtension(stem, ext);
  }

  class MediaCompressor {
    /** "mp4" in VideoCompressor, "mp3" in AudioCompressor. */
    const extension: string
    var file: Option<ClientFile>
    var status: Status
    var isLoading: bool
    var quality: string
    var downloadUrl: Option<string>
    var baseFileName: string

    /** The extension is plain, and a result is only ever shown for a dropped file. */
    ghost predicate Valid()
      reads this
    {
      PlainExtension(extension) && (downloadUrl.Some? ==> file.Some?)
    }

    constructor (ext: string)
      requires PlainExtension(ext)
      ensures Valid() && extension == ext
      ensures file == None && status == Blank && !isLoading && quality == InitialQuality
      ensures downloadUrl == None && baseFileName == ""
    {
      extension := ext;
      file := None;
      status := Blank;
      isLoading := false;
      quality := InitialQuality;
      downloadUrl := None;
      baseFileName := "";
    }

    /** `onDrop`: keep the first accepted file and clear the previous result; an empty drop does nothing. */
    method OnDrop(accepted: seq<ClientFile>)
      requires Valid()
      modifies this
      ensures Valid()
      ensures accepted == [] ==> file == old(file) && status == old(status) && downloadUrl == old(downloadUrl)
      ensures accepted != [] ==> file == Some(accepted[0]) && status == Blank && downloadUrl == None
      ensures isLoading == old(isLoading) && quality == old(quality) && baseFileName == old(baseFileName)
    {
      if accepted != [] {
        file := Some(accepted[0]);
        status := Blank;
        downloadUrl := None;
      }
    }

    /** The quality menu's `onChange`. */
    method SetQuality(q: string)
      requires Valid()
      modifies this
      ensures Valid() && quality == q
      ensures file == old(file) && status == old(status) && isLoading == old(isLoading)
      ensures downloadUrl == old(downloadUrl) && baseFileName == old(baseFileName)
    {
      quality := q;
    }

    /**
     * `handleCompress`, once the request is over: `response` is the object URL of the
     * result, or None when the request failed. Returns the form sent, or None without a file.
     */
    method HandleCompress(response: Option<string>) returns (sent: Option<CompressForm>)
      requires Valid()
      modifies this
      ensures Valid()
      ensures old(file).None? ==> sent == None && status == old(status) && isLoading == old(isLoading)
                                  && downloadUrl == old(downloadUrl) && baseFileName == old(baseFileName)
      ensures old(file).Some? ==> sent == Some(CompressForm(old(file).value, old(quality))) && !isLoading
      ensures old(file).Some? && response.Some? ==>
        downloadUrl == response && status == Succeeded && baseFileName == CompressedBaseName(old(file).value.name)
      ensures old(file).Some? && response.None? ==>
        downloadUrl == old(downloadUrl) && status == Errored && baseFileName == old(baseFileName)
      ensures file == old(file) && quality == old(quality)
    {
      if file.None? {
        return None;
      }
      var f := file.value;
      sent := Some(CompressForm(f, quality));
      isLoading := true;
      status := InProgress;
      match response {
        case Some(url) =>
          baseFileName := CompressedBaseName(f.name);
          downloadUrl := Some(url);
          status := Succeeded;
        case None =>
          status := Errored;
      }
      isLoading := false;
    }

    /** `handleReset`: forget the file, the result, the status and the name. */
    method HandleReset()
      requires Valid()
      modifies this
      ensures Valid()
      ensures file == None && downloadUrl == None && status == Blank && baseFileName == ""
      ensures isLoading == old(isLoading) && quality == old(quality)
    {
      file := None;
      downloadUrl := None;
      status := Blank;
      baseFileName := "";
    }

    /** The file-name input's `onChange`. */
    method EditBaseFileName(name: string)
      requires Valid()
      modifies this
      ensures Valid() && baseFileName == name
      ensures file == old(file) && status == old(status) && isLoading == old(isLoading)
      ensures quality == old(quality) && downloadUrl == old(downloadUrl)
    {
      baseFileName := name;
    }

    /**
     * The link's `download` name: whatever the base name is, the regular expression the
     * component strips with finds exactly the compressor's extension on it again.
     */
    function DownloadName(): (name: string)
      reads this
      requires Valid()
      ensures StripExtension(name) == baseFileName
      ensures LastSegment(name) == extension
      ensures '.' in name
    {
      StripAddedExtension(baseFileName, extension);
      LastSegmentOfAdded(baseFileName, extension);
      assert (baseFileName + "." + extension)[|baseFileName|] == '.';
      baseFileName + "." + extension
    }
  }
}
