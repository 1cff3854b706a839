/** The ImageCompressor component: one dropped image, compressed and offered under a new name. */
module ImageClient {
  import opened Options
  import opened FileNames
  import opened ClientFiles

  /**
   * `.${name.split('.').pop() || 'jpg'}`: a dot and the text after the name's last '.',
   * or ".jpg" when that text is empty. A name without '.' gives a dot and the whole name.
   */
  function ExtensionOf(name: string): (ext: string)
    ensures |ext| >= 2 && ext[0] == '.'
    ensures LastSegment(name) != "" ==> ext == "." + LastSegment(name)
    ensures LastSegment(name) == "" ==> ext == ".jpg"
  {
    var segment := LastSegment(name);
    if segment == "" then ".jpg" else "." + segment
  }

  /**
   * `img-${name.substring(0, name.lastIndexOf('.'))}`: "img-" and the name up to its last
   * '.'; for a name without '.', "img-" alone.
   */
  function BaseNameOf(name: string): (base: string)
    ensures '.' !in name ==> base == "img-"
    ensures '.' in name && LastSegment(name) != "" ==> base + ExtensionOf(name) == "img-" + name
  {
    var before := BeforeLastDot(name);
    assert '.' in name && LastSegment(name) != "" ==> ("img-" + before) + ExtensionOf(name) == "img-" + name by {
      if '.' in name && LastSegment(name) != "" {
        SplitAtLastDot(name);
        assert ("img-" + before) + ("." + LastSegment(name)) == "img-" + (before + "." + LastSegment(name));
      }
    }
    "img-" + before
  }

  /** A name without '.' gets "." and the whole name as extension, and "img-" as base name. */
  lemma NameWithoutDot(name: string)
    requires name != "" && '.' !in name
    ensures ExtensionOf(name) == "." + name
    ensures BaseNameOf(name) == "img-"
  {
  }

  /** A name ending in '.' gets the fallback extension ".jpg" and keeps the rest as base name. */
  lemma NameWithTrailingDot(stem: string)
    ensures ExtensionOf(stem + ".") == ".jpg"
    ensures BaseNameOf(stem + ".") == "img-" + stem
  {
    var s := stem + ".";
    assert stem + "." + "" == s;
    LastSegmentOfAdded(stem, "");
    SplitAtLastDot(s);
    var before := BeforeLastDot(s);
    assert before + "." + "" == s;
    assert |before| == |stem|;
    assert before == s[..|stem|] == stem;
  }

  class ImageCompressor {
    var file: Option<ClientFile>
    var status: Status
    var isLoading: bool
    var quality: string
    var downloadUrl: Option<string>
    var baseFileName: string
    var fileExtension: string

    /** The stored extension is always that of the current file, and a result needs a file. */
    ghost predicate Valid()
      reads this
    {
      && fileExtension == (if file.Some? then ExtensionOf(file.value.name) else "")
      && (downloadUrl.Some? ==> file.Some?)
    }

    constructor ()
      ensures Valid()
      ensures file == None && status == Blank && !isLoading && quality == InitialQuality
      ensures downloadUrl == None && baseFileName == "" && fileExtension == ""
    {
      file := None;
      status := Blank;
      isLoading := false;
      quality := InitialQuality;
      downloadUrl := None;
      baseFileName := "";
      fileExtension := "";
    }

    /** `onDrop`: keep the first accepted file and its extension; an empty drop does nothing. */
    method OnDrop(accepted: seq<ClientFile>)
      requires Valid()
      modifies this
      ensures Valid()
      ensures accepted == [] ==> file == old(file) && status == old(status) && downloadUrl == old(downloadUrl) && fileExtension == old(fileExtension)
      ensures accepted != [] ==> file == Some(accepted[0]) && status == Blank && downloadUrl == None
      ensures accepted != [] ==> fileExtension == ExtensionOf(accepted[0].name)
      ensures isLoading == old(isLoading) && quality == old(quality) && baseFileName == old(baseFileName)
    {
      if accepted != [] {
        var selected := accepted[0];
        var extension := ExtensionOf(selected.name);
        file, status, downloadUrl, fileExtension := Some(selected), Blank, None, extension;
      }
    }

    /** The quality menu's `onChange`. */
    method SetQuality(q: string)
      requires Valid()
      modifies this
      ensures Valid() && quality == q
      ensures file == old(file) && status == old(status) && isLoading == old(isLoading)
      ensures downloadUrl == old(downloadUrl) && baseFileName == old(baseFileName) && fileExtension == old(fileExtension)
    {
      quality := q;
    }

    /**
     * `handleCompress`, once the request is over: `response` is the object URL of the
     * result, or None when the request failed. Returns the form sent, or None without a file.
     */
    method HandleCompress(response: Option<string>) returns (sent: Option<CompressForm>)
      requires Valid()
      modifies this
      ensures Valid()
      ensures old(file).None? ==> sent == None && status == old(status) && isLoading == old(isLoading)
                                  && downloadUrl == old(downloadUrl) && baseFileName == old(baseFileName)
      ensures old(file).Some? ==> sent == Some(CompressForm(old(file).value, old(quality))) && !isLoading
      ensures old(file).Some? && response.Some? ==>
        downloadUrl == response && status == Succeeded && baseFileName == BaseNameOf(old(file).value.name)
      ensures old(file).Some? && response.None? ==>
        downloadUrl == old(downloadUrl) && status == Errored && baseFileName == old(baseFileName)
      ensures file == old(file) && quality == old(quality) && fileExtension == old(fileExtension)
    {
      if file.None? {
        return None;
      }
      var f := file.value;
      sent := Some(CompressForm(f, quality));
      isLoading := true;
      status := InProgress;
      match response {
        case Some(url) =>
          baseFileName := BaseNameOf(f.name);
          downloadUrl := Some(url);
          status := Succeeded;
        case None =>
          status := Errored;
      }
      isLoading := false;
    }

    /** `handleReset`: forget the file, the result, the status and the name parts. */
    method HandleReset()
      requires Valid()
      modifies this
      ensures Valid()
      ensures file == None && downloadUrl == None && status == Blank && baseFileName == "" && fileExtension == ""
      ensures isLoading == old(isLoading) && quality == old(quality)
    {
      file := None;
      downloadUrl := None;
      status := Blank;
      baseFileName := "";
      fileExtension := "";
    }

    /** The file-name input's `onChange`. */
    method EditBaseFileName(name: string)
      requires Valid()
      modifies this
      ensures Valid() && baseFileName == name
      ensures file == old(file) && status == old(status) && isLoading == old(isLoading)
      ensures quality == old(quality) && downloadUrl == old(downloadUrl) && fileExtension == old(fileExtension)
    {
      baseFileName := name;
    }

    /** The link's `download` name: the base name and the dropped file's own extension. */
    function DownloadName(): (name: string)
      reads this
      requires Valid()
      ensures file.Some? ==> name == baseFileName + ExtensionOf(file.value.name)
      ensures file.None? ==> name == baseFileName
    {
      baseFileName + fileExtension
    }
  }
}
