/** The MergePdf component: an ordered list of dropped files sent to the merge route. */
module MergePdfClient {
  import opened Options
  import opened FileNames
  import opened ClientFiles

  /** `s.filter((_, index) => index !== i)`: `s` without its element at `i`, if there is one. */
  function WithoutIndex<T>(s: seq<T>, i: int): (r: seq<T>)
    ensures 0 <= i < |s| ==> r == s[..i] + s[i + 1..]
    ensures !(0 <= i < |s|) ==> r == s
    decreases |s|
  {
    if s == [] then []
    else (if i == 0 then [] else [s[0]]) + WithoutIndex(s[1..], i - 1)
  }

  /** `files.forEach(file => formData.append('files', file))`: the form's parts, in list order. */
  method AppendAll(files: seq<ClientFile>) returns (form: seq<ClientFile>)
    ensures form == files
  {
    form := [];
    var i := 0;
    while i < |files|
      invariant 0 <= i <= |files|
      invariant form == files[..i]
    {
      form := form + [files[i]];
      i := i + 1;
    }
  }

  const DefaultBaseName := "merged-document"

  class MergePdf {
    var files: seq<ClientFile>
    var status: Status
    var isLoading: bool
    var downloadUrl: Option<string>
    var baseFileName: string

    constructor ()
      ensures files == [] && status == Blank && !isLoading && downloadUrl == None && baseFileName == DefaultBaseName
    {
      files := [];
      status := Blank;
      isLoading := false;
      downloadUrl := None;
      baseFileName := DefaultBaseName;
    }

    /** `onDrop`: the dropped files go after those already listed; an empty drop does nothing. */
    method OnDrop(accepted: seq<ClientFile>)
      modifies this
      ensures accepted == [] ==> files == old(files) && status == old(status) && downloadUrl == old(downloadUrl)
      ensures accepted != [] ==> files == old(files) + accepted && status == Blank && downloadUrl == None
      ensures isLoading == old(isLoading) && baseFileName == old(baseFileName)
    {
      if accepted != [] {
        files := files + accepted;
        status := Blank;
        downloadUrl := None;
      }
    }

    /** `removeFile`: the list without the file at `index`. */
    method RemoveFile(index: int)
      modifies this
      ensures files == WithoutIndex(old(files), index)
      ensures status == old(status) && isLoading == old(isLoading)
      ensures downloadUrl == old(downloadUrl) && baseFileName == old(baseFileName)
    {
      files := WithoutIndex(files, index);
    }

    /** The merge button is enabled: not loading, and at least two files listed. */
    predicate CanMerge()
      reads this
      ensures CanMerge() <==> !isLoading && |files| >= 2
      ensures CanMerge() ==> files != []
    {
      !(isLoading || |files| < 2)
    }

    /**
     * `handleMerge`, once the request is over: `response` is the object URL of the merged
     * document, or None when the request failed. Returns the files sent, in order, or None
     * when the list was empty and nothing was sent.
     */
    method HandleMerge(response: Option<string>) returns (sent: Option<seq<ClientFile>>)
      modifies this
      ensures old(files) == [] ==> sent == None && status == old(status) && isLoading == old(isLoading) && downloadUrl == old(downloadUrl)
      ensures old(files) != [] ==> sent == Some(old(files)) && !isLoading
      ensures old(files) != [] && response.Some? ==> downloadUrl == response && status == Succeeded
      ensures old(files) != [] && response.None? ==> downloadUrl == old(downloadUrl) && status == Errored
      ensures files == old(files) && baseFileName == old(baseFileName)
    {
      if files == [] {
        return None;
      }
      var form := AppendAll(files);
      isLoading := true;
      status := InProgress;
      match response {
        case Some(url) =>
          downloadUrl := Some(url);
          status := Succeeded;
        case None =>
          status := Errored;
      }
      isLoading := false;
      sent := Some(form);
    }

    /** `handleReset`: back to the initial list, status, result and name. */
    method HandleReset()
      modifies this
      ensures files == [] && downloadUrl == None && status == Blank && baseFileName == DefaultBaseName
      ensures isLoading == old(isLoading)
    {
      files := [];
      downloadUrl := None;
      status := Blank;
      baseFileName := DefaultBaseName;
    }

    /** The file-name input's `onChange`. */
    method EditBaseFileName(name: string)
      modifies this
      ensures baseFileName == name
      ensures files == old(files) && status == old(status) && isLoading == old(isLoading) && downloadUrl == old(downloadUrl)
    {
      baseFileName := name;
    }

    /** The link's `download` name: the base name with the one extension "pdf". */
    function DownloadName(): (name: string)
      reads this
      ensures StripExtension(name) == baseFileName
      ensures LastSegment(name) == "pdf"
      ensures '.' in name
    {
      StripAddedExtension(baseFileName, "pdf");
      LastSegmentOfAdded(baseFileName, "pdf");
      assert baseFileName + "." + "pdf" == baseFileName + ".pdf";
      assert (baseFileName + ".pdf")[|baseFileName|] == '.';
      baseFileName + ".pdf"
    }
  }
}
