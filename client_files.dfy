/** What the React components hold about dropped files and what they show as status. */
module ClientFiles {
  import opened FileNames

  /** A browser `File`, by the two properties the components read. */
  datatype ClientFile = ClientFile(name: string, mimetype: string)

  /**
   * The status line: empty, the in-progress message, the success message or the error
   * message (the Hebrew texts themselves are presentation).
   */
  datatype Status = Blank | InProgress | Succeeded | Errored

  /** The multipart form of a compress request: the `file` part and the `quality` field. */
  datatype CompressForm = CompressForm(file: ClientFile, quality: string)

  /** The quality every compressor starts with. */
  const InitialQuality := "medium"

  /**
   * `compressed-${name.replace(/\.[^/.]+$/, "")}`, the result name of the video and audio
   * compressors: the name without the extension the regular expression matches, if any.
   */
  function CompressedBaseName(name: string): (base: string)
    ensures (exists i :: ExtensionAt(name, i) && base == "compressed-" + name[..i])
         || ((forall i :: !ExtensionAt(name, i)) && base == "compressed-" + name)
  {
    StripExtensionMatchesRegex(name);
    "compressed-" + StripExtension(name)
  }
}
