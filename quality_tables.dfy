/**
 * The per-tool tables that turn the `quality` form field into the native setting of the
 * external tool. Every route first reads the field as `req.body.quality || 'medium'`,
 * then compares the result with "small", "medium" or "large".
 */
module QualityTables {
  import opened Options

  /** `req.body.quality || 'medium'`: a missing or empty field reads as "medium". */
  function EffectiveQuality(field: Option<string>): (q: string)
    ensures q != ""
    ensures field.Some? && field.value != "" ==> q == field.value
    ensures field == None || field == Some("") ==> q == "medium"
  {
    if field.Some? && field.value != "" then field.value else "medium"
  }

  /** The Ghostscript `-dPDFSETTINGS` profile of the PDF compressor. */
  function GhostscriptProfile(quality: string): (profile: string)
    ensures profile == "/screen" <==> quality == "small"
    ensures profile == "/printer" <==> quality == "large"
    ensures profile == "/ebook" <==> quality != "small" && quality != "large"
  {
    if quality == "small" then "/screen"
    else if quality == "large" then "/printer"
    else "/ebook"
  }

  /** The MP3 bitrate, in kbit/s, of the MP4-to-MP3 extractor. */
  function ExtractedMp3Kbps(quality: string): (kbps: nat)
    ensures kbps == 96 <==> quality == "small"
    ensures kbps == 320 <==> quality == "large"
    ensures kbps == 192 <==> quality != "small" && quality != "large"
  {
    if quality == "small" then 96
    else if quality == "large" then 320
    else 192
  }

  /** The codec quality (0 to 100) for JPEG, PNG and WebP images. */
  function ImageCodecQuality(quality: string): (percent: nat)
    ensures percent <= 100
    ensures percent == 50 <==> quality == "small"
    ensures percent == 95 <==> quality == "large"
    ensures percent == 80 <==> quality != "small" && quality != "large"
  {
    if quality == "small" then 50
    else if quality == "large" then 95
    else 80
  }

  /**
   * The palette size for GIF images. Unlike every other table, this one tests for
   * "medium" and "small" and gives the large value to anything else.
   */
  function GifColors(quality: string): (colors: nat)
    ensures colors <= 256
    ensures colors == 64 <==> quality == "small"
    ensures colors == 128 <==> quality == "medium"
    ensures colors == 256 <==> quality != "small" && quality != "medium"
  {
    if quality == "small" then 64
    else if quality == "medium" then 128
    else 256
  }

  /** The x264 constant rate factor of the video compressor (lower is better quality). */
  function VideoCrf(quality: string): (crf: nat)
    ensures crf == 28 <==> quality == "small"
    ensures crf == 18 <==> quality == "large"
    ensures crf == 23 <==> quality != "small" && quality != "large"
  {
    if quality == "small" then 28
    else if quality == "large" then 18
    else 23
  }

  /** The MP3 bitrate, in kbit/s, of the audio compressor. */
  function AudioKbps(quality: string): (kbps: nat)
    ensures kbps == 64 <==> quality == "small"
    ensures kbps == 192 <==> quality == "large"
    ensures kbps == 128 <==> quality != "small" && quality != "large"
  {
    if quality == "small" then 64
    else if quality == "large" then 192
    else 128
  }

  /**
   * From "small" to "large" every table moves towards quality: bitrates, codec quality
   * and palette size strictly rise, the constant rate factor strictly falls.
   */
  lemma TiersAreOrdered()
    ensures ExtractedMp3Kbps("small") < ExtractedMp3Kbps("medium") < ExtractedMp3Kbps("large")
    ensures ImageCodecQuality("small") < ImageCodecQuality("medium") < ImageCodecQuality("large")
    ensures GifColors("small") < GifColors("medium") < GifColors("large")
    ensures VideoCrf("small") > VideoCrf("medium") > VideoCrf("large")
    ensures AudioKbps("small") < AudioKbps("medium") < AudioKbps("large")
  {
  }

  /** A missing or empty field gets every table's medium value, the GIF table's included. */
  lemma MissingFieldIsMedium(field: Option<string>)
    requires field == None || field == Some("")
    ensures GhostscriptProfile(EffectiveQuality(field)) == "/ebook"
    ensures ExtractedMp3Kbps(EffectiveQuality(field)) == 192
    ensures ImageCodecQuality(EffectiveQuality(field)) == 80
    ensures GifColors(EffectiveQuality(field)) == 128
    ensures VideoCrf(EffectiveQuality(field)) == 23
    ensures AudioKbps(EffectiveQuality(field)) == 128
  {
  }

  /**
   * An unrecognised, non-empty value gets the medium value from every table except the
   * GIF table, which gives it the large value.
   */
  lemma UnknownValueSplitsGifFromTheRest(field: Option<string>)
    requires field.Some? && field.value !in {"", "small", "medium", "large"}
    ensures GhostscriptProfile(EffectiveQuality(field)) == GhostscriptProfile("medium")
    ensures ExtractedMp3Kbps(EffectiveQuality(field)) == ExtractedMp3Kbps("medium")
    ensures ImageCodecQuality(EffectiveQuality(field)) == ImageCodecQuality("medium")
    ensures VideoCrf(EffectiveQuality(field)) == VideoCrf("medium")
    ensures AudioKbps(EffectiveQuality(field)) == AudioKbps("medium")
    ensures GifColors(EffectiveQuality(field)) == GifColors("large") != GifColors("medium")
  {
  }
}
