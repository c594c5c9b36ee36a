/**
 * The `file://` normalisation that the audio adapter applies to local tracks
 * and the file adapter applies before sharing.
 */
module Uris {

  const FileScheme: string := "file://"

  /** `path.startsWith('file://')`. */
  predicate HasFileScheme(path: string) {
    FileScheme <= path
  }

  /** Prefixes `file://` unless the path already starts with it. */
  function FormatFileUri(path: string): (uri: string)
    ensures HasFileScheme(uri)
    ensures HasFileScheme(path) ==> uri == path
    ensures !HasFileScheme(path) ==> |uri| == |FileScheme| + |path| && uri[|FileScheme|..] == path
  {
    if HasFileScheme(path) then path else FileScheme + path
  }

  /** Normalising twice is normalising once. */
  lemma FormatFileUriIdempotent(path: string)
    ensures FormatFileUri(FormatFileUri(path)) == FormatFileUri(path)
  {
  }

  /** A path that does not carry the scheme gets exactly one `file://`. */
  lemma FormatFileUriExample()
    ensures FormatFileUri("/tmp/song.mp3") == "file:///tmp/song.mp3"
    ensures FormatFileUri("file:///a.mp3") == "file:///a.mp3"
  {
    assert "/tmp/song.mp3"[0] != FileScheme[0];
  }
}
