/**
 * The middleware `configureServer` installs: a request for the temporary
 * merged mp3 or webm path is answered from disk or with a 404, anything
 * else goes on to the next handler. Whether a file exists is an input.
 */
module DevServer {
  import opened Paths
  import opened Wrappers
  import opened Config

  datatype Response =
    | Serve(file: string, contentType: string)
    | NotFound(status: nat, body: string)
    | PassThrough

  const Mpeg: string := "audio/mpeg"
  const Webm: string := "audio/webm"

  function Route(url: string, s: Settings, onDisk: string -> bool): (r: Response)
    ensures r.PassThrough? <==> url != MergedPath(s, ".mp3") && url != MergedPath(s, ".webm")
    ensures r.Serve? ==> r.file == url && onDisk(url)
    ensures r.Serve? ==> (r.contentType == Mpeg <==> url == MergedPath(s, ".mp3"))
    ensures r.Serve? ==> (r.contentType == Webm <==> url == MergedPath(s, ".webm"))
    ensures r.NotFound? ==> r == NotFound(404, "File not found") && !onDisk(url)
    ensures !r.PassThrough? ==> (r.Serve? <==> onDisk(url))
  {
    var mp3 := MergedPath(s, ".mp3");
    var webm := MergedPath(s, ".webm");
    WebmIsNotMp3(s);
    if url == mp3 || url == webm then
      var filePath := if EndsWith(url, ".mp3") then mp3 else webm;
      if onDisk(filePath) then
        Serve(filePath, if EndsWith(url, ".mp3") then Mpeg else Webm)
      else NotFound(404, "File not found")
    else PassThrough
  }

  /** The webm path never ends in `.mp3`, so the extension test picks the requested file. */
  lemma {:induction false} WebmIsNotMp3(s: Settings)
    ensures !EndsWith(MergedPath(s, ".webm"), ".mp3")
  {
    var p := MergedPath(s, ".webm");
    assert p[|p| - 4..] == "webm";
  }

  /** With the default settings, a request for the merged mp3 is served as mpeg audio. */
  lemma ExampleServe(onDisk: string -> bool)
    requires onDisk("temp/audio/merged-audio.mp3")
    ensures Route("temp/audio/merged-audio.mp3", Defaults(Options(None, None, None, None, None)), onDisk)
      == Serve("temp/audio/merged-audio.mp3", Mpeg)
  {
    DefaultMergedMp3();
  }
}
