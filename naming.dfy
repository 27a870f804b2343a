/**
 * Where a job reads and writes, and the link it hands back: the source path on the
 * volume shared with the local Bot API server, the per-job output directory, the
 * playlist names and the public link to the master playlist.
 *
 * `path.join` is modelled as joining with '/', without normalisation of `.`, `..` or
 * repeated separators.
 */
module Naming {
  import opened Wrappers
  import opened Text

  /** Where the local Bot API server keeps downloaded files. */
  const LocalApiDir: string := "/var/lib/telegram-bot-api"

  /** The public base address when `PUBLIC_URL` is unset or empty. */
  const DefaultPublicUrl: string := "http://localhost:3000"

  /** The URL prefix under which the output tree is served. */
  const StreamRoute: string := "/stream"

  const MasterPlaylistName: string := "master.m3u8"

  /** The variant playlist name handed to ffmpeg; ffmpeg writes `%v` as the variant index. */
  const VariantPlaylistPattern: string := VariantPrefix + "%v" + VariantSuffix

  const VariantPrefix: string := "stream_"

  const VariantSuffix: string := ".m3u8"

  function JoinPath(dir: string, name: string): string
  {
    dir + "/" + name
  }

  /** The file on the shared volume: `LOCAL_API_DIR/<bot token>/<file_path>`. */
  function SourcePath(token: string, filePath: string): string
  {
    JoinPath(JoinPath(LocalApiDir, token), filePath)
  }

  /** The job's own output directory under the media root. */
  function OutputDir(mediaRoot: string, jobId: string): string
  {
    JoinPath(mediaRoot, jobId)
  }

  /** The target of the ffmpeg invocation: the variant playlist pattern inside the output directory. */
  function PlaylistTarget(outputDir: string): string
  {
    JoinPath(outputDir, VariantPlaylistPattern)
  }

  /** `process.env.PUBLIC_URL || 'http://localhost:3000'`: an unset or empty variable falls back. */
  function PublicUrl(env: Option<string>): (base: string)
    ensures base != ""
    ensures env.Some? && env.value != "" ==> base == env.value
    ensures env.None? || env.value == "" ==> base == DefaultPublicUrl
  {
    if env.Some? && env.value != "" then env.value else DefaultPublicUrl
  }

  /** The link sent to the user: `<base>/stream/<jobId>/master.m3u8`. */
  function ResultLink(base: string, jobId: string): string
  {
    base + StreamRoute + "/" + jobId + "/" + MasterPlaylistName
  }

  /** Reads the job identifier back out of a link built on base, if it is one. */
  function LinkJobId(base: string, link: string): (r: Option<string>)
  {
    var head, tail := base + StreamRoute + "/", "/" + MasterPlaylistName;
    if |link| >= |head| + |tail| && link[..|head|] == head && link[|link| - |tail|..] == tail
    then Some(link[|head|..|link| - |tail|])
    else None
  }

  /** The file the static route serves for a URL: `/stream/<rest>` maps to `<mediaRoot>/<rest>`. */
  function ServedFile(mediaRoot: string, base: string, url: string): Option<string>
  {
    var head := base + StreamRoute + "/";
    if |url| >= |head| && url[..|head|] == head then Some(JoinPath(mediaRoot, url[|head|..])) else None
  }

  /** The name ffmpeg gives the playlist of variant i: the pattern with `%v` replaced by i. */
  function VariantPlaylistName(i: nat): string
  {
    VariantPrefix + ShowNat(i) + VariantSuffix
  }

  // ---------------------------------------------------------------------------

  lemma ResultLinkText(base: string, jobId: string)
    ensures ResultLink(base, jobId) == base + "/stream/" + jobId + "/master.m3u8"
  {
    assert StreamRoute + "/" == "/stream/";
    assert "/" + MasterPlaylistName == "/master.m3u8";
  }

  /** The target handed to `.save` is `stream_%v.m3u8` inside the output directory. */
  lemma PlaylistTargetText(outputDir: string)
    ensures PlaylistTarget(outputDir) == outputDir + "/" + "stream_%v.m3u8"
  {
    assert VariantPlaylistPattern == "stream_%v.m3u8";
  }

  /**
   * The source path lies under the Bot API server's directory and ends in the file path
   * `getFile` returned; the token sits between the two.
   */
  lemma SourcePathLayout(token: string, filePath: string)
    ensures var p := SourcePath(token, filePath);
      && |p| == |LocalApiDir| + |token| + |filePath| + 2
      && p[..|LocalApiDir| + 1] == LocalApiDir + "/"
      && p[|LocalApiDir| + 1 .. |LocalApiDir| + 1 + |token|] == token
      && p[|p| - |filePath| - 1..] == "/" + filePath
  {
    var p := SourcePath(token, filePath);
    assert p == (LocalApiDir + "/") + token + ("/" + filePath);
  }

  /** A link gives back the job identifier it was built from. */
  lemma LinkRoundTrip(base: string, jobId: string)
    ensures LinkJobId(base, ResultLink(base, jobId)) == Some(jobId)
  {
    var link := ResultLink(base, jobId);
    var head, tail := base + StreamRoute + "/", "/" + MasterPlaylistName;
    assert link == head + jobId + tail;
    assert link[..|head|] == head;
    assert link[|link| - |tail|..] == tail;
    assert link[|head|..|link| - |tail|] == jobId;
  }

  /** Different jobs get different links. */
  lemma LinksDistinct(base: string, a: string, b: string)
    requires a != b
    ensures ResultLink(base, a) != ResultLink(base, b)
  {
    LinkRoundTrip(base, a);
    LinkRoundTrip(base, b);
  }

  /** Different jobs get different output directories. */
  lemma OutputDirsDistinct(mediaRoot: string, a: string, b: string)
    requires a != b
    ensures OutputDir(mediaRoot, a) != OutputDir(mediaRoot, b)
  {
    var n := |mediaRoot| + 1;
    assert OutputDir(mediaRoot, a)[n..] == a;
    assert OutputDir(mediaRoot, b)[n..] == b;
  }

  /**
   * The link resolves, through the static route over the media root, to the master
   * playlist inside the job's output directory — the directory ffmpeg writes into.
   */
  lemma LinkServesMasterPlaylist(mediaRoot: string, base: string, jobId: string)
    ensures ServedFile(mediaRoot, base, ResultLink(base, jobId))
         == Some(JoinPath(OutputDir(mediaRoot, jobId), MasterPlaylistName))
  {
    var head := base + StreamRoute + "/";
    var link := ResultLink(base, jobId);
    assert link == head + (jobId + "/" + MasterPlaylistName);
    assert link[..|head|] == head;
    assert link[|head|..] == jobId + "/" + MasterPlaylistName;
    assert JoinPath(mediaRoot, jobId + "/" + MasterPlaylistName)
        == JoinPath(OutputDir(mediaRoot, jobId), MasterPlaylistName);
  }

  /** One playlist per variant: their names differ from each other and from the master playlist. */
  lemma VariantPlaylistNamesDistinct(i: nat, j: nat)
    ensures VariantPlaylistName(i) == VariantPlaylistName(j) <==> i == j
    ensures VariantPlaylistName(i) != MasterPlaylistName
  {
    var si, sj := ShowNat(i), ShowNat(j);
    if VariantPlaylistName(i) == VariantPlaylistName(j) {
      assert |si| == |sj|;
      assert VariantPlaylistName(i)[7..7 + |si|] == si;
      assert VariantPlaylistName(j)[7..7 + |sj|] == sj;
      ShowNatInjective(i, j);
    }
    assert VariantPlaylistName(i)[0] == 's' && MasterPlaylistName[0] == 'm';
  }
}
