/** The downloader's stateful steps: the HTTP requests it makes, the DRM
    session it opens and closes, the temporary encrypted file it fills and
    removes, the ffmpeg runs, and the command's decision procedure from the
    song page to an exit status. */
module Pipeline {
  import opened Common
  import opened Text
  import opened Http
  import opened Naming
  import opened Manifest
  import opened Keys
  import opened Assembly

  const LicenseUrl := "https://stream.udio.com/drm/license?type=widevine"

  /** How the license exchange through the Widevine library ends. */
  datatype LicenseOutcome =
    | LoadFailed                      // loading the device file failed: no session was opened
    | ChallengeFailed                 // reading the PSSH or building the challenge raised
    | ExchangeFailed                  // the license POST, its status check or parse_license raised
    | Granted(keys: seq<LicenseKey>)  // the keys of the parsed license, in library order

  /** One ffmpeg run: the key, the encrypted bytes and the output file name. */
  datatype Decryption = Decryption(key: string, input: seq<byte>, dest: string)

  /** What the page scraper returns for a song. */
  datatype TrackInfo = TrackInfo(id: string, title: string, artist: string, songPath: string)

  /** The deliberate exits with status 1. */
  datatype ExitReason =
    | SunoFailed                                       // a Suno song without a direct file
    | NoSongId                                         // no usable song id for the stream
    | DeviceFileMissing(path: string)                  // the device file does not exist
    | NoPssh                                           // the manifest carries no PSSH
    | KeyRequired(keyId: string, pssh: Option<string>) // neither a key nor a device file

  datatype RunOutcome =
    | SavedMp3(name: string)
    | SavedM4a(name: string)
    | Exited(reason: ExitReason)
    | Crashed(error: Error)

  /** The ways the stream half of the command stops before ffmpeg is
      reached: an exception, or one of the three exits of key acquisition. */
  predicate StopsBeforeDownload(o: RunOutcome)
  {
    || o.Crashed?
    || (o.Exited? && (o.reason.KeyRequired? || o.reason.DeviceFileMissing? || o.reason.NoPssh?))
  }

  datatype Outcome = Pass | Fail(error: Error)

  /** Where choosing the key leaves the command: a key to use, or the
      outcome it stops with. */
  datatype KeyStep = Given(keyHex: string) | Halt(outcome: RunOutcome)

  /** The process exit status: 0 only when a file was saved. */
  function ExitCode(o: RunOutcome): (code: int)
    ensures code == 0 <==> o.SavedMp3? || o.SavedM4a?
    ensures code == 0 || code == 1
  {
    match o
    case SavedMp3(_) => 0
    case SavedM4a(_) => 0
    case _ => 1
  }

  /** The song record the command works from: the page reply must pass its
      status check, and the scraper for the URL's platform must find a
      record in the page text. */
  function PageInfo(server: string -> Response, scrape: (Platform, string, string) -> Option<TrackInfo>,
                    url: string): (r: Result<TrackInfo>)
    ensures r.Success? <==> Succeeded(server(url)) && scrape(DetectPlatform(url), server(url).text, url).Some?
    ensures r.Success? ==> r.value == scrape(DetectPlatform(url), server(url).text, url).value
    ensures r.Failure? ==> r.error == MetadataNotFound || r.error.HttpStatus? || r.error.ConnectionFailed?
    ensures !Succeeded(server(url)) ==> r == Failure(RaiseForStatus(url, server(url)).value)
    ensures Succeeded(server(url)) && scrape(DetectPlatform(url), server(url).text, url).None? ==>
      r == Failure(MetadataNotFound)
  {
    match RaiseForStatus(url, server(url))
    case Some(e) => Failure(e)
    case None =>
      match scrape(DetectPlatform(url), server(url).text, url)
      case None => Failure(MetadataNotFound)
      case Some(info) => Success(info)
  }

  /** Whether the direct download of the song's audio file saves it. */
  predicate DirectSaves(server: string -> Response, info: TrackInfo)
  {
    TryDownloadMp3(info.songPath, server(info.songPath)) == Saved
  }

  /** fetch_stream_segments as a function of the server: the status check
      of the manifest reply, then the playlist reading. */
  function ManifestFetch(server: string -> Response, songId: string): (r: Result<StreamManifest>)
    ensures r.Failure? ==> r.error.NoSegments? || r.error.HttpStatus? || r.error.ConnectionFailed?
    ensures r.Success? ==> r.value.segmentUris != []
    ensures !Succeeded(server(ManifestUrl(songId))) ==>
      r == Failure(RaiseForStatus(ManifestUrl(songId), server(ManifestUrl(songId))).value)
    ensures Succeeded(server(ManifestUrl(songId))) ==> r == ParseManifest(songId, server(ManifestUrl(songId)).text)
  {
    var url := ManifestUrl(songId);
    match RaiseForStatus(url, server(url))
    case Some(e) => Failure(e)
    case None => ParseManifest(songId, server(url).text)
  }

  function ResolveAll(uris: seq<string>): (r: seq<string>)
    ensures |r| == |uris|
  {
    seq(|uris|, i requires 0 <= i < |uris| => ResolveStreamUri(uris[i]))
  }

  /** The replies to GETs of the given URLs. */
  function Replies(server: string -> Response, urls: seq<string>): (r: seq<Response>)
    ensures |r| == |urls|
  {
    seq(|urls|, i requires 0 <= i < |urls| => server(urls[i]))
  }

  function Bodies(rs: seq<Response>): (r: seq<seq<byte>>)
    ensures |r| == |rs|
  {
    seq(|rs|, i requires 0 <= i < |rs| => if rs[i].Reply? then rs[i].content else [])
  }

  /** The encrypted container for a manifest, when every fetch goes through:
      the init reply is read without a status check, each segment reply must
      pass it. */
  function EncryptedStream(server: string -> Response, m: StreamManifest): (r: Option<seq<byte>>)
    ensures r.Some? <==> server(ResolveStreamUri(m.initUri)).Reply? && FirstFailure(server, ResolveAll(m.segmentUris)).None?
  {
    var init := server(ResolveStreamUri(m.initUri));
    var rs := Replies(server, ResolveAll(m.segmentUris));
    assert forall j :: 0 <= j < |rs| ==> rs[j] == server(ResolveAll(m.segmentUris)[j]);
    if init.Reply? && forall i :: 0 <= i < |rs| ==> Succeeded(rs[i])
    then Some(Assembled(init.content, Bodies(rs)))
    else None
  }

  /** One more successful segment adds its URL to the requests and its body
      to the file. */
  lemma SegmentStep(server: string -> Response, urls: seq<string>, i: nat)
    requires i < |urls|
    ensures urls[..i + 1] == urls[..i] + [urls[i]]
    ensures Flatten(Bodies(Replies(server, urls))[..i + 1])
         == Flatten(Bodies(Replies(server, urls))[..i]) + Bodies(Replies(server, urls))[i]
  {
    FlattenSnoc(Bodies(Replies(server, urls)), i);
  }

  /** The container of a manifest whose init reply arrived and whose
      segment replies all passed their status check. */
  lemma EncryptedStreamOf(server: string -> Response, m: StreamManifest, init: Response)
    requires init == server(ResolveStreamUri(m.initUri)) && init.Reply?
    requires forall j :: 0 <= j < |m.segmentUris| ==> Succeeded(Replies(server, ResolveAll(m.segmentUris))[j])
    ensures EncryptedStream(server, m) == Some(init.content + Flatten(Bodies(Replies(server, ResolveAll(m.segmentUris)))))
  {
  }

  /** In the container handed to ffmpeg, the init body comes first and the
      body of media segment k sits, whole, right after the bodies of the
      segments before it. */
  lemma EncryptedStreamLayout(server: string -> Response, m: StreamManifest, k: nat)
    requires EncryptedStream(server, m).Some? && k < |m.segmentUris|
    ensures var init := server(ResolveStreamUri(m.initUri)).content;
            var bodies := Bodies(Replies(server, ResolveAll(m.segmentUris)));
            var c := EncryptedStream(server, m).value;
            && |c| == |init| + TotalLength(bodies)
            && c[..|init|] == init
            && Offset(init, bodies, k) + |bodies[k]| <= |c|
            && c[Offset(init, bodies, k)..Offset(init, bodies, k) + |bodies[k]|]
               == server(ResolveStreamUri(m.segmentUris[k])).content
  {
    var init := server(ResolveStreamUri(m.initUri)).content;
    var bodies := Bodies(Replies(server, ResolveAll(m.segmentUris)));
    AssembledLength(init, bodies);
    AssembledStartsWithInit(init, bodies);
    SegmentAtOffset(init, bodies, k);
  }

  /** The exception of the first URL, in order, whose reply fails its
      status check. */
  function FirstFailure(server: string -> Response, urls: seq<string>): (e: Option<Error>)
    ensures e.None? <==> forall j {:trigger Succeeded(server(urls[j]))} :: 0 <= j < |urls| ==> Succeeded(server(urls[j]))
    ensures e.Some? ==> e.value.HttpStatus? || e.value.ConnectionFailed?
  {
    if urls == [] then None
    else match RaiseForStatus(urls[0], server(urls[0]))
      case Some(err) => Some(err)
      case None =>
        var rest := FirstFailure(server, urls[1..]);
        assert forall j :: 1 <= j < |urls| ==> urls[j] == urls[1..][j - 1];
        rest
  }

  /** When the replies before URL i pass and the one of URL i does not, URL
      i's exception is the one reported. */
  lemma {:induction false} FirstFailureAt(server: string -> Response, urls: seq<string>, i: nat)
    requires i < |urls| && !Succeeded(server(urls[i]))
    requires forall j :: 0 <= j < i ==> Succeeded(server(urls[j]))
    ensures FirstFailure(server, urls) == RaiseForStatus(urls[i], server(urls[i]))
  {
    if i > 0 {
      assert urls[1..][i - 1] == urls[i];
      FirstFailureAt(server, urls[1..], i - 1);
    }
  }

  /** How filling the temporary file for a manifest ends: a connection
      failure on the init segment, the first segment exception, or success
      exactly when the container can be assembled. */
  function FetchResult(server: string -> Response, m: StreamManifest): (r: Outcome)
    ensures r.Pass? <==> EncryptedStream(server, m).Some?
    ensures r.Fail? ==> r.error.HttpStatus? || r.error.ConnectionFailed?
    ensures server(ResolveStreamUri(m.initUri)).NoReply? ==> r == Fail(ConnectionFailed(ResolveStreamUri(m.initUri)))
    ensures server(ResolveStreamUri(m.initUri)).Reply? && r.Fail? ==> Some(r.error) == FirstFailure(server, ResolveAll(m.segmentUris))
  {
    var initUrl := ResolveStreamUri(m.initUri);
    var urls := ResolveAll(m.segmentUris);
    assert forall j :: 0 <= j < |urls| ==> Replies(server, urls)[j] == server(urls[j]);
    if server(initUrl).NoReply? then Fail(ConnectionFailed(initUrl))
    else match FirstFailure(server, urls)
      case Some(e) => Fail(e)
      case None => Pass
  }

  /** The position of the first URL whose reply fails its status check, or
      the number of URLs when every reply passes. */
  function FailIndex(server: string -> Response, urls: seq<string>): (i: nat)
    ensures i <= |urls|
    ensures forall j {:trigger Succeeded(server(urls[j]))} :: 0 <= j < i ==> Succeeded(server(urls[j]))
    ensures i < |urls| ==> !Succeeded(server(urls[i]))
  {
    if urls == [] || !Succeeded(server(urls[0])) then 0
    else
      var k := FailIndex(server, urls[1..]);
      assert forall j :: 1 <= j < |urls| ==> urls[j] == urls[1..][j - 1];
      1 + k
  }

  /** The segment URLs the media-segment loop requests: all of them, or
      those up to and including the first that fails. */
  function FetchedUrls(server: string -> Response, urls: seq<string>): (r: seq<string>)
    ensures IsPrefix(r, urls)
    ensures FirstFailure(server, urls).None? ==> r == urls
    ensures FirstFailure(server, urls).Some? ==>
      && r != []
      && (forall j {:trigger Succeeded(server(r[j]))} :: 0 <= j < |r| - 1 ==> Succeeded(server(r[j])))
      && RaiseForStatus(r[|r| - 1], server(r[|r| - 1])) == FirstFailure(server, urls)
  {
    var i := FailIndex(server, urls);
    if i < |urls| then
      FirstFailureAt(server, urls, i);
      urls[..i + 1]
    else urls
  }

  /** The segment bodies the loop writes: those before the first failing
      reply. */
  function FetchedBodies(server: string -> Response, urls: seq<string>): (r: seq<byte>)
    ensures FirstFailure(server, urls).None? ==> r == Flatten(Bodies(Replies(server, urls)))
  {
    var i := FailIndex(server, urls);
    assert i == |urls| ==> Bodies(Replies(server, urls))[..i] == Bodies(Replies(server, urls));
    Flatten(Bodies(Replies(server, urls))[..i])
  }

  /** Every request of the temporary-file block, in order: the init URL,
      then the segment URLs the loop reaches. The last one is the request
      that failed, when one did. */
  function FetchRequests(server: string -> Response, m: StreamManifest): (r: seq<string>)
    ensures r != [] && r[0] == ResolveStreamUri(m.initUri)
    ensures FetchResult(server, m).Pass? ==> r == [ResolveStreamUri(m.initUri)] + ResolveAll(m.segmentUris)
    ensures FetchResult(server, m).Fail? ==> RaiseForStatus(r[|r| - 1], server(r[|r| - 1])) == Some(FetchResult(server, m).error)
  {
    var initUrl := ResolveStreamUri(m.initUri);
    if server(initUrl).NoReply? then [initUrl]
    else
      var fetched := FetchedUrls(server, ResolveAll(m.segmentUris));
      assert FetchResult(server, m).Pass? <==> FirstFailure(server, ResolveAll(m.segmentUris)).None?;
      [initUrl] + fetched
  }

  /** What the temporary file holds when the block ends: the init body and
      the segment bodies written before a failure, or the whole container. */
  function PartialFile(server: string -> Response, m: StreamManifest): (f: seq<byte>)
    ensures EncryptedStream(server, m).Some? ==> f == EncryptedStream(server, m).value
    ensures server(ResolveStreamUri(m.initUri)).Reply? ==> IsPrefix(server(ResolveStreamUri(m.initUri)).content, f)
  {
    var init := server(ResolveStreamUri(m.initUri));
    if init.NoReply? then []
    else
      var urls := ResolveAll(m.segmentUris);
      var rest := FetchedBodies(server, urls);
      PrefixOfAppend(init.content, rest);
      assert forall j :: 0 <= j < |urls| ==> Replies(server, urls)[j] == server(urls[j]);
      if EncryptedStream(server, m).Some? then
        EncryptedStreamOf(server, m, init);
        init.content + rest
      else
      init.content + rest
  }

  /** What a step does to the world besides its result: the requests it
      makes, in order, and the DRM sessions it opens and closes. */
  datatype Effects = Effects(requests: seq<string>, opens: nat, closes: nat)

  const NoEffects := Effects([], 0, 0)

  /** The world the downloader runs in, and what it has done to it. The
      constant fields stand for what the program cannot see: the reply the
      servers give to each URL, which files exist, what the device-file
      search finds, how the license exchange for a device and a PSSH ends,
      and the exit status of ffmpeg. */
  class Host {
    const server: string -> Response
    const fileExists: string -> bool
    const foundDevice: Option<string>
    const license: (string, string) -> LicenseOutcome
    const ffmpegExit: int

    /** Every HTTP request made, in order. */
    var requests: seq<string>
    /** DRM sessions opened and closed. */
    var sessionsOpened: nat
    var sessionsClosed: nat
    /** The temporary encrypted file: whether it is on disk, and its bytes. */
    var tempExists: bool
    var temp: seq<byte>
    /** Every ffmpeg run, in order. */
    var decryptions: seq<Decryption>

    constructor (server: string -> Response, fileExists: string -> bool, foundDevice: Option<string>,
                 license: (string, string) -> LicenseOutcome, ffmpegExit: int)
      ensures this.server == server && this.fileExists == fileExists && this.foundDevice == foundDevice
      ensures this.license == license && this.ffmpegExit == ffmpegExit
      ensures requests == [] && sessionsOpened == 0 && sessionsClosed == 0
      ensures !tempExists && temp == [] && decryptions == []
    {
      this.server := server;
      this.fileExists := fileExists;
      this.foundDevice := foundDevice;
      this.license := license;
      this.ffmpegExit := ffmpegExit;
      requests := [];
      sessionsOpened, sessionsClosed := 0, 0;
      tempExists, temp := false, [];
      decryptions := [];
    }

    /** The key the licence exchange of a device file hands over, or the
        exception it ends in. */
    function LicenseKeyStep(devicePath: string, pssh: string, keyId: string): (k: KeyStep)
      ensures k.Given? <==> license(devicePath, pssh).Granted? && SelectKey(license(devicePath, pssh).keys, keyId).Success?
      ensures k.Given? ==> k.keyHex == SelectKey(license(devicePath, pssh).keys, keyId).value
      ensures license(devicePath, pssh).LoadFailed? ==> k == Halt(Crashed(DeviceLoadFailed))
      ensures license(devicePath, pssh).ChallengeFailed? || license(devicePath, pssh).ExchangeFailed? ==>
        k == Halt(Crashed(LicenseExchangeFailed))
      ensures license(devicePath, pssh).Granted? && k.Halt? ==> k == Halt(Crashed(NoContentKey))
    {
      match license(devicePath, pssh)
      case LoadFailed => Halt(Crashed(DeviceLoadFailed))
      case ChallengeFailed => Halt(Crashed(LicenseExchangeFailed))
      case ExchangeFailed => Halt(Crashed(LicenseExchangeFailed))
      case Granted(keys) =>
        match SelectKey(keys, keyId)
        case Success(h) => Given(h)
        case Failure(e) => Halt(Crashed(e))
    }

    /** The device branch of the key choice for a read manifest: the device
        file named by --cdm, else the one the search found; without either,
        the manual-key hint; a missing file or a manifest without PSSH ends
        the run; otherwise the licence exchange decides. */
    function DeviceKey(m: StreamManifest, cdmArg: string): (k: KeyStep)
      ensures k.Halt? ==> StopsBeforeDownload(k.outcome)
      ensures k == Halt(Exited(KeyRequired(m.keyId, m.pssh))) <==> cdmArg == "" && foundDevice.None?
      ensures cdmArg != "" && !fileExists(cdmArg) ==> k == Halt(Exited(DeviceFileMissing(cdmArg)))
      ensures cdmArg == "" && foundDevice.Some? && !fileExists(foundDevice.value) ==>
        k == Halt(Exited(DeviceFileMissing(foundDevice.value)))
      ensures k == Halt(Exited(NoPssh)) <==>
        var path := if cdmArg != "" then Some(cdmArg) else foundDevice;
        path.Some? && fileExists(path.value) && m.pssh.None?
      ensures var path := if cdmArg != "" then Some(cdmArg) else foundDevice;
        path.Some? && fileExists(path.value) && m.pssh.Some? ==> k == LicenseKeyStep(path.value, m.pssh.value, m.keyId)
      ensures k.Halt? && k.outcome.Exited? && k.outcome.reason.KeyRequired? ==> cdmArg == "" && foundDevice.None?
    {
      var path := if cdmArg != "" then Some(cdmArg) else foundDevice;
      if path.None? then Halt(Exited(KeyRequired(m.keyId, m.pssh)))
      else if !fileExists(path.value) then Halt(Exited(DeviceFileMissing(path.value)))
      else if m.pssh.None? then Halt(Exited(NoPssh))
      else LicenseKeyStep(path.value, m.pssh.value, m.keyId)
    }

    /** The key choice of the command: --key as it is; otherwise the manifest
        is read (its failure ends the run) and the device branch decides. */
    function ChosenKey(songId: string, keyArg: string, cdmArg: string): (k: KeyStep)
      ensures keyArg != "" ==> k == Given(keyArg)
      ensures k.Halt? ==> StopsBeforeDownload(k.outcome)
      ensures keyArg == "" && ManifestFetch(server, songId).Failure? ==>
        k == Halt(Crashed(ManifestFetch(server, songId).error))
      ensures keyArg == "" && ManifestFetch(server, songId).Success? ==>
        k == DeviceKey(ManifestFetch(server, songId).value, cdmArg)
      ensures k.Halt? && k.outcome.Exited? && k.outcome.reason.KeyRequired? ==> keyArg == "" && cdmArg == "" && foundDevice.None?
    {
      if keyArg != "" then Given(keyArg)
      else match ManifestFetch(server, songId)
        case Failure(e) => Halt(Crashed(e))
        case Success(m) => DeviceKey(m, cdmArg)
    }

    /** download_drm_stream succeeds with a key exactly when the key has the
        right form, the manifest is read, every fetch goes through and ffmpeg
        exits with 0. */
    predicate DownloadSaves(songId: string, keyHex: string)
    {
      && ValidateKey(keyHex).Success?
      && ManifestFetch(server, songId).Success?
      && EncryptedStream(server, ManifestFetch(server, songId).value).Some?
      && ffmpegExit == 0
    }

    /** The stream half of the command saves the song. */
    predicate StreamSaves(songId: string, keyArg: string, cdmArg: string)
    {
      ChosenKey(songId, keyArg, cdmArg).Given? && DownloadSaves(songId, ChosenKey(songId, keyArg, cdmArg).keyHex)
    }

    /** The command reaches the stream half: the page is read, the direct
        download does not save the file, the song is not on Suno and it has
        a usable id. */
    predicate FallsBack(scrape: (Platform, string, string) -> Option<TrackInfo>, url: string)
    {
      && PageInfo(server, scrape, url).Success?
      && !DirectSaves(server, PageInfo(server, scrape, url).value)
      && DetectPlatform(url) == Other
      && PageInfo(server, scrape, url).value.id != ""
      && PageInfo(server, scrape, url).value.id != "Unknown"
    }

    /** How download_drm_stream ends for a key: InvalidKeyFormat, the
        manifest's exception, the first fetch exception, ffmpeg's failure, or
        success. */
    function DownloadOutcome(songId: string, keyHex: string): (r: Outcome)
      ensures r.Pass? <==> DownloadSaves(songId, keyHex)
      ensures r == Fail(InvalidKeyFormat) <==> ValidateKey(keyHex).Failure?
      ensures ValidateKey(keyHex).Success? && ManifestFetch(server, songId).Failure? ==>
        r == Fail(ManifestFetch(server, songId).error)
      ensures r.Fail? && r.error.DecryptionFailed? ==> r.error.code == ffmpegExit != 0
      ensures ValidateKey(keyHex).Success? && ManifestFetch(server, songId).Success? ==>
        var m := ManifestFetch(server, songId).value;
        && (FetchResult(server, m).Fail? ==> r == FetchResult(server, m))
        && (EncryptedStream(server, m).Some? && ffmpegExit != 0 ==> r == Fail(DecryptionFailed(ffmpegExit)))
    {
      match ValidateKey(keyHex)
      case Failure(e) => Fail(e)
      case Success(_) =>
        match ManifestFetch(server, songId)
        case Failure(e) => Fail(e)
        case Success(m) =>
          match FetchResult(server, m)
          case Fail(e) => Fail(e)
          case Pass => if ffmpegExit == 0 then Pass else Fail(DecryptionFailed(ffmpegExit))
    }

    /** How the stream half of the command ends: where the key choice halts,
        with its outcome; otherwise the download with that key decides, and
        a saved stream carries the given file name. */
    function StreamOutcome(songId: string, keyArg: string, cdmArg: string, name: string): (o: RunOutcome)
      ensures o.SavedM4a? <==> StreamSaves(songId, keyArg, cdmArg)
      ensures o.SavedM4a? ==> o.name == name
      ensures o.SavedM4a? || StopsBeforeDownload(o)
      ensures ChosenKey(songId, keyArg, cdmArg).Halt? ==> o == ChosenKey(songId, keyArg, cdmArg).outcome
      ensures ChosenKey(songId, keyArg, cdmArg).Given? && ValidateKey(ChosenKey(songId, keyArg, cdmArg).keyHex).Failure? ==>
        o == Crashed(InvalidKeyFormat)
      ensures o.Exited? && o.reason.KeyRequired? ==> keyArg == "" && cdmArg == "" && foundDevice.None?
      ensures ChosenKey(songId, keyArg, cdmArg).Given? &&
              DownloadOutcome(songId, ChosenKey(songId, keyArg, cdmArg).keyHex).Fail? ==>
        o == Crashed(DownloadOutcome(songId, ChosenKey(songId, keyArg, cdmArg).keyHex).error)
    {
      match ChosenKey(songId, keyArg, cdmArg)
      case Halt(out) => out
      case Given(h) =>
        match DownloadOutcome(songId, h)
        case Pass => SavedM4a(name)
        case Fail(e) => Crashed(e)
    }

    /** How the whole command ends for a song URL. */
    function MainOutcome(url: string, scrape: (Platform, string, string) -> Option<TrackInfo>,
                         keyArg: string, cdmArg: string): (o: RunOutcome)
      // a page that cannot be read or scraped ends the run with its exception
      ensures PageInfo(server, scrape, url).Failure? ==> o == Crashed(PageInfo(server, scrape, url).error)
      // the direct file is saved exactly when its download succeeds, under the ".mp3" name
      ensures o.SavedMp3? <==> PageInfo(server, scrape, url).Success? && DirectSaves(server, PageInfo(server, scrape, url).value)
      ensures o.SavedMp3? ==>
        var info := PageInfo(server, scrape, url).value;
        o.name == SafeFilename(info.artist, info.title, "mp3")
      // a Suno song without a direct file fails, and only a Suno song does
      ensures DetectPlatform(url) == Suno ==> o.SavedMp3? || o.Crashed? || o == Exited(SunoFailed)
      ensures o == Exited(SunoFailed) <==>
        && PageInfo(server, scrape, url).Success? && !DirectSaves(server, PageInfo(server, scrape, url).value)
        && DetectPlatform(url) == Suno
      // without a direct file, a song without a usable id stops before the stream
      ensures o == Exited(NoSongId) <==>
        && PageInfo(server, scrape, url).Success? && !DirectSaves(server, PageInfo(server, scrape, url).value)
        && DetectPlatform(url) == Other
        && (PageInfo(server, scrape, url).value.id == "" || PageInfo(server, scrape, url).value.id == "Unknown")
      // otherwise the stream half decides
      ensures FallsBack(scrape, url) ==>
        var info := PageInfo(server, scrape, url).value;
        o == StreamOutcome(info.id, keyArg, cdmArg, SafeFilename(info.artist, info.title, "m4a"))
      ensures o.SavedM4a? <==> FallsBack(scrape, url) && StreamSaves(PageInfo(server, scrape, url).value.id, keyArg, cdmArg)
      // the manual-key hint is shown only when there is neither a key nor a device file
      ensures o.Exited? && o.reason.KeyRequired? ==> keyArg == "" && cdmArg == "" && foundDevice.None?
    {
      match PageInfo(server, scrape, url)
      case Failure(e) => Crashed(e)
      case Success(info) =>
        if DirectSaves(server, info) then SavedMp3(SafeFilename(info.artist, info.title, "mp3"))
        else if DetectPlatform(url) == Suno then Exited(SunoFailed)
        else if info.id == "" || info.id == "Unknown" then Exited(NoSongId)
        else StreamOutcome(info.id, keyArg, cdmArg, SafeFilename(info.artist, info.title, "m4a"))
    }

    /** The requests and sessions of obtain_content_key: loading the device
        opens nothing; a failed challenge leaves the session open before the
        POST; a failed exchange leaves it open after the POST; a granted
        licence is closed once. */
    function LicenseEffects(path: string, pssh: string): (e: Effects)
      ensures e.closes <= e.opens <= 1
      ensures e.opens == 0 ==> e.requests == []
      ensures e.requests == [] || e.requests == [LicenseUrl]
      ensures e.closes == 1 <==> license(path, pssh).Granted?
      ensures e.opens == 1 && e.closes == 0 <==> license(path, pssh).ChallengeFailed? || license(path, pssh).ExchangeFailed?
    {
      match license(path, pssh)
      case LoadFailed => NoEffects
      case ChallengeFailed => Effects([], 1, 0)
      case ExchangeFailed => Effects([LicenseUrl], 1, 0)
      case Granted(_) => Effects([LicenseUrl], 1, 1)
    }

    /** The requests and sessions of the device branch: its exits come
        before any session or request; otherwise those of the licence
        exchange. */
    function DeviceEffects(m: StreamManifest, cdmArg: string): (e: Effects)
      ensures DeviceKey(m, cdmArg).Halt? && DeviceKey(m, cdmArg).outcome.Exited? ==> e == NoEffects
      ensures DeviceKey(m, cdmArg).Given? ==> e == Effects([LicenseUrl], 1, 1)
      ensures e.closes <= e.opens <= 1
      ensures e.opens == 1 && e.closes == 0 ==> DeviceKey(m, cdmArg) == Halt(Crashed(LicenseExchangeFailed))
    {
      var path := if cdmArg != "" then Some(cdmArg) else foundDevice;
      if path.None? || !fileExists(path.value) || m.pssh.None? then NoEffects
      else LicenseEffects(path.value, m.pssh.value)
    }

    /** The requests and sessions of the key choice: none for --key;
        otherwise the manifest request, then those of the device branch. */
    function KeyEffects(songId: string, keyArg: string, cdmArg: string): (e: Effects)
      ensures keyArg != "" ==> e == NoEffects
      ensures keyArg == "" ==> e.requests != [] && e.requests[0] == ManifestUrl(songId)
      ensures e.closes <= e.opens <= 1
      ensures keyArg == "" && ChosenKey(songId, keyArg, cdmArg).Given? ==> e == Effects([ManifestUrl(songId), LicenseUrl], 1, 1)
      ensures e.opens == 1 && e.closes == 0 ==> ChosenKey(songId, keyArg, cdmArg) == Halt(Crashed(LicenseExchangeFailed))
      // the exits of the device branch come after the manifest and before any session
      ensures ChosenKey(songId, keyArg, cdmArg).Halt? && ChosenKey(songId, keyArg, cdmArg).outcome.Exited? ==>
        e == Effects([ManifestUrl(songId)], 0, 0)
    {
      if keyArg != "" then NoEffects
      else match ManifestFetch(server, songId)
        case Failure(_) => Effects([ManifestUrl(songId)], 0, 0)
        case Success(m) =>
          var d := DeviceEffects(m, cdmArg);
          Effects([ManifestUrl(songId)] + d.requests, d.opens, d.closes)
    }

    /** The requests of download_drm_stream: none for a malformed key;
        otherwise the manifest, then the requests of the temporary-file
        block. */
    function DownloadRequests(songId: string, keyHex: string): (r: seq<string>)
      ensures ValidateKey(keyHex).Failure? ==> r == []
      ensures ValidateKey(keyHex).Success? ==> r != [] && r[0] == ManifestUrl(songId)
      ensures ValidateKey(keyHex).Success? && ManifestFetch(server, songId).Failure? ==> r == [ManifestUrl(songId)]
      ensures ValidateKey(keyHex).Success? && ManifestFetch(server, songId).Success? ==>
        r == [ManifestUrl(songId)] + FetchRequests(server, ManifestFetch(server, songId).value)
    {
      if ValidateKey(keyHex).Failure? then []
      else match ManifestFetch(server, songId)
        case Failure(_) => [ManifestUrl(songId)]
        case Success(m) => [ManifestUrl(songId)] + FetchRequests(server, m)
    }

    /** The temporary file after download_drm_stream, from the one before:
        untouched until the manifest is read; left on disk with what was
        written when a fetch fails; removed once ffmpeg has run. */
    function DownloadTemp(songId: string, keyHex: string, before: (bool, seq<byte>)): (after: (bool, seq<byte>))
      ensures ValidateKey(keyHex).Failure? || ManifestFetch(server, songId).Failure? ==> after == before
      ensures ValidateKey(keyHex).Success? && ManifestFetch(server, songId).Success? ==>
        var m := ManifestFetch(server, songId).value;
        && (FetchResult(server, m).Fail? ==> after == (true, PartialFile(server, m)))
        && (FetchResult(server, m).Pass? ==> !after.0)
      ensures DownloadOutcome(songId, keyHex).Pass? ==> !after.0
    {
      if ValidateKey(keyHex).Failure? then before
      else match ManifestFetch(server, songId)
        case Failure(_) => before
        case Success(m) =>
          if EncryptedStream(server, m).None? then (true, PartialFile(server, m)) else (false, [])
    }

    /** The ffmpeg runs of download_drm_stream: one, on the whole encrypted
        stream with the checked key, exactly when every fetch goes through. */
    function DownloadDecryptions(songId: string, keyHex: string, dest: string): (d: seq<Decryption>)
      ensures |d| <= 1
      ensures d != [] <==>
        && ValidateKey(keyHex).Success? && ManifestFetch(server, songId).Success?
        && EncryptedStream(server, ManifestFetch(server, songId).value).Some?
      ensures d != [] ==>
        d[0] == Decryption(ValidateKey(keyHex).value, EncryptedStream(server, ManifestFetch(server, songId).value).value, dest)
      ensures DownloadOutcome(songId, keyHex).Pass? ==> |d| == 1 && IsKeyHex(d[0].key) && d[0].dest == dest
    {
      if ValidateKey(keyHex).Failure? then []
      else match ManifestFetch(server, songId)
        case Failure(_) => []
        case Success(m) =>
          match EncryptedStream(server, m)
          case None => []
          case Some(file) => [Decryption(ValidateKey(keyHex).value, file, dest)]
    }

    /** The requests and sessions of the stream half: those of the key
        choice, then, with a key, those of the download. */
    function StreamEffects(songId: string, keyArg: string, cdmArg: string): (e: Effects)
      ensures e.opens == KeyEffects(songId, keyArg, cdmArg).opens && e.closes == KeyEffects(songId, keyArg, cdmArg).closes
      ensures ChosenKey(songId, keyArg, cdmArg).Halt? ==> e == KeyEffects(songId, keyArg, cdmArg)
      ensures ChosenKey(songId, keyArg, cdmArg).Given? ==>
        var k := KeyEffects(songId, keyArg, cdmArg);
        e == Effects(k.requests + DownloadRequests(songId, ChosenKey(songId, keyArg, cdmArg).keyHex), k.opens, k.closes)
    {
      var k := KeyEffects(songId, keyArg, cdmArg);
      match ChosenKey(songId, keyArg, cdmArg)
      case Halt(_) => k
      case Given(h) =>
        var d := DownloadRequests(songId, h);
        PrefixOfAppend(k.requests, d);
        Effects(k.requests + d, k.opens, k.closes)
    }

    /** A download whose fetches all go through, and in particular one that
        succeeds, requests the manifest, the init segment and every media
        segment, in order, and nothing else. */
    lemma DownloadRequestsWhenFetched(songId: string, keyHex: string)
      requires ValidateKey(keyHex).Success? && ManifestFetch(server, songId).Success?
      requires EncryptedStream(server, ManifestFetch(server, songId).value).Some?
      ensures var m := ManifestFetch(server, songId).value;
        DownloadRequests(songId, keyHex) == [ManifestUrl(songId), ResolveStreamUri(m.initUri)] + ResolveAll(m.segmentUris)
    {
      var m := ManifestFetch(server, songId).value;
      var init := ResolveStreamUri(m.initUri);
      assert FetchResult(server, m).Pass?;
      assert FetchRequests(server, m) == [init] + ResolveAll(m.segmentUris);
      assert DownloadRequests(songId, keyHex) == [ManifestUrl(songId)] + ([init] + ResolveAll(m.segmentUris));
      AppendAssoc([ManifestUrl(songId)], [init], ResolveAll(m.segmentUris));
      assert [ManifestUrl(songId)] + [init] == [ManifestUrl(songId), init];
    }

    /** Without --key, a stream that gets a well-formed key from the device
        (in particular one that is saved) reads the playlist twice, around
        the licence POST: once for the key id and PSSH, once for the
        download. */
    lemma StreamReadsPlaylistTwice(songId: string, cdmArg: string)
      requires ChosenKey(songId, "", cdmArg).Given? && ValidateKey(ChosenKey(songId, "", cdmArg).keyHex).Success?
      ensures var r := StreamEffects(songId, "", cdmArg).requests;
        |r| >= 3 && r[0] == ManifestUrl(songId) && r[1] == LicenseUrl && r[2] == ManifestUrl(songId)
    {
      var d := DownloadRequests(songId, ChosenKey(songId, "", cdmArg).keyHex);
      assert d != [] && d[0] == ManifestUrl(songId);
      var k := KeyEffects(songId, "", cdmArg);
      assert k.requests == [ManifestUrl(songId), LicenseUrl];
      var e := StreamEffects(songId, "", cdmArg);
      assert e == Effects(k.requests + d, k.opens, k.closes);
      ThirdOfAppend(ManifestUrl(songId), LicenseUrl, d, e.requests);
    }

    /** The stream half makes the requests of the key choice first; a
        malformed --key is rejected before any request or session. */
    lemma StreamEffectsOrder(songId: string, keyArg: string, cdmArg: string)
      ensures IsPrefix(KeyEffects(songId, keyArg, cdmArg).requests, StreamEffects(songId, keyArg, cdmArg).requests)
      ensures keyArg != "" && ValidateKey(keyArg).Failure? ==> StreamEffects(songId, keyArg, cdmArg) == NoEffects
    {
      var k := KeyEffects(songId, keyArg, cdmArg);
      match ChosenKey(songId, keyArg, cdmArg)
      case Halt(_) =>
        PrefixOfAppend(k.requests, []);
        assert k.requests + [] == k.requests;
      case Given(h) =>
        PrefixOfAppend(k.requests, DownloadRequests(songId, h));
    }

    /** A saved stream went through one ffmpeg run into the given file, with
        a well-formed key: the supplied one when there is one. */
    lemma SavedStreamDecryption(songId: string, keyArg: string, cdmArg: string, dest: string)
      ensures var d := StreamDecryptions(songId, keyArg, cdmArg, dest);
        StreamSaves(songId, keyArg, cdmArg) ==>
        && |d| == 1 && IsKeyHex(d[0].key) && d[0].dest == dest
        && (keyArg != "" ==> ValidateKey(keyArg).Success? && d[0].key == ValidateKey(keyArg).value)
    {
      if StreamSaves(songId, keyArg, cdmArg) {
        var h := ChosenKey(songId, keyArg, cdmArg).keyHex;
        assert DownloadOutcome(songId, h).Pass?;
      }
    }

    /** The temporary file after the stream half. */
    function StreamTemp(songId: string, keyArg: string, cdmArg: string, before: (bool, seq<byte>)): (after: (bool, seq<byte>))
      ensures ChosenKey(songId, keyArg, cdmArg).Halt? ==> after == before
      ensures ChosenKey(songId, keyArg, cdmArg).Given? ==> after == DownloadTemp(songId, ChosenKey(songId, keyArg, cdmArg).keyHex, before)
      ensures StreamSaves(songId, keyArg, cdmArg) ==> !after.0
    {
      match ChosenKey(songId, keyArg, cdmArg)
      case Halt(_) => before
      case Given(h) => DownloadTemp(songId, h, before)
    }

    /** The ffmpeg runs of the stream half. */
    function StreamDecryptions(songId: string, keyArg: string, cdmArg: string, dest: string): (d: seq<Decryption>)
      ensures |d| <= 1
      ensures ChosenKey(songId, keyArg, cdmArg).Halt? ==> d == []
      ensures ChosenKey(songId, keyArg, cdmArg).Given? ==>
        d == DownloadDecryptions(songId, ChosenKey(songId, keyArg, cdmArg).keyHex, dest)
    {
      match ChosenKey(songId, keyArg, cdmArg)
      case Halt(_) => []
      case Given(h) => DownloadDecryptions(songId, h, dest)
    }

    /** The requests and sessions of the whole command: the page, the direct
        file, then those of the stream half when the command falls back. */
    function MainEffects(url: string, scrape: (Platform, string, string) -> Option<TrackInfo>,
                         keyArg: string, cdmArg: string): (e: Effects)
      ensures e.requests != [] && e.requests[0] == url
      ensures PageInfo(server, scrape, url).Failure? ==> e == Effects([url], 0, 0)
      ensures !FallsBack(scrape, url) ==> e.opens == 0 && e.closes == 0 && |e.requests| <= 2
      ensures PageInfo(server, scrape, url).Success? && !FallsBack(scrape, url) ==>
        e == Effects([url, PageInfo(server, scrape, url).value.songPath], 0, 0)
      ensures FallsBack(scrape, url) ==>
        var info := PageInfo(server, scrape, url).value;
        var s := StreamEffects(info.id, keyArg, cdmArg);
        e == Effects([url, info.songPath] + s.requests, s.opens, s.closes)
      ensures e.closes <= e.opens <= 1
      ensures keyArg != "" ==> e.opens == 0 && e.closes == 0
      // a session is left open only when the licence exchange fails
      ensures e.opens == 1 && e.closes == 0 ==> MainOutcome(url, scrape, keyArg, cdmArg) == Crashed(LicenseExchangeFailed)
    {
      match PageInfo(server, scrape, url)
      case Failure(_) => Effects([url], 0, 0)
      case Success(info) =>
        if FallsBack(scrape, url) then
          var s := StreamEffects(info.id, keyArg, cdmArg);
          Effects([url, info.songPath] + s.requests, s.opens, s.closes)
        else Effects([url, info.songPath], 0, 0)
    }

    /** The sessions and requests of the command against how it ends: its
        exits open no session, a stream saved without --key opened and
        closed one, and a malformed --key costs only the page and the
        direct file. */
    lemma MainEffectsByOutcome(url: string, scrape: (Platform, string, string) -> Option<TrackInfo>,
                               keyArg: string, cdmArg: string)
      ensures MainOutcome(url, scrape, keyArg, cdmArg).Exited? ==>
        MainEffects(url, scrape, keyArg, cdmArg).opens == 0 && MainEffects(url, scrape, keyArg, cdmArg).closes == 0
      ensures keyArg == "" && MainOutcome(url, scrape, keyArg, cdmArg).SavedM4a? ==>
        MainEffects(url, scrape, keyArg, cdmArg).opens == 1 && MainEffects(url, scrape, keyArg, cdmArg).closes == 1
      ensures keyArg != "" && MainOutcome(url, scrape, keyArg, cdmArg) == Crashed(InvalidKeyFormat) ==>
        |MainEffects(url, scrape, keyArg, cdmArg).requests| == 2
    {
      if FallsBack(scrape, url) {
        var info := PageInfo(server, scrape, url).value;
        var k := ChosenKey(info.id, keyArg, cdmArg);
        if k.Given? && keyArg != "" {
          assert k.keyHex == keyArg;
          if ValidateKey(keyArg).Failure? {
            StreamEffectsOrder(info.id, keyArg, cdmArg);
          }
        }
      }
    }

    /** The temporary file after the whole command. */
    function MainTemp(url: string, scrape: (Platform, string, string) -> Option<TrackInfo>,
                      keyArg: string, cdmArg: string, before: (bool, seq<byte>)): (after: (bool, seq<byte>))
      ensures !FallsBack(scrape, url) ==> after == before
      ensures FallsBack(scrape, url) ==> after == StreamTemp(PageInfo(server, scrape, url).value.id, keyArg, cdmArg, before)
      ensures MainOutcome(url, scrape, keyArg, cdmArg).SavedM4a? ==> !after.0
    {
      if FallsBack(scrape, url) then StreamTemp(PageInfo(server, scrape, url).value.id, keyArg, cdmArg, before)
      else before
    }

    /** The ffmpeg runs of the whole command. */
    function MainDecryptions(url: string, scrape: (Platform, string, string) -> Option<TrackInfo>,
                             keyArg: string, cdmArg: string): (d: seq<Decryption>)
      ensures |d| <= 1
      ensures !FallsBack(scrape, url) ==> d == []
      ensures FallsBack(scrape, url) ==>
        var info := PageInfo(server, scrape, url).value;
        d == StreamDecryptions(info.id, keyArg, cdmArg, SafeFilename(info.artist, info.title, "m4a"))
      // a saved stream went through one ffmpeg run into the saved file, with a well-formed key
      ensures MainOutcome(url, scrape, keyArg, cdmArg).SavedM4a? ==>
        && |d| == 1 && IsKeyHex(d[0].key) && d[0].dest == MainOutcome(url, scrape, keyArg, cdmArg).name
        && (keyArg != "" ==> ValidateKey(keyArg).Success? && d[0].key == ValidateKey(keyArg).value)
    {
      if FallsBack(scrape, url) then
        var info := PageInfo(server, scrape, url).value;
        var name := SafeFilename(info.artist, info.title, "m4a");
        SavedStreamDecryption(info.id, keyArg, cdmArg, name);
        StreamDecryptions(info.id, keyArg, cdmArg, name)
      else []
    }

    /** Segment i is the first whose reply fails its status check: the
        requests stop after it and the file holds the bodies before it. */
    ghost predicate StoppedAt(requests0: seq<string>, temp0: seq<byte>, urls: seq<string>, i: int)
      reads this
    {
      && 0 <= i < |urls|
      && (forall j :: 0 <= j < i ==> Succeeded(server(urls[j])))
      && !Succeeded(server(urls[i]))
      && requests == requests0 + urls[..i + 1]
      && temp == temp0 + Flatten(Bodies(Replies(server, urls))[..i])
    }

    /** One HTTP request. */
    method Get(url: string) returns (resp: Response)
      modifies this`requests
      ensures resp == server(url)
      ensures requests == old(requests) + [url]
    {
      requests := requests + [url];
      resp := server(url);
    }

    /** fetch_stream_segments: GET the playlist, check its status, read it. */
    method FetchStreamSegments(songId: string) returns (r: Result<StreamManifest>)
      modifies this`requests
      ensures requests == old(requests) + [ManifestUrl(songId)]
      ensures r == ManifestFetch(server, songId)
    {
      var url := ManifestUrl(songId);
      var resp := Get(url);
      var err := RaiseForStatus(url, resp);
      if err.Some? {
        return Failure(err.value);
      }
      var text := resp.text;
      var keyId := KeyIdOf(songId, text);
      var pssh := Find(text, PsshDataUri);
      var initUri := InitUriOf(songId, text);
      var segmentUris := ScanSegments(SplitLines(text));
      if segmentUris == [] {
        return Failure(NoSegments);
      }
      r := Success(StreamManifest(keyId, pssh, initUri, segmentUris));
    }

    method OpenSession()
      modifies this`sessionsOpened
      ensures sessionsOpened == old(sessionsOpened) + 1
    {
      sessionsOpened := sessionsOpened + 1;
    }

    method CloseSession()
      modifies this`sessionsClosed
      ensures sessionsClosed == old(sessionsClosed) + 1
    {
      sessionsClosed := sessionsClosed + 1;
    }

    /** obtain_content_key: open a session, exchange the license, then scan
        the keys; the session is closed exactly once on both returning paths
        and on the NoContentKey path, and not at all when the exchange
        raises. */
    method ObtainContentKey(cdmPath: string, pssh: string, keyId: string) returns (r: Result<string>)
      modifies this`sessionsOpened, this`sessionsClosed, this`requests
      ensures requests == old(requests) || requests == old(requests) + [LicenseUrl]
      ensures license(cdmPath, pssh).LoadFailed? ==>
        r == Failure(DeviceLoadFailed) && sessionsOpened == old(sessionsOpened)
        && sessionsClosed == old(sessionsClosed) && requests == old(requests)
      ensures !license(cdmPath, pssh).LoadFailed? ==> sessionsOpened == old(sessionsOpened) + 1
      ensures license(cdmPath, pssh).ChallengeFailed? ==>
        r == Failure(LicenseExchangeFailed) && sessionsClosed == old(sessionsClosed) && requests == old(requests)
      ensures license(cdmPath, pssh).ExchangeFailed? ==>
        r == Failure(LicenseExchangeFailed) && sessionsClosed == old(sessionsClosed)
        && requests == old(requests) + [LicenseUrl]
      ensures license(cdmPath, pssh).Granted? ==>
        r == SelectKey(license(cdmPath, pssh).keys, keyId) && sessionsClosed == old(sessionsClosed) + 1
        && requests == old(requests) + [LicenseUrl]
      ensures var e := LicenseEffects(cdmPath, pssh);
        && requests == old(requests) + e.requests
        && sessionsOpened == old(sessionsOpened) + e.opens && sessionsClosed == old(sessionsClosed) + e.closes
    {
      var outcome := license(cdmPath, pssh);
      if outcome.LoadFailed? {
        return Failure(DeviceLoadFailed);
      }
      OpenSession();
      if outcome.ChallengeFailed? {
        return Failure(LicenseExchangeFailed);
      }
      requests := requests + [LicenseUrl];
      if outcome.ExchangeFailed? {
        return Failure(LicenseExchangeFailed);
      }
      r := TakeKey(outcome.keys, keyId);
    }

    /** The key loop of obtain_content_key: return the first content key
        whose key id matches, closing the session first; otherwise remember
        the first content key, close the session after the loop and return
        it unless it is empty. Either way the session is closed once. */
    method TakeKey(keys: seq<LicenseKey>, keyId: string) returns (r: Result<string>)
      modifies this`sessionsClosed
      ensures r == SelectKey(keys, keyId)
      ensures sessionsClosed == old(sessionsClosed) + 1
    {
      var contentKey: Option<string> := None;
      var i := 0;
      while i < |keys|
        invariant 0 <= i <= |keys|
        invariant sessionsClosed == old(sessionsClosed)
        invariant ExactKey(keys, keyId) == ExactKey(keys[i..], keyId)
        invariant contentKey.None? <==> forall j :: 0 <= j < i ==> !IsContent(keys[j])
        invariant contentKey.None? ==> FirstContentKey(keys) == FirstContentKey(keys[i..])
        invariant contentKey.Some? ==>
          FirstContentKey(keys).Some? && contentKey.value == HexOf(FirstContentKey(keys).value)
      {
        var key := keys[i];
        assert keys[i..][0] == key && keys[i..][1..] == keys[i + 1..];
        if IsContent(key) {
          var kidHex := HexOf(key.kid);
          var keyHex := HexOf(key.key);
          if kidHex == keyId {
            CloseSession();
            return Success(keyHex);
          }
          if contentKey.None? {
            contentKey := Some(keyHex);
          }
        }
        i := i + 1;
      }
      CloseSession();
      if contentKey.Some? && contentKey.value != [] {
        return Success(contentKey.value);
      }
      return Failure(NoContentKey);
    }

    /** One ffmpeg run on the temporary file. */
    method Decrypt(key: string, dest: string) returns (code: int)
      modifies this`decryptions
      ensures decryptions == old(decryptions) + [Decryption(key, temp, dest)]
      ensures code == ffmpegExit
    {
      decryptions := decryptions + [Decryption(key, temp, dest)];
      code := ffmpegExit;
    }

    /** The media-segment loop over the resolved segment URLs: GET each in
        order, stop at the first reply that fails its status check, append
        each body to the temporary file. */
    method AppendSegments(urls: seq<string>) returns (r: Outcome)
      modifies this`requests, this`temp
      ensures IsPrefix(old(requests), requests)
      ensures r.Pass? <==> forall j :: 0 <= j < |urls| ==> Succeeded(Replies(server, urls)[j])
      ensures r.Pass? ==>
        && requests == old(requests) + urls
        && temp == old(temp) + Flatten(Bodies(Replies(server, urls)))
      ensures r.Fail? ==> r.error.HttpStatus? || r.error.ConnectionFailed?
      ensures r.Fail? ==> exists i :: StoppedAt(old(requests), old(temp), urls, i)
                                      && r.error == RaiseForStatus(urls[i], server(urls[i])).value
      ensures r.Fail? ==> FirstFailure(server, urls) == Some(r.error)
      ensures requests == old(requests) + FetchedUrls(server, urls)
      ensures temp == old(temp) + FetchedBodies(server, urls)
    {
      ghost var rs := Replies(server, urls);
      var i := 0;
      while i < |urls|
        invariant 0 <= i <= |urls|
        invariant requests == old(requests) + urls[..i]
        invariant forall j :: 0 <= j < i ==> Succeeded(server(urls[j]))
        invariant temp == old(temp) + Flatten(Bodies(rs)[..i])
      {
        var resp := Get(urls[i]);
        var err := RaiseForStatus(urls[i], resp);
        SegmentStep(server, urls, i);
        if err.Some? {
          assert !Succeeded(server(urls[i]));
          assert StoppedAt(old(requests), old(temp), urls, i);
          FirstFailureAt(server, urls, i);
          assert FailIndex(server, urls) == i;
          assert FetchedUrls(server, urls) == urls[..i + 1];
          PrefixOfAppend(old(requests), urls[..i + 1]);
          return Fail(err.value);
        }
        temp := temp + resp.content;
        i := i + 1;
      }
      assert Bodies(rs)[..i] == Bodies(rs);
      assert urls[..i] == urls;
      assert FailIndex(server, urls) == |urls|;
      PrefixOfAppend(old(requests), urls);
      r := Pass;
    }

    /** The ffmpeg step of download_drm_stream: decrypt the temporary file
        into dest, then remove the temporary file whatever ffmpeg's exit code
        was. */
    method DecryptTemp(key: string, dest: string) returns (r: Outcome)
      modifies this`decryptions, this`tempExists, this`temp
      ensures decryptions == old(decryptions) + [Decryption(key, old(temp), dest)]
      ensures !tempExists && temp == []
      ensures r == (if ffmpegExit == 0 then Pass else Fail(DecryptionFailed(ffmpegExit)))
    {
      var code := Decrypt(key, dest);
      tempExists, temp := false, [];
      if code != 0 {
        return Fail(DecryptionFailed(code));
      }
      return Pass;
    }

    /** The temporary-file block of download_drm_stream: create the file,
        write the init segment (its reply is not status-checked), then the
        media segments. Whatever happens, the file is left on disk. */
    method FetchEncrypted(m: StreamManifest) returns (r: Outcome)
      modifies this`requests, this`tempExists, this`temp
      ensures tempExists
      ensures IsPrefix(old(requests) + [ResolveStreamUri(m.initUri)], requests)
      ensures r == FetchResult(server, m)
      ensures requests == old(requests) + FetchRequests(server, m)
      ensures temp == PartialFile(server, m)
      ensures r.Pass? ==> temp == EncryptedStream(server, m).value
      ensures r.Pass? ==> requests == old(requests) + [ResolveStreamUri(m.initUri)] + ResolveAll(m.segmentUris)
    {
      tempExists, temp := true, [];
      var initUrl := ResolveStreamUri(m.initUri);
      var init := Get(initUrl);
      if init.NoReply? {
        return Fail(ConnectionFailed(initUrl));
      }
      temp := temp + init.content;
      assert temp == init.content;
      var urls := ResolveAll(m.segmentUris);
      r := AppendSegments(urls);
      AppendAssoc(old(requests), [initUrl], FetchedUrls(server, urls));
      assert FetchRequests(server, m) == [initUrl] + FetchedUrls(server, urls);
      assert PartialFile(server, m) == init.content + FetchedBodies(server, urls);
      if r.Pass? {
        EncryptedStreamOf(server, m, init);
      }
    }

    /** download_drm_stream once the manifest is read: fill the temporary
        file, then decrypt it and remove it. */
    method FetchAndDecrypt(m: StreamManifest, key: string, dest: string) returns (r: Outcome)
      modifies this`requests, this`tempExists, this`temp, this`decryptions
      ensures IsPrefix(old(requests) + [ResolveStreamUri(m.initUri)], requests)
      ensures requests == old(requests) + FetchRequests(server, m)
      ensures EncryptedStream(server, m).None? ==>
        && r == FetchResult(server, m) && tempExists && decryptions == old(decryptions)
        && temp == PartialFile(server, m)
      ensures EncryptedStream(server, m).Some? ==>
        && requests == old(requests) + [ResolveStreamUri(m.initUri)] + ResolveAll(m.segmentUris)
        && decryptions == old(decryptions) + [Decryption(key, EncryptedStream(server, m).value, dest)]
        && !tempExists && temp == []
        && r == (if ffmpegExit == 0 then Pass else Fail(DecryptionFailed(ffmpegExit)))
    {
      r := FetchEncrypted(m);
      if r.Fail? {
        return;
      }
      r := DecryptTemp(key, dest);
    }

    /** download_drm_stream: check the key, read the manifest, fill the
        temporary file, run ffmpeg on it, and remove it. The file is removed
        once ffmpeg has been reached, whatever its exit code; a failing fetch
        leaves it behind. */
    method DownloadDrmStream(songId: string, keyHex: string, dest: string) returns (r: Outcome)
      modifies this`requests, this`tempExists, this`temp, this`decryptions
      ensures r == DownloadOutcome(songId, keyHex)
      ensures requests == old(requests) + DownloadRequests(songId, keyHex)
      ensures (tempExists, temp) == DownloadTemp(songId, keyHex, (old(tempExists), old(temp)))
      ensures decryptions == old(decryptions) + DownloadDecryptions(songId, keyHex, dest)
    {
      var key := ValidateKey(keyHex);
      if key.Failure? {
        return Fail(key.error);
      }
      var segs := FetchStreamSegments(songId);
      if segs.Failure? {
        return Fail(segs.error);
      }
      r := FetchAndDecrypt(segs.value, key.value, dest);
      AppendAssoc(old(requests), [ManifestUrl(songId)], FetchRequests(server, segs.value));
    }

    /** The key-choosing part of the command: the key given on the command
        line as it is, or one negotiated with a device file after reading
        the manifest for its key id and PSSH. */
    method AcquireKey(songId: string, keyArg: string, cdmArg: string) returns (k: KeyStep)
      modifies this`requests, this`sessionsOpened, this`sessionsClosed
      ensures k == ChosenKey(songId, keyArg, cdmArg)
      ensures var e := KeyEffects(songId, keyArg, cdmArg);
        && requests == old(requests) + e.requests
        && sessionsOpened == old(sessionsOpened) + e.opens && sessionsClosed == old(sessionsClosed) + e.closes
    {
      if keyArg != "" {
        return Given(keyArg);
      }
      var segs := FetchStreamSegments(songId);
      if segs.Failure? {
        return Halt(Crashed(segs.error));
      }
      k := KeyFromDevice(segs.value, cdmArg);
      AppendAssoc(old(requests), [ManifestUrl(songId)], DeviceEffects(segs.value, cdmArg).requests);
    }

    /** The device branch of the key choice: the device file named on the
        command line, else the one the search finds; without either the
        command stops with the manual-key hint. */
    method KeyFromDevice(m: StreamManifest, cdmArg: string) returns (k: KeyStep)
      modifies this`requests, this`sessionsOpened, this`sessionsClosed
      ensures k == DeviceKey(m, cdmArg)
      ensures var e := DeviceEffects(m, cdmArg);
        && requests == old(requests) + e.requests
        && sessionsOpened == old(sessionsOpened) + e.opens && sessionsClosed == old(sessionsClosed) + e.closes
    {
      var cdmPath := if cdmArg != "" then Some(cdmArg) else foundDevice;
      if cdmPath.None? {
        return Halt(Exited(KeyRequired(m.keyId, m.pssh)));
      }
      if !fileExists(cdmPath.value) {
        return Halt(Exited(DeviceFileMissing(cdmPath.value)));
      }
      var pssh := m.pssh;
      if pssh.None? {
        return Halt(Exited(NoPssh));
      }
      var obtained := ObtainContentKey(cdmPath.value, pssh.value, m.keyId);
      if obtained.Failure? {
        return Halt(Crashed(obtained.error));
      }
      k := Given(obtained.value);
    }

    /** The stream half of the command: a key, then the DRM download into
        the ".m4a" file name. */
    method StreamSong(songId: string, info: TrackInfo, keyArg: string, cdmArg: string) returns (o: RunOutcome)
      modifies this`requests, this`sessionsOpened, this`sessionsClosed, this`tempExists, this`temp, this`decryptions
      ensures o == StreamOutcome(songId, keyArg, cdmArg, SafeFilename(info.artist, info.title, "m4a"))
      ensures var e := StreamEffects(songId, keyArg, cdmArg);
        && requests == old(requests) + e.requests
        && sessionsOpened == old(sessionsOpened) + e.opens && sessionsClosed == old(sessionsClosed) + e.closes
      ensures (tempExists, temp) == StreamTemp(songId, keyArg, cdmArg, (old(tempExists), old(temp)))
      ensures decryptions == old(decryptions) + StreamDecryptions(songId, keyArg, cdmArg, SafeFilename(info.artist, info.title, "m4a"))
    {
      var step := AcquireKey(songId, keyArg, cdmArg);
      if step.Halt? {
        AppendNil(decryptions);
        return step.outcome;
      }
      var m4aName := SafeFilename(info.artist, info.title, "m4a");
      var downloaded := DownloadDrmStream(songId, step.keyHex, m4aName);
      AppendAssoc(old(requests), KeyEffects(songId, keyArg, cdmArg).requests, DownloadRequests(songId, step.keyHex));
      if downloaded.Fail? {
        return Crashed(downloaded.error);
      }
      assert StreamSaves(songId, keyArg, cdmArg);
      return SavedM4a(m4aName);
    }

    /** The command: fetch the page, try the direct file, and otherwise fall
        back to the DRM stream. Every exception of the direct attempt is
        caught and the run falls through. */
    method Run(url: string, scrape: (Platform, string, string) -> Option<TrackInfo>, keyArg: string, cdmArg: string)
      returns (o: RunOutcome)
      modifies this`requests, this`sessionsOpened, this`sessionsClosed, this`tempExists, this`temp, this`decryptions
      ensures o == MainOutcome(url, scrape, keyArg, cdmArg)
      ensures var e := MainEffects(url, scrape, keyArg, cdmArg);
        && requests == old(requests) + e.requests
        && sessionsOpened == old(sessionsOpened) + e.opens && sessionsClosed == old(sessionsClosed) + e.closes
      ensures (tempExists, temp) == MainTemp(url, scrape, keyArg, cdmArg, (old(tempExists), old(temp)))
      ensures decryptions == old(decryptions) + MainDecryptions(url, scrape, keyArg, cdmArg)
    {
      var platform := DetectPlatform(url);
      var page := Get(url);
      var pageErr := RaiseForStatus(url, page);
      if pageErr.Some? {
        return Crashed(pageErr.value);
      }
      var found := scrape(platform, page.text, url);
      if found.None? {
        return Crashed(MetadataNotFound);
      }
      var info := found.value;

      var mp3Name := SafeFilename(info.artist, info.title, "mp3");
      var direct := Get(info.songPath);
      assert requests == old(requests) + [url, info.songPath];
      if TryDownloadMp3(info.songPath, direct) == Saved {
        return SavedMp3(mp3Name);
      }
      if platform == Suno {
        return Exited(SunoFailed);
      }
      if info.id == "" || info.id == "Unknown" {
        return Exited(NoSongId);
      }
      o := StreamSong(info.id, info, keyArg, cdmArg);
      AppendAssoc(old(requests), [url, info.songPath], StreamEffects(info.id, keyArg, cdmArg).requests);
    }
  }
}
