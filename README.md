# music-dl in Dafny

A model of the core of `music_dl.py`, the command that downloads a song
from Suno or Udio. The command works in this order:

1. It fetches the song page and scrapes the song record.
2. It tries the direct MP3 file. Every exception from that attempt is caught.
3. Without a direct file, a Suno song ends with a failure. A song whose id
   is empty or "Unknown" also ends with exit status 1. Any other song falls
   back to the DRM-protected HLS stream.
4. It takes a content key:
   - with `--key`, the given value, and nothing is fetched yet;
   - without it, it reads the media playlist for the key id and the PSSH,
     picks the device file (`--cdm`, else the one the search finds) and
     runs a Widevine licence exchange.
5. It downloads the stream (download_drm_stream):
   - It checks the key's form first, before any request, so a malformed
     `--key` is rejected before the playlist is read.
   - It reads the media playlist: the key id, the PSSH data URI, the
     EXT-X-MAP init segment and the EXTINF-announced segments. Without
     `--key` this is the second read of the same playlist.
   - It writes the init and media segments into a temporary file.
   - It runs ffmpeg on that file and then removes it.

Modules:

- `Common`: bytes, results, the error kinds, and concatenation.
- `Text`: ASCII `strip`, `lower`, `splitlines`, `replace`, `bytes.hex`.
- `Naming`: `detect_platform`, `safe_filename`.
- `Http`: `raise_for_status`, the direct-download decision.
- `Manifest`:
  - the three `re.search` patterns, as leftmost, greedy searches;
  - the line scanner, both as a loop and as a state machine, with a
    declarative reading;
  - `resolve_stream_uri`.
- `Keys`: the key choice and the key validation.
- `Assembly`: the layout of the encrypted container.
- `Pipeline`: the class `Host`, with the stateful steps and `main`.

`Host` stands for the world the program runs in. Its constant fields are:

- the reply the servers give to each URL;
- which files exist;
- what the device-file search finds;
- how the licence exchange ends for a device file and a PSSH;
- ffmpeg's exit status.

Its variable fields record what the program has done:

- every HTTP request, in order;
- DRM sessions opened and closed;
- the temporary file: whether it exists, and its bytes;
- every ffmpeg run, with its key, input bytes and output name.

Behaviours of the program that the model keeps:

- A `KEYID=0x` not followed by a hex digit does not match, so the search
  moves on to a later one.
- The init segment reply is written without a status check. Only a
  connection failure stops it.
- When a segment fetch fails, the temporary file is left on disk. The
  `finally` that removes it only guards the ffmpeg step.
- A session is not closed when the PSSH parsing, the licence challenge, the
  licence POST, its status check or the licence parsing raises.
- When no key id matches, the first content key is the fallback. If its hex
  is empty, that is falsy, so the exchange ends in "no content key". An
  exactly matching key is returned without that test, even when its hex is
  empty; the key check then rejects it.
- An empty `--key` or `--cdm` value is treated as not given.

## Model

| member | source | states |
|---|---|---|
| Naming.DetectPlatform | music_dl.py:33-37 | Suno exactly when "suno.com" occurs at some position of the URL |
| Naming.SafeFilename | music_dl.py:127-129 | the name is "{artist} - {title}.{ext}" of the same length, with no forbidden character left |
| Naming.Sanitize | music_dl.py:129 | each character of <>:"/\|?* and U+0000–U+001F becomes '_', every other character is kept at its position |
| Naming.SafeFilenameParts | music_dl.py:127-129 | the separators survive, so the name is the sanitized artist, title and extension joined by " - " and "." |
| Naming.SafeFilenameIdempotent | music_dl.py:127-129 | sanitizing a produced file name again changes nothing |
| Naming.SanitizeIdempotent | music_dl.py:129 | the replacement is idempotent |
| Naming.SanitizeAppend | music_dl.py:129 | the replacement works character by character, so it distributes over concatenation |
| Http.RaiseForStatus | music_dl.py:47 | no exception exactly when a reply arrived with a status outside 400–599; ConnectionFailed(url) without a reply, HttpStatus(url, status) for a 4xx or 5xx status |
| Http.TryDownloadMp3 | music_dl.py:137-154 | "not available" exactly for a 403 or 404 reply; saved exactly when the reply passes the status check; otherwise it raises |
| Text.Strip | music_dl.py:180 | no whitespace at either end; the result is the text that starts right after the leading whitespace, and everything after it is whitespace; empty iff all whitespace; unchanged when already stripped |
| Text.StripIdempotent | music_dl.py:180 | stripping twice equals stripping once |
| Text.Lower | music_dl.py:169 | each ASCII capital lowered, everything else kept, length preserved |
| Text.LowerHexDigit | music_dl.py:286-287 | a character lowers into "0123456789abcdef" exactly when it is a hex digit of either case |
| Text.RemoveChar | music_dl.py:169 | no dash left; shorter by exactly the number of dashes; unchanged when there was none |
| Text.RemoveCharAppend | music_dl.py:169 | removal distributes over concatenation, so the other characters are kept in order |
| Text.Contains | music_dl.py:35 | the substring test holds exactly when the pattern starts at some position |
| Text.SplitLines | music_dl.py:179 | no line holds a line boundary |
| Text.SplitLinesKeepsText | music_dl.py:179 | the lines, read one after the other, are the text without its boundaries |
| Text.SplitLinesSingle | music_dl.py:179 | a text without boundaries is one line, or no line when empty |
| Text.SplitLinesAtBreak | music_dl.py:179 | a line ended by \n, \v, \f or \x1c–\x1e is the first line, followed by the lines of the rest |
| Text.SplitLinesAtCrLf | music_dl.py:179 | "\r\n" ends the first line as a single boundary |
| Text.SplitLinesAtLoneCr | music_dl.py:179 | a "\r" not followed by "\n" ends the first line on its own |
| Text.HexOf | music_dl.py:267-268 | two lower-case hex digits per byte: the digit of its high nibble, then the digit of its low nibble |
| Manifest.Search | music_dl.py:168 | re.search: the leftmost position where the pattern matches, or none anywhere |
| Manifest.Find | music_dl.py:168-175 | the group of the leftmost match, taken greedily up to the first character outside the group; non-empty; none iff no position matches |
| Manifest.FindLeftmost | music_dl.py:168-175 | a maximal group run right after the pattern's prefix at p (closed by a quote for the quoted patterns), with no match before p, is what the search returns |
| Manifest.KeyIdOf | music_dl.py:168-169 | the lower-cased hex after the leftmost KEYID=0x; otherwise the song id with every '-' removed |
| Manifest.KeyIdFromLeftmostAttribute | music_dl.py:168-169 | for the leftmost KEYID=0x, the key id is its whole run of hex digits, lowered |
| Manifest.InitUriOf | music_dl.py:174-175 | the value found by the EXT-X-MAP:URI search, which holds no quote; otherwise the song's default init.mp4 path |
| Manifest.InitUriFromLeftmostMap | music_dl.py:174-175 | the quoted value of the first EXT-X-MAP:URI="…" is the init URI |
| Manifest.Step | music_dl.py:179-185 | after a line, the scan waits for a URI iff the line is an EXTINF, or it was waiting and the line is not a URI line; the captured URIs are unchanged or grow by that URI line, stripped |
| Manifest.Run | music_dl.py:177-185 | scanning lines in order captures at most one URI per line |
| Manifest.ScanSegments | music_dl.py:177-185 | the loop returns exactly the segments of the scan state machine |
| Manifest.SegmentsAreAwaitedLines | music_dl.py:177-185 | the captured URIs are exactly the stripped non-empty non-'#' lines that an EXTINF announced with no URI in between, in document order |
| Manifest.AnnouncedStep | music_dl.py:181-185 | a line is awaited iff the previous line is an EXTINF, or that line is not a URI line and was itself awaited |
| Manifest.SegmentsBounded | music_dl.py:177-185 | at most one URI is captured per EXTINF line |
| Manifest.RunBounded | music_dl.py:177-185 | captured URIs plus a pending announcement never outnumber the EXTINF lines |
| Manifest.SegmentsWellFormed | music_dl.py:180-184 | every captured URI is stripped, non-empty and does not start with '#' |
| Manifest.PairedAnnouncements | music_dl.py:177-185 | N EXTINF/URI line pairs give exactly the N stripped URIs, and nothing is left awaited |
| Manifest.ParseManifest | music_dl.py:162-195 | NoSegments exactly when the scan captures nothing; otherwise the record of the key id, the PSSH search result, the init URI and the scanned segments of that text |
| Manifest.ParsedSegmentCount | music_dl.py:187-188 | a parsed playlist has at least one segment and at most one per EXTINF line |
| Manifest.ResolveStreamUri | music_dl.py:198-203 | the result is absolute; absolute URLs are unchanged; other URIs go under the stream origin and end with the URI, with exactly one "/" added when the URI has none in front |
| Manifest.ResolveIdempotent | music_dl.py:198-203 | resolving twice equals resolving once |
| Manifest.RootRelativeMatchesBare | music_dl.py:201-203 | "/x" and "x" resolve to the same URL |
| Keys.ExactKey | music_dl.py:265-270 | none exactly when no content key's id matches |
| Keys.FirstContentKey | music_dl.py:271-272 | none exactly when there is no content key |
| Keys.SelectKey | music_dl.py:263-277 | failure is always NoContentKey, and it is certain without content keys |
| Keys.ExactKeyIsFirstMatch | music_dl.py:264-270 | the first matching content key is the one returned |
| Keys.SelectKeyPrefersExactMatch | music_dl.py:264-270 | a matching content key wins over earlier non-matching content keys |
| Keys.SelectKeyFallsBackToFirstContent | music_dl.py:271-276 | without a match, the first content key is used when its hex is non-empty |
| Keys.SelectKeyEmptyFallback | music_dl.py:271-277 | without a match, a first content key with empty hex ends in NoContentKey |
| Keys.SelectKeyIgnoresNonContent | music_dl.py:265 | dropping every non-CONTENT key changes nothing |
| Keys.ValidateKey | music_dl.py:286-288 | accepted iff the stripped key is 32 hex digits of either case; the accepted key is the stripped key lower-cased; otherwise InvalidKeyFormat |
| Keys.ValidateKeyIdempotent | music_dl.py:286-288 | an accepted key is accepted again unchanged |
| Keys.NegotiatedKeyIsAccepted | music_dl.py:268-276 | the hex of any 16-byte licence key passes the check unchanged |
| Assembly.FlattenAppend | music_dl.py:300-311 | writing two runs of segments one after the other equals writing them together |
| Assembly.AssembledLength | music_dl.py:300-311 | the container is as long as the init plus all segments |
| Assembly.AssembledStartsWithInit | music_dl.py:304-305 | the container starts with the init body |
| Assembly.SegmentAtOffset | music_dl.py:308-311 | segment k sits, whole, right after the init and the segments before it |
| Pipeline.ExitCode | music_dl.py:384-445 | status 0 exactly when a file was saved, else 1 |
| Pipeline.PageInfo | music_dl.py:367-375 | the record exists iff the page reply passes its status check and the platform's scraper finds one; a page that fails its status check gives that exception; a page without a record gives MetadataNotFound |
| Pipeline.ManifestFetch | music_dl.py:162-195 | a reply that fails its status check gives that exception; otherwise the playlist reading of the reply text |
| Pipeline.EncryptedStream | music_dl.py:296-311 | a container exists iff the init reply arrived and no segment reply fails its status check (the first-failure search finds nothing) |
| Pipeline.EncryptedStreamLayout | music_dl.py:296-311 | the container starts with the init reply, and segment k's reply body sits whole at its offset |
| Pipeline.FirstFailure | music_dl.py:307-311 | no exception iff every reply passes its status check; otherwise a status or connection error |
| Pipeline.FirstFailureAt | music_dl.py:307-311 | the exception is the one of the first URL whose reply fails |
| Pipeline.FetchResult | music_dl.py:296-311 | passes iff the container can be assembled; a missing init reply is a connection error on the init URL; otherwise the first segment exception |
| Pipeline.FailIndex | music_dl.py:307-311 | every reply before the index passes its status check, and the one at the index, if any, fails it |
| Pipeline.FetchedUrls | music_dl.py:307-311 | the segment URLs the loop requests are a prefix of all of them: all when none fails, otherwise up to the first failing one, whose exception is the first failure and all before it pass |
| Pipeline.FetchedBodies | music_dl.py:307-311 | when no segment fails, the loop writes every body in order |
| Pipeline.FetchRequests | music_dl.py:300-311 | the requests of the temporary-file block start with the init URL; on success they are the init URL then every segment URL; on failure the last one is the URL whose exception is reported |
| Pipeline.PartialFile | music_dl.py:296-311 | the file left by the block starts with the init body whenever it arrived, and is the whole container when every fetch goes through |
| Pipeline.Host.LicenseKeyStep | music_dl.py:241-277 | the key is the one the licence selects, iff the licence is granted and holds one; a load failure, a challenge or exchange failure, and a licence without a key each end the run with their exception |
| Pipeline.Host.DeviceKey | music_dl.py:410-440 | --cdm before the found device; the manual-key hint iff neither; DeviceFileMissing with the chosen path; NoPssh iff the file exists and the playlist has no PSSH; otherwise the licence exchange decides |
| Pipeline.Host.ChosenKey | music_dl.py:403-440 | --key as given; otherwise a manifest failure ends the run with its exception, and a read manifest goes to the device branch; the hint only without --key, --cdm and a found device |
| Pipeline.Host.DownloadOutcome | music_dl.py:285-331 | passes iff the key is valid, the manifest is read, every fetch goes through and ffmpeg exits 0; InvalidKeyFormat iff the key is invalid; the manifest's exception when it cannot be read; a failed fetch gives the fetch outcome; a non-zero ffmpeg status after a complete fetch gives DecryptionFailed with that status |
| Pipeline.Host.StreamOutcome | music_dl.py:403-445 | saved under the given name iff the chosen key's download saves; a halted key choice gives its own outcome; an invalid chosen key crashes with InvalidKeyFormat; any other download failure crashes with the download's error; every outcome other than a save is a crash or one of the key-choice exits |
| Pipeline.Host.MainOutcome | music_dl.py:367-447 | a page failure crashes; the MP3 is saved iff its download succeeds; a Suno song is saved as MP3, crashes or ends with SunoFailed, and SunoFailed iff it has no direct file; NoSongId iff there is no usable id; otherwise the stream half decides, and the M4A is saved iff it saves |
| Pipeline.Host.LicenseEffects | music_dl.py:247-277 | a load failure makes no request and opens nothing; a challenge or exchange failure leaves the one session open; a granted licence closes it exactly once; there is at most one licence POST and one session, and no POST without a session |
| Pipeline.Host.DeviceEffects | music_dl.py:410-440 | the hint, a missing device file and a playlist without PSSH make no request and open nothing; a negotiated key costs one licence POST and one session, opened and closed; a session left open means the exchange failed |
| Pipeline.Host.KeyEffects | music_dl.py:403-440 | --key makes no request and opens nothing; otherwise the playlist is requested first; a negotiated key costs exactly the playlist and the licence POST, with one session closed; the exits of the device branch cost only the playlist |
| Pipeline.Host.DownloadRequests | music_dl.py:285-311 | a malformed key makes no request; otherwise the playlist comes first; an unreadable playlist is the only request; otherwise the playlist then the requests of the temporary-file block |
| Pipeline.Host.DownloadRequestsWhenFetched | music_dl.py:289-311 | a download whose fetches all go through requests the playlist, the init segment and every media segment in order, and nothing else |
| Pipeline.Host.DownloadTemp | music_dl.py:296-331 | a malformed key or an unreadable playlist leaves the temporary file as it was; a failed fetch leaves it on disk holding what was written; once ffmpeg ran, and so after a success, it is gone |
| Pipeline.Host.DownloadDecryptions | music_dl.py:313-331 | at most one ffmpeg run, and one exactly when every fetch goes through, on the whole container with the checked key into the destination; a success ran it with a well-formed key |
| Pipeline.Host.StreamEffects | music_dl.py:403-445 | the sessions are those of the key choice; a halted choice costs only its own requests; with a key, the requests of the choice then those of the download |
| Pipeline.Host.StreamEffectsOrder | music_dl.py:286-288 | the key choice's requests come first; a malformed --key makes no request and opens no session |
| Pipeline.Host.StreamReadsPlaylistTwice | music_dl.py:403-445 | without --key, a well-formed negotiated key means the requests start with the playlist, the licence POST, then the playlist again |
| Pipeline.Host.StreamTemp | music_dl.py:403-445 | a halted key choice leaves the temporary file as it was; otherwise the download decides; a saved stream leaves no file |
| Pipeline.Host.StreamDecryptions | music_dl.py:403-445 | at most one ffmpeg run; none when the key choice halts; otherwise those of the download |
| Pipeline.Host.SavedStreamDecryption | music_dl.py:403-445 | a saved stream ran ffmpeg once into the given file with a well-formed key, which is the validated --key when one was given |
| Pipeline.Host.MainEffects | music_dl.py:367-447 | the page is the first request; a page failure is the only one; without a fallback only the page and the direct file, and no session; with it, the page, the direct file and the stream half's requests and sessions; --key opens no session; a session left open means the run crashed on the licence exchange |
| Pipeline.Host.MainEffectsByOutcome | music_dl.py:367-447 | an exit opens no session; a stream saved without --key opened and closed one; a malformed --key costs only the page and the direct file |
| Pipeline.Host.MainTemp | music_dl.py:367-447 | no fallback leaves the temporary file as it was; otherwise the stream half decides; a saved M4A leaves no file |
| Pipeline.Host.MainDecryptions | music_dl.py:367-447 | at most one ffmpeg run, none without a fallback; a saved M4A ran it once into the saved name with a well-formed key, the validated --key when one was given |
| Pipeline.Host.Get | music_dl.py:164 | one request appended to the log; the reply is the server's |
| Pipeline.Host.FetchStreamSegments | music_dl.py:162-195 | one manifest request, and the result is the playlist function of the server's reply |
| Pipeline.Host.OpenSession | music_dl.py:249 | one more session opened |
| Pipeline.Host.CloseSession | music_dl.py:269-274 | one more session closed |
| Pipeline.Host.ObtainContentKey | music_dl.py:241-277 | a load failure opens nothing and makes no request; a challenge failure leaves the session open with no request; an exchange failure leaves it open after the one POST; a granted licence gives the selected key and closes exactly once; the requests and sessions are exactly LicenseEffects |
| Pipeline.Host.TakeKey | music_dl.py:263-277 | the loop returns the selected key, and the session is closed exactly once on every path |
| Pipeline.Host.Decrypt | music_dl.py:316-328 | one ffmpeg run recorded with the key, the temporary file's bytes and the destination; the status is ffmpeg's |
| Pipeline.Host.AppendSegments | music_dl.py:307-311 | passes iff every segment reply passes; then every URL is requested in order and the file grows by the bodies in order; on failure, at the first failing URL i, the requests are the URLs up to i, the file grew by the bodies before i, and the error is that URL's |
| Pipeline.Host.FetchEncrypted | music_dl.py:296-311 | the result is the fetch outcome; the requests are exactly FetchRequests and the file holds exactly PartialFile and stays on disk; on success the file is the whole container and every URL was requested in order |
| Pipeline.Host.DecryptTemp | music_dl.py:313-331 | one ffmpeg run on the file's bytes; the file is removed whatever the exit status; a non-zero status is an error |
| Pipeline.Host.FetchAndDecrypt | music_dl.py:296-331 | the requests are exactly FetchRequests; a failed fetch gives the fetch outcome, leaves PartialFile on disk and skips ffmpeg; otherwise ffmpeg decrypts the whole container once and the file is removed |
| Pipeline.Host.DownloadDrmStream | music_dl.py:285-331 | the outcome, the requests, the temporary file and the ffmpeg runs are exactly DownloadOutcome, DownloadRequests, DownloadTemp and DownloadDecryptions of the key |
| Pipeline.Host.AcquireKey | music_dl.py:403-440 | the key is ChosenKey, and the requests and sessions are exactly KeyEffects |
| Pipeline.Host.KeyFromDevice | music_dl.py:410-440 | the key is DeviceKey, and the requests and sessions are exactly DeviceEffects |
| Pipeline.Host.StreamSong | music_dl.py:403-445 | the outcome is StreamOutcome under the ".m4a" name; the requests and sessions are exactly StreamEffects, the temporary file StreamTemp and the ffmpeg runs StreamDecryptions |
| Pipeline.Host.Run | music_dl.py:367-447 | the outcome is MainOutcome; the requests and sessions are exactly MainEffects, the temporary file MainTemp and the ffmpeg runs MainDecryptions |

## Left out

- setup_cdm.py is not part of this model.
- Page scraping for both platforms is a parameter of `Run` that returns an
  optional track record.
- The device-file search and its configuration directory are the constant
  `foundDevice`.
- The Widevine library is abstracted as one outcome per device file and
  PSSH: load failure, challenge failure, exchange failure, or the licence's
  key list. Its cryptography is not modelled.
- ffmpeg is reduced to its exit status. The decrypted output is not modelled.
- HTTP headers, the session, streaming and text decoding are reduced to a
  reply with status, body bytes and text.
- The progress bars, the ".part" file, creating the output directory and
  joining paths are left out.
- Console messages are left out, and so is the argument parser: the
  arguments are parameters.
- Only ASCII is modelled for whitespace, case and line boundaries.
- Pipeline.Host.FetchEncrypted resolves every segment URI before the loop
  instead of inside it. Resolution is a pure function, so the requests and
  bytes are the same.
- Pipeline.Host.Run, Pipeline.Host.ObtainContentKey: exceptions are modelled
  as outcomes returned to the caller. Where the program ends with a
  traceback, the model returns `Crashed(error)`, whose exit status is 1.
- The server gives one fixed reply per URL, so both reads of the playlist
  (without `--key`) get the same reply. A second playlist read that fails
  after a successful licence exchange cannot be represented.
