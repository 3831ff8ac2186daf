# now-playing-printer, modelled in Dafny

`now-playing-printer` is one Node.js script, `main.js`. It watches a last.fm
account for the track that is now playing. It downloads the track's cover art
and turns it into a dithered monochrome bitmap. It writes the title, artist,
album and the current date around the image, then prints it on a thermal
receipt printer over a serial port. Most of the script is glue around foreign
libraries. This project models the logic the script does itself:

- `processText`, which fits a metadata line into 22 characters (`overlay.dfy`);
- `niceDate`, which turns an ISO timestamp into the printed date label
  (`overlay.dfy`);
- `getTrackInfo`, which validates the now-playing payload (`track.dfy`);
- the artwork filename and output path, and the render step of
  `getAndDitherImage` as a plan of what is drawn where (`render.dfy`);
- the start-up gate on the seven environment settings (`config.dfy`);
- the `nowPlaying` handler. It stops the track stream, runs validate → render →
  print, and starts the stream again in the print callback or in the catch
  handler (`orchestrator.dfy`).

`jsstring.dfy` gives the JavaScript string built-ins the script relies on:
`toUpperCase` on ASCII, `lastIndexOf`, both forms of `substr`, `replace` with a
one-character pattern (first occurrence only, found by the same search as
`indexOf`, which the script does not call itself), and `trim`.
`wrappers.dfy` holds `Option` (for `undefined`) and `Result` (for a promise
that resolves or rejects).

The pure parts of the script are functions with lemmas. The track stream and the
printer are classes whose methods update their fields. The stream also keeps a
ghost log: `Stop`, `Start` and the printer's `PrintImage` append to it as they
run, and the validation and render stages append an entry where they run. `OnNowPlaying`
is a method that calls them in the order the handler does. It is proved against
the specification functions `CycleOutcome` and `CycleSteps`: the log grows by
exactly `CycleSteps` of the outcome. The lemmas `CycleStepsOrder` and
`CycleStepsCounts` prove what `CycleSteps` promises. The class invariant
`TrackStream.Valid` ties the counts to the running flag: a running stream has
been started once more than stopped, a stopped one as often. `OnNowPlaying`
preserves it; `Start` and `Stop` on their own do not rule out a repeated call.

Notes on the code's behaviour:

- The track record's name, artist and album are copied as found. They may
  therefore be `undefined`, and `processText` then throws in the render step.
- Reading `image[3]` on a list of one to three entries, and reading `'#text'`
  through a missing `artist` or `album`, throws a TypeError. The model treats
  each as a rejection, `PropertyOfUndefined`, which is distinct from
  "No album art".
- On a missing setting, the script logs and returns from the module. It does not
  exit with an error code.
- The filename keeps the leading '/' of the URL's last segment. So the path
  reads `<dir>/images//art.jpg`, and a URL with no '/' yields only its last
  character.

## Model

| member | source | states |
|---|---|---|
| JsString.ToUpperCase | main.js:118 | the result has the input's length and holds, at each position, the ASCII upper-case of the input's character there |
| JsString.ToUpperCaseIdempotent | main.js:118 | upper-casing an upper-cased string changes nothing |
| JsString.LastIndexOf | main.js:130 | the result is -1 or a position holding the character, and no later position holds it (so -1 exactly when the character is absent) |
| JsString.SubstrFrom | main.js:111 | `substr(start)` always gives a suffix; for 0 <= start <= length the suffix has length minus start characters; for a negative start it has min(-start, length) characters |
| JsString.Substr | main.js:124 | `substr(start, length)` with an in-range start gives the slice at start whose length is `length` clamped to 0 and to what is left |
| JsString.ReplaceFirst | main.js:129 | without the character the string is unchanged; with it, the length grows by the replacement's length minus one |
| JsString.ReplaceFirstAt | main.js:129 | when the first occurrence is at i, the result is the prefix before i, the replacement, then the rest after i (only the first occurrence is replaced) |
| JsString.Trim | main.js:131 | the result is a contiguous slice of the input, every character outside that slice is white space, and the result neither starts nor ends with white space |
| JsString.TrimNoOp | main.js:131 | a string that neither starts nor ends with white space is its own trim |
| Overlay.ProcessText | main.js:117-125 | never longer than 22; an input of at most 22 characters comes back upper-cased and unchanged otherwise; a longer one gives exactly 22 characters, the first 21 upper-cased input characters and the ellipsis |
| Overlay.ProcessTextIdempotent | main.js:117-125 | a second pass of `processText` over its own output changes nothing |
| Overlay.LongTitleIsCut | main.js:117-125 | a long title starting "a very extremely long" becomes "A VERY EXTREMELY LONG…" |
| Overlay.NiceDate | main.js:127-132 | the label neither starts nor ends with white space and is at most the timestamp's length plus the gap |
| Overlay.NiceDateOfIso | main.js:127-132 | for YYYY-MM-DDTHH:mm:ss.sssZ the label is the date, 36 spaces, then HH:mm; seconds, milliseconds and 'Z' are gone |
| Overlay.IsoSpaced | main.js:129 | on such a timestamp the two replacements turn the 'T' into the 36-space gap and the 'Z' into one space, and change nothing else |
| Overlay.IsoSpacedCut | main.js:130 | cutting that string at its last ':' leaves the date, the gap, the hour and the minute |
| TrackInfo.GetTrackInfo | main.js:173-197 | an absent payload, image list or empty image list rejects with "No album art"; a short image list, missing artist/album or missing image URL rejects with a TypeError; an empty URL rejects with "No album art"; a record is built exactly otherwise, with a non-empty URL and name, `image[3]['#text']`, `artist['#text']`, `album['#text']` copied unchanged |
| TrackInfo.FourthImageIsArtwork | main.js:180-185 | the four-variant example payload gives the record with the fourth variant's URL and the metadata as given |
| TrackInfo.ShortImageListThrows | main.js:182 | a one-entry image list rejects with a TypeError even when its URL is usable |
| Render.ImageFilename | main.js:111 | the filename is a suffix of the URL; when the URL has a '/', it starts with '/' and has no other '/'; otherwise it is the last character (or empty for an empty URL) |
| Render.ImageFilenameAtLastSlash | main.js:111 | for a URL whose last '/' is at k, the filename is the URL from k on |
| Render.ArtworkFilenameExample | main.js:111 | "http://x/art.jpg" gives "/art.jpg" |
| Render.ImagePath | main.js:112 | the path is the directory, then "/images/", then a suffix of the URL as long as the filename |
| Render.ImagePathOfSlashedUrl | main.js:111-112 | for a URL with a '/', the path is the directory, "/images/" and the URL from its last '/' on, so "//" joins them |
| Render.PlanRender | main.js:104-162 | the chain rejects with a TypeError exactly when name, artist or album is undefined; otherwise it downloads the record's URL, writes to the derived path, and draws the `processText` lines (each at most 22 characters) and the `niceDate` label |
| Render.GetAndDitherImage | main.js:104-171 | resolves with the derived image path exactly when the chain can be built and the writer reports no error; a writer error rejects with that error |
| Config.Boot | main.js:13-26 | start-up stops with the logged message exactly when one of the seven settings is unset or empty; otherwise the serial port is opened on PRINTER_USB at PRINTER_BAUDRATE and every setting passes on unchanged |
| Orchestrator.CycleOutcomeStages | main.js:80-97 | a cycle fails in validation exactly when `getTrackInfo` rejects, with its cause; fails in rendering exactly when validation passed and `getAndDitherImage` rejects; otherwise the writer reported no error and the derived image path of the validated track is printed |
| Orchestrator.CycleSteps | main.js:76-98 | a cycle takes 3 steps after a validation rejection, 4 after a render rejection and 5 when it prints; the first step stops the stream and the last starts it |
| Orchestrator.CycleWork | main.js:80-97 | a cycle is the stop and the validation, then its work, then the start |
| Orchestrator.CycleStepsOrder | main.js:76-98 | the stream is stopped first and validation follows at once; the start is the last step; nothing is rendered after a validation rejection; a print happens exactly when the cycle printed |
| Orchestrator.CycleStepsCounts | main.js:76-98 | each cycle stops the stream once and starts it once, and prints the image at most once |
| Orchestrator.NoArtworkNeverRenders | main.js:80-97 | a payload without an image list, or with an empty one, ends as a validation failure "No album art" with steps stop, validate, start |
| Orchestrator.TrackStream.constructor | main.js:68 | a new stream is not running, has not been started or stopped, and its log is empty |
| Orchestrator.TrackStream.Start | main.js:100 | the stream is running, one more start is counted, and the log gains a start |
| Orchestrator.TrackStream.Stop | main.js:78 | the stream is stopped, one more stop is counted, and the log gains a stop |
| Orchestrator.ThermalPrinter.constructor | main.js:58-63 | a new printer has no jobs |
| Orchestrator.ThermalPrinter.PrintImage | main.js:85-90 | the image and its line feeds are appended to the printer's jobs; the log records the print and then the start made by the print callback, which leaves the stream running with one more start |
| Orchestrator.OnPrinterReady | main.js:65-101 | the new stream is running, started once and stopped never, its log holds that one start, and the start/stop invariant holds |
| Orchestrator.OnNowPlaying | main.js:76-98 | the stream is running again afterwards with one more stop and one more start, and the invariant holds; the outcome is `CycleOutcome` of the inputs; the stream's log grows by exactly `CycleSteps` of the outcome, in that order; the printer gets exactly one job (the image path, 2 line feeds) when the cycle printed and none otherwise |
| Orchestrator.ValidateTrack | main.js:80 | the first stage yields `getTrackInfo`'s verdict on the payload, and the log gains one validation entry |
| Orchestrator.RenderAndPrint | main.js:81-97 | for a validated track the cycle ends as `RenderOutcome` says; the log gains the render, then the print and the start or only the start; the stream runs again with one more start; the printer gets the job only when the image was printed |
| Orchestrator.RenderTrack | main.js:81 | the second stage yields `getAndDitherImage`'s verdict on the track, and the log gains one render entry |
| Orchestrator.SettleRender | main.js:82-97 | a resolved path is printed with 2 line feeds and the stream started in the print callback; a rejection starts the stream in the catch handler without printing; the outcome is the settled result's |

## Left out

- The GraphicsMagick chain (main.js:134-170): sharpen, monochrome, dither,
  border, gravity, extent, fonts, the rotations and `write`. These are foreign
  image operations. The model keeps which text is drawn and where the file is
  written, and treats everything else as one step whose error is a parameter.
- The HTTP download via `request` (main.js:134). It is network I/O and is part
  of the same opaque step.
- Render.GetAndDitherImage: when `processText` throws, the download has already
  been requested. The model only records that the promise rejects.
- The last.fm client, the stream's `error` handler and its logging
  (main.js:31-37, 68-74). These are network I/O. The stream keeps only its
  running flag, counts of starts and stops, and a ghost log of the steps, for
  the proofs.
- The serial port, the printer's heating parameters, its `ready` event and the
  serial protocol (main.js:25-27, 41-66). These are device I/O. The numeric
  conversion of PRINTER_BAUDRATE (`+PRINTER_BAUDRATE`) is not modelled: the
  value is passed on as text.
- `dotenv`, `process.env`, `console` logging, `__dirname` and `new Date()`.
  These are environment and clock access. The settings, the directory and the
  ISO timestamp are parameters.
- Orchestrator.OnNowPlaying: promise scheduling is sequential in the model. The
  print callback is assumed to fire, and an exception thrown by the printer
  driver itself is not modelled. The log's validation and render entries are
  ghost appends made where those pure stages run. The print callback is fixed to
  the handler's own, which starts the track stream: `PrintImage` takes that
  stream.
- JsString.ToUpperCase: covers ASCII letters only. Full Unicode upper-casing
  can change a string's length (for example 'ß' becomes "SS"). String length is
  counted in characters, not UTF-16 code units.
- Overlay.NiceDateOfIso: covers the 24-character form that `toISOString` gives
  for years 0 to 9999. The expanded six-digit years (`+YYYYYY-…`) are left out.
  `NiceDate` itself is defined on every string.
- Payload values of other JavaScript types are left out. This includes a
  non-string `name`, an `image` that is not an array, and `null` entries.
- The `!track` tests at main.js:107 and main.js:189 never fire on a track built
  by `getTrackInfo`, so the model has no branch for them.
