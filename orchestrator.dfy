/** The `nowPlaying` handler: pause the track stream, validate, render, print, and
    resume the stream on every way out of the cycle. */
module Orchestrator {
  import opened Wrappers
  import opened TrackInfo
  import opened Render

  /** How one cycle ends. */
  datatype Outcome =
    | ValidateFail(cause: Failure)
    | RenderFail(cause: Failure)
    | Printed(imagePath: string)

  /** What the handler does, in the order it does it. */
  datatype Step = StopStream | Validate | RenderImage | Print(imagePath: string, lineFeeds: nat) | StartStream

  /** What the render step reads from its surroundings: the script's directory
      (`__dirname`) and the clock, as an ISO timestamp. */
  datatype Context = Context(dir: string, nowIso: string)

  /** The blank lines fed after each printed image. */
  const PrintLineFeeds: nat := 2

  /** One print request handed to the printer driver. */
  datatype PrintJob = PrintJob(imagePath: string, lineFeeds: nat)

  /** How a cycle ends, as a function of the payload, the surroundings and the image
      writer's error. */
  function CycleOutcome(data: Option<Payload>, ctx: Context, writeError: Option<string>): Outcome
  {
    match GetTrackInfo(data)
    case Err(e) => ValidateFail(e)
    case Ok(track) => RenderOutcome(track, ctx, writeError)
  }

  /** How a cycle ends once its track has been validated. */
  function RenderOutcome(track: Track, ctx: Context, writeError: Option<string>): Outcome
  {
    Settled(GetAndDitherImage(track, ctx.dir, ctx.nowIso, writeError))
  }

  /** How a cycle ends once `getAndDitherImage` has settled. */
  function Settled(image: Result<string, Failure>): Outcome
  {
    match image
    case Err(e) => RenderFail(e)
    case Ok(path) => Printed(path)
  }

  /** A validator rejection ends the cycle with its cause and skips the render; a
      render rejection skips the print; otherwise the derived image path of the
      validated track is printed. */
  lemma CycleOutcomeStages(data: Option<Payload>, ctx: Context, writeError: Option<string>)
    ensures var o := CycleOutcome(data, ctx, writeError);
      (o.ValidateFail? <==> GetTrackInfo(data).Err?) &&
      (o.ValidateFail? ==> o.cause == GetTrackInfo(data).error) &&
      (o.RenderFail? <==>
         GetTrackInfo(data).Ok? &&
         GetAndDitherImage(GetTrackInfo(data).value, ctx.dir, ctx.nowIso, writeError).Err?) &&
      (o.Printed? ==>
         GetTrackInfo(data).Ok? && writeError.None? &&
         o.imagePath == ImagePath(ctx.dir, GetTrackInfo(data).value.imageUrl))
  {
  }

  /** How many times `s` occurs in `steps`. */
  function Count(steps: seq<Step>, s: Step): (n: nat)
    ensures n <= |steps|
    ensures n == 0 <==> s !in steps
  {
    if steps == [] then 0 else (if steps[0] == s then 1 else 0) + Count(steps[1..], s)
  }

  lemma CountAppend(a: seq<Step>, b: seq<Step>, s: Step)
    ensures Count(a + b, s) == Count(a, s) + Count(b, s)
  {
    if a != [] {
      assert (a + b)[1..] == a[1..] + b;
      CountAppend(a[1..], b, s);
    } else {
      assert a + b == b;
    }
  }

  /** The steps of a cycle with outcome `o`: stop the stream, validate, then the
      render and the print where the cycle got that far, and start the stream. */
  function CycleSteps(o: Outcome): (steps: seq<Step>)
    ensures |steps| == (if o.ValidateFail? then 3 else if o.RenderFail? then 4 else 5)
    ensures steps[0] == StopStream && steps[|steps| - 1] == StartStream
  {
    var validated := [StopStream, Validate];
    var rendered := if o.ValidateFail? then validated else validated + [RenderImage];
    var printed := if o.Printed? then rendered + [Print(o.imagePath, PrintLineFeeds)] else rendered;
    printed + [StartStream]
  }

  /** The steps of a cycle with outcome `o` split as the stream stop and the
      validation, the work that follows, and the stream start. */
  function CycleWork(o: Outcome): (work: seq<Step>)
    ensures CycleSteps(o) == [StopStream, Validate] + work + [StartStream]
  {
    match o
    case ValidateFail(_) => []
    case RenderFail(_) => [RenderImage]
    case Printed(path) => [RenderImage, Print(path, PrintLineFeeds)]
  }

  /** In every cycle the stream is stopped first and validation comes straight
      after; the stream is started as the last step; nothing is rendered after a
      validation rejection, and something is printed exactly when the cycle
      printed. */
  lemma CycleStepsOrder(o: Outcome)
    ensures var steps := CycleSteps(o);
      |steps| >= 3 && steps[0] == StopStream && steps[1] == Validate &&
      steps[|steps| - 1] == StartStream &&
      (RenderImage in steps <==> !o.ValidateFail?) &&
      ((exists i :: 0 <= i < |steps| && steps[i].Print?) <==> o.Printed?)
  {
    var steps := CycleSteps(o);
    assert steps == [StopStream, Validate] + CycleWork(o) + [StartStream];
    if o.Printed? {
      assert steps[3].Print?;
    }
  }

  /** In every cycle the stream is stopped exactly once and started exactly once,
      and an image that is printed is printed once. */
  lemma {:induction false} CycleStepsCounts(o: Outcome)
    ensures Count(CycleSteps(o), StartStream) == 1 && Count(CycleSteps(o), StopStream) == 1
    ensures o.Printed? ==> Count(CycleSteps(o), Print(o.imagePath, PrintLineFeeds)) == 1
  {
    var head, work := [StopStream, Validate], CycleWork(o);
    assert StartStream !in work && StopStream !in work;
    CountAppend(head, work, StartStream);
    CountAppend(head + work, [StartStream], StartStream);
    CountAppend(head, work, StopStream);
    CountAppend(head + work, [StartStream], StopStream);
    if o.Printed? {
      var p := Print(o.imagePath, PrintLineFeeds);
      assert Count(work, p) == 1;
      CountAppend(head, work, p);
      CountAppend(head + work, [StartStream], p);
    }
  }

  /** A payload without artwork ends its cycle in the validator: nothing is rendered
      or printed, and the stream is still started once. */
  lemma NoArtworkNeverRenders(data: Option<Payload>, ctx: Context, writeError: Option<string>)
    requires data.None? || data.value.image.None? || data.value.image.value == []
    ensures CycleOutcome(data, ctx, writeError) == ValidateFail(NoAlbumArt)
    ensures CycleSteps(CycleOutcome(data, ctx, writeError)) == [StopStream, Validate, StartStream]
  {
  }

  /** The last.fm track stream: it emits now-playing events while running. */
  class TrackStream {
    var running: bool
    var starts: nat
    var stops: nat

    /** What the script has done so far, in order: the stream's stops and starts,
        and the validations, renders and print jobs of the cycles in between. It
        exists for the proofs only. */
    ghost var log: seq<Step>

    /** The counts agree with the flag: a running stream has been started once more
        than it has been stopped, a stopped one as often as stopped. `Start` and
        `Stop` do not guard against a repeated call, as the handlers never make
        one; `OnNowPlaying` keeps this balance. */
    ghost predicate Valid()
      reads this
    {
      starts == stops + (if running then 1 else 0)
    }

    /** `lastfm.stream(username)`: a stream that has not been started. */
    constructor ()
      ensures Valid() && !running && starts == 0 && stops == 0 && log == []
    {
      running, starts, stops := false, 0, 0;
      log := [];
    }

    method Start()
      modifies this
      ensures running && starts == old(starts) + 1 && stops == old(stops)
      ensures log == old(log) + [StartStream]
    {
      running, starts := true, starts + 1;
      log := log + [StartStream];
    }

    method Stop()
      modifies this
      ensures !running && stops == old(stops) + 1 && starts == old(starts)
      ensures log == old(log) + [StopStream]
    {
      running, stops := false, stops + 1;
      log := log + [StopStream];
    }
  }

  /** The thermal printer driver, reduced to the jobs it has been given. */
  class ThermalPrinter {
    var jobs: seq<PrintJob>

    constructor ()
      ensures jobs == []
    {
      jobs := [];
    }

    /** `printImage(path).lineFeed(n).print(callback)` with the handler's callback,
        which starts `stream` again: the job goes out, the stream's log records it,
        and then the callback fires. */
    method PrintImage(path: string, lineFeeds: nat, stream: TrackStream)
      modifies this, stream
      ensures jobs == old(jobs) + [PrintJob(path, lineFeeds)]
      ensures stream.running && stream.starts == old(stream.starts) + 1 && stream.stops == old(stream.stops)
      ensures stream.log == old(stream.log) + [Print(path, lineFeeds), StartStream]
    {
      jobs := jobs + [PrintJob(path, lineFeeds)];
      stream.log := stream.log + [Print(path, lineFeeds)];
      // the print callback
      stream.Start();
    }
  }

  /** The printer's `ready` handler: open the stream for the user and start it. */
  method OnPrinterReady() returns (stream: TrackStream)
    ensures fresh(stream) && stream.Valid() && stream.running
    ensures stream.starts == 1 && stream.stops == 0 && stream.log == [StartStream]
  {
    stream := new TrackStream();
    stream.Start();
  }

  /** The `nowPlaying` handler for one event. The stream is stopped, then
      `getTrackInfo`, `getAndDitherImage` and the print run in turn; the stream is
      started again in the print callback or in the catch handler, so it is
      running after every cycle and has been stopped and started once each. The
      log gets exactly the steps of `CycleSteps`, in that order. */
  method OnNowPlaying(stream: TrackStream, printer: ThermalPrinter, data: Option<Payload>,
                      ctx: Context, writeError: Option<string>)
    returns (outcome: Outcome)
    requires stream.Valid() && stream.running
    modifies stream, printer
    ensures stream.Valid() && stream.running
    ensures stream.starts == old(stream.starts) + 1 && stream.stops == old(stream.stops) + 1
    ensures outcome == CycleOutcome(data, ctx, writeError)
    ensures stream.log == old(stream.log) + CycleSteps(outcome)
    ensures printer.jobs == old(printer.jobs) +
              (if outcome.Printed? then [PrintJob(outcome.imagePath, PrintLineFeeds)] else [])
  {
    ghost var before := stream.log;
    stream.Stop();
    var info := ValidateTrack(stream, data);
    match info {
      case Err(e) =>
        // the catch handler, after `getTrackInfo` rejected
        stream.Start();
        outcome := ValidateFail(e);
      case Ok(track) =>
        outcome := RenderAndPrint(stream, printer, track, ctx, writeError);
    }
    CycleLog(before, outcome);
  }

  /** `.then(getAndDitherImage).then(print)` for a validated track: render the image;
      print it and start the stream in the print callback, or start the stream in the
      catch handler when the render rejects. */
  method RenderAndPrint(stream: TrackStream, printer: ThermalPrinter, track: Track,
                        ctx: Context, writeError: Option<string>)
    returns (outcome: Outcome)
    requires stream.Valid() && !stream.running
    modifies stream, printer
    ensures stream.Valid() && stream.running
    ensures stream.starts == old(stream.starts) + 1 && stream.stops == old(stream.stops)
    ensures outcome == RenderOutcome(track, ctx, writeError)
    ensures stream.log == old(stream.log) + [RenderImage] +
              (if outcome.Printed? then [Print(outcome.imagePath, PrintLineFeeds), StartStream]
               else [StartStream])
    ensures printer.jobs == old(printer.jobs) +
              (if outcome.Printed? then [PrintJob(outcome.imagePath, PrintLineFeeds)] else [])
  {
    var image := RenderTrack(stream, track, ctx, writeError);
    outcome := SettleRender(stream, printer, image);
  }

  /** The handlers that run once `getAndDitherImage` has settled: on a path, print
      it and start the stream in the print callback; on a rejection, start the
      stream in the catch handler. */
  method SettleRender(stream: TrackStream, printer: ThermalPrinter, image: Result<string, Failure>)
    returns (outcome: Outcome)
    requires stream.Valid() && !stream.running
    modifies stream, printer
    ensures stream.Valid() && stream.running
    ensures stream.starts == old(stream.starts) + 1 && stream.stops == old(stream.stops)
    ensures outcome == Settled(image)
    ensures stream.log == old(stream.log) +
              (if outcome.Printed? then [Print(outcome.imagePath, PrintLineFeeds), StartStream]
               else [StartStream])
    ensures printer.jobs == old(printer.jobs) +
              (if outcome.Printed? then [PrintJob(outcome.imagePath, PrintLineFeeds)] else [])
  {
    match image {
      case Err(e) =>
        // the catch handler, after `getAndDitherImage` rejected
        stream.Start();
        outcome := RenderFail(e);
      case Ok(path) =>
        printer.PrintImage(path, PrintLineFeeds, stream);
        outcome := Printed(path);
    }
  }

  /** `getTrackInfo(track)`, the first stage of the chain; the log records it. */
  method ValidateTrack(stream: TrackStream, data: Option<Payload>) returns (info: Result<Track, Failure>)
    modifies stream`log
    ensures info == GetTrackInfo(data)
    ensures stream.log == old(stream.log) + [Validate]
  {
    info := GetTrackInfo(data);
    stream.log := stream.log + [Validate];
  }

  /** `getAndDitherImage(track)`, the second stage; the log records it. */
  method RenderTrack(stream: TrackStream, track: Track, ctx: Context, writeError: Option<string>)
    returns (image: Result<string, Failure>)
    modifies stream`log
    ensures image == GetAndDitherImage(track, ctx.dir, ctx.nowIso, writeError)
    ensures stream.log == old(stream.log) + [RenderImage]
  {
    image := GetAndDitherImage(track, ctx.dir, ctx.nowIso, writeError);
    stream.log := stream.log + [RenderImage];
  }

  /** The steps of a cycle, appended to a log one call at a time as the handler
      makes them. */
  lemma CycleLog(before: seq<Step>, o: Outcome)
    ensures o.ValidateFail? ==> before + CycleSteps(o) == before + [StopStream] + [Validate] + [StartStream]
    ensures !o.ValidateFail? ==>
              before + CycleSteps(o) ==
              before + [StopStream] + [Validate] + [RenderImage] +
              (if o.Printed? then [Print(o.imagePath, PrintLineFeeds), StartStream] else [StartStream])
  {
  }
}
