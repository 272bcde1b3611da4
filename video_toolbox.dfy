/**
 * The VideoToolbox panel of components/ToolRenderer.tsx: AI video
 * generation (submit, poll until the operation is done, fetch the video)
 * with a rotating progress message, and the placeholder trim that hands the
 * uploaded file back.
 */
module VideoSuite {
  import opened Optional
  import opened Types
  import opened JsStrings
  import opened ObjectUrls

  /** The progress messages, shown in turn every time the progress timer fires. */
  const Messages: seq<string> := [
    "Analyzing your creative vision...",
    "Synthesizing pixel-perfect frames...",
    "Injecting cinematic motion...",
    "Applying high-definition textures...",
    "Fine-tuning frame consistency...",
    "Finalizing your masterpiece..."
  ]

  const PromptAlert := "Please enter a video prompt."
  const KeyAlert := "API Key error. Please re-select your key."
  const FailedAlert := "Video generation failed. Please try again."
  const TrimMessage := "Optimizing video structure..."

  /** The message shown at the `k`-th firing of the progress timer, counting from 0. */
  function ProgressMessage(k: nat): string {
    Messages[k % |Messages|]
  }

  /** The rotation has period six and shows six different messages. */
  lemma ProgressRotation(j: nat, k: nat)
    ensures ProgressMessage(k + 6) == ProgressMessage(k)
    ensures ProgressMessage(j) == ProgressMessage(k) <==> j % 6 == k % 6
  {
    assert |Messages| == 6;
    assert (k + 6) % 6 == k % 6;
    var m := Messages;
    assert m[0] != m[1] && m[0] != m[2] && m[0] != m[3] && m[0] != m[4] && m[0] != m[5];
    assert m[1] != m[2] && m[1] != m[3] && m[1] != m[4] && m[1] != m[5];
    assert m[2] != m[3] && m[2] != m[4] && m[2] != m[5];
    assert m[3] != m[4] && m[3] != m[5];
    assert m[4] != m[5];
  }

  datatype VideoFile = VideoFile(name: string, size: nat)

  /** What an object URL of this panel was created for. */
  datatype VideoBlob = UploadedVideo(file: VideoFile) | DownloadedVideo(uri: string)

  /** An error the service throws; whether its message reads "Requested entity was not found". */
  datatype Failure = Failure(entityNotFound: bool)

  /** An answer about the generation operation: still running, done (with the video's uri, if any), or an error. */
  datatype Status = Pending | Done(uri: Option<string>) | Threw(failure: Failure)

  /**
   * The remote side of one generation, fixed in advance: whether a key is
   * selected, the answer to the request (`statuses[0]`) and to each later
   * poll (`statuses[i]`), how often the progress timer fires during the
   * wait before each poll, and whether fetching the video fails.
   */
  datatype VideoService = VideoService(
    hasKey: bool,
    statuses: seq<Status>,
    ticks: seq<nat>,
    fetch: Option<Failure>)

  predicate Settles(statuses: seq<Status>) {
    exists k | 0 <= k < |statuses| :: !statuses[k].Pending?
  }

  /** The position of the first answer that is not Pending: the number of polls made. */
  function Settle(statuses: seq<Status>): (r: nat)
    requires Settles(statuses)
    ensures r < |statuses| && !statuses[r].Pending?
    ensures forall j | 0 <= j < r :: statuses[j].Pending?
  {
    if !statuses[0].Pending? then 0
    else
      var k :| 0 <= k < |statuses| && !statuses[k].Pending?;
      assert !statuses[1..][k - 1].Pending?;
      var r := Settle(statuses[1..]);
      assert forall j | 1 <= j < |statuses| :: statuses[j] == statuses[1..][j - 1];
      r + 1
  }

  /** The message on screen: the last one shown, or the one there before. */
  function Latest(before: string, shown: seq<string>): string {
    if shown == [] then before else shown[|shown| - 1]
  }

  function Sum(s: seq<nat>): nat {
    if s == [] then 0 else Sum(s[..|s| - 1]) + s[|s| - 1]
  }

  /** How a generation ends. */
  datatype JobOutcome = Ready(uri: string) | NoVideo | KeyError | GenerationFailed

  function FailureOutcome(f: Failure): JobOutcome {
    if f.entityNotFound then KeyError else GenerationFailed
  }

  function Outcome(svc: VideoService): JobOutcome
    requires Settles(svc.statuses)
  {
    match svc.statuses[Settle(svc.statuses)]
    case Threw(f) => FailureOutcome(f)
    case Done(uri) =>
      if uri.None? || uri.value == "" then NoVideo
      else if svc.fetch.Some? then FailureOutcome(svc.fetch.value)
      else Ready(uri.value)
  }

  /** A video is only ever obtained from an operation that reported done, after every earlier answer was Pending. */
  lemma ReadyOnlyAfterDone(svc: VideoService)
    requires Settles(svc.statuses)
    requires Outcome(svc).Ready? || Outcome(svc).NoVideo?
    ensures var n := Settle(svc.statuses);
      svc.statuses[n].Done? &&
      forall j | 0 <= j < n :: svc.statuses[j].Pending?
  {
  }

  class VideoToolbox {
    const tool: Tool
    const urls: Registry<VideoBlob>
    var prompt: string
    var videoFile: Option<VideoFile>
    var loading: bool
    var loadingMsg: string
    var resultVideoUrl: Option<ObjectUrl>
    /** The progress interval is installed and not yet cleared. */
    var timerRunning: bool
    /** generateVideos requests sent. */
    var requests: nat
    /** getVideosOperation polls sent. */
    var polls: nat
    /** Key-selection dialogs opened. */
    var keySelections: nat
    /** The progress messages shown during the latest generation, in order. */
    ghost var shown: seq<string>

    constructor(tool: Tool)
      ensures this.tool == tool && fresh(urls) && urls.targets == [] && urls.revoked == {}
      ensures prompt == "" && videoFile == None && !loading && loadingMsg == ""
      ensures resultVideoUrl == None && !timerRunning
      ensures requests == 0 && polls == 0 && keySelections == 0 && shown == []
    {
      this.tool := tool;
      urls := new Registry();
      prompt := "";
      videoFile := None;
      loading := false;
      loadingMsg := "";
      resultVideoUrl := None;
      timerRunning := false;
      requests := 0;
      polls := 0;
      keySelections := 0;
      shown := [];
    }

    method SetPrompt(p: string)
      modifies this`prompt
      ensures prompt == p && videoFile == old(videoFile) && resultVideoUrl == old(resultVideoUrl)
      ensures requests == old(requests) && polls == old(polls) && keySelections == old(keySelections)
    {
      prompt := p;
    }

    /** The file input: the first chosen file, or none. */
    method SelectVideoFile(chosen: seq<VideoFile>)
      modifies this`videoFile
      ensures videoFile == (if chosen == [] then None else Some(chosen[0]))
      ensures prompt == old(prompt) && resultVideoUrl == old(resultVideoUrl)
    {
      videoFile := if chosen == [] then None else Some(chosen[0]);
    }

    /**
     * handleGenerate. A blank prompt only alerts and sends nothing. Otherwise
     * one request is sent and the operation is polled until it is no longer
     * pending, the progress timer showing the messages in rotation; a done
     * operation's video is fetched and gets a new URL; errors alert, and a
     * key error reopens key selection. The timer is cleared and loading is
     * off at the end.
     */
    method HandleGenerate(svc: VideoService) returns (alert: Option<string>)
      requires !IsBlank(prompt) ==> Settles(svc.statuses) && |svc.ticks| == |svc.statuses|
      modifies this`loading, this`shown, this`timerRunning, this`keySelections, this`requests
      modifies this`loadingMsg, this`polls, this`resultVideoUrl, urls
      ensures prompt == old(prompt) && videoFile == old(videoFile)
      ensures urls.revoked == old(urls.revoked)
      ensures IsBlank(old(prompt)) ==>
        alert == Some(PromptAlert) &&
        requests == old(requests) && polls == old(polls) && keySelections == old(keySelections) &&
        loading == old(loading) && loadingMsg == old(loadingMsg) && timerRunning == old(timerRunning) &&
        resultVideoUrl == old(resultVideoUrl) && urls.targets == old(urls.targets) && shown == old(shown)
      ensures !IsBlank(old(prompt)) ==>
        requests == old(requests) + 1 && polls == old(polls) + Settle(svc.statuses) &&
        !loading && !timerRunning
      ensures !IsBlank(old(prompt)) ==>
        |shown| == Sum(svc.ticks[..Settle(svc.statuses)]) &&
        forall k | 0 <= k < |shown| :: shown[k] == ProgressMessage(k)
      ensures !IsBlank(old(prompt)) ==>
        loadingMsg == Latest(old(loadingMsg), shown)
      ensures !IsBlank(old(prompt)) ==>
        keySelections == old(keySelections) + (if svc.hasKey then 0 else 1) +
          (if Outcome(svc) == KeyError then 1 else 0)
      ensures !IsBlank(old(prompt)) ==>
        match Outcome(svc)
        case Ready(uri) =>
          alert == None && resultVideoUrl == Some(ObjectUrl(|old(urls.targets)|)) &&
          urls.targets == old(urls.targets) + [DownloadedVideo(uri)]
        case NoVideo =>
          alert == None && resultVideoUrl == old(resultVideoUrl) && urls.targets == old(urls.targets)
        case KeyError =>
          alert == Some(KeyAlert) && resultVideoUrl == old(resultVideoUrl) && urls.targets == old(urls.targets)
        case GenerationFailed =>
          alert == Some(FailedAlert) && resultVideoUrl == old(resultVideoUrl) && urls.targets == old(urls.targets)
    {
      if IsBlank(prompt) {
        alert := Some(PromptAlert);
        return;
      }
      alert := Generate(svc);
    }

    /** handleGenerate past the prompt guard: the try and finally blocks. */
    method Generate(svc: VideoService) returns (alert: Option<string>)
      requires Settles(svc.statuses) && |svc.ticks| == |svc.statuses|
      modifies this`loading, this`shown, this`timerRunning, this`keySelections, this`requests
      modifies this`loadingMsg, this`polls, this`resultVideoUrl, urls
      ensures urls.revoked == old(urls.revoked)
      ensures requests == old(requests) + 1 && polls == old(polls) + Settle(svc.statuses)
      ensures !loading && !timerRunning
      ensures |shown| == Sum(svc.ticks[..Settle(svc.statuses)])
      ensures forall k | 0 <= k < |shown| :: shown[k] == ProgressMessage(k)
      ensures loadingMsg == Latest(old(loadingMsg), shown)
      ensures keySelections == old(keySelections) + (if svc.hasKey then 0 else 1) +
        (if Outcome(svc) == KeyError then 1 else 0)
      ensures match Outcome(svc)
        case Ready(uri) =>
          alert == None && resultVideoUrl == Some(ObjectUrl(|old(urls.targets)|)) &&
          urls.targets == old(urls.targets) + [DownloadedVideo(uri)]
        case NoVideo =>
          alert == None && resultVideoUrl == old(resultVideoUrl) && urls.targets == old(urls.targets)
        case KeyError =>
          alert == Some(KeyAlert) && resultVideoUrl == old(resultVideoUrl) && urls.targets == old(urls.targets)
        case GenerationFailed =>
          alert == Some(FailedAlert) && resultVideoUrl == old(resultVideoUrl) && urls.targets == old(urls.targets)
    {
      loading := true;
      shown := [];
      timerRunning := true;

      if !svc.hasKey {
        keySelections := keySelections + 1;
      }
      requests := requests + 1;
      var i := PollUntilSettled(svc);
      alert := Conclude(svc, i);
      timerRunning := false;
      loading := false;
    }

    /**
     * The interval callback of the progress timer, at its `msgIdx`-th firing
     * in the current generation.
     */
    method Tick(msgIdx: nat)
      requires msgIdx == |shown| && forall k | 0 <= k < |shown| :: shown[k] == ProgressMessage(k)
      modifies this`loadingMsg, this`shown
      ensures shown == old(shown) + [ProgressMessage(msgIdx)] && loadingMsg == ProgressMessage(msgIdx)
      ensures forall k | 0 <= k < |shown| :: shown[k] == ProgressMessage(k)
    {
      loadingMsg := Messages[msgIdx % |Messages|];
      shown := shown + [loadingMsg];
    }

    /**
     * The polling loop of handleGenerate: while the operation is pending,
     * wait (the progress timer fires meanwhile) and ask again. Returns the
     * position of the answer that ended the loop.
     */
    method PollUntilSettled(svc: VideoService) returns (i: nat)
      requires Settles(svc.statuses) && |svc.ticks| == |svc.statuses|
      requires shown == [] 
      modifies this`loadingMsg, this`shown, this`polls
      ensures i == Settle(svc.statuses)
      ensures polls == old(polls) + i
      ensures |shown| == Sum(svc.ticks[..i])
      ensures forall k | 0 <= k < |shown| :: shown[k] == ProgressMessage(k)
      ensures loadingMsg == Latest(old(loadingMsg), shown)
    {
      var msgIdx := 0;
      var operation := svc.statuses[0];
      i := 0;
      while operation.Pending?
        invariant 0 <= i < |svc.statuses| && operation == svc.statuses[i]
        invariant forall j | 0 <= j < i :: svc.statuses[j].Pending?
        invariant polls == old(polls) + i
        invariant msgIdx == |shown| == Sum(svc.ticks[..i])
        invariant forall k | 0 <= k < |shown| :: shown[k] == ProgressMessage(k)
        invariant loadingMsg == Latest(old(loadingMsg), shown)
        decreases |svc.statuses| - i
      {
        // The 10-second wait, during which the progress timer fires.
        var t := 0;
        while t < svc.ticks[i]
          invariant 0 <= t <= svc.ticks[i]
          invariant msgIdx == |shown| == Sum(svc.ticks[..i]) + t
          invariant forall k | 0 <= k < |shown| :: shown[k] == ProgressMessage(k)
          invariant loadingMsg == Latest(old(loadingMsg), shown)
          invariant polls == old(polls) + i
        {
          Tick(msgIdx);
          msgIdx := msgIdx + 1;
          t := t + 1;
        }
        assert svc.ticks[..i + 1][..i] == svc.ticks[..i];
        polls := polls + 1;
        i := i + 1;
        operation := svc.statuses[i];
      }
    }

    /**
     * The end of handleGenerate once polling stopped at answer `i`: a done
     * operation's video is fetched and gets a new URL; an error alerts, and
     * a key error reopens key selection.
     */
    method Conclude(svc: VideoService, i: nat) returns (alert: Option<string>)
      requires Settles(svc.statuses) && i == Settle(svc.statuses)
      modifies this`resultVideoUrl, this`keySelections, urls
      ensures urls.revoked == old(urls.revoked)
      ensures keySelections == old(keySelections) + (if Outcome(svc) == KeyError then 1 else 0)
      ensures match Outcome(svc)
        case Ready(uri) =>
          alert == None && resultVideoUrl == Some(ObjectUrl(|old(urls.targets)|)) &&
          urls.targets == old(urls.targets) + [DownloadedVideo(uri)]
        case NoVideo =>
          alert == None && resultVideoUrl == old(resultVideoUrl) && urls.targets == old(urls.targets)
        case KeyError =>
          alert == Some(KeyAlert) && resultVideoUrl == old(resultVideoUrl) && urls.targets == old(urls.targets)
        case GenerationFailed =>
          alert == Some(FailedAlert) && resultVideoUrl == old(resultVideoUrl) && urls.targets == old(urls.targets)
    {
      alert := None;
      var failure: Option<Failure> := None;
      match svc.statuses[i] {
        case Threw(f) =>
          failure := Some(f);
        case Done(uri) =>
          var downloadLink := uri;
          if downloadLink.Some? && downloadLink.value != "" {
            if svc.fetch.Some? {
              failure := svc.fetch;
            } else {
              var u := urls.Create(DownloadedVideo(downloadLink.value));
              resultVideoUrl := Some(u);
            }
          }
      }
      if failure.Some? {
        if failure.value.entityNotFound {
          alert := Some(KeyAlert);
          keySelections := keySelections + 1;
        } else {
          alert := Some(FailedAlert);
        }
      }
    }

    /**
     * handleTrim: with no uploaded file nothing happens; otherwise, after the
     * artificial delay, the result is a new URL for the uploaded file itself.
     */
    method HandleTrim()
      modifies this`loading, this`loadingMsg, this`resultVideoUrl, urls
      ensures prompt == old(prompt) && videoFile == old(videoFile) && urls.revoked == old(urls.revoked)
      ensures requests == old(requests) && polls == old(polls) && keySelections == old(keySelections)
      ensures old(videoFile).None? ==>
        loading == old(loading) && loadingMsg == old(loadingMsg) &&
        resultVideoUrl == old(resultVideoUrl) && urls.targets == old(urls.targets)
      ensures old(videoFile).Some? ==>
        !loading && loadingMsg == TrimMessage &&
        resultVideoUrl == Some(ObjectUrl(|old(urls.targets)|)) &&
        urls.targets == old(urls.targets) + [UploadedVideo(old(videoFile).value)]
    {
      var file := videoFile;
      if file.None? {
        return;
      }
      loading := true;
      loadingMsg := TrimMessage;
      var u := urls.Create(UploadedVideo(file.value));
      resultVideoUrl := Some(u);
      loading := false;
    }

    /** "Create Another": clears the result, the prompt and the uploaded file. */
    method CreateAnother()
      modifies this`resultVideoUrl, this`prompt, this`videoFile
      ensures resultVideoUrl == None && prompt == "" && videoFile == None
      ensures requests == old(requests) && polls == old(polls) && keySelections == old(keySelections)
    {
      resultVideoUrl := None;
      prompt := "";
      videoFile := None;
    }
  }

  /** A blank prompt sends no generation request and no poll. */
  method BlankPromptSendsNothing(tool: Tool, svc: VideoService) returns (requests: nat, polls: nat)
    ensures requests == 0 && polls == 0
  {
    var box := new VideoToolbox(tool);
    box.SetPrompt("  ");
    var _ := box.HandleGenerate(svc);
    requests, polls := box.requests, box.polls;
  }

  /** Trimming hands back the uploaded file itself. */
  method TrimEchoesFile(tool: Tool, f: VideoFile) returns (result: VideoBlob)
    ensures result == UploadedVideo(f)
  {
    var box := new VideoToolbox(tool);
    box.SelectVideoFile([f]);
    box.HandleTrim();
    result := box.urls.targets[box.resultVideoUrl.value.serial];
  }
}
