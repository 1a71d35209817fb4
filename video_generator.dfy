/** The video generator of components/VideoGenerator.tsx: the rotating
    loading message, the long-running generation job (submit once, poll
    until done, build the download URL, classify the failure), the
    key-selection flag and the upload resets.

    The remote calls are not modelled: each awaited call is a `Step` that
    says how often the loading-message interval fired while the component
    waited on it and what the call returned or threw. The ten-second wait
    before each status query belongs to the step of that query. */
module VideoGeneration {
  import opened JsValues
  import opened Types

  const LoadingMessages: seq<string> := [
    "Warming up the video cameras...",
    "Directing the digital actors...",
    "Rendering the first few frames...",
    "Applying special effects...",
    "Finalizing the soundtrack...",
    "This can take a few minutes, please wait...",
    "Almost there, adding the final touches..."
  ]

  const DEFAULT_PROMPT := "A woman dancing and preaching the gospel"
  const VIDEO_MODEL := "veo-3.1-fast-generate-preview"
  const VIDEO_RESOLUTION := "720p"
  const NO_STARTING_IMAGE := "Please upload a starting image."
  const KEY_SELECTION_UNAVAILABLE := "API key selection is not available in this environment."
  const NO_DOWNLOAD_LINK := "Video generation completed, " + "but no download link was found."
  const ENTITY_NOT_FOUND := "Requested entity was not found"
  const KEY_ERROR := "API Key error. Please re-select your API Key."
  const FAILED_PREFIX := "Video generation failed: "

  // ---------------------------------------------------------------------------
  // The loading-message ticker

  /** No message occurs twice in the list. */
  ghost predicate Distinct(messages: seq<string>)
  {
    forall i, j :: 0 <= i < j < |messages| ==> messages[i] != messages[j]
  }

  lemma LoadingMessagesDistinct()
    ensures Distinct(LoadingMessages) && |LoadingMessages| == 7
  {
  }

  /** The interval's updater over a list of messages: the message after the one found at
      `indexOf(prev)`, with the index taken modulo the list's length. */
  function NextIn(messages: seq<string>, prev: string): string
    requires |messages| > 0
  {
    var currentIndex := IndexOf(messages, prev);
    IndexOfFindsFirst(messages, prev);
    messages[(currentIndex + 1) % |messages|]
  }

  /** Adding one modulo `n` steps to the next position, from the last back to the first;
      from -1 (not found) it gives the first. */
  lemma ModWrap(c: int, n: int)
    requires -1 <= c < n && 0 < n
    ensures (c + 1) % n == if c + 1 < n then c + 1 else 0
  {
  }

  /** In a list without repeats the updater moves to the following message, the last wrapping
      to the first; a message not in the list is followed by the first one. */
  lemma NextInFollows(messages: seq<string>, prev: string)
    requires Distinct(messages) && |messages| > 0
    ensures NextIn(messages, prev) in messages
    ensures prev !in messages ==> NextIn(messages, prev) == messages[0]
    ensures forall i :: 0 <= i < |messages| - 1 && prev == messages[i] ==> NextIn(messages, prev) == messages[i + 1]
    ensures prev == messages[|messages| - 1] ==> NextIn(messages, prev) == messages[0]
  {
    IndexOfFindsFirst(messages, prev);
    ModWrap(IndexOf(messages, prev), |messages|);
  }

  /** In a list without repeats, the message at position `i` is followed by the one at `i + 1`,
      the last by the first. */
  lemma NextInAt(messages: seq<string>, i: nat)
    requires Distinct(messages) && i < |messages|
    ensures NextIn(messages, messages[i]) == if i + 1 < |messages| then messages[i + 1] else messages[0]
  {
    IndexOfFindsFirst(messages, messages[i]);
    assert IndexOf(messages, messages[i]) == i;
    ModWrap(i, |messages|);
  }

  /** The updater the component installs. */
  function NextMessage(prev: string): string
  {
    NextIn(LoadingMessages, prev)
  }

  /** Every tick lands on a list member: the next one, the last wrapping to the first,
      and an unknown message moving to the first. */
  lemma NextMessageFollows(prev: string)
    ensures NextMessage(prev) in LoadingMessages
    ensures prev !in LoadingMessages ==> NextMessage(prev) == LoadingMessages[0]
    ensures forall i :: 0 <= i < |LoadingMessages| - 1 && prev == LoadingMessages[i] ==>
      NextMessage(prev) == LoadingMessages[i + 1]
    ensures prev == LoadingMessages[|LoadingMessages| - 1] ==> NextMessage(prev) == LoadingMessages[0]
  {
    LoadingMessagesDistinct();
    NextInFollows(LoadingMessages, prev);
  }

  /** The message shown once the interval has fired `w` times since loading began: the one at
      position `w` modulo the list's length. */
  function Shown(w: nat): string
  {
    LoadingMessages[w % 7]
  }

  /** One more firing shows the next message. */
  lemma NextShown(w: nat)
    ensures NextMessage(Shown(w)) == Shown(w + 1)
  {
    LoadingMessagesDistinct();
    NextInAt(LoadingMessages, w % 7);
    SuccessorModSeven(w);
  }

  lemma SuccessorModSeven(w: nat)
    ensures (w + 1) % 7 == if w % 7 < 6 then w % 7 + 1 else 0
  {
  }

  /** Seven firings bring the message back, and it is always one of the list. */
  lemma ShownCycles(w: nat)
    ensures Shown(w + 7) == Shown(w)
    ensures Shown(w) in LoadingMessages
  {
    assert (w + 7) % 7 == w % 7;
  }

  // ---------------------------------------------------------------------------
  // The long-running operation

  datatype Video = Video(uri: Option<string>)
  datatype GeneratedVideo = GeneratedVideo(video: Option<Video>)
  datatype VideosResponse = VideosResponse(generatedVideos: Option<seq<GeneratedVideo>>)
  /** A long-running operation as the remote reports it; `done` may be absent. */
  datatype Operation = Operation(name: string, done: Option<bool>, response: Option<VideosResponse>)

  /** `operation.done` is truthy: a missing flag counts as pending, like `false`. */
  predicate IsDone(op: Operation)
  {
    op.done == Some(true)
  }

  /** `operation.response?.generatedVideos?.[0]?.video?.uri`. */
  function DownloadLink(op: Operation): Option<string>
  {
    if op.response.Some? && op.response.value.generatedVideos.Some?
       && |op.response.value.generatedVideos.value| > 0
       && op.response.value.generatedVideos.value[0].video.Some?
    then op.response.value.generatedVideos.value[0].video.value.uri
    else None
  }

  /** A call to the remote; each carries the API key the client was made with, even when unset. */
  datatype VideoCall =
    | GenerateVideos(apiKey: Option<string>, model: string, prompt: string, imageBytes: string, mimeType: string,
                     numberOfVideos: nat, resolution: string, aspectRatio: VideoAspectRatio)
    | GetVideosOperation(apiKey: Option<string>, operation: Operation)

  /** One awaited remote call: how often the loading-message interval fired meanwhile,
      and what the call returned or threw. */
  datatype Step = Step(ticks: nat, result: Result<Operation>)

  /** The remote's answers stop the loop that starts at `current`: some answer is done or throws. */
  predicate Settles(current: Operation, polls: seq<Step>)
    decreases |polls|
  {
    IsDone(current) ||
    (|polls| > 0 && (polls[0].result.Failure? || Settles(polls[0].result.value, polls[1..])))
  }

  /** What the polling did: the status queries it sent, the operation it ended with or the Error
      it threw, and how often the interval fired meanwhile. */
  datatype Run = Run(queries: seq<VideoCall>, final: Result<Operation>, ticks: nat)

  /** `while (!operation.done)`: wait, query the status of the latest operation, repeat. */
  function Poll(apiKey: Option<string>, current: Operation, polls: seq<Step>): Run
    requires Settles(current, polls)
    decreases |polls|
  {
    if IsDone(current) then Run([], Success(current), 0)
    else
      var query := GetVideosOperation(apiKey, current);
      match polls[0].result
      case Failure(m) => Run([query], Failure(m), polls[0].ticks)
      case Success(next) =>
        var rest := Poll(apiKey, next, polls[1..]);
        Run([query] + rest.queries, rest.final, polls[0].ticks + rest.ticks)
  }

  /** A run that continues after `queries` were sent and the interval fired `ticks` times. */
  function Resume(queries: seq<VideoCall>, ticks: nat, run: Run): Run
  {
    Run(queries + run.queries, run.final, ticks + run.ticks)
  }

  /** One turn of the loop: a pending operation is queried once, and the rest follows the answer. */
  lemma PollUnfold(apiKey: Option<string>, current: Operation, polls: seq<Step>)
    requires Settles(current, polls) && !IsDone(current)
    ensures |polls| > 0
    ensures polls[0].result.Failure? ==>
      Poll(apiKey, current, polls) == Run([GetVideosOperation(apiKey, current)], polls[0].result, polls[0].ticks)
    ensures polls[0].result.Success? ==> Settles(polls[0].result.value, polls[1..])
    ensures polls[0].result.Success? ==>
      Poll(apiKey, current, polls) ==
      Resume([GetVideosOperation(apiKey, current)], polls[0].ticks, Poll(apiKey, polls[0].result.value, polls[1..]))
  {
  }

  /** Resuming after a further query regroups the queries and the waiting. */
  lemma ResumeAppend(done: seq<VideoCall>, ticks: nat, query: VideoCall, t: nat, answer: Result<Operation>, polls: seq<Step>)
    requires answer.Success? ==> Settles(answer.value, polls)
    ensures answer.Success? ==>
      Resume(done, ticks, Resume([query], t, Poll(query.apiKey, answer.value, polls))) ==
      Resume(done + [query], ticks + t, Poll(query.apiKey, answer.value, polls))
    ensures Resume(done, ticks, Run([query], answer, t)) == Run(done + [query], answer, ticks + t)
  {
    if answer.Success? {
      var run := Poll(query.apiKey, answer.value, polls);
      assert done + ([query] + run.queries) == done + [query] + run.queries;
    }
  }

  /** One turn of the polling loop keeps the run so far and the run still to come adding up to the
      whole run: the query for the pending operation joins the queries sent, and the polling ends
      with the Error of a throwing answer or continues from the operation it returned. */
  lemma PollAdvance(apiKey: Option<string>, whole: Run, done: seq<VideoCall>, fired: nat,
                    operation: Operation, rest: seq<Step>)
    requires Settles(operation, rest) && !IsDone(operation)
    requires whole == Resume(done, fired, Poll(apiKey, operation, rest))
    ensures |rest| > 0
    ensures rest[0].result.Failure? ==>
      whole == Run(done + [GetVideosOperation(apiKey, operation)], rest[0].result, fired + rest[0].ticks)
    ensures rest[0].result.Success? ==>
      Settles(rest[0].result.value, rest[1..]) &&
      whole == Resume(done + [GetVideosOperation(apiKey, operation)], fired + rest[0].ticks,
                      Poll(apiKey, rest[0].result.value, rest[1..]))
  {
    PollUnfold(apiKey, operation, rest);
    ResumeAppend(done, fired, GetVideosOperation(apiKey, operation), rest[0].ticks, rest[0].result, rest[1..]);
  }

  /** The polling queries nothing when the operation is already done; otherwise its first query
      is for that operation, every query carries the key and asks about an operation not yet
      done, each later query asks about the operation the previous one returned, it stops on
      the first answer that is done or throws, and it never asks more often than it is answered;
      it ends with the operation it started from when that was done, and otherwise with the
      answer to its last query. */
  lemma {:induction false} PollQueries(apiKey: Option<string>, current: Operation, polls: seq<Step>)
    requires Settles(current, polls)
    ensures var run := Poll(apiKey, current, polls);
      && |run.queries| <= |polls|
      && (|run.queries| == 0 <==> IsDone(current))
      && (|run.queries| > 0 ==> run.queries[0] == GetVideosOperation(apiKey, current))
      && (forall k :: 0 <= k < |run.queries| ==>
            run.queries[k].GetVideosOperation? && run.queries[k].apiKey == apiKey && !IsDone(run.queries[k].operation))
      && (forall k :: 0 <= k < |run.queries| - 1 ==> polls[k].result == Success(run.queries[k + 1].operation))
      && (run.final.Success? ==> IsDone(run.final.value))
      && (run.final.Failure? ==> |run.queries| > 0 && polls[|run.queries| - 1].result == run.final)
      && run.final == (if |run.queries| == 0 then Success(current) else polls[|run.queries| - 1].result)
    decreases |polls|
  {
    if !IsDone(current) && polls[0].result.Success? {
      var next := polls[0].result.value;
      PollQueries(apiKey, next, polls[1..]);
      var rest := Poll(apiKey, next, polls[1..]);
      var run := Poll(apiKey, current, polls);
      assert run.queries == [GetVideosOperation(apiKey, current)] + rest.queries;
      forall k | 0 <= k < |run.queries| - 1
        ensures polls[k].result == Success(run.queries[k + 1].operation)
      {
        if k > 0 {
          assert polls[k] == polls[1..][k - 1];
        }
      }
      if |rest.queries| > 0 {
        assert polls[|run.queries| - 1] == polls[1..][|rest.queries| - 1];
      }
    }
  }

  /** The whole job: the submission, and the polling when the submission did not throw. */
  function Generation(apiKey: Option<string>, submission: Step, polls: seq<Step>): (run: Run)
    requires submission.result.Success? ==> Settles(submission.result.value, polls)
  {
    match submission.result
    case Failure(m) => Run([], Failure(m), submission.ticks)
    case Success(op) =>
      var run := Poll(apiKey, op, polls);
      Run(run.queries, run.final, submission.ticks + run.ticks)
  }

  /** What the try block ends with: the playable URL (the link with the key appended as a query
      parameter), or the message of the Error it threw. */
  function Completion(apiKey: Option<string>, final: Result<Operation>): (r: Result<string>)
    ensures r.Success? <==> final.Success? && Truthy(DownloadLink(final.value)) && Truthy(apiKey)
    ensures r.Success? ==>
      var link := DownloadLink(final.value).value;
      |link| < |r.value| && r.value[..|link|] == link && r.value[|link|..] == "&key=" + apiKey.value
    ensures final.Failure? ==> r == Failure(final.message)
    ensures final.Success? && r.Failure? ==> r.message == NO_DOWNLOAD_LINK
  {
    match final
    case Failure(m) => Failure(m)
    case Success(op) =>
      var link := DownloadLink(op);
      if Truthy(link) && Truthy(apiKey) then
        var url := link.value + "&key=" + apiKey.value;
        assert url[..|link.value|] == link.value;
        Success(url)
      else Failure(NO_DOWNLOAD_LINK)
  }

  /** The catch block's verdict: the error to show and whether the key selection stands. */
  datatype Report = Report(error: string, keepsKeySelection: bool)

  /** An Error mentioning a missing entity is taken for a rejected key; any other is shown prefixed. */
  function ReportFailure(message: string): (r: Report)
    ensures r.keepsKeySelection <==> !exists i :: OccursAt(message, ENTITY_NOT_FOUND, i)
    ensures r.keepsKeySelection ==> r.error == FAILED_PREFIX + message
    ensures !r.keepsKeySelection ==> r.error == KEY_ERROR
  {
    if Includes(message, ENTITY_NOT_FOUND) then Report(KEY_ERROR, false)
    else Report(FAILED_PREFIX + message, true)
  }

  /** What the component shows once the job has ended: the video's URL or an error, and whether
      the key selection still stands. */
  datatype Verdict = Verdict(videoUrl: Option<string>, error: Option<string>, keySelected: bool)

  /** The end of the try block or its catch: a URL is shown exactly when the job completed with a
      link and a key, and then nothing else changes; otherwise the reported error is shown, and
      the key selection is dropped exactly when the Error mentions a missing entity. */
  function Conclude(apiKey: Option<string>, final: Result<Operation>, keySelected: bool): (v: Verdict)
    ensures v.videoUrl.Some? <==> Completion(apiKey, final).Success?
    ensures v.videoUrl.Some? ==> v.videoUrl.value == Completion(apiKey, final).value && v.error == None && v.keySelected == keySelected
    ensures v.videoUrl.None? ==>
      var m := Completion(apiKey, final).message;
      && v.error == Some(ReportFailure(m).error)
      && (v.keySelected <==> keySelected && !exists i :: OccursAt(m, ENTITY_NOT_FOUND, i))
  {
    match Completion(apiKey, final)
    case Success(url) => Verdict(Some(url), None, keySelected)
    case Failure(m) =>
      var report := ReportFailure(m);
      Verdict(None, Some(report.error), keySelected && report.keepsKeySelection)
  }

  /** A completed job without a link is reported as a failed generation and keeps the key selection. */
  lemma MissingLinkKeepsKeySelection()
    ensures ReportFailure(NO_DOWNLOAD_LINK) == Report(FAILED_PREFIX + NO_DOWNLOAD_LINK, true)
  {
    assert ENTITY_NOT_FOUND[0] == 'R';
    ExcludedByCharacter(NO_DOWNLOAD_LINK, ENTITY_NOT_FOUND, 'R');
  }

  /** A job answered "not done" twice (the submission and one status) and then "done" sends
      two status queries, each for the latest operation. */
  lemma TwoPendingAnswersTwoQueries(apiKey: Option<string>, op0: Operation, op1: Operation, op2: Operation, t0: nat, t1: nat, t2: nat)
    requires !IsDone(op0) && !IsDone(op1) && IsDone(op2)
    ensures
      var run := Generation(apiKey, Step(t0, Success(op0)), [Step(t1, Success(op1)), Step(t2, Success(op2))]);
      run.queries == [GetVideosOperation(apiKey, op0), GetVideosOperation(apiKey, op1)] &&
      run.final == Success(op2) && run.ticks == t0 + t1 + t2
  {
    var polls := [Step(t1, Success(op1)), Step(t2, Success(op2))];
    assert polls[1..] == [Step(t2, Success(op2))];
    assert polls[1..][1..] == [];
    assert Settles(op2, []);
    assert Poll(apiKey, op2, []) == Run([], Success(op2), 0);
    assert Poll(apiKey, op1, polls[1..]) == Run([GetVideosOperation(apiKey, op1)], Success(op2), t2);
    assert Poll(apiKey, op0, polls) == Run([GetVideosOperation(apiKey, op0), GetVideosOperation(apiKey, op1)], Success(op2), t1 + t2);
  }

  // ---------------------------------------------------------------------------
  // The component

  class VideoGenerator {
    var apiKeySelected: bool
    var image: Option<UploadedImage>
    var prompt: string
    var aspectRatio: VideoAspectRatio
    var videoUrl: Option<string>
    var isLoading: bool
    var loadingMessage: string
    var error: Option<string>
    /** The calls sent to the remote, oldest first. */
    var sent: seq<VideoCall>

    ghost predicate Valid()
      reads this
    {
      loadingMessage in LoadingMessages
    }

    /** The component's initial state. */
    constructor ()
      ensures Valid()
      ensures !apiKeySelected && image == None && prompt == DEFAULT_PROMPT && aspectRatio == Video16x9
      ensures videoUrl == None && !isLoading && loadingMessage == LoadingMessages[0] && error == None
      ensures sent == []
    {
      apiKeySelected := false;
      image := None;
      prompt := DEFAULT_PROMPT;
      aspectRatio := Video16x9;
      videoUrl := None;
      isLoading := false;
      loadingMessage := LoadingMessages[0];
      error := None;
      sent := [];
    }

    /** The mount effect: with a key-selection facility, adopt its answer to "has a key been selected". */
    method CheckApiKey(hasSelectedApiKey: Option<bool>)
      modifies this`apiKeySelected
      ensures hasSelectedApiKey.Some? ==> apiKeySelected == hasSelectedApiKey.value
      ensures hasSelectedApiKey.None? ==> apiKeySelected == old(apiKeySelected)
    {
      if hasSelectedApiKey.Some? {
        apiKeySelected := hasSelectedApiKey.value;
      }
    }

    /** handleSelectKey: after the selection dialog the key counts as selected; without a
        facility an error is shown instead. */
    method SelectKey(facilityPresent: bool)
      modifies this`apiKeySelected, this`error
      ensures facilityPresent ==> apiKeySelected && error == old(error)
      ensures !facilityPresent ==> apiKeySelected == old(apiKeySelected) && error == Some(KEY_SELECTION_UNAVAILABLE)
    {
      if facilityPresent {
        apiKeySelected := true;
      } else {
        error := Some(KEY_SELECTION_UNAVAILABLE);
      }
    }

    /** handleFileChange: a new starting image clears the video and the error. */
    method FileChange(picked: Option<PickedFile>)
      modifies this`image, this`videoUrl, this`error
      ensures picked.None? ==> image == old(image) && videoUrl == old(videoUrl) && error == old(error)
      ensures picked.Some? && picked.value.contents.Success? ==>
        image == Some(UploadedImage(picked.value.objectUrl, picked.value.contents.value, picked.value.fileType)) &&
        videoUrl == None && error == None
      ensures picked.Some? && picked.value.contents.Failure? ==>
        image == old(image) && videoUrl == old(videoUrl) && error == Some(READ_FAILED)
    {
      if picked.Some? {
        match picked.value.contents
        case Success(base64) =>
          image := Some(UploadedImage(picked.value.objectUrl, base64, picked.value.fileType));
          videoUrl := None;
          error := None;
        case Failure(_) =>
          error := Some(READ_FAILED);
      }
    }

    method SetPrompt(text: string)
      modifies this`prompt
      ensures prompt == text
    {
      prompt := text;
    }

    method SetAspectRatio(ratio: VideoAspectRatio)
      modifies this`aspectRatio
      ensures aspectRatio == ratio
    {
      aspectRatio := ratio;
    }

    /** handleSubmit: without a starting image only an error is shown. Otherwise the job is
        submitted once and polled until the remote reports it done; the outcome is a URL or a
        reported failure, and loading stops either way. While loading, the interval moves the
        message on as often as it fired. */
    method Submit(apiKey: Option<string>, submission: Step, polls: seq<Step>)
      requires Valid()
      requires image.Some? && submission.result.Success? ==> Settles(submission.result.value, polls)
      modifies this
      ensures Valid()
      ensures image == old(image) && prompt == old(prompt) && aspectRatio == old(aspectRatio)
      ensures old(image).None? ==>
        error == Some(NO_STARTING_IMAGE) && isLoading == old(isLoading) && videoUrl == old(videoUrl) &&
        loadingMessage == old(loadingMessage) && apiKeySelected == old(apiKeySelected) &&
        sent == old(sent)
      ensures old(image).Some? ==>
        var run := Generation(apiKey, submission, polls);
        var request := GenerateVideos(apiKey, VIDEO_MODEL, prompt, image.value.base64, image.value.mimeType,
                                      1, VIDEO_RESOLUTION, aspectRatio);
        sent == old(sent) + [request] + run.queries &&
        !isLoading &&
        loadingMessage == Shown(run.ticks) &&
        Verdict(videoUrl, error, apiKeySelected) == Conclude(apiKey, run.final, old(apiKeySelected))
    {
      if image.None? {
        error := Some(NO_STARTING_IMAGE);
        return;
      }
      Begin(GenerateVideos(apiKey, VIDEO_MODEL, prompt, image.value.base64, image.value.mimeType,
                           1, VIDEO_RESOLUTION, aspectRatio));
      var outcome := Generate(apiKey, submission, polls);
      Settle(apiKey, outcome);
      isLoading := false;
    }

    /** Entering the loading state: earlier results are cleared, the first loading message is
        shown and the generation request goes out. */
    method Begin(request: VideoCall)
      modifies this`isLoading, this`error, this`videoUrl, this`loadingMessage, this`sent
      ensures isLoading && error == None && videoUrl == None && loadingMessage == Shown(0)
      ensures sent == old(sent) + [request]
    {
      isLoading := true;
      error := None;
      videoUrl := None;
      loadingMessage := LoadingMessages[0];
      sent := sent + [request];
    }

    /** Awaiting the generation request and then its operation, with the loading-message
        interval running from the first message. */
    method Generate(apiKey: Option<string>, submission: Step, polls: seq<Step>)
      returns (outcome: Result<Operation>)
      requires loadingMessage == Shown(0)
      requires submission.result.Success? ==> Settles(submission.result.value, polls)
      modifies this`sent, this`loadingMessage
      ensures
        var run := Generation(apiKey, submission, polls);
        sent == old(sent) + run.queries && outcome == run.final && loadingMessage == Shown(run.ticks)
    {
      Wait(0, submission.ticks);
      outcome := submission.result;
      if outcome.Success? {
        ghost var run := Poll(apiKey, outcome.value, polls);
        assert Generation(apiKey, submission, polls) == Run(run.queries, run.final, submission.ticks + run.ticks);
        var fired;
        outcome, fired := PollUntilDone(apiKey, outcome.value, polls);
        Wait(submission.ticks, fired);
      } else {
        assert Generation(apiKey, submission, polls) == Run([], outcome, submission.ticks);
        assert sent + [] == sent;
      }
    }

    /** The `while (!operation.done)` loop of handleSubmit: wait, query the status of the latest
        operation, and stop once an answer is done or a query throws. Returns how often the
        loading-message interval fired meanwhile. */
    method PollUntilDone(apiKey: Option<string>, first: Operation, polls: seq<Step>)
      returns (outcome: Result<Operation>, fired: nat)
      requires Settles(first, polls)
      modifies this`sent
      ensures
        var run := Poll(apiKey, first, polls);
        sent == old(sent) + run.queries && outcome == run.final && fired == run.ticks
    {
      ghost var whole := Poll(apiKey, first, polls);
      var queries: seq<VideoCall> := [];
      var operation := first;
      var rest := polls;
      fired := 0;
      while !IsDone(operation)
        invariant sent == old(sent)
        invariant Settles(operation, rest)
        invariant whole == Resume(queries, fired, Poll(apiKey, operation, rest))
        decreases |rest|
      {
        var query := GetVideosOperation(apiKey, operation);
        PollAdvance(apiKey, whole, queries, fired, operation, rest);
        var step := rest[0];
        queries := queries + [query];
        fired := fired + step.ticks;
        rest := rest[1..];
        match step.result
        case Failure(_) =>
          sent := sent + queries;
          outcome := step.result;
          return;
        case Success(next) =>
          operation := next;
      }
      assert queries + [] == queries;
      sent := sent + queries;
      outcome := Success(operation);
    }

    /** The loading-message interval firing `n` times while a call is awaited. */
    method Wait(ghost waited: nat, n: nat)
      requires loadingMessage == Shown(waited)
      modifies this`loadingMessage
      ensures loadingMessage == Shown(waited + n)
    {
      ghost var fired := waited;
      var k := 0;
      while k < n
        invariant k <= n && fired == waited + k && loadingMessage == Shown(fired)
      {
        Tick(fired);
        fired := fired + 1;
        k := k + 1;
      }
    }

    /** The interval's callback: the updater moves the message on by one place. */
    method Tick(ghost fired: nat)
      requires loadingMessage == Shown(fired)
      modifies this`loadingMessage
      ensures loadingMessage == Shown(fired + 1)
    {
      NextShown(fired);
      loadingMessage := NextMessage(loadingMessage);
    }

    /** The end of handleSubmit's try and its catch: show the URL, or report the Error. */
    method Settle(apiKey: Option<string>, outcome: Result<Operation>)
      modifies this`videoUrl, this`error, this`apiKeySelected
      requires videoUrl == None && error == None
      ensures Verdict(videoUrl, error, apiKeySelected) == Conclude(apiKey, outcome, old(apiKeySelected))
    {
      match Completion(apiKey, outcome)
      case Success(url) =>
        videoUrl := Some(url);
      case Failure(m) =>
        var report := ReportFailure(m);
        error := Some(report.error);
        if !report.keepsKeySelection {
          apiKeySelected := false;
        }
    }
  }
}
