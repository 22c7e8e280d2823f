/**
 The `process_document` orchestration: three activity calls in a fixed
 order, each made with the same retry options, each fed from the one
 before. The orchestration sees only the outcome of a call after its
 retries; a failed outcome raises in the orchestration and ends the run.
 */
module Orchestration {
  import opened Outcomes
  import opened Summaries
  import opened Naming
  import Extraction
  import Trigger

  /** `df.RetryOptions(first_retry_interval_in_milliseconds, max_number_of_attempts)`. */
  datatype RetryOptions = RetryOptions(firstRetryIntervalMs: nat, maxNumberOfAttempts: nat)

  const FirstRetryIntervalMs: nat := 5000
  const MaxNumberOfAttempts: nat := 3

  datatype Activity = AnalyzePdf | SummarizeText | WriteDoc

  /** What each activity is handed. */
  datatype ActivityInput =
    | BlobNameInput(blobName: string)
    | TextInput(text: string)
    | WriteDocInput(request: WriteInput)

  /** One `call_activity_with_retry` the orchestration makes. */
  datatype ActivityCall = ActivityCall(activity: Activity, options: RetryOptions, input: ActivityInput)

  /** The outcome of each activity after its retries, as a function of its input. */
  datatype Activities = Activities(
    analyze: string -> Result<string>,
    summarize: string -> Result<Summary>,
    write: WriteInput -> Result<string>)

  /** `Completed` carries the reference named in the completion log line; the
      orchestration's own return value is that of `logging.info`, i.e. `None`. */
  datatype Status = Completed(loggedReference: string) | Failed(error: string)

  /** The calls a run made, in order, and how it ended. */
  datatype Run = Run(calls: seq<ActivityCall>, status: Status)

  function ProcessRetryOptions(): RetryOptions {
    RetryOptions(FirstRetryIntervalMs, MaxNumberOfAttempts)
  }

  /** The orchestration run for input `blobName`. */
  function ProcessDocument(blobName: string, acts: Activities): (run: Run)
    ensures 1 <= |run.calls| <= 3
    ensures forall i :: 0 <= i < |run.calls| ==> run.calls[i].options == RetryOptions(5000, 3)
    ensures run.calls[0].activity == AnalyzePdf && run.calls[0].input == BlobNameInput(blobName)
    ensures |run.calls| >= 2 ==>
              && acts.analyze(blobName).Ok?
              && run.calls[1].activity == SummarizeText
              && run.calls[1].input == TextInput(acts.analyze(blobName).value)
    ensures |run.calls| == 3 ==>
              && acts.summarize(acts.analyze(blobName).value).Ok?
              && run.calls[2].activity == WriteDoc
              && run.calls[2].input == WriteDocInput(WriteInput(blobName, acts.summarize(acts.analyze(blobName).value).value))
    ensures run.status.Completed? <==>
              && acts.analyze(blobName).Ok?
              && acts.summarize(acts.analyze(blobName).value).Ok?
              && acts.write(WriteInput(blobName, acts.summarize(acts.analyze(blobName).value).value)).Ok?
    ensures run.status.Completed? ==>
              |run.calls| == 3
              && acts.write(run.calls[2].input.request) == Ok(run.status.loggedReference)
  {
    var options := ProcessRetryOptions();
    var first := ActivityCall(AnalyzePdf, options, BlobNameInput(blobName));
    match acts.analyze(blobName)
    case Fail(e1) => Run([first], Failed(e1))
    case Ok(text) =>
      var second := ActivityCall(SummarizeText, options, TextInput(text));
      match acts.summarize(text)
      case Fail(e2) => Run([first, second], Failed(e2))
      case Ok(summary) =>
        var request := WriteInput(blobName, summary);
        var third := ActivityCall(WriteDoc, options, WriteDocInput(request));
        match acts.write(request)
        case Fail(e3) => Run([first, second, third], Failed(e3))
        case Ok(reference) => Run([first, second, third], Completed(reference))
  }

  /** Whether a call succeeded, and if not, its error. */
  function Succeeded<T>(r: Result<T>): Result<()> {
    match r
    case Ok(_) => Ok(())
    case Fail(e) => Fail(e)
  }

  /** Whether the last call the run made succeeded. */
  function LastOutcome(blobName: string, acts: Activities, run: Run): Result<()>
    requires 1 <= |run.calls| <= 3
    requires |run.calls| >= 2 ==> acts.analyze(blobName).Ok?
    requires |run.calls| == 3 ==> acts.analyze(blobName).Ok? && acts.summarize(acts.analyze(blobName).value).Ok?
  {
    if |run.calls| == 1 then Succeeded(acts.analyze(blobName))
    else if |run.calls| == 2 then Succeeded(acts.summarize(acts.analyze(blobName).value))
    else Succeeded(acts.write(WriteInput(blobName, acts.summarize(acts.analyze(blobName).value).value)))
  }

  /** A run stops at its first failing call: every call before the last one
      succeeded, the run fails exactly when the last call failed, and then
      with that call's error. A run completes only after all three calls. */
  lemma FailureStopsRun(blobName: string, acts: Activities)
    ensures var run := ProcessDocument(blobName, acts);
            var last := LastOutcome(blobName, acts, run);
            && (run.status.Failed? <==> last.Fail?)
            && (run.status.Failed? ==> run.status.error == last.error)
            && (|run.calls| < 3 ==> run.status.Failed?)
  {
  }

  /** The external services the activities use, as seen by the last attempt
      of each retried call: each service parameter stands for the answer that
      attempt received, and `timestamp` for the clock reading `write_doc`
      took in that attempt. */
  datatype Services = Services(
    download: (string, string) -> Result<Extraction.Bytes>,
    layout: Extraction.AnalyzeRequest -> Result<Extraction.Pages>,
    chatModel: Option<string>,
    chat: Request -> Result<Response>,
    store: Upload -> Result<()>,
    timestamp: string)

  /** The three activities of the function app over `services`. The summary
      activity catches every provider error, so it never fails. */
  function Deployed(services: Services): (acts: Activities)
    ensures forall text :: acts.summarize(text).Ok?
  {
    Activities(
      blobName => Extraction.AnalyzePdf(blobName, services.download, services.layout),
      text => Ok(Summaries.SummarizeText(text, services.chatModel, services.chat)),
      request => Naming.WriteDoc(request, services.timestamp, services.store))
  }

  /** With the deployed activities a run never stops at the summary step:
      it fails only in text extraction or in the upload. */
  lemma DeployedFailsOnlyInAnalyzeOrWrite(blobName: string, services: Services)
    ensures var run := ProcessDocument(blobName, Deployed(services));
            run.status.Failed? ==> |run.calls| == 1 || |run.calls| == 3
  {
  }

  /** End to end from the uploaded blob's path: when the run completes, the
      summary of the extracted text was stored in the output container
      under the sanitised name, and the log names the unsanitised one. */
  lemma {:induction false} CompletedRunStoresSummary(path: string, services: Services)
    requires Trigger.BlobNameOf(path).Ok?
    ensures var blobName := Trigger.BlobNameOf(path).value;
            var run := ProcessDocument(blobName, Deployed(services));
            run.status.Completed? ==>
              var request := run.calls[2].input.request;
              var upload := UploadOf(request, services.timestamp);
              && services.store(upload).Ok?
              && upload.container == OutputContainer
              && upload.name == UploadName(blobName, services.timestamp)
              && upload.data == request.summary.content
              && request.summary == Summaries.SummarizeText(
                   Extraction.AnalyzePdf(blobName, services.download, services.layout).value,
                   services.chatModel, services.chat)
              && run.status.loggedReference == ReturnedReference(blobName, services.timestamp)
  {
    var blobName := Trigger.BlobNameOf(path).value;
    var acts := Deployed(services);
    var run := ProcessDocument(blobName, acts);
    if run.status.Completed? {
      var request := run.calls[2].input.request;
      assert acts.write(request) == Naming.WriteDoc(request, services.timestamp, services.store);
    }
  }

  /** A language-model failure still publishes: the stored body is the error
      summary carrying the provider's message. */
  lemma ChatFailureStillPublishes(blobName: string, services: Services)
    requires Extraction.AnalyzePdf(blobName, services.download, services.layout).Ok?
    requires var text := Extraction.AnalyzePdf(blobName, services.download, services.layout).value;
             services.chat(ChatRequest(text, services.chatModel)).Fail?
    requires var text := Extraction.AnalyzePdf(blobName, services.download, services.layout).value;
             var summary := Summaries.SummarizeText(text, services.chatModel, services.chat);
             services.store(UploadOf(WriteInput(blobName, summary), services.timestamp)).Ok?
    ensures var text := Extraction.AnalyzePdf(blobName, services.download, services.layout).value;
            var run := ProcessDocument(blobName, Deployed(services));
            && run.status.Completed?
            && run.calls[2].input.request.summary.model == ErrorModel
            && DiagnosticOf(run.calls[2].input.request.summary)
               == Some(services.chat(ChatRequest(text, services.chatModel)).error)
  {
    var text := Extraction.AnalyzePdf(blobName, services.download, services.layout).value;
    ProviderFailureDegrades(text, services.chatModel, services.chat);
  }

  /** A failed text extraction ends the run after its one call: nothing is
      summarised and nothing is uploaded. */
  lemma ExtractionFailureWritesNothing(blobName: string, services: Services)
    requires Extraction.AnalyzePdf(blobName, services.download, services.layout).Fail?
    ensures var run := ProcessDocument(blobName, Deployed(services));
            && run.status == Failed(Extraction.AnalyzePdf(blobName, services.download, services.layout).error)
            && forall i :: 0 <= i < |run.calls| ==> run.calls[i].activity != WriteDoc
  {
  }
}
