# Intelligent PDF Summarizer — verified model of the pipeline logic

The function app turns an uploaded PDF into a stored summary. A blob trigger
starts the durable orchestration `process_document` with the second
`/`-separated segment of the blob's path. The orchestration calls three activities in turn, each with the same
retry options:

- `analyze_pdf` downloads the PDF and has the layout service read it. It
  concatenates the recognised lines into one text.
- `summarize_text` asks the language model for a summary. A provider error
  becomes an error summary instead of an exception.
- `write_doc` uploads the summary content under a name derived from the blob
  name and the current time, with every `.` and `:` replaced by `-`. It
  returns `blobName + "-" + timestamp + ".txt"`, built before sanitising.

This project models the deterministic logic inside that glue as pure Dafny
functions. The cloud services, the clock and the retry machinery become
parameters:

| module | file | models |
|---|---|---|
| `Outcomes` | outcomes.dfy | value-or-exception results (`Ok` / `Fail(message)`) |
| `Trigger` | trigger.dfy | `myblob.name.split("/")[1]` in `blob_trigger` |
| `Extraction` | extraction.dfy | `analyze_pdf`: the page/line concatenation |
| `Summaries` | summaries.dfy | `summarize_text`: the request, and the reply-or-error mapping |
| `Naming` | naming.dfy | `write_doc`: output-name derivation, sanitising, upload, returned reference |
| `Orchestration` | orchestration.dfy | `process_document`: the linear three-step data flow and its retry options |

Behaviour of the code that the model states as it is:

- **Returned reference.** `write_doc` returns `blobName + "-" + timestamp + ".txt"`
  before sanitising. So whenever the blob name or the timestamp contains
  `.` or `:`, the reference names a blob that was never uploaded
  (`Naming.ReferenceMismatch`, `Naming.WriteDoc`). `str(datetime.now())`
  always contains `:`, so in practice this happens on every run.
- **Timestamp format.** `str(datetime.now())` is usually
  `YYYY-MM-DD HH:MM:SS.ffffff`. The `.ffffff` part is omitted when the
  microseconds are 0. The space is not replaced. The model takes the
  timestamp as a string.
- **Trigger identifier.** The trigger takes only the element at index 1 of
  the path split on `/`. For `input/dir/a.pdf` the orchestration receives
  `dir` (`Trigger.NestedPathGivesFolder`). For a path without `/` the trigger
  raises `IndexError`.
- **Orchestration output.** `process_document` returns `logging.info(...)`,
  which is `None`. The reference from `write_doc` only appears in the log
  line. `Status.Completed` carries that logged reference.
- **Empty `choices`.** `response.choices[0]` sits inside the `try`. A reply
  with no choices therefore also becomes an error summary, with
  `IndexError`'s message.

## Model

| member | source | states |
|---|---|---|
| `Naming.ReplaceChar` | function_app.py:105 | `str.replace` of one character keeps the length and replaces exactly the matching positions |
| `Naming.Sanitize` | function_app.py:105 | the two chained replaces keep the length, turn every `.` and `:` into `-`, keep every other character in place, and leave no `.` or `:` behind |
| `Naming.SanitizeIdempotent` | function_app.py:105 | sanitising twice is the same as sanitising once |
| `Naming.SanitizeFixedIff` | function_app.py:105 | sanitising leaves a string unchanged if and only if it has no `.` or `:` |
| `Naming.SanitizeConcat` | function_app.py:105 | sanitising works character by character: sanitising `a + b` gives sanitised `a` followed by sanitised `b` |
| `Naming.UploadName` | function_app.py:104-106 | the uploaded name is 5 characters longer than blob name and timestamp together, ends in `.txt`, and has no `.` or `:` before the extension |
| `Naming.ReturnedReference` | function_app.py:110 | the returned reference has the same length as the uploaded name and also ends in `.txt` |
| `Naming.ReferenceMismatch` | function_app.py:104-110 | the uploaded name is the sanitised returned reference (minus `.txt`) plus `.txt`; the two are equal if and only if neither the blob name nor the timestamp contains `.` or `:` |
| `Naming.WriteDoc` | function_app.py:98-110 | the activity uploads the summary content to container `output` under the sanitised name; it succeeds exactly when that upload does and otherwise fails with the upload's error; on success it returns the unsanitised reference `blobName + "-" + timestamp + ".txt"`, whose sanitised base is the uploaded name |
| `Extraction.ConcatenateLines` | function_app.py:54-66 | the nested page/line loop that appends each line's content yields exactly the in-order concatenation of all lines of all pages |
| `Extraction.DocumentTextAppend` | function_app.py:62-64 | the text of a document split into two runs of pages is the text of the first run followed by the text of the second, with no separator |
| `Extraction.DocumentTextLength` | function_app.py:62-64 | the text is exactly as long as all line contents together |
| `Extraction.DocumentTextEmptyIff` | function_app.py:54-66 | the text is empty if and only if every line is empty (so zero pages, or pages with no lines, give `""`) |
| `Extraction.AnalyzePdf` | function_app.py:47-66 | a failed download from `input` fails the activity with its error; otherwise a failed `prebuilt-layout`/`en-US` analysis fails it with the analysis error; otherwise it returns the in-order concatenation of all recognised lines |
| `Summaries.Degraded` | function_app.py:92-96 | an error summary has model `error`, usage 0, and content `Error generating summary: ` followed by the message, which reads back exactly |
| `Summaries.SummaryOf` | function_app.py:83-96 | a provider exception and a reply with no choices both give an error summary; otherwise the first choice's content, the reply's model and its total tokens are returned unchanged |
| `Summaries.SummarizeText` | function_app.py:68-96 | the activity asks the provider with the configured model (default `gpt-3.5-turbo`), the fixed system prompt, the fixed instruction followed by the whole text, 500 tokens and temperature 0.7; it never fails: a provider exception or a reply with no choices gives `Error generating summary: <message>` with model `error` and usage 0, and otherwise the first choice, the reply's model and its total tokens |
| `Summaries.ProviderFailureDegrades` | function_app.py:72-96 | on provider failure the activity still returns a summary: model `error`, usage 0, and the provider's exact message can be read back from the content |
| `Summaries.ProviderSuccessPassesThrough` | function_app.py:83-89 | a reply with a choice passes through unchanged, and reads as an error summary only if the provider itself reports model `error` with zero usage |
| `Trigger.Split` | function_app.py:26 | `split("/")` yields at least one piece, and no piece contains `/` |
| `Trigger.JoinSplit` | function_app.py:26 | joining the pieces with `/` gives back the path |
| `Trigger.SplitJoin` | function_app.py:26 | splitting a join of `/`-free pieces gives back the pieces |
| `Trigger.BlobNameOf` | function_app.py:26 | the orchestration input contains no `/` |
| `Trigger.BlobNameIsSecondSegment` | function_app.py:26 | element 1 of the split is the text between the first `/` and the next `/` (or the end), and it exists if and only if the path contains a `/` |
| `Trigger.NestedPathGivesFolder` | function_app.py:26-27 | for `container/folder/file` the orchestration is started with `folder` alone |
| `Orchestration.ProcessDocument` | function_app.py:30-45 | one to three calls, all with the same retry options (5000 ms first retry interval, 3 attempts); analyze gets the blob name, summarize gets analyze's output unchanged, write gets the blob name paired with summarize's output; the run completes if and only if all three succeed along that data flow, and then it made three calls and logs write's result |
| `Orchestration.FailureStopsRun` | function_app.py:39-43 | every call before the last succeeded; the run fails if and only if its last call failed, and with that call's error; a run of fewer than three calls has failed |
| `Orchestration.Deployed` | function_app.py:90-96 | the deployed summary activity never fails, whatever the provider does |
| `Orchestration.DeployedFailsOnlyInAnalyzeOrWrite` | function_app.py:39-43 | with the deployed activities a failed run stopped at text extraction or at the upload, never at the summary |
| `Orchestration.CompletedRunStoresSummary` | function_app.py:26-43 | from a trigger path: a completed run stored the summary of the extracted text in `output` under the sanitised name, and logged the unsanitised reference |
| `Orchestration.ChatFailureStillPublishes` | function_app.py:41-43 | when the language model fails but extraction and upload succeed, the run completes and stores an error summary carrying the provider's message |
| `Orchestration.ExtractionFailureWritesNothing` | function_app.py:39 | a failed extraction fails the run with its error, and `write_doc` is never called |

## Left out

- Blob storage (`BlobServiceClient`, `download_blob`, `upload_blob`) is not modelled. Each call becomes a function parameter that yields a value or an exception message.
- The Form Recognizer call and the OpenAI `ChatCompletion` call are external services. They become function parameters that take the request record and yield a reply or an exception message.
- `df.RetryOptions` timing and `call_activity_with_retry` come from the durable-functions library, so they are not modelled. Neither is the replay of the orchestration from its history. Each activity's outcome after its retries is a parameter. In the deployed wiring, each service parameter stands for the answer the last attempt received. `timestamp` stands for the clock reading `write_doc` took in that attempt. Earlier attempts can differ: the services are external, the chat call samples at temperature 0.7, and every attempt reads the clock again. The run's failure message stands for the failing activity's message as the library reports it; its exact wording is not modelled.
- `datetime.now()` is a clock. The timestamp is a string parameter.
- Logging, environment configuration (except `CHAT_MODEL_NAME`) and the trigger/decorator plumbing are not modelled. The `blob_trigger` log line and `client.start_new` are among them.
- The client construction in `analyze_pdf` is not modelled. This includes the `COGNITIVE_SERVICES_ENDPOINT` lookup, which raises if the setting is missing. Those lines are not valid Python as written: they contain a full-width `）` and a mis-indented line.
- Summaries.SummaryOf: a reply whose first choice has no content (`None`) is not modelled. A choice's content is always a string here.
