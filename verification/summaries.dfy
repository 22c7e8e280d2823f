/**
 The `summarize_text` activity: one chat-completion request to the language
 model, whose reply or exception is mapped onto a summary record. The
 activity never fails; a provider exception becomes an error summary.
 */
module Summaries {
  import opened Outcomes

  /** The record the activity returns: `content`, `model`, `usage`. */
  datatype Summary = Summary(content: string, model: string, usage: int)

  /** The chat-completion request the activity sends. */
  datatype Request = Request(
    model: string,
    systemPrompt: string,
    userPrompt: string,
    maxTokens: nat,
    temperature: real)

  /** The part of the provider's reply the activity reads: the message
      content of each choice, the reply's model and its total token count. */
  datatype Response = Response(choices: seq<string>, model: string, totalTokens: int)

  const DefaultModel := "gpt-3.5-turbo"
  const SystemPrompt := "You are a helpful assistant that summarizes documents."
  const UserPromptPrefix :=
    "Can you provide a concise summary of the following text? Focus on the main points and key information:\n\n"
  const MaxTokens: nat := 500
  const Temperature: real := 0.7

  const ErrorPrefix := "Error generating summary: "
  const ErrorModel := "error"

  /** Message of the `IndexError` raised by `choices[0]` on an empty list. */
  const NoChoiceMessage := "list index out of range"

  /** The request built from the text to summarise and the configured
      `CHAT_MODEL_NAME`, if any. */
  function ChatRequest(results: string, configuredModel: Option<string>): Request {
    var model := match configuredModel
      case Some(m) => m
      case None => DefaultModel;
    Request(model, SystemPrompt, UserPromptPrefix + results, MaxTokens, Temperature)
  }

  /** The error summary carrying the message of the caught exception. */
  function Degraded(message: string): (s: Summary)
    ensures s.model == ErrorModel && s.usage == 0
    ensures |s.content| == |ErrorPrefix| + |message|
    ensures s.content[..|ErrorPrefix|] == ErrorPrefix
    ensures s.content[|ErrorPrefix|..] == message
    ensures DiagnosticOf(s) == Some(message)
  {
    Summary(ErrorPrefix + message, ErrorModel, 0)
  }

  /** Everything inside the `try` block after the provider call: reading
      `choices[0]` may itself raise, and is caught like a provider error. */
  function SummaryOf(reply: Result<Response>): (s: Summary)
    ensures reply.Fail? ==> s == Degraded(reply.error)
    ensures reply.Ok? && |reply.value.choices| == 0 ==> s == Degraded(NoChoiceMessage)
    ensures reply.Ok? && |reply.value.choices| > 0 ==>
              s.content == reply.value.choices[0]
              && s.model == reply.value.model
              && s.usage == reply.value.totalTokens
  {
    match reply
    case Fail(message) => Degraded(message)
    case Ok(response) =>
      if |response.choices| == 0 then Degraded(NoChoiceMessage)
      else Summary(response.choices[0], response.model, response.totalTokens)
  }

  /** The activity: `provider` stands for the language-model service, which
      answers a request with a reply or an exception message. The request
      names the configured model (or `gpt-3.5-turbo`), the fixed system
      prompt, the fixed instruction followed by the whole text, at most 500
      tokens and temperature 0.7. The activity never fails: an exception from
      the provider, or a reply without choices, yields an error summary. */
  function SummarizeText(
    results: string,
    configuredModel: Option<string>,
    provider: Request -> Result<Response>): (s: Summary)
    ensures var model := if configuredModel.Some? then configuredModel.value else "gpt-3.5-turbo";
            var reply := provider(Request(model, SystemPrompt, UserPromptPrefix + results, 500, 0.7));
            && (reply.Fail? ==>
                  s == Summary("Error generating summary: " + reply.error, "error", 0))
            && (reply.Ok? && |reply.value.choices| == 0 ==>
                  s == Summary("Error generating summary: " + NoChoiceMessage, "error", 0))
            && (reply.Ok? && |reply.value.choices| > 0 ==>
                  s == Summary(reply.value.choices[0], reply.value.model, reply.value.totalTokens))
  {
    SummaryOf(provider(ChatRequest(results, configuredModel)))
  }

  /** Reads the exception message back out of an error summary. */
  function DiagnosticOf(s: Summary): (m: Option<string>)
    ensures m.Some? ==> s.model == ErrorModel && s.usage == 0
  {
    if s.model == ErrorModel && s.usage == 0
       && |ErrorPrefix| <= |s.content| && s.content[..|ErrorPrefix|] == ErrorPrefix
    then Some(s.content[|ErrorPrefix|..])
    else None
  }

  /** A provider exception never escapes: whatever the message, the activity
      returns an error summary from which that exact message can be read back. */
  lemma ProviderFailureDegrades(
    results: string,
    configuredModel: Option<string>,
    provider: Request -> Result<Response>)
    requires provider(ChatRequest(results, configuredModel)).Fail?
    ensures var s := SummarizeText(results, configuredModel, provider);
            && s.model == ErrorModel
            && s.usage == 0
            && DiagnosticOf(s) == Some(provider(ChatRequest(results, configuredModel)).error)
  {
    var message := provider(ChatRequest(results, configuredModel)).error;
    var s := Degraded(message);
    assert s.content[..|ErrorPrefix|] == ErrorPrefix;
  }

  /** A reply with at least one choice is passed through unchanged, and it is
      never mistaken for an error summary unless the provider itself reports
      the model name "error" with zero usage. */
  lemma ProviderSuccessPassesThrough(
    results: string,
    configuredModel: Option<string>,
    provider: Request -> Result<Response>)
    requires provider(ChatRequest(results, configuredModel)).Ok?
    requires |provider(ChatRequest(results, configuredModel)).value.choices| > 0
    ensures var response := provider(ChatRequest(results, configuredModel)).value;
            var s := SummarizeText(results, configuredModel, provider);
            && s == Summary(response.choices[0], response.model, response.totalTokens)
            && (DiagnosticOf(s).Some? ==> response.model == ErrorModel && response.totalTokens == 0)
  {
  }
}
