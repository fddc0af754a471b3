/**
  The completion back end (`LLMWrapper`): which provider the environment selects,
  which path a request takes, and what text comes back. The remote services are not
  called: their outcome arrives as a parameter, either the completion text or a
  failure (any exception raised by the client library or the HTTP request).
*/
module Llm {
  import opened Wrappers
  import opened Text
  import opened ResponseParser
  import opened QuestionBank

  /** The environment variables read by the wrapper; `None` is an unset variable. */
  datatype Env = Env(
    forceProvider: Option<string>,    // FORCE_PROVIDER
    openaiKey: Option<string>,        // OPENAI_API_KEY
    azureKey: Option<string>,         // AZURE_OPENAI_KEY
    azureEndpoint: Option<string>,    // AZURE_OPENAI_ENDPOINT
    azureDeployment: Option<string>)  // AZURE_OPENAI_DEPLOYMENT

  /** Python truthiness of an optional string: set and non-empty. */
  predicate Truthy(v: Option<string>) {
    v.Some? && v.value != []
  }

  const Auto := "auto"
  const OpenAiProvider := "openai"
  const AzureProvider := "azure_openai"
  const RuleBasedProvider := "rule_based"

  /** The provider requested before auto-detection: `FORCE_PROVIDER` lower-cased, or "auto". */
  function RequestedProvider(env: Env): string {
    var forced := Lower(env.forceProvider.GetOr(""));
    if forced == "" then Auto else forced
  }

  /** The provider `LLMWrapper.__init__` settles on. */
  function SelectProvider(env: Env): string {
    var requested := RequestedProvider(env);
    if requested != Auto then requested
    else if Truthy(env.openaiKey) then OpenAiProvider
    else if Truthy(env.azureKey) && Truthy(env.azureEndpoint) then AzureProvider
    else RuleBasedProvider
  }

  /** Auto-detection prefers OpenAI, then Azure (key and endpoint both set), then the
      offline bank; any other non-empty override is kept, lower-cased, even when no
      such provider exists. The result is never empty and never "auto". */
  lemma SelectProviderCases(env: Env)
    ensures var requested := Lower(env.forceProvider.GetOr(""));
      requested == "" || requested == "auto" ==>
        && (SelectProvider(env) == "openai" <==> Truthy(env.openaiKey))
        && (SelectProvider(env) == "azure_openai" <==>
              !Truthy(env.openaiKey) && Truthy(env.azureKey) && Truthy(env.azureEndpoint))
        && (SelectProvider(env) == "rule_based" <==>
              !Truthy(env.openaiKey) && !(Truthy(env.azureKey) && Truthy(env.azureEndpoint)))
    ensures var requested := Lower(env.forceProvider.GetOr(""));
      requested != "" && requested != "auto" ==> SelectProvider(env) == requested
    ensures SelectProvider(env) != "" && SelectProvider(env) != "auto"
  {
  }

  /** The path a request takes in `generate`. */
  datatype Backend = OpenAiCall | AzureCall | Offline

  /** The outcome of the remote completion call. */
  datatype Remote = Completion(text: string) | Failure

  /** `generate`'s branch: OpenAI only with the client package installed, Azure only
      with a key and an endpoint, the offline bank otherwise. */
  function Route(provider: string, openaiAvailable: bool, azureKey: Option<string>,
                 azureEndpoint: Option<string>): Backend
  {
    if provider == OpenAiProvider && openaiAvailable then OpenAiCall
    else if provider == AzureProvider && Truthy(azureKey) && Truthy(azureEndpoint) then AzureCall
    else Offline
  }

  /** What `generate` returns: the trimmed completion, or the offline reply when the
      request is not sent or fails. */
  function GenerateReply(backend: Backend, prompt: string, remote: Remote): string {
    if backend == Offline then RuleBasedReply(prompt)
    else match remote
      case Completion(text) => Strip(text)
      case Failure => RuleBasedReply(prompt)
  }

  /** `generate` never fails: without a remote answer it gives the offline reply, and
      with one it gives that answer trimmed. */
  lemma GenerateReplyCases(backend: Backend, prompt: string, remote: Remote)
    ensures backend == Offline || remote == Failure ==>
      GenerateReply(backend, prompt, remote) == RuleBasedReply(prompt)
    ensures backend != Offline && remote.Completion? ==>
      GenerateReply(backend, prompt, remote) == Strip(remote.text)
  {
  }

  /** Which environments reach which path: the offline bank for "rule_based", for any
      unrecognised override, for "openai" without the client package and for
      "azure_openai" without a key or an endpoint; auto-detected Azure always has
      both, so it is always attempted. */
  lemma RouteCases(env: Env, openaiInstalled: bool)
    ensures var p := SelectProvider(env);
      var b := Route(p, openaiInstalled, env.azureKey, env.azureEndpoint);
      && (p != "openai" && p != "azure_openai" ==> b == Offline)
      && (p == "openai" ==> b == (if openaiInstalled then OpenAiCall else Offline))
      && (p == "azure_openai" ==>
            b == (if Truthy(env.azureKey) && Truthy(env.azureEndpoint) then AzureCall else Offline))
      && (RequestedProvider(env) == "auto" && p == "azure_openai" ==> b == AzureCall)
  {
  }

  /** Whenever no request is sent (the offline provider, an unrecognised override,
      OpenAI without its package, Azure without a key or an endpoint), `generate`
      returns exactly the offline reply, whatever the remote outcome would have been. */
  lemma GenerateUnsentIsOffline(env: Env, openaiInstalled: bool, prompt: string, remote: Remote)
    ensures var p := SelectProvider(env);
      var unsent := (p != "openai" && p != "azure_openai")
                    || (p == "openai" && !openaiInstalled)
                    || (p == "azure_openai" && !(Truthy(env.azureKey) && Truthy(env.azureEndpoint)));
      unsent ==>
        GenerateReply(Route(p, openaiInstalled, env.azureKey, env.azureEndpoint), prompt, remote)
          == RuleBasedReply(prompt)
  {
    RouteCases(env, openaiInstalled);
  }

  const DefaultDeployment := "text-davinci-003"
  const DeploymentsPath := "/openai/deployments/"
  const CompletionsPath := "/completions?api-version=2023-05-15"

  /** The Azure completions URL: the endpoint without trailing slashes, then the
      deployment (`AZURE_OPENAI_DEPLOYMENT`, default "text-davinci-003"). */
  function AzureUrl(endpoint: string, deployment: Option<string>): string {
    TrimRight(endpoint, {'/'}) + DeploymentsPath + deployment.GetOr(DefaultDeployment) + CompletionsPath
  }

  /** Trailing slashes on the endpoint do not change the URL, and an unset deployment
      means the default one (a set but empty one is kept as empty). */
  lemma {:induction false} AzureUrlIgnoresTrailingSlashes(endpoint: string, slashes: nat, deployment: Option<string>)
    ensures AzureUrl(endpoint + seq(slashes, _ => '/'), deployment) == AzureUrl(endpoint, deployment)
    ensures AzureUrl(endpoint, None) == AzureUrl(endpoint, Some(DefaultDeployment))
    decreases slashes
  {
    if slashes > 0 {
      var s := endpoint + seq(slashes, _ => '/');
      assert s[..|s| - 1] == endpoint + seq(slashes - 1, _ => '/');
      AzureUrlIgnoresTrailingSlashes(endpoint, slashes - 1, deployment);
    } else {
      assert endpoint + seq(slashes, _ => '/') == endpoint;
    }
  }

  /** `LLMWrapper`: the settled provider and what `generate` needs to pick a path. */
  class LlmWrapper {
    const provider: string
    const openaiAvailable: bool
    const azureEndpoint: Option<string>
    const azureKey: Option<string>

    /** `LLMWrapper.__init__`, with the environment and whether the `openai` package
        imported as parameters. */
    constructor(env: Env, openaiInstalled: bool)
      ensures provider == SelectProvider(env)
      ensures openaiAvailable == openaiInstalled
      ensures azureEndpoint == env.azureEndpoint && azureKey == env.azureKey
    {
      var p := Lower(env.forceProvider.GetOr(""));
      if p == "" {
        p := Auto;
      }
      if p == Auto {
        if Truthy(env.openaiKey) {
          p := OpenAiProvider;
        } else if Truthy(env.azureKey) && Truthy(env.azureEndpoint) {
          p := AzureProvider;
        } else {
          p := RuleBasedProvider;
        }
      }
      provider := p;
      openaiAvailable := openaiInstalled;
      azureEndpoint := env.azureEndpoint;
      azureKey := env.azureKey;
    }

    /** The path `generate` takes for this wrapper. */
    function Path(): Backend {
      Route(provider, openaiAvailable, azureKey, azureEndpoint)
    }

    /** The first loop of `_rule_based_from_prompt`: the dictionary's keys that occur
        in `lower`, in dictionary order. */
    static method MatchKeys(entries: Entries, lower: string) returns (matched: seq<string>)
      requires DistinctKeys(entries)
      ensures matched == MatchedIn(entries, lower, |entries|)
    {
      matched := [];
      var i := 0;
      while i < |entries|
        invariant 0 <= i <= |entries|
        invariant matched == MatchedIn(entries, lower, i)
      {
        var tech := entries[i].0;
        if Contains(lower, tech) {
          MatchedInStep(entries, lower, i);
          matched := matched + [tech];
        } else {
          MatchedInStep(entries, lower, i);
        }
        i := i + 1;
      }
    }

    /** The second loop of `_rule_based_from_prompt`: up to three questions of each
        matched key, extended one key after another. */
    static method CollectQuestions(entries: Entries, matched: seq<string>) returns (questions: seq<string>)
      ensures questions == GatherQuestions(entries, matched)
    {
      questions := [];
      var j := 0;
      while j < |matched|
        invariant 0 <= j <= |matched|
        invariant questions == GatherQuestions(entries, matched[..j])
      {
        questions := questions + Truncate(LookupIn(entries, matched[j]), PerTech);
        assert matched[..j + 1][..j] == matched[..j];
        j := j + 1;
      }
      assert matched[..|matched|] == matched;
    }

    /** `_rule_based_from_prompt`: the questions for the bank keys found in the
        lower-cased prompt as a numbered list, or the guidance text. */
    method RuleBasedFromPrompt(prompt: string) returns (reply: string)
      ensures reply == RuleBasedReply(prompt)
    {
      BankShape();
      var matched := MatchKeys(Bank, Lower(prompt));
      if matched == [] {
        return Guidance;
      }
      var questions := CollectQuestions(Bank, matched);
      reply := NumberedList(questions);
    }

    /** `generate(prompt)`, with the remote call's outcome as a parameter. */
    method Generate(prompt: string, remote: Remote) returns (reply: string)
      ensures reply == GenerateReply(Path(), prompt, remote)
    {
      if provider == OpenAiProvider && openaiAvailable {
        match remote {
          case Completion(text) => reply := Strip(text);
          case Failure => reply := RuleBasedFromPrompt(prompt);
        }
      } else if provider == AzureProvider && Truthy(azureKey) && Truthy(azureEndpoint) {
        match remote {
          case Completion(text) => reply := Strip(text);
          case Failure => reply := RuleBasedFromPrompt(prompt);
        }
      } else {
        reply := RuleBasedFromPrompt(prompt);
      }
    }
  }
}
