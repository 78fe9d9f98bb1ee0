/**
 * The provider registry: the static table of chat providers, the user-facing list of
 * them, the capability lists, the resolution of a selection key (falling back to the
 * default key from the preferences) and the derivation of per-call options.
 */
module Providers {
  import opened Wrappers
  import opened JsNumber

  /** The adapter modules a registry entry can point to. */
  datatype ProviderTag =
    | NexraProvider
    | DeepInfraProvider
    | BlackboxProvider
    | EcosiaProvider
    | ReplicateProvider
    | GeminiProvider
    | G4FLocalProvider

  /** One registry entry: the adapter, the model it asks for (absent for the local
      GPT4Free API) and whether its answers are streamed. */
  datatype ProviderInfo = ProviderInfo(provider: ProviderTag, model: Option<string>, stream: bool)

  const ProvidersInfo: map<string, ProviderInfo> := map[
    "GPT35" := ProviderInfo(NexraProvider, Some("chatgpt"), true),
    "GPT4" := ProviderInfo(NexraProvider, Some("gpt-4-32k"), false),
    "DeepInfraMixtral_8x22B" := ProviderInfo(DeepInfraProvider, Some("mistralai/Mixtral-8x22B-Instruct-v0.1"), true),
    "DeepInfraMixtral_8x7B" := ProviderInfo(DeepInfraProvider, Some("mistralai/Mixtral-8x7B-Instruct-v0.1"), true),
    "DeepInfraQwen2_72B" := ProviderInfo(DeepInfraProvider, Some("Qwen/Qwen2-72B-Instruct"), true),
    "DeepInfraMistral_7B" := ProviderInfo(DeepInfraProvider, Some("mistralai/Mistral-7B-Instruct-v0.3"), true),
    "DeepInfraWizardLM2_8x22B" := ProviderInfo(DeepInfraProvider, Some("microsoft/WizardLM-2-8x22B"), true),
    "DeepInfraLlama3_8B" := ProviderInfo(DeepInfraProvider, Some("meta-llama/Meta-Llama-3-8B-Instruct"), true),
    "DeepInfraLlama3_70B" := ProviderInfo(DeepInfraProvider, Some("meta-llama/Meta-Llama-3-70B-Instruct"), true),
    "DeepInfraOpenChat36_8B" := ProviderInfo(DeepInfraProvider, Some("openchat/openchat-3.6-8b"), true),
    "DeepInfraGemma2_27B" := ProviderInfo(DeepInfraProvider, Some("google/gemma-2-27b-it"), true),
    "Blackbox" := ProviderInfo(BlackboxProvider, Some(""), true),
    "Ecosia" := ProviderInfo(EcosiaProvider, Some("gpt-3.5-turbo-0125"), true),
    "ReplicateLlama3_8B" := ProviderInfo(ReplicateProvider, Some("meta/meta-llama-3-8b-instruct"), true),
    "ReplicateLlama3_70B" := ProviderInfo(ReplicateProvider, Some("meta/meta-llama-3-70b-instruct"), true),
    "ReplicateMixtral_8x7B" := ProviderInfo(ReplicateProvider, Some("mistralai/mixtral-8x7b-instruct-v0.1"), true),
    "GoogleGemini" := ProviderInfo(GeminiProvider, Some("auto"), true),
    "G4FLocal" := ProviderInfo(G4FLocalProvider, None, true)
  ]

  /** The dropdown entries: a user-friendly label and the registry key it selects. */
  const ChatProviders: seq<(string, string)> := [
    ("ChatGPT (gpt-3.5-turbo)", "GPT35"),
    ("ChatGPT (gpt-4-32k)", "GPT4"),
    ("DeepInfra (Mixtral-8x22B)", "DeepInfraMixtral_8x22B"),
    ("DeepInfra (Mixtral-8x7B)", "DeepInfraMixtral_8x7B"),
    ("DeepInfra (Qwen2-72B)", "DeepInfraQwen2_72B"),
    ("DeepInfra (Mistral-7B)", "DeepInfraMistral_7B"),
    ("DeepInfra (openchat-3.6-8b)", "DeepInfraOpenChat36_8B"),
    ("DeepInfra (meta-llama-3-70b)", "DeepInfraLlama3_70B"),
    ("DeepInfra (meta-llama-3-8b)", "DeepInfraLlama3_8B"),
    ("DeepInfra (gemma-2-27b)", "DeepInfraGemma2_27B"),
    ("DeepInfra (WizardLM-2-8x22B)", "DeepInfraWizardLM2_8x22B"),
    ("Blackbox (custom-model)", "Blackbox"),
    ("Ecosia (gpt-3.5-turbo)", "Ecosia"),
    ("Replicate (mixtral-8x7b)", "ReplicateMixtral_8x7B"),
    ("Replicate (meta-llama-3-70b)", "ReplicateLlama3_70B"),
    ("Replicate (meta-llama-3-8b)", "ReplicateLlama3_8B"),
    ("Google Gemini (requires API Key)", "GoogleGemini"),
    ("GPT4Free Local API", "G4FLocal")
  ]

  /** Adapters that accept file uploads. */
  const FileSupportedProviders: seq<ProviderTag> := [GeminiProvider]

  /** Adapters that support function calling. */
  const FunctionSupportedProviders: seq<ProviderTag> := [DeepInfraProvider]

  /** Adapters that drive the stream sink themselves. */
  const CustomStreamHandledProviders: seq<ProviderTag> := [GeminiProvider]

  /** The keys the dropdown offers, in dropdown order. */
  function ChatProviderKeys(): (keys: seq<string>)
    ensures |keys| == |ChatProviders|
    ensures forall i :: 0 <= i < |keys| ==> keys[i] == ChatProviders[i].1
  {
    seq(|ChatProviders|, i requires 0 <= i < |ChatProviders| => ChatProviders[i].1)
  }

  /** `get_provider_string`: a selection that names a registry entry is kept; an absent,
      empty or unknown one falls back to the default key from the preferences. */
  function GetProviderString(provider: Option<string>, defaultKey: string): (key: string)
    ensures provider.Some? && provider.value in ProvidersInfo ==> key == provider.value
    ensures provider.None? || provider.value !in ProvidersInfo ==> key == defaultKey
    ensures key in ProvidersInfo <==>
      (provider.Some? && provider.value in ProvidersInfo) || defaultKey in ProvidersInfo
  {
    if provider.Some? && provider.value != "" && provider.value in ProvidersInfo then provider.value
    else defaultKey
  }

  /** `get_provider_info`: the registry entry of the resolved key; JavaScript's `undefined`
      (here None) only when the default key itself is not a registry key. */
  function GetProviderInfo(providerString: Option<string>, defaultKey: string): (info: Option<ProviderInfo>)
    ensures providerString.Some? && providerString.value in ProvidersInfo ==>
      info == Some(ProvidersInfo[providerString.value])
    ensures providerString.None? || providerString.value !in ProvidersInfo ==>
      info == if defaultKey in ProvidersInfo then Some(ProvidersInfo[defaultKey]) else None
  {
    var key := GetProviderString(providerString, defaultKey);
    if key in ProvidersInfo then Some(ProvidersInfo[key]) else None
  }

  /** Resolution is idempotent: a resolved key resolves to itself. */
  lemma ResolvedKeyIsStable(provider: Option<string>, defaultKey: string)
    requires defaultKey in ProvidersInfo
    ensures var key := GetProviderString(provider, defaultKey);
      key in ProvidersInfo && GetProviderString(Some(key), defaultKey) == key
  {
  }

  /** The chat options the user's settings supply. */
  datatype ChatOptions = ChatOptions(creativity: Option<string>)

  /** The temperature derived from a non-empty creativity setting:
      `Math.max(0.0, parseFloat(creativity)).toFixed(1)`. */
  function CreativityTemperature(creativity: string): (t: string)
    ensures |t| > 0 && t[0] != '-'
  {
    var clamped := MaxWithZero(ParseFloat(creativity));
    assert clamped.Finite? ==> ToFixed1(clamped)[0] == Decimal(RoundToTenths(clamped.value) / 10)[0];
    ToFixed1(clamped)
  }

  /** `provider_options`: no options unless a creativity is set, and then only a
      non-negative `temperature`. The `provider` argument is not consulted. */
  function ProviderOptions(provider: ProviderTag, chatOptions: Option<ChatOptions>): (options: map<string, string>)
    ensures options == map[] <==>
      chatOptions.None? || chatOptions.value.creativity.None? || chatOptions.value.creativity.value == ""
    ensures options != map[] ==>
      options.Keys == {"temperature"} && |options["temperature"]| > 0 && options["temperature"][0] != '-'
  {
    if chatOptions.Some? && chatOptions.value.creativity.Some? && chatOptions.value.creativity.value != "" then
      map["temperature" := CreativityTemperature(chatOptions.value.creativity.value)]
    else map[]
  }

  /** The derived temperature is the non-negative part of the parsed creativity rounded to
      tenths: reading it back gives a value within half a tenth of `max(0, creativity)`. */
  lemma TemperatureIsClampedRounding(provider: ProviderTag, creativity: string, v: real)
    requires creativity != "" && ParseFloat(creativity) == Finite(v)
    ensures var options := ProviderOptions(provider, Some(ChatOptions(Some(creativity))));
      var clamped := if v > 0.0 then v else 0.0;
      && options["temperature"] == TenthsString(RoundToTenths(clamped))
      && match ParseFloat(options["temperature"])
        case Finite(w) => clamped - 0.05 < w <= clamped + 0.05
        case _ => false
  {
    var clamped := if v > 0.0 then v else 0.0;
    assert MaxWithZero(Finite(v)) == Finite(clamped);
    FixedIsRounding(clamped);
  }

  /** `parseFloat("-1")` is minus one. */
  lemma ParseMinusOne(s: string)
    requires s == "-1"
    ensures ParseFloat(s) == Finite(-1.0)
  {
    var digits := s[1..];
    assert s == "-" + digits && digits == "1";
    assert ParseFloat(digits) == Finite(1.0) by { ParseOne(digits); }
    NegativeNumeral(digits);
  }

  /** `parseFloat("1")` is one. */
  lemma ParseOne(s: string)
    requires s == "1"
    ensures ParseFloat(s) == Finite(1.0)
  {
    assert AllDigits(s) by { assert IsDigit(s[0]); }
    assert DigitsValue(s) == 1 by { assert s[..0] == ""; }
    IntegerNumeralValue(s);
  }

  /** `parseFloat("0.73")` is 0.73. */
  lemma ParseZeroPointSevenThree(s: string)
    requires s == "0.73"
    ensures ParseFloat(s) == Finite(0.73)
  {
    var whole, frac := s[..1], s[2..];
    assert s == whole + "." + frac && whole == "0" && frac == "73";
    assert AllDigits(whole) && AllDigits(frac) by { assert IsDigit(frac[0]) && IsDigit(frac[1]); }
    assert DigitsValue(whole) == 0 by { assert whole[..0] == ""; }
    assert DigitsValue(frac) == 73 by { assert frac[..1] == "7"; assert frac[..1][..0] == ""; }
    DecimalNumeralValue(s, whole, frac);
    assert Scale(73.0, -|frac|) == 0.73 by { assert Scale(73.0, 0) == 73.0; }
  }

  /** A creativity of "-1" is clamped to zero: the temperature is "0.0". */
  lemma NegativeCreativityIsClamped(provider: ProviderTag, creativity: string)
    requires creativity == "-1"
    ensures ProviderOptions(provider, Some(ChatOptions(Some(creativity)))) == map["temperature" := "0.0"]
  {
    assert CreativityTemperature(creativity) == "0.0" by {
      ParseMinusOne(creativity);
      assert MaxWithZero(Finite(-1.0)) == Finite(0.0);
      FixedIsRounding(0.0);
      assert RoundToTenths(0.0) == 0;
      SmallTenths(0);
    }
  }

  /** A creativity of "0.73" is rounded to one decimal: the temperature is "0.7". */
  lemma CreativityIsRounded(provider: ProviderTag, creativity: string)
    requires creativity == "0.73"
    ensures ProviderOptions(provider, Some(ChatOptions(Some(creativity)))) == map["temperature" := "0.7"]
  {
    assert CreativityTemperature(creativity) == "0.7" by {
      ParseZeroPointSevenThree(creativity);
      assert MaxWithZero(Finite(0.73)) == Finite(0.73);
      FixedIsRounding(0.73);
      assert RoundToTenths(0.73) == 7;
      SmallTenths(7);
    }
  }

  /** `provider_options` does not depend on which provider it is asked for. */
  lemma OptionsIgnoreProvider(p: ProviderTag, q: ProviderTag, chatOptions: Option<ChatOptions>)
    ensures ProviderOptions(p, chatOptions) == ProviderOptions(q, chatOptions)
  {
  }

  /** Every dropdown entry selects a registry key. */
  lemma ChatKeysAreRegistered()
    ensures forall i :: 0 <= i < |ChatProviders| ==> ChatProviders[i].1 in ProvidersInfo
  {
  }

  /** Every registry key is offered by some dropdown entry. */
  lemma RegisteredKeysAreListed()
    ensures forall key :: key in ProvidersInfo ==> exists i :: 0 <= i < |ChatProviders| && ChatProviders[i].1 == key
  {
    var keys := ChatProviderKeys();
    assert keys == [
      "GPT35", "GPT4", "DeepInfraMixtral_8x22B", "DeepInfraMixtral_8x7B", "DeepInfraQwen2_72B",
      "DeepInfraMistral_7B", "DeepInfraOpenChat36_8B", "DeepInfraLlama3_70B", "DeepInfraLlama3_8B",
      "DeepInfraGemma2_27B", "DeepInfraWizardLM2_8x22B", "Blackbox", "Ecosia", "ReplicateMixtral_8x7B",
      "ReplicateLlama3_70B", "ReplicateLlama3_8B", "GoogleGemini", "G4FLocal"];
    assert forall key :: key in ProvidersInfo ==> key in keys;
  }

  /** No registry key is offered twice. */
  lemma ChatKeysAreDistinct()
    ensures Distinct(ChatProviderKeys())
  {
  }

  /** The dropdown and the registry have the same 18 keys. */
  lemma ChatProvidersMatchRegistry()
    ensures |ChatProviders| == 18 && |ProvidersInfo| == 18
  {
    var keys := ChatProviderKeys();
    ChatKeysAreRegistered();
    RegisteredKeysAreListed();
    var listed := set i | 0 <= i < |keys| :: keys[i];
    forall key | key in ProvidersInfo ensures key in listed {
      var i :| 0 <= i < |ChatProviders| && ChatProviders[i].1 == key;
      assert keys[i] == key;
    }
    assert ProvidersInfo.Keys == listed;
    ChatKeysAreDistinct();
    DistinctElementCount(keys);
  }

  /** `GPT4` is the one registry entry whose answers are not streamed. */
  lemma OnlyGpt4IsNotStreamed()
    ensures "GPT4" in ProvidersInfo
    ensures forall key :: key in ProvidersInfo ==> (!ProvidersInfo[key].stream <==> key == "GPT4")
  {
  }

  /** Gemini is the one adapter with file uploads and with its own stream handling, and
      DeepInfra the one with function calling. */
  lemma CapabilityLists()
    ensures forall p :: p in FileSupportedProviders <==> p == GeminiProvider
    ensures forall p :: p in CustomStreamHandledProviders <==> p == GeminiProvider
    ensures forall p :: p in FunctionSupportedProviders <==> p == DeepInfraProvider
  {
  }

  /** `GoogleGemini` is the one registry entry whose adapter accepts files. */
  lemma OnlyGoogleGeminiTakesFiles()
    ensures forall key :: key in ProvidersInfo ==>
      (ProvidersInfo[key].provider in FileSupportedProviders <==> key == "GoogleGemini")
  {
  }

  predicate Distinct(s: seq<string>)
  {
    forall i, j :: 0 <= i < j < |s| ==> s[i] != s[j]
  }

  /** A sequence without repetitions has as many distinct elements as it is long. */
  lemma {:induction false} DistinctElementCount(s: seq<string>)
    requires Distinct(s)
    ensures |set i | 0 <= i < |s| :: s[i]| == |s|
  {
    if |s| > 0 {
      var init := s[..|s| - 1];
      DistinctElementCount(init);
      var before := set i | 0 <= i < |init| :: init[i];
      assert (set i | 0 <= i < |s| :: s[i]) == before + {s[|s| - 1]};
      assert s[|s| - 1] !in before;
    }
  }
}
