/** Provider selection (config.py): the settings of the three language-model
    providers, the case-insensitive lookup by name, which providers have a
    usable key, and the fixed-priority choice among them. The keys read from
    the environment are inputs. */
module Config {
  import opened Wrappers
  import opened Text

  datatype Provider = Nvidia | Groq | HuggingFace

  /** The name a provider is known by. */
  function Name(p: Provider): string {
    match p
    case Nvidia => "nvidia"
    case Groq => "groq"
    case HuggingFace => "huggingface"
  }

  /** The order in which providers are preferred. */
  const PriorityOrder: seq<Provider> := [Nvidia, Groq, HuggingFace]

  /** `AppConfig.DEFAULT_PROVIDER` */
  const DefaultProvider: Provider := Nvidia

  /** The API keys: for NVIDIA the configured key, for the others the
      environment variable, `None` when it is unset. */
  datatype Keys = Keys(nvidia: Option<string>, groq: Option<string>, huggingface: Option<string>)

  /** A provider's settings. The temperature, a float, is kept in tenths. */
  datatype ProviderConfig = ProviderConfig(
    apiKey: Option<string>,
    baseUrl: string,
    model: string,
    maxTokens: nat,
    temperatureTenths: nat)

  function KeyOf(p: Provider, keys: Keys): Option<string> {
    match p
    case Nvidia => keys.nvidia
    case Groq => keys.groq
    case HuggingFace => keys.huggingface
  }

  /** `NVIDIA_CONFIG`, `GROQ_CONFIG` and `HUGGINGFACE_CONFIG`. */
  function ConfigOf(p: Provider, keys: Keys): (c: ProviderConfig)
    ensures c.apiKey == KeyOf(p, keys)
    ensures c.temperatureTenths == 7
    ensures 1024 <= c.maxTokens <= 4096
  {
    match p
    case Nvidia =>
      ProviderConfig(keys.nvidia, "https://integrate.api.nvidia.com/v1", "meta/llama3-70b-instruct", 2048, 7)
    case Groq =>
      ProviderConfig(keys.groq, "https://api.groq.com/openai/v1", "llama-3.1-8b-instant", 4096, 7)
    case HuggingFace =>
      ProviderConfig(keys.huggingface, "https://api-inference.huggingface.co/models", "microsoft/DialoGPT-large", 1024, 7)
  }

  /* ---------------- lookup by name ---------------- */

  /** `get_provider_config(provider)`: the settings of the provider whose
      name is the lower-cased argument, or `None`. */
  function GetProviderConfig(name: string, keys: Keys): Option<ProviderConfig> {
    var n := Lower(name);
    if n == "nvidia" then Some(ConfigOf(Nvidia, keys))
    else if n == "groq" then Some(ConfigOf(Groq, keys))
    else if n == "huggingface" then Some(ConfigOf(HuggingFace, keys))
    else None
  }

  /** Provider names are in lower case. */
  lemma NameIsLower(p: Provider)
    ensures Lower(Name(p)) == Name(p)
  {
    LowerOfLowerCase(Name(p));
  }

  /** The lookup finds a provider exactly when the name, ignoring case, is
      that provider's name, and then gives that provider's settings; any
      other name gives `None`. */
  lemma LookupByName(name: string, keys: Keys)
    ensures GetProviderConfig(name, keys).Some? <==> exists p :: Lower(name) == Name(p)
    ensures forall p :: Lower(name) == Name(p) ==> GetProviderConfig(name, keys) == Some(ConfigOf(p, keys))
  {
    if GetProviderConfig(name, keys).Some? {
      if Lower(name) == "nvidia" {
        assert Lower(name) == Name(Nvidia);
      } else if Lower(name) == "groq" {
        assert Lower(name) == Name(Groq);
      } else {
        assert Lower(name) == Name(HuggingFace);
      }
    }
  }

  /** The lookup ignores case: every provider is found under its own name
      and under its name in capitals. */
  lemma LookupIgnoresCase(p: Provider, keys: Keys)
    ensures GetProviderConfig(Name(p), keys) == Some(ConfigOf(p, keys))
    ensures GetProviderConfig(Upper(Name(p)), keys) == Some(ConfigOf(p, keys))
  {
    NameIsLower(p);
    LowerOfUpper(Name(p));
    LookupByName(Name(p), keys);
    LookupByName(Upper(Name(p)), keys);
  }

  /* ---------------- availability ---------------- */

  /** The placeholder a key may still hold in a copied `.env` file. */
  function Placeholder(p: Provider): Option<string> {
    match p
    case Nvidia => None
    case Groq => Some("your_groq_key_here")
    case HuggingFace => Some("your_huggingface_token_here")
  }

  /** A provider is available when its key is set, non-empty and not its
      placeholder. */
  predicate IsAvailable(p: Provider, keys: Keys) {
    var k := KeyOf(p, keys);
    k.Some? && k.value != [] && (Placeholder(p).None? || k.value != Placeholder(p).value)
  }

  /** `get_available_providers()`: each provider's name with whether it is
      available. */
  function AvailableProviders(keys: Keys): map<string, bool> {
    map[
      "nvidia" := IsAvailable(Nvidia, keys),
      "groq" := IsAvailable(Groq, keys),
      "huggingface" := IsAvailable(HuggingFace, keys)]
  }

  /** The availability map names exactly the three providers, each with its
      availability. */
  lemma AvailableProvidersMap(keys: Keys)
    ensures forall n :: n in AvailableProviders(keys) <==> exists p :: n == Name(p)
    ensures forall p :: AvailableProviders(keys)[Name(p)] == IsAvailable(p, keys)
  {
    forall n | n in AvailableProviders(keys) ensures exists p :: n == Name(p) {
      if n == "nvidia" {
        assert n == Name(Nvidia);
      } else if n == "groq" {
        assert n == Name(Groq);
      } else {
        assert n == Name(HuggingFace);
      }
    }
  }

  /** NVIDIA is available exactly when its key is non-empty; the others
      also need a key other than their placeholder, so a left-in
      placeholder counts as no key. */
  lemma Availability(keys: Keys)
    ensures IsAvailable(Nvidia, keys) <==> keys.nvidia.Some? && keys.nvidia.value != []
    ensures IsAvailable(Groq, keys) <==>
      keys.groq.Some? && keys.groq.value != [] && keys.groq.value != "your_groq_key_here"
    ensures IsAvailable(HuggingFace, keys) <==>
      keys.huggingface.Some? && keys.huggingface.value != [] &&
      keys.huggingface.value != "your_huggingface_token_here"
  {
  }

  /* ---------------- the preferred provider ---------------- */

  /** The first provider of `order` that is available, if any. */
  function FirstAvailable(order: seq<Provider>, keys: Keys): (r: Option<Provider>)
    ensures r.Some? ==> r.value in order && IsAvailable(r.value, keys)
    ensures r.None? ==> forall i :: 0 <= i < |order| ==> !IsAvailable(order[i], keys)
    decreases |order|
  {
    if order == [] then None
    else if IsAvailable(order[0], keys) then Some(order[0])
    else FirstAvailable(order[1..], keys)
  }

  /** `get_best_available_provider()`: the first available provider in
      priority order, or NVIDIA when none is. */
  function BestProvider(keys: Keys): string {
    match FirstAvailable(PriorityOrder, keys)
    case Some(p) => Name(p)
    case None => Name(DefaultProvider)
  }

  /** No provider ahead of position `i` is available. */
  predicate NoneAvailableBefore(order: seq<Provider>, i: nat, keys: Keys)
    requires i <= |order|
  {
    forall j :: 0 <= j < i ==> !IsAvailable(order[j], keys)
  }

  /** Every provider ahead of the one found is unavailable. */
  lemma {:induction false} FirstAvailableIsFirst(order: seq<Provider>, keys: Keys)
    requires FirstAvailable(order, keys).Some?
    ensures exists i :: 0 <= i < |order| && order[i] == FirstAvailable(order, keys).value && NoneAvailableBefore(order, i, keys)
    decreases |order|
  {
    if !IsAvailable(order[0], keys) {
      FirstAvailableIsFirst(order[1..], keys);
      var i :| 0 <= i < |order[1..]| && order[1..][i] == FirstAvailable(order, keys).value && NoneAvailableBefore(order[1..], i, keys);
      assert order[i + 1] == FirstAvailable(order, keys).value;
      forall j | 0 <= j < i + 1 ensures !IsAvailable(order[j], keys) {
        if j > 0 {
          assert order[j] == order[1..][j - 1];
        }
      }
    } else {
      assert order[0] == FirstAvailable(order, keys).value;
    }
  }

  /** The choice is always one of the three names. NVIDIA is chosen when it
      is available or when nothing is; Groq when it is available and NVIDIA
      is not; Hugging Face only when it alone is available. */
  lemma BestProviderChoice(keys: Keys)
    ensures exists p :: BestProvider(keys) == Name(p)
    ensures BestProvider(keys) == Name(Nvidia) <==>
      IsAvailable(Nvidia, keys) || (!IsAvailable(Groq, keys) && !IsAvailable(HuggingFace, keys))
    ensures BestProvider(keys) == Name(Groq) <==> !IsAvailable(Nvidia, keys) && IsAvailable(Groq, keys)
    ensures BestProvider(keys) == Name(HuggingFace) <==>
      !IsAvailable(Nvidia, keys) && !IsAvailable(Groq, keys) && IsAvailable(HuggingFace, keys)
  {
    assert PriorityOrder[1..] == [Groq, HuggingFace];
    assert PriorityOrder[1..][1..] == [HuggingFace];
    assert PriorityOrder[1..][1..][1..] == [];
    assert Name(Nvidia)[0] == 'n' && Name(Groq)[0] == 'g' && Name(HuggingFace)[0] == 'h';
    if IsAvailable(Nvidia, keys) {
      assert BestProvider(keys) == Name(Nvidia);
    } else if IsAvailable(Groq, keys) {
      assert BestProvider(keys) == Name(Groq);
    } else if IsAvailable(HuggingFace, keys) {
      assert BestProvider(keys) == Name(HuggingFace);
    } else {
      assert BestProvider(keys) == Name(Nvidia);
    }
  }

  /** The provider chosen is available unless none is. */
  lemma BestProviderAvailable(keys: Keys)
    ensures (exists p :: IsAvailable(p, keys)) ==>
      exists p :: BestProvider(keys) == Name(p) && IsAvailable(p, keys)
  {
    if exists p :: IsAvailable(p, keys) {
      var p :| IsAvailable(p, keys);
      assert p == PriorityOrder[0] || p == PriorityOrder[1] || p == PriorityOrder[2];
      var r := FirstAvailable(PriorityOrder, keys);
      assert r.Some?;
      assert BestProvider(keys) == Name(r.value);
    }
  }
}
