/**
 * The provider pool: a fixed, ordered list of language-model configurations
 * and the process-wide index of the one in use. A rate-limited provider is
 * replaced by the next one, wrapping round to the first.
 */
module ModelManager {
  import opened Wrappers

  /** One entry of the pool: which client to build, and with which model. */
  datatype ProviderConfig = ProviderConfig(provider: string, model: string)

  /** The pool, primary first and fallback second. */
  const ModelPool: seq<ProviderConfig> :=
    [ProviderConfig("gemini", "gemini-2.5-flash"), ProviderConfig("xai", "grok-beta")]

  /** The endpoint of the OpenAI-compatible xAI client. */
  const XaiBaseUrl: string := "https://api.x.ai/v1"

  /** The index that `rotate_model` moves to from `i` in a pool of `n` entries. */
  function NextIndex(i: nat, n: nat): (r: nat)
    requires i < n
    ensures r < n
    ensures r == (i + 1) % n
  {
    if i + 1 >= n then 0 else i + 1
  }

  /** The index after `k` consecutive rotations starting at `i`. */
  function Rotations(i: nat, n: nat, k: nat): (r: nat)
    requires i < n
    ensures r < n
    decreases k
  {
    if k == 0 then i else Rotations(NextIndex(i, n), n, k - 1)
  }

  /** Up to a full cycle, `k` rotations advance the index by `k`, wrapping once past the end. */
  lemma {:induction false} RotationsWrap(i: nat, n: nat, k: nat)
    requires i < n && k <= n
    ensures Rotations(i, n, k) == if i + k < n then i + k else i + k - n
    decreases k
  {
    if k > 0 {
      RotationsWrap(NextIndex(i, n), n, k - 1);
    }
  }

  /** The same advance, stated modulo the pool size. */
  lemma RotationsMod(i: nat, n: nat, k: nat)
    requires i < n && k <= n
    ensures Rotations(i, n, k) == (i + k) % n
  {
    RotationsWrap(i, n, k);
    if i + k < n {
      ModBelow(i + k, n);
    } else {
      ModWrapOnce(i + k, n);
    }
  }

  lemma ModBelow(x: nat, n: nat)
    requires x < n
    ensures x % n == x
  {
  }

  lemma ModWrapOnce(x: nat, n: nat)
    requires n <= x < 2 * n
    ensures x % n == x - n
  {
  }

  /** As many rotations as there are providers bring the index back where it started. */
  lemma FullCycle(i: nat, n: nat)
    requires i < n
    ensures Rotations(i, n, n) == i
  {
    RotationsWrap(i, n, n);
  }

  /** The mutable part of the pool: `MODEL_POOL` with `_active_index`. */
  class ProviderPool {
    const configs: seq<ProviderConfig>
    var active: nat

    ghost predicate Valid()
      reads this
    {
      |configs| > 0 && active < |configs|
    }

    /** The pool as the module is loaded: `MODEL_POOL` with the primary selected. */
    constructor ()
      ensures Valid()
      ensures configs == ModelPool && active == 0
    {
      configs := ModelPool;
      active := 0;
    }

    /** `get_active_config`: the selected entry, always one of the pool's. */
    function ActiveConfig(): (cfg: ProviderConfig)
      reads this
      requires Valid()
      ensures cfg in configs
      ensures cfg == configs[active]
    {
      configs[active]
    }

    /** `rotate_model`: step to the next entry, wrapping to the first after the last. */
    method Rotate()
      requires Valid()
      modifies this
      ensures Valid()
      ensures active == (old(active) + 1) % |configs|
      ensures active == NextIndex(old(active), |configs|)
    {
      active := active + 1;
      if active >= |configs| {
        active := 0;
      }
      assert active == NextIndex(old(active), |configs|);
    }

    /** `reset_model`: select the primary again, whatever was selected before. */
    method Reset()
      requires Valid()
      modifies this
      ensures Valid()
      ensures active == 0
    {
      active := 0;
    }
  }

  /** A language-model client as `get_llm` builds it (sampling temperature 0 for both). */
  datatype Llm =
    | GeminiChat(model: string)
    | XaiChat(model: string, apiKey: string, baseUrl: string)

  /** The two exceptions `get_llm` raises. */
  datatype LlmError =
    | MissingXaiKey(message: string)   // RuntimeError
    | UnknownProvider(message: string) // ValueError

  /** An environment value Python treats as false in `if not api_key`: unset or empty. */
  predicate KeyMissing(key: Option<string>) {
    key == None || key == Some("")
  }

  /**
   * `get_llm` on the active configuration `cfg`, given the value of the
   * `XAI_API_KEY` environment variable.
   */
  function GetLlm(cfg: ProviderConfig, xaiKey: Option<string>): (r: Result<Llm, LlmError>)
    ensures cfg.provider == "gemini" ==> r == Success(GeminiChat(cfg.model))
    ensures cfg.provider == "xai" && KeyMissing(xaiKey) ==>
      r == Failure(MissingXaiKey("❌ XAI_API_KEY not set in environment"))
    ensures cfg.provider == "xai" && !KeyMissing(xaiKey) ==>
      r == Success(XaiChat(cfg.model, xaiKey.value, XaiBaseUrl))
    ensures cfg.provider != "gemini" && cfg.provider != "xai" ==>
      r == Failure(UnknownProvider("Unknown model provider: " + cfg.provider))
  {
    if cfg.provider == "gemini" then
      Success(GeminiChat(cfg.model))
    else if cfg.provider == "xai" then
      if xaiKey == None || xaiKey.value == "" then
        Failure(MissingXaiKey("❌ XAI_API_KEY not set in environment"))
      else
        Success(XaiChat(cfg.model, xaiKey.value, XaiBaseUrl))
    else
      Failure(UnknownProvider("Unknown model provider: " + cfg.provider))
  }

  /** The gemini client is built without looking at any key. */
  lemma GeminiIgnoresKey(cfg: ProviderConfig, k1: Option<string>, k2: Option<string>)
    requires cfg.provider == "gemini"
    ensures GetLlm(cfg, k1) == GetLlm(cfg, k2)
  {
  }

  /**
   * Every entry of `MODEL_POOL` names a known provider: the only error
   * `get_llm` can raise on it is the missing xAI key, and only on the xai entry.
   */
  lemma ModelPoolErrors(i: nat, key: Option<string>)
    requires i < |ModelPool|
    ensures GetLlm(ModelPool[i], key).Failure? <==> i == 1 && KeyMissing(key)
    ensures GetLlm(ModelPool[i], key).Failure? ==> GetLlm(ModelPool[i], key).error.MissingXaiKey?
  {
  }
}
