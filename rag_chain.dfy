/**
 * The failover orchestrator: `ask(question)` tries the active provider, and on
 * a rate-limit style failure rotates the pool and tries again, at most once
 * per provider. Retrieval, prompting and generation are opaque: each attempt's
 * outcome is supplied by a script with one entry per attempt the loop can make.
 */
module RagChain {
  import opened Wrappers
  import opened Text
  import opened Documents
  import opened ModelManager

  /**
   * What one pass through the `try` block yields: `chain.invoke(question)`
   * either returns the answer or raises (its exception's text), and, only when
   * it returned, the second `retriever.invoke(question)` returns the cited
   * chunks or raises.
   */
  datatype Attempt = Attempt(generation: Result<string, string>, citations: Result<seq<Doc>, string>)

  /** What escapes `ask`: a configuration error of `get_llm` or a provider exception. */
  datatype AskError =
    | Config(error: LlmError)
    | Provider(message: string)

  /** How `ask` ends: it returns an answer, raises, or returns the exhaustion sentinel. */
  datatype AskResult =
    | Answered(answer: string, docs: seq<Doc>)
    | Raised(error: AskError)
    | Exhausted

  /** The fixed answer returned when every attempt was rate-limited. */
  const ExhaustedAnswer: string := "⚠️ All AI providers are currently rate-limited. Please try again later."

  /** The pair `ask` returns to its caller when it does not raise. */
  function Reply(r: AskResult): (reply: (string, seq<Doc>))
    requires !r.Raised?
  {
    match r
    case Answered(a, d) => (a, d)
    case Exhausted => (ExhaustedAnswer, [])
  }

  /** The exception text an attempt raised inside the `try`, if any. */
  function AttemptError(a: Attempt): (m: Option<string>)
    ensures m == None <==> a.generation.Success? && a.citations.Success?
  {
    match a.generation
    case Failure(msg) => Some(msg)
    case Success(_) =>
      match a.citations
      case Failure(msg) => Some(msg)
      case Success(_) => None
  }

  /**
   * The classification of a caught exception: its lower-cased text mentions
   * resource exhaustion, a quota, a rate limit or HTTP status 429.
   */
  predicate IsTransient(message: string) {
    var msg := Lower(message);
    || Contains(msg, "resource_exhausted")
    || Contains(msg, "quota")
    || Contains(msg, "rate limit")
    || Contains(msg, "429")
  }

  /** Attempt `j` of the script raised an exception classified as transient. */
  predicate TransientAt(script: seq<Attempt>, j: nat)
    requires j < |script|
  {
    AttemptError(script[j]).Some? && IsTransient(AttemptError(script[j]).value)
  }

  /** A finished run of the loop: how it ended, the final pool index, and how many rotations it made. */
  datatype Run = Run(result: AskResult, index: nat, rotations: nat)

  /**
   * The loop of `ask` from the state where `attempts` attempts have been used
   * and the pool index is `index`.
   */
  function Failover(pool: seq<ProviderConfig>, index: nat, xaiKey: Option<string>,
                    script: seq<Attempt>, attempts: nat): (run: Run)
    requires index < |pool| && attempts <= |pool| <= |script|
    ensures run.index < |pool|
    ensures attempts + run.rotations <= |pool|
    ensures run.index == Rotations(index, |pool|, run.rotations)
    ensures run.result.Exhausted? <==> attempts + run.rotations == |pool|
    decreases |pool| - attempts
  {
    if attempts == |pool| then Run(Exhausted, index, 0)
    else
      match GetLlm(pool[index], xaiKey)
      case Failure(e) => Run(Raised(Config(e)), index, 0)
      case Success(_) =>
        match AttemptError(script[attempts])
        case None => Run(Answered(script[attempts].generation.value, script[attempts].citations.value), index, 0)
        case Some(msg) =>
          if IsTransient(msg) then
            var rest := Failover(pool, NextIndex(index, |pool|), xaiKey, script, attempts + 1);
            Run(rest.result, rest.index, rest.rotations + 1)
          else Run(Raised(Provider(msg)), index, 0)
  }

  /**
   * `ask` against the shared pool. `xaiKey` is the `XAI_API_KEY` environment
   * value; `script[k]` is what attempt `k` yields. The ghost `sleeps` counts
   * the two-second back-off pauses.
   */
  method Ask(pool: ProviderPool, xaiKey: Option<string>, script: seq<Attempt>)
    returns (result: AskResult, ghost sleeps: nat)
    requires pool.Valid() && |pool.configs| <= |script|
    modifies pool
    ensures pool.Valid()
    ensures var run := Failover(pool.configs, old(pool.active), xaiKey, script, 0);
      result == run.result && pool.active == run.index && sleeps == run.rotations
  {
    ghost var run := Failover(pool.configs, pool.active, xaiKey, script, 0);
    var attempts := 0;
    var maxAttempts := |pool.configs|;
    sleeps := 0;
    while attempts < maxAttempts
      invariant pool.Valid() && attempts <= maxAttempts == |pool.configs|
      invariant sleeps == attempts
      invariant var rest := Failover(pool.configs, pool.active, xaiKey, script, attempts);
        rest.result == run.result && rest.index == run.index && attempts + rest.rotations == run.rotations
      decreases maxAttempts - attempts
    {
      var llm := GetLlm(pool.ActiveConfig(), xaiKey);
      if llm.Failure? {
        return Raised(Config(llm.error)), sleeps;
      }
      var outcome := script[attempts];
      var error: Option<string> := None;
      match outcome.generation {
        case Failure(msg) =>
          error := Some(msg);
        case Success(answer) =>
          match outcome.citations {
            case Failure(msg) =>
              error := Some(msg);
            case Success(docs) =>
              return Answered(answer, docs), sleeps;
          }
      }
      if IsTransient(error.value) {
        pool.Rotate();
        attempts := attempts + 1;
        sleeps := sleeps + 1;
        continue;
      }
      return Raised(Provider(error.value)), sleeps;
    }
    result := Exhausted;
  }

  // -----------------------------------------------------------------------
  // Properties of the loop
  // -----------------------------------------------------------------------

  /**
   * Every rotation of a run answers a transient failure: the attempts it
   * skipped over all raised a transient exception.
   */
  lemma {:induction false} RotationsAreTransient(pool: seq<ProviderConfig>, index: nat, xaiKey: Option<string>,
                                                  script: seq<Attempt>, attempts: nat, j: nat)
    requires index < |pool| && attempts <= |pool| <= |script|
    requires attempts <= j < attempts + Failover(pool, index, xaiKey, script, attempts).rotations
    ensures TransientAt(script, j)
    decreases |pool| - attempts
  {
    if j > attempts {
      RotationsAreTransient(pool, NextIndex(index, |pool|), xaiKey, script, attempts + 1, j);
    }
  }

  /**
   * A run that answers returns exactly what the first non-failing attempt
   * produced, with the provider that attempt used still selected.
   */
  lemma {:induction false} AnsweredIsFirstSuccess(pool: seq<ProviderConfig>, index: nat, xaiKey: Option<string>,
                                                   script: seq<Attempt>, attempts: nat)
    requires index < |pool| && attempts <= |pool| <= |script|
    requires Failover(pool, index, xaiKey, script, attempts).result.Answered?
    ensures var run := Failover(pool, index, xaiKey, script, attempts);
      var a := script[attempts + run.rotations];
      && attempts + run.rotations < |pool|
      && AttemptError(a) == None
      && run.result == Answered(a.generation.value, a.citations.value)
      && GetLlm(pool[run.index], xaiKey).Success?
    decreases |pool| - attempts
  {
    var llm := GetLlm(pool[index], xaiKey);
    if llm.Success? && AttemptError(script[attempts]).Some? {
      AnsweredIsFirstSuccess(pool, NextIndex(index, |pool|), xaiKey, script, attempts + 1);
    }
  }

  /**
   * A provider exception escapes only when it is not transient, and it is the
   * exception of the attempt the run stopped at; the pool stays on that provider.
   */
  lemma {:induction false} RaisedIsFatal(pool: seq<ProviderConfig>, index: nat, xaiKey: Option<string>,
                                          script: seq<Attempt>, attempts: nat, msg: string)
    requires index < |pool| && attempts <= |pool| <= |script|
    requires Failover(pool, index, xaiKey, script, attempts).result == Raised(Provider(msg))
    ensures var run := Failover(pool, index, xaiKey, script, attempts);
      && attempts + run.rotations < |pool|
      && AttemptError(script[attempts + run.rotations]) == Some(msg)
      && !IsTransient(msg)
    decreases |pool| - attempts
  {
    var llm := GetLlm(pool[index], xaiKey);
    if llm.Success? && AttemptError(script[attempts]).Some? && IsTransient(AttemptError(script[attempts]).value) {
      RaisedIsFatal(pool, NextIndex(index, |pool|), xaiKey, script, attempts + 1, msg);
    }
  }

  /** A non-transient failure on the first attempt is re-raised with no rotation. */
  lemma FatalFirstAttempt(pool: seq<ProviderConfig>, index: nat, xaiKey: Option<string>,
                          script: seq<Attempt>, msg: string)
    requires index < |pool| <= |script|
    requires GetLlm(pool[index], xaiKey).Success?
    requires AttemptError(script[0]) == Some(msg) && !IsTransient(msg)
    ensures Failover(pool, index, xaiKey, script, 0) == Run(Raised(Provider(msg)), index, 0)
  {
  }

  /** `get_llm` succeeds on each of the first `k` providers a run starting at `index` visits. */
  predicate ConfiguredAlong(pool: seq<ProviderConfig>, index: nat, xaiKey: Option<string>, k: nat)
    requires index < |pool|
  {
    forall j :: 0 <= j < k ==> ConfiguredAt(pool, index, xaiKey, j)
  }

  /** `get_llm` succeeds on the provider a run from `index` reaches after `j` rotations. */
  predicate ConfiguredAt(pool: seq<ProviderConfig>, index: nat, xaiKey: Option<string>, j: nat)
    requires index < |pool|
  {
    GetLlm(pool[Rotations(index, |pool|, j)], xaiKey).Success?
  }

  /**
   * Without an xAI key the shipped pool, started on its primary, can be
   * configured for the first attempt (gemini) but not for the second (xai).
   */
  lemma ShippedPoolPrimaryConfigured()
    ensures ConfiguredAlong(ModelPool, 0, None, 1)
    ensures !ConfiguredAlong(ModelPool, 0, None, 2)
  {
    assert Rotations(0, |ModelPool|, 0) == 0;
    assert ConfiguredAt(ModelPool, 0, None, 0);
    assert Rotations(0, |ModelPool|, 1) == 1;
    assert !ConfiguredAt(ModelPool, 0, None, 1);
  }

  /**
   * When the first `k` providers visited can be configured and the first `k`
   * attempts fail transiently, the loop rotates `k` times before going on.
   */
  lemma {:induction false} TransientPrefix(pool: seq<ProviderConfig>, index: nat, xaiKey: Option<string>,
                                            script: seq<Attempt>, attempts: nat, k: nat)
    requires index < |pool| && attempts + k <= |pool| <= |script|
    requires ConfiguredAlong(pool, index, xaiKey, k)
    requires forall j :: attempts <= j < attempts + k ==> TransientAt(script, j)
    ensures var run := Failover(pool, index, xaiKey, script, attempts);
      var rest := Failover(pool, Rotations(index, |pool|, k), xaiKey, script, attempts + k);
      run == Run(rest.result, rest.index, rest.rotations + k)
    decreases k
  {
    if k > 0 {
      var next := NextIndex(index, |pool|);
      assert TransientAt(script, attempts);
      ConfiguredAlongNext(pool, index, xaiKey, k);
      TransientStep(pool, index, xaiKey, script, attempts);
      TransientPrefix(pool, next, xaiKey, script, attempts + 1, k - 1);
    }
  }

  /** A configured provider failing transiently costs one rotation, after which the loop goes on. */
  lemma TransientStep(pool: seq<ProviderConfig>, index: nat, xaiKey: Option<string>, script: seq<Attempt>, attempts: nat)
    requires index < |pool| && attempts < |pool| <= |script|
    requires GetLlm(pool[index], xaiKey).Success? && TransientAt(script, attempts)
    ensures var sub := Failover(pool, NextIndex(index, |pool|), xaiKey, script, attempts + 1);
      Failover(pool, index, xaiKey, script, attempts) == Run(sub.result, sub.index, sub.rotations + 1)
  {
  }

  /** The first provider of a configurable run can be configured, and so can the rest of the run. */
  lemma ConfiguredAlongNext(pool: seq<ProviderConfig>, index: nat, xaiKey: Option<string>, k: nat)
    requires index < |pool| && k > 0 && ConfiguredAlong(pool, index, xaiKey, k)
    ensures GetLlm(pool[index], xaiKey).Success?
    ensures ConfiguredAlong(pool, NextIndex(index, |pool|), xaiKey, k - 1)
  {
    var n := |pool|;
    var next := NextIndex(index, n);
    assert ConfiguredAt(pool, index, xaiKey, 0);
    forall j | 0 <= j < k - 1 ensures ConfiguredAt(pool, next, xaiKey, j) {
      assert ConfiguredAt(pool, index, xaiKey, j + 1);
      assert Rotations(index, n, j + 1) == Rotations(next, n, j);
    }
  }

  /**
   * If the first `k` attempts are rate-limited and attempt `k` succeeds, `ask`
   * returns that attempt's answer and chunks, with the index advanced by `k`
   * modulo the pool size.
   */
  lemma SuccessAfterTransients(pool: seq<ProviderConfig>, index: nat, xaiKey: Option<string>,
                               script: seq<Attempt>, k: nat)
    requires index < |pool| <= |script| && k < |pool|
    requires ConfiguredAlong(pool, index, xaiKey, k + 1)
    requires forall j :: 0 <= j < k ==> TransientAt(script, j)
    requires AttemptError(script[k]) == None
    ensures var run := Failover(pool, index, xaiKey, script, 0);
      && run.result == Answered(script[k].generation.value, script[k].citations.value)
      && run.rotations == k
      && run.index == (index + k) % |pool|
  {
    TransientPrefix(pool, index, xaiKey, script, 0, k);
    RotationsMod(index, |pool|, k);
    assert ConfiguredAt(pool, index, xaiKey, k);
  }

  /**
   * If every attempt is rate-limited, `ask` returns the sentinel with no
   * chunks instead of raising, and the pool ends on the provider it started on.
   */
  lemma AllTransientExhausts(pool: seq<ProviderConfig>, index: nat, xaiKey: Option<string>, script: seq<Attempt>)
    requires index < |pool| <= |script|
    requires ConfiguredAlong(pool, index, xaiKey, |pool|)
    requires forall j :: 0 <= j < |pool| ==> TransientAt(script, j)
    ensures var run := Failover(pool, index, xaiKey, script, 0);
      && run.result == Exhausted && Reply(run.result) == (ExhaustedAnswer, [])
      && run.rotations == |pool| && run.index == index
  {
    TransientPrefix(pool, index, xaiKey, script, 0, |pool|);
    FullCycle(index, |pool|);
  }

  /** Exhaustion happens only after a full cycle of rotations, so the index is back at its start. */
  lemma ExhaustedReturnsToStart(pool: seq<ProviderConfig>, index: nat, xaiKey: Option<string>, script: seq<Attempt>)
    requires index < |pool| <= |script|
    requires Failover(pool, index, xaiKey, script, 0).result.Exhausted?
    ensures Failover(pool, index, xaiKey, script, 0).index == index
    ensures forall j :: 0 <= j < |pool| ==> TransientAt(script, j)
  {
    FullCycle(index, |pool|);
    forall j | 0 <= j < |pool| ensures TransientAt(script, j) {
      RotationsAreTransient(pool, index, xaiKey, script, 0, j);
    }
  }

  /**
   * With the shipped pool on the primary and no xAI key, a rate-limited first
   * attempt rotates to xai, whose `get_llm` raises outside the `try`: the
   * configuration error escapes and the pool is left on the xai entry.
   */
  lemma MissingKeyAfterRateLimit(xaiKey: Option<string>, script: seq<Attempt>)
    requires |ModelPool| <= |script| && KeyMissing(xaiKey)
    requires TransientAt(script, 0)
    ensures Failover(ModelPool, 0, xaiKey, script, 0)
      == Run(Raised(Config(MissingXaiKey("❌ XAI_API_KEY not set in environment"))), 1, 1)
  {
    assert GetLlm(ModelPool[0], xaiKey).Success?;
    assert NextIndex(0, |ModelPool|) == 1;
  }

  /**
   * A failure while fetching the cited chunks is classified exactly like a
   * generation failure with the same text, at whichever attempt it happens.
   */
  lemma CitationErrorsClassified(pool: seq<ProviderConfig>, index: nat, xaiKey: Option<string>,
                                 script: seq<Attempt>, j: nat, answer: string, msg: string)
    requires index < |pool| <= |script| && j < |pool|
    requires script[j].generation == Failure(msg)
    ensures var s1 := script[j := Attempt(Success(answer), Failure(msg))];
      Failover(pool, index, xaiKey, s1, 0) == Failover(pool, index, xaiKey, script, 0)
  {
    var s1 := script[j := Attempt(Success(answer), Failure(msg))];
    SameErrors(pool, index, xaiKey, script, s1, 0);
  }

  /**
   * Two scripts whose attempts raise the same exceptions and answer alike
   * drive the loop alike.
   */
  lemma {:induction false} SameErrors(pool: seq<ProviderConfig>, index: nat, xaiKey: Option<string>,
                                       script: seq<Attempt>, s1: seq<Attempt>, attempts: nat)
    requires index < |pool| <= |script| && |s1| == |script| && attempts <= |pool|
    requires forall j :: attempts <= j < |pool| ==> AttemptError(s1[j]) == AttemptError(script[j])
    requires forall j :: attempts <= j < |pool| && AttemptError(script[j]) == None ==> s1[j] == script[j]
    ensures Failover(pool, index, xaiKey, s1, attempts) == Failover(pool, index, xaiKey, script, attempts)
    decreases |pool| - attempts
  {
    if attempts < |pool| {
      SameErrors(pool, NextIndex(index, |pool|), xaiKey, script, s1, attempts + 1);
    }
  }

  /** Transience is decided on the lower-cased text: "Quota exceeded" and "HTTP 429 ..." are transient. */
  lemma TransientExamples()
    ensures IsTransient("Quota exceeded")
    ensures IsTransient("HTTP 429 Too Many Requests")
  {
    var m := Lower("Quota exceeded");
    assert m[0] == 'q';
    assert m[..5] == "quota";
    var m2 := Lower("HTTP 429 Too Many Requests");
    assert m2[5] == '4' && m2[6] == '2' && m2[7] == '9';
    assert m2[5..8] == "429";
    ContainsIff(m2, "429");
    assert OccursAt(m2, "429", 5);
  }

  /** An authentication failure mentions none of the markers, so it is re-raised. */
  lemma FatalExample()
    ensures !IsTransient("Invalid API key")
  {
    var m := Lower("Invalid API key");
    assert forall i :: 0 <= i < |m| ==> m[i] != 'r' && m[i] != 'q' && m[i] != '4';
    FirstCharAbsent(m, "resource_exhausted");
    FirstCharAbsent(m, "quota");
    FirstCharAbsent(m, "rate limit");
    FirstCharAbsent(m, "429");
  }

  lemma FirstCharAbsent(s: string, sub: string)
    requires |sub| > 0 && sub[0] !in s
    ensures !Contains(s, sub)
  {
    ContainsIff(s, sub);
  }
}
