/** The per-round token collector: `MaboolCallbackHandler.on_llm_end` folds
    each LLM completion's usage into a map from model name to counters. */
module UsageCallback {
  import opened Wrappers

  datatype TokenUsage = TokenUsage(total: int, prompt: int, completion: int, reasoning: int)

  type UsageMap = map<string, TokenUsage>

  /** A message's `usage_metadata`. The three counts are required keys of
      the typed dict; `outputTokenDetails` is `output_token_details`, empty
      when absent. */
  datatype UsageMetadata = UsageMetadata(
    inputTokens: int,
    outputTokens: int,
    totalTokens: int,
    outputTokenDetails: map<string, int>)

  /** `usageMetadata` is `None` when the message carries no usage or an
      empty one (both falsy). */
  datatype Message =
    | AIMessage(usageMetadata: Option<UsageMetadata>, responseMetadata: map<string, string>)
    | OtherMessage

  datatype Generation = ChatGeneration(message: Message) | OtherGeneration

  /** An `LLMResult`: one list of candidate generations per prompt. */
  datatype LLMResult = LLMResult(generations: seq<seq<Generation>>)

  /** The exception `response.generations[0][0]` raises on an empty result. */
  datatype HandlerError = IndexError

  const UNKNOWN_MODEL := "unknown"
  const ZERO := TokenUsage(0, 0, 0, 0)

  /** A fresh handler's `tokens_by_model`. */
  const FRESH: UsageMap := map[]

  function Plus(a: TokenUsage, b: TokenUsage): TokenUsage
  {
    TokenUsage(a.total + b.total, a.prompt + b.prompt, a.completion + b.completion, a.reasoning + b.reasoning)
  }

  /** Componentwise `a <= b`. */
  predicate NoDecrease(a: TokenUsage, b: TokenUsage)
  {
    a.total <= b.total && a.prompt <= b.prompt && a.completion <= b.completion && a.reasoning <= b.reasoning
  }

  predicate NonNegative(u: TokenUsage)
  {
    NoDecrease(ZERO, u)
  }

  /** The entry for `name`, or the zeroed entry a new model starts from. */
  function Entry(m: UsageMap, name: string): TokenUsage
  {
    if name in m then m[name] else ZERO
  }

  /** The model a message's usage is booked under: `model_name`, else
      `model_version`, else "unknown". */
  function ResolveModelName(responseMetadata: map<string, string>): (name: string)
    ensures "model_name" in responseMetadata ==> name == responseMetadata["model_name"]
    ensures "model_name" !in responseMetadata && "model_version" in responseMetadata
      ==> name == responseMetadata["model_version"]
    ensures "model_name" !in responseMetadata && "model_version" !in responseMetadata
      ==> name == UNKNOWN_MODEL
    ensures name == UNKNOWN_MODEL || name in responseMetadata.Values
  {
    if "model_name" in responseMetadata then responseMetadata["model_name"]
    else if "model_version" in responseMetadata then responseMetadata["model_version"]
    else UNKNOWN_MODEL
  }

  /** `output_token_details.get("reasoning", 0)`. */
  function ReasoningTokens(u: UsageMetadata): (n: int)
    ensures "reasoning" in u.outputTokenDetails ==> n == u.outputTokenDetails["reasoning"]
    ensures "reasoning" !in u.outputTokenDetails ==> n == 0
  {
    if "reasoning" in u.outputTokenDetails then u.outputTokenDetails["reasoning"] else 0
  }

  /** The four increments one usage record contributes. */
  function Delta(u: UsageMetadata): TokenUsage
  {
    TokenUsage(u.totalTokens, u.inputTokens, u.outputTokens, ReasoningTokens(u))
  }

  /** The (model name, usage) a generation reports, or None when it is not
      a chat generation, its message is not an AI message, or it has no
      usage. */
  function Reported(g: Generation): Option<(string, UsageMetadata)>
  {
    match g
    case ChatGeneration(AIMessage(Some(u), meta)) => Some((ResolveModelName(meta), u))
    case _ => None
  }

  /** The body of `on_llm_end` once the first generation is in hand. */
  function Accumulate(m: UsageMap, g: Generation): (r: UsageMap)
    ensures Reported(g).None? ==> r == m
    ensures Reported(g).Some? ==>
      var (name, u) := Reported(g).value;
      && r.Keys == m.Keys + {name}
      && r[name] == Plus(Entry(m, name), Delta(u))
      && forall k :: k in m && k != name ==> r[k] == m[k]
  {
    match g
    case ChatGeneration(AIMessage(Some(u), meta)) =>
      var name := ResolveModelName(meta);
      m[name := Plus(Entry(m, name), Delta(u))]
    case _ => m
  }

  /** `on_llm_end`: reads `response.generations[0][0]`, raising IndexError
      before touching the map when there is none. */
  function OnLlmEnd(m: UsageMap, response: LLMResult): (r: Result<UsageMap, HandlerError>)
    ensures r.Failure? <==> |response.generations| == 0 || |response.generations[0]| == 0
    ensures r.Success? ==> r.value == Accumulate(m, response.generations[0][0])
  {
    if |response.generations| == 0 || |response.generations[0]| == 0 then Failure(IndexError)
    else Success(Accumulate(m, response.generations[0][0]))
  }

  /** The map after folding the generations of a round, in order, into `m`. */
  function CollectFrom(m: UsageMap, gens: seq<Generation>): UsageMap
    decreases |gens|
  {
    if gens == [] then m else CollectFrom(Accumulate(m, gens[0]), gens[1..])
  }

  /** A round's `tokens_by_model`: a fresh handler fed the round's generations. */
  function Collect(gens: seq<Generation>): (r: UsageMap)
    ensures gens == [] ==> r == map[]
    ensures r.Keys == ReportedModels(gens)
    ensures forall name :: name in r ==> r[name] == SumFor(gens, name)
  {
    CollectFromKeys(FRESH, gens);
    CollectFromAllSums(FRESH, gens);
    CollectFrom(FRESH, gens)
  }

  // ---------------------------------------------------------------------
  // Reference definitions: what a round's map should hold

  /** What `g` adds to model `name`. */
  function ContributionTo(g: Generation, name: string): TokenUsage
  {
    match Reported(g)
    case Some((n, u)) => if n == name then Delta(u) else ZERO
    case None => ZERO
  }

  /** The sum of everything the generations report for model `name`. */
  function SumFor(gens: seq<Generation>, name: string): TokenUsage
    decreases |gens|
  {
    if gens == [] then ZERO else Plus(ContributionTo(gens[0], name), SumFor(gens[1..], name))
  }

  /** The models the generations report usage for. */
  function ReportedModels(gens: seq<Generation>): set<string>
  {
    set i | 0 <= i < |gens| && Reported(gens[i]).Some? :: Reported(gens[i]).value.0
  }

  // ---------------------------------------------------------------------
  // Properties

  /** One generation adds its contribution to model `name`'s entry. */
  lemma AccumulateEntry(m: UsageMap, g: Generation, name: string)
    ensures Entry(Accumulate(m, g), name) == Plus(Entry(m, name), ContributionTo(g, name))
  {
  }

  /** Every counter of every model is the running total of what was
      reported for it, starting from the map's existing entry. */
  lemma {:induction false} CollectFromSums(m: UsageMap, gens: seq<Generation>, name: string)
    ensures Entry(CollectFrom(m, gens), name) == Plus(Entry(m, name), SumFor(gens, name))
    decreases |gens|
  {
    if gens == [] {
      PlusZero(Entry(m, name));
    } else {
      var a := Accumulate(m, gens[0]);
      CollectFromSums(a, gens[1..], name);
      AccumulateEntry(m, gens[0], name);
      SumsStep(m, gens, name, a);
    }
  }

  /** `CollectFromSums` for every model at once; a fresh map starts each
      model at zero. */
  lemma CollectFromAllSums(m: UsageMap, gens: seq<Generation>)
    ensures forall name :: Entry(CollectFrom(m, gens), name) == Plus(Entry(m, name), SumFor(gens, name))
    ensures m == FRESH ==> forall name :: name in CollectFrom(m, gens) ==> CollectFrom(m, gens)[name] == SumFor(gens, name)
  {
    forall name
      ensures Entry(CollectFrom(m, gens), name) == Plus(Entry(m, name), SumFor(gens, name))
    {
      CollectFromSums(m, gens, name);
    }
    if m == FRESH {
      forall name | name in CollectFrom(m, gens)
        ensures CollectFrom(m, gens)[name] == SumFor(gens, name)
      {
        ZeroPlus(SumFor(gens, name));
      }
    }
  }

  lemma ZeroPlus(a: TokenUsage)
    ensures Plus(ZERO, a) == a
  {
  }

  /** The inductive step of `CollectFromSums`, given the hypothesis for the tail. */
  lemma SumsStep(m: UsageMap, gens: seq<Generation>, name: string, a: UsageMap)
    requires gens != [] && a == Accumulate(m, gens[0])
    requires Entry(CollectFrom(a, gens[1..]), name) == Plus(Entry(a, name), SumFor(gens[1..], name))
    requires Entry(a, name) == Plus(Entry(m, name), ContributionTo(gens[0], name))
    ensures Entry(CollectFrom(m, gens), name) == Plus(Entry(m, name), SumFor(gens, name))
  {
    var c := ContributionTo(gens[0], name);
    var s := SumFor(gens[1..], name);
    CollectFromStep(m, gens);
    assert SumFor(gens, name) == Plus(c, s);
    assert Entry(CollectFrom(m, gens), name) == Plus(Plus(Entry(m, name), c), s);
    PlusAssociative(Entry(m, name), c, s);
  }

  lemma CollectFromStep(m: UsageMap, gens: seq<Generation>)
    requires gens != []
    ensures CollectFrom(m, gens) == CollectFrom(Accumulate(m, gens[0]), gens[1..])
  {
  }

  lemma PlusZero(a: TokenUsage)
    ensures Plus(a, ZERO) == a
  {
  }

  lemma PlusAssociative(a: TokenUsage, b: TokenUsage, c: TokenUsage)
    ensures Plus(Plus(a, b), c) == Plus(a, Plus(b, c))
  {
  }

  /** The models in the map are those it had plus those reported. */
  lemma {:induction false} CollectFromKeys(m: UsageMap, gens: seq<Generation>)
    ensures CollectFrom(m, gens).Keys == m.Keys + ReportedModels(gens)
    decreases |gens|
  {
    if gens != [] {
      CollectFromKeys(Accumulate(m, gens[0]), gens[1..]);
      var head := if Reported(gens[0]).Some? then {Reported(gens[0]).value.0} else {};
      assert ReportedModels(gens) == head + ReportedModels(gens[1..]) by {
        forall x
          ensures x in ReportedModels(gens) <==> x in head + ReportedModels(gens[1..])
        {
          if x in ReportedModels(gens) {
            var i :| 0 <= i < |gens| && Reported(gens[i]).Some? && Reported(gens[i]).value.0 == x;
            if i > 0 { assert gens[1..][i - 1] == gens[i]; }
          }
          if x in ReportedModels(gens[1..]) {
            var i :| 0 <= i < |gens[1..]| && Reported(gens[1..][i]).Some? && Reported(gens[1..][i]).value.0 == x;
            assert gens[i + 1] == gens[1..][i];
          }
        }
      }
    }
  }

  /** A round's map holds exactly the models its own generations reported,
      each with the sum of its own reports: nothing from any other round. */
  lemma CollectIsPerRoundSum(gens: seq<Generation>)
    ensures Collect(gens).Keys == ReportedModels(gens)
    ensures forall name :: name in Collect(gens) ==> Collect(gens)[name] == SumFor(gens, name)
  {
    CollectFromKeys(FRESH, gens);
    forall name | name in Collect(gens)
      ensures Collect(gens)[name] == SumFor(gens, name)
    {
      CollectFromSums(FRESH, gens, name);
    }
  }

  /** With non-negative reports no counter of any model ever goes down, and
      no model disappears. */
  lemma AccumulateNoDecrease(m: UsageMap, g: Generation)
    requires Reported(g).Some? ==> NonNegative(Delta(Reported(g).value.1))
    ensures m.Keys <= Accumulate(m, g).Keys
    ensures forall k :: k in m ==> NoDecrease(m[k], Accumulate(m, g)[k])
  {
  }

  /** The two generations of the worked example, with totals 3 and 7. */
  function ExampleGenerations(meta: map<string, string>): seq<Generation>
  {
    [ChatGeneration(AIMessage(Some(UsageMetadata(1, 2, 3, map[])), meta)),
     ChatGeneration(AIMessage(Some(UsageMetadata(4, 3, 7, map["reasoning" := 5])), meta))]
  }

  /** Accumulating into a map that holds at most the reported model gives
      a map holding only that model. */
  lemma AccumulateSingle(m: UsageMap, g: Generation, name: string, u: UsageMetadata)
    requires Reported(g) == Some((name, u))
    requires m.Keys <= {name}
    ensures Accumulate(m, g) == map[name := Plus(Entry(m, name), Delta(u))]
  {
    var r := Accumulate(m, g);
    assert r.Keys == {name};
    assert r[name] == Plus(Entry(m, name), Delta(u));
  }

  lemma ExampleDeltas()
    ensures Delta(UsageMetadata(1, 2, 3, map[])) == TokenUsage(3, 1, 2, 0)
    ensures Delta(UsageMetadata(4, 3, 7, map["reasoning" := 5])) == TokenUsage(7, 4, 3, 5)
  {
    assert ReasoningTokens(UsageMetadata(1, 2, 3, map[])) == 0;
    assert ReasoningTokens(UsageMetadata(4, 3, 7, map["reasoning" := 5])) == 5;
  }

  lemma ExampleFirst(meta: map<string, string>)
    ensures Accumulate(FRESH, ExampleGenerations(meta)[0])
         == map[ResolveModelName(meta) := TokenUsage(3, 1, 2, 0)]
  {
    var name := ResolveModelName(meta);
    var u := UsageMetadata(1, 2, 3, map[]);
    assert Reported(ExampleGenerations(meta)[0]) == Some((name, u));
    AccumulateSingle(FRESH, ExampleGenerations(meta)[0], name, u);
    ExampleDeltas();
    ZeroPlus(TokenUsage(3, 1, 2, 0));
  }

  lemma ExampleSecond(meta: map<string, string>)
    ensures Accumulate(map[ResolveModelName(meta) := TokenUsage(3, 1, 2, 0)], ExampleGenerations(meta)[1])
         == map[ResolveModelName(meta) := TokenUsage(10, 5, 5, 5)]
  {
    var name := ResolveModelName(meta);
    var u := UsageMetadata(4, 3, 7, map["reasoning" := 5]);
    var m := map[name := TokenUsage(3, 1, 2, 0)];
    assert Reported(ExampleGenerations(meta)[1]) == Some((name, u));
    AccumulateSingle(m, ExampleGenerations(meta)[1], name, u);
    ExampleDeltas();
    assert Entry(m, name) == TokenUsage(3, 1, 2, 0);
  }

  lemma ExampleFold(meta: map<string, string>)
    ensures CollectFrom(FRESH, ExampleGenerations(meta))
         == map[ResolveModelName(meta) := TokenUsage(10, 5, 5, 5)]
  {
    var gens := ExampleGenerations(meta);
    var name := ResolveModelName(meta);
    ExampleFirst(meta);
    ExampleSecond(meta);
    var m1 := map[name := TokenUsage(3, 1, 2, 0)];
    var m2 := map[name := TokenUsage(10, 5, 5, 5)];
    assert gens[1..][1..] == [];
    assert CollectFrom(FRESH, gens) == CollectFrom(m1, gens[1..]);
    assert CollectFrom(m1, gens[1..]) == CollectFrom(m2, []);
  }

  /** Two reports for one model, totals 3 then 7, leave total 10. */
  lemma AccumulationExample(meta: map<string, string>)
    ensures Collect(ExampleGenerations(meta)) == map[ResolveModelName(meta) := TokenUsage(10, 5, 5, 5)]
  {
    ExampleFold(meta);
  }
}
