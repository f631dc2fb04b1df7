/**
  The `OpenAIModel` enumeration of the assistant crate: three models, each
  with a wire name (the serde rename, also returned by `full_name`), a
  shorter display label (`short_name`) and a successor under `cycle`.
*/
module OpenAI {
  import opened Wrappers

  datatype OpenAIModel = ThreePointFiveTurbo | Four | FourTurbo

  /** Position of a variant in declaration order; the reference order `cycle` walks. */
  function Ordinal(m: OpenAIModel): (k: nat)
    ensures k < 3
  {
    match m
    case ThreePointFiveTurbo => 0
    case Four => 1
    case FourTurbo => 2
  }

  /** The serde `rename` of each variant: the string it serialises to and the only one it deserialises from. */
  function WireName(m: OpenAIModel): (s: string)
    ensures |s| > 4 && s[..4] == "gpt-"
  {
    match m
    case ThreePointFiveTurbo => "gpt-3.5-turbo-0613"
    case Four => "gpt-4-0613"
    case FourTurbo => "gpt-4-1106-preview"
  }

  /** `full_name`: the identifier sent to the model provider; it is the serde wire name. */
  function FullName(m: OpenAIModel): (r: string)
    ensures r == WireName(m)
  {
    match m
    case ThreePointFiveTurbo => "gpt-3.5-turbo-0613"
    case Four => "gpt-4-0613"
    case FourTurbo => "gpt-4-1106-preview"
  }

  /** `short_name`: a display label strictly shorter than the full name. */
  function ShortName(m: OpenAIModel): (r: string)
    ensures 0 < |r| < |FullName(m)|
  {
    match m
    case ThreePointFiveTurbo => "gpt-3.5-turbo"
    case Four => "gpt-4"
    case FourTurbo => "gpt-4-turbo"
  }

  /** `cycle`: the next variant in declaration order, wrapping from the last to the first. */
  function Cycle(m: OpenAIModel): (r: OpenAIModel)
    ensures Ordinal(r) == (Ordinal(m) + 1) % 3
    ensures r != m
  {
    match m
    case ThreePointFiveTurbo => Four
    case Four => FourTurbo
    case FourTurbo => ThreePointFiveTurbo
  }

  /**
    Deserialisation of a model from its JSON string: exactly the three wire
    names are accepted, anything else is an error (serde's "unknown variant").
  */
  function ParseModel(s: string): (r: Option<OpenAIModel>)
    ensures r.Some? ==> WireName(r.value) == s
    ensures r.None? ==> forall m :: WireName(m) != s
  {
    if s == "gpt-3.5-turbo-0613" then Some(ThreePointFiveTurbo)
    else if s == "gpt-4-0613" then Some(Four)
    else if s == "gpt-4-1106-preview" then Some(FourTurbo)
    else None
  }

  /** `n` applications of `cycle`. */
  function CycleN(m: OpenAIModel, n: nat): OpenAIModel {
    if n == 0 then m else Cycle(CycleN(m, n - 1))
  }

  lemma OrdinalInjective(a: OpenAIModel, b: OpenAIModel)
    ensures Ordinal(a) == Ordinal(b) ==> a == b
  {
  }

  /** Parsing the full name of any variant gives that variant back. */
  lemma ParseFullName(m: OpenAIModel)
    ensures ParseModel(FullName(m)) == Some(m)
  {
  }

  /** Every string that parses is the full name of the variant it parses to. */
  lemma ParseOnlyFullNames(s: string, m: OpenAIModel)
    ensures ParseModel(s) == Some(m) <==> s == FullName(m)
  {
    if s == FullName(m) {
      ParseFullName(m);
    }
  }

  /** Distinct variants have distinct full names. */
  lemma FullNameInjective(a: OpenAIModel, b: OpenAIModel)
    ensures FullName(a) == FullName(b) <==> a == b
  {
    if FullName(a) == FullName(b) {
      ParseFullName(a);
      ParseFullName(b);
    }
  }

  /** Distinct variants have distinct display labels. */
  lemma ShortNameInjective(a: OpenAIModel, b: OpenAIModel)
    ensures ShortName(a) == ShortName(b) <==> a == b
  {
  }

  /** `n` applications of `cycle` advance the ordinal by `n`, modulo the number of variants. */
  lemma {:induction false} CycleNOrdinal(m: OpenAIModel, n: nat)
    ensures Ordinal(CycleN(m, n)) == (Ordinal(m) + n) % 3
  {
    if n > 0 {
      CycleNOrdinal(m, n - 1);
    }
  }

  /** `cycle` applied three times is the identity. */
  lemma CycleThrice(m: OpenAIModel)
    ensures Cycle(Cycle(Cycle(m))) == m
  {
  }

  /** `cycle` returns to its start after exactly the multiples of three steps: a single 3-cycle. */
  lemma CyclePeriod(m: OpenAIModel, n: nat)
    ensures CycleN(m, n) == m <==> n % 3 == 0
  {
    CycleNOrdinal(m, n);
    OrdinalInjective(CycleN(m, n), m);
  }

  /** From any variant every variant is reached, within fewer than three steps. */
  lemma CycleReachesAll(a: OpenAIModel, b: OpenAIModel)
    ensures CycleN(a, (Ordinal(b) - Ordinal(a)) % 3) == b
  {
    var n := (Ordinal(b) - Ordinal(a)) % 3;
    CycleNOrdinal(a, n);
    OrdinalInjective(CycleN(a, n), b);
  }

  /** `cycle` is a permutation of the variants. */
  lemma CycleInjective(a: OpenAIModel, b: OpenAIModel)
    ensures Cycle(a) == Cycle(b) <==> a == b
  {
  }
}
