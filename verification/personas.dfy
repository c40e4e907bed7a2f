/**
 The council's personas and the fixed-key records the server and the page
 keep per persona. Both sides of the system key everything by the three
 persona ids; `PerPersona<T>` is that JavaScript object with exactly the
 keys `supporter`, `analyst` and `challenger`.
 */
module Personas {

  datatype Option<+T> = None | Some(value: T)

  datatype PersonaId = Supporter | Analyst | Challenger

  /** The order in which the server builds, issues and reads the three calls,
      and in which the page lists its panels. */
  const CouncilOrder: seq<PersonaId> := [Supporter, Analyst, Challenger]

  /** Position of a persona in `CouncilOrder`. */
  function Rank(p: PersonaId): (i: nat)
    ensures i < |CouncilOrder| && CouncilOrder[i] == p
  {
    match p
    case Supporter => 0
    case Analyst => 1
    case Challenger => 2
  }

  /** The JSON object key under which a persona's data travels. */
  function Key(p: PersonaId): string
  {
    match p
    case Supporter => "supporter"
    case Analyst => "analyst"
    case Challenger => "challenger"
  }

  const PersonaKeys: set<string> := {"supporter", "analyst", "challenger"}

  /** Reads an object key back as a persona id; any other key is no persona. */
  function ParseKey(k: string): (r: Option<PersonaId>)
    ensures r.Some? <==> k in PersonaKeys
    ensures r.Some? ==> Key(r.value) == k
  {
    if k == "supporter" then Some(Supporter)
    else if k == "analyst" then Some(Analyst)
    else if k == "challenger" then Some(Challenger)
    else None
  }

  lemma KeyRoundTrip(p: PersonaId)
    ensures Key(p) in PersonaKeys
    ensures ParseKey(Key(p)) == Some(p)
  {
  }

  /** An object with one value for each persona key. */
  datatype PerPersona<T> = PerPersona(supporter: T, analyst: T, challenger: T) {

    function Get(p: PersonaId): T
    {
      match p
      case Supporter => supporter
      case Analyst => analyst
      case Challenger => challenger
    }

    /** The spread-and-override update `{ ...this, [Key(p)]: v }`. */
    function Set(p: PersonaId, v: T): (r: PerPersona<T>)
      ensures r.Get(p) == v
      ensures forall q :: q != p ==> r.Get(q) == Get(q)
    {
      match p
      case Supporter => this.(supporter := v)
      case Analyst => this.(analyst := v)
      case Challenger => this.(challenger := v)
    }
  }

  /** Builds the record whose value under each persona is `f` of it. */
  function Tabulate<T>(f: PersonaId -> T): (r: PerPersona<T>)
    ensures forall p :: r.Get(p) == f(p)
  {
    PerPersona(f(Supporter), f(Analyst), f(Challenger))
  }

  /** Two records agree everywhere exactly when they are equal. */
  lemma Extensionality<T>(a: PerPersona<T>, b: PerPersona<T>)
    requires forall p :: a.Get(p) == b.Get(p)
    ensures a == b
  {
    assert a.Get(Supporter) == b.Get(Supporter);
    assert a.Get(Analyst) == b.Get(Analyst);
    assert a.Get(Challenger) == b.Get(Challenger);
  }

  /** The record as the JSON object it is sent as: exactly the three persona
      keys, each carrying that persona's value. */
  function ToObject<T>(r: PerPersona<T>): (m: map<string, T>)
    ensures m.Keys == PersonaKeys
    ensures forall p :: Key(p) in m && m[Key(p)] == r.Get(p)
  {
    map["supporter" := r.supporter, "analyst" := r.analyst, "challenger" := r.challenger]
  }

  // ---------------------------------------------------------------------------
  // Registry: the provider, model and limits bound to each persona on the server.

  datatype Provider = OpenAI | Anthropic

  function ProviderOf(p: PersonaId): Provider
  {
    if p == Analyst then Anthropic else OpenAI
  }

  function ModelOf(p: PersonaId): string
  {
    match ProviderOf(p)
    case OpenAI => "gpt-4o"
    case Anthropic => "claude-sonnet-4-5-20250929"
  }

  function MaxTokensOf(p: PersonaId): nat
  {
    match ProviderOf(p)
    case OpenAI => 300
    case Anthropic => 1024
  }

  /** The fixed text shown in place of a persona's reply when its call fails. */
  function Fallback(p: PersonaId): string
  {
    match p
    case Supporter => "I'm here with you. Let me take a moment."
    case Analyst => "I'm processing this. Give me a moment."
    case Challenger => "That's interesting. Let me sit with that."
  }
}
