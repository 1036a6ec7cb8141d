/** The LLM adapter: transport retries and one corrective re-ask on a shared budget
    (services/decision/src/agents/handrolled.py), against any provider. */
module Handrolled {
  import opened Wrappers
  import opened Router

  /** What one request brings: no response, or a status with a usable or unusable envelope. */
  datatype Reply = TransportError | Response(status: int, content: Option<string>) {
    /** Worth another try of the same request: no response, 429 or 5xx. */
    predicate Transient() {
      TransportError? || status == 429 || status >= 500
    }

    /** A response whose content reaches the caller. */
    predicate Delivers() {
      Response? && !Transient() && status < 400 && content.Some?
    }
  }

  datatype Conversation = FirstAsk | CorrectiveAsk

  datatype Result<T> = Ok(value: T) | ProviderUnavailable

  /** The provider's reply to its `k`th request, counted from 0: any stream. */
  type Script = nat -> Reply

  type Parser = string -> Option<AgentRecommendation>

  function Pow2(n: nat): (r: nat)
    ensures r >= 1
  {
    if n == 0 then 1 else 2 * Pow2(n - 1)
  }

  /** `0.5 * 2 ** attempt` seconds. */
  function Backoff(attempt: nat): real {
    0.5 * Pow2(attempt) as real
  }

  // ----- what is to come out

  /** The first request from `from` on that is not worth repeating; `max` if there is none. */
  function Settled(script: Script, from: nat, max: nat): (k: nat)
    ensures from <= max ==> from <= k <= max
    ensures forall j | from <= j < k :: script(j).Transient()
    ensures k < max ==> from <= k && !script(k).Transient()
    ensures from > max ==> k == max
    decreases max - from
  {
    if from >= max then max
    else if script(from).Transient() then Settled(script, from + 1, max)
    else from
  }

  /** The content one conversation ends with. */
  function Answer(script: Script, from: nat, max: nat): Result<string> {
    var k := Settled(script, from, max);
    if k < max && script(k).Delivers() then Ok(script(k).content.value) else ProviderUnavailable
  }

  /** The requests spent when a conversation that starts at `from` ends. */
  function SpentAfter(script: Script, from: nat, max: nat): nat {
    var k := Settled(script, from, max);
    if k < max then k + 1 else max
  }

  /** Seconds slept between requests `lo` and `hi - 1`, each of them retried. */
  function Slept(lo: nat, hi: nat): real
    decreases hi
  {
    if lo >= hi then 0.0 else Slept(lo, hi - 1) + Backoff(hi - 1)
  }

  /** The requests `evaluate` sends: those of the first conversation and, if its content does not
      parse, those of one more. */
  function Spent(script: Script, max: nat, parse: Parser): nat {
    var first := Answer(script, 0, max);
    if first.Ok? && parse(first.value).None? then SpentAfter(script, SpentAfter(script, 0, max), max)
    else SpentAfter(script, 0, max)
  }

  /** The outcome of `evaluate`: the first content if it parses, else the re-asked one if it does. */
  function Evaluated(script: Script, max: nat, parse: Parser): Result<AgentRecommendation> {
    match Answer(script, 0, max)
    case ProviderUnavailable => ProviderUnavailable
    case Ok(text) =>
      if parse(text).Some? then Ok(parse(text).value)
      else (match Answer(script, SpentAfter(script, 0, max), max)
            case ProviderUnavailable => ProviderUnavailable
            case Ok(again) => if parse(again).Some? then Ok(parse(again).value) else ProviderUnavailable)
  }

  class Budget {
    const maxAttempts: nat
    var used: nat

    constructor (maxAttempts: nat)
      ensures this.maxAttempts == maxAttempts && used == 0
    {
      this.maxAttempts, used := maxAttempts, 0;
    }

    predicate Exhausted()
      reads this
    {
      used >= maxAttempts
    }
  }

  class HandrolledAgent {
    const maxAttempts: nat
    const script: Script
    const parse: Parser
    /** The conversation of every request sent, and the seconds slept in all. */
    var sent: seq<Conversation>
    var slept: real

    constructor (script: Script, parse: Parser, maxAttempts: nat)
      ensures this.maxAttempts == maxAttempts && this.script == script && this.parse == parse
      ensures sent == [] && slept == 0.0
    {
      this.maxAttempts, this.script, this.parse, sent, slept := maxAttempts, script, parse, [], 0.0;
    }

    /** One real request, which spends one attempt. */
    method Post(about: Conversation, budget: Budget) returns (reply: Reply)
      requires |sent| == budget.used < budget.maxAttempts
      modifies this`sent, budget`used
      ensures budget.used == old(budget.used) + 1 && sent == old(sent) + [about] && reply == script(old(budget.used))
    {
      reply := script(budget.used);
      budget.used := budget.used + 1;
      sent := sent + [about];
    }

    /** `_request_with_backoff`: the conversation goes on until a request is not worth repeating
        or the budget is spent; it sleeps after each repeated request and after no other. */
    method RequestWithBackoff(about: Conversation, budget: Budget) returns (r: Result<string>)
      requires |sent| == budget.used <= budget.maxAttempts
      modifies this, budget
      ensures budget.used == SpentAfter(script, old(budget.used), budget.maxAttempts)
      ensures |sent| == budget.used && |sent| >= |old(sent)| && sent[..|old(sent)|] == old(sent)
      ensures forall k | |old(sent)| <= k < |sent| :: sent[k] == about
      ensures r == Answer(script, old(budget.used), budget.maxAttempts)
      ensures old(budget.used) < budget.used ==> slept == old(slept) + Slept(old(budget.used), budget.used - 1)
      ensures old(budget.used) == budget.used ==> slept == old(slept)
    {
      hide Pow2, Backoff, Settled, Slept, Answer, SpentAfter;
      ghost var start := budget.used;
      SleptOnceMore(start, start);
      while !budget.Exhausted()
        invariant start <= |sent| == budget.used <= budget.maxAttempts
        invariant sent[..start] == old(sent) && forall k | start <= k < |sent| :: sent[k] == about
        invariant budget.used == budget.maxAttempts ==> budget.used == start
        invariant Settled(script, start, budget.maxAttempts) == Settled(script, budget.used, budget.maxAttempts)
        invariant slept == old(slept) + Slept(start, budget.used)
        decreases budget.maxAttempts - budget.used
      {
        var attempt := budget.used;
        AfterRequest(script, start, attempt, budget.maxAttempts);
        SleptOnceMore(start, attempt);
        var reply := Post(about, budget);
        if reply.Transient() {
          if budget.Exhausted() { return ProviderUnavailable; }
          slept := slept + Backoff(attempt);
        } else if reply.status >= 400 || reply.content.None? {
          return ProviderUnavailable;
        } else {
          return Ok(reply.content.value);
        }
      }
      NothingToAsk(script, start);
      r := ProviderUnavailable;
    }

    /** `evaluate`: ask, and re-ask once, on the same budget, if the content does not parse. */
    method Evaluate() returns (r: Result<AgentRecommendation>)
      requires sent == [] && slept == 0.0
      modifies this
      ensures r == Evaluated(script, maxAttempts, parse)
      ensures |sent| <= maxAttempts
      ensures |sent| == Spent(script, maxAttempts, parse)
      ensures OneCorrection(sent)
      ensures forall k | 0 <= k < |sent| && sent[k].CorrectiveAsk? && script(k).Delivers() :: k == |sent| - 1
      ensures maxAttempts >= 1 ==> slept <= 0.5 * (Pow2(maxAttempts - 1) as real - 1.0)
      ensures maxAttempts == 0 ==> slept == 0.0
      ensures CorrectiveAsk in sent ==> exists k: nat :: k < |sent| && script(k).Delivers() && parse(script(k).content.value).None?
    {
      hide Settled, Answer, SpentAfter, Slept, Pow2;
      var budget := new Budget(maxAttempts);
      var content := RequestWithBackoff(FirstAsk, budget);
      ghost var first := budget.used;
      Settles(script, 0, maxAttempts);
      if first >= 1 { SleepsAreBounded(0, first - 1, maxAttempts - 1); }
      if content.ProviderUnavailable? { return ProviderUnavailable; }
      if parse(content.value).Some? { return Ok(parse(content.value).value); }
      assert script(first - 1).Delivers() && parse(script(first - 1).content.value).None?;
      var retry := RequestWithBackoff(CorrectiveAsk, budget);
      Settles(script, first, maxAttempts);
      if budget.used > first { SleepsInARow(first - 1, first, budget.used - 1, maxAttempts - 1); }
      if retry.ProviderUnavailable? || parse(retry.value).None? { return ProviderUnavailable; }
      r := Ok(parse(retry.value).value);
    }
  }

  /** What request `k` of a conversation that started at `from` means for its end. */
  lemma AfterRequest(script: Script, from: nat, k: nat, max: nat)
    requires from <= k < max && Settled(script, from, max) == Settled(script, k, max)
    ensures script(k).Transient() ==> Settled(script, from, max) == Settled(script, k + 1, max)
    ensures script(k).Transient() && k + 1 == max ==>
      SpentAfter(script, from, max) == max && Answer(script, from, max) == ProviderUnavailable
    ensures !script(k).Transient() ==>
      && SpentAfter(script, from, max) == k + 1
      && Answer(script, from, max) == if script(k).Delivers() then Ok(script(k).content.value) else ProviderUnavailable
  {
  }

  lemma NothingToAsk(script: Script, max: nat)
    ensures SpentAfter(script, max, max) == max && Answer(script, max, max) == ProviderUnavailable
  {
  }

  lemma SleptOnceMore(lo: nat, hi: nat)
    requires lo <= hi
    ensures Slept(lo, hi + 1) == Slept(lo, hi) + Backoff(hi) && Slept(lo, lo) == 0.0
  {
  }

  /** What a conversation spends, and that only its last request can deliver content. */
  lemma Settles(script: Script, from: nat, max: nat)
    requires from <= max
    ensures from <= SpentAfter(script, from, max) <= max
    ensures forall k | from <= k < SpentAfter(script, from, max) && script(k).Delivers() :: k == SpentAfter(script, from, max) - 1
    ensures var r, spent := Answer(script, from, max), SpentAfter(script, from, max);
      r.Ok? ==> spent > from && script(spent - 1).Delivers() && r.value == script(spent - 1).content.value
  {
  }

  /** The corrective conversation comes after the first one, and there is no third. */
  ghost predicate OneCorrection(sent: seq<Conversation>) {
    forall k, l | 0 <= k < l < |sent| && sent[k].CorrectiveAsk? :: sent[l].CorrectiveAsk?
  }

  lemma {:induction false} Pow2Monotone(a: nat, b: nat)
    requires a <= b
    ensures Pow2(a) <= Pow2(b)
    decreases b
  {
    if a < b { Pow2Monotone(a, b - 1); }
  }

  lemma {:induction false} SleptIs(lo: nat, hi: nat)
    requires lo <= hi
    ensures Slept(lo, hi) == 0.5 * (Pow2(hi) as real - Pow2(lo) as real)
    decreases hi
  {
    if lo < hi { SleptIs(lo, hi - 1); }
  }

  lemma SleepsAreBounded(lo: nat, hi: nat, last: int)
    requires lo <= hi <= last
    ensures Slept(lo, hi) <= 0.5 * (Pow2(last) as real - Pow2(lo) as real)
    ensures lo == 0 ==> Slept(lo, hi) <= 0.5 * (Pow2(last) as real - 1.0)
  {
    SleptIs(lo, hi);
    Pow2Monotone(hi, last);
  }

  /** The sleeps of the two conversations, which are about different attempts. */
  lemma SleepsInARow(a: nat, b: nat, hi: nat, last: int)
    requires a <= b <= hi <= last
    ensures Slept(0, a) + Slept(b, hi) <= 0.5 * (Pow2(last) as real - 1.0)
  {
    SleptIs(0, a);
    SleptIs(b, hi);
    Pow2Monotone(a, b);
    Pow2Monotone(hi, last);
  }

  /** Only content that parses is ever returned, and it is content the provider sent. */
  lemma OnlyValidatedContent(script: Script, max: nat, parse: Parser)
    ensures var r := Evaluated(script, max, parse);
      r.Ok? ==> exists k: nat :: k < Spent(script, max, parse) && script(k).Response? && script(k).status < 400
                                 && script(k).content.Some? && parse(script(k).content.value) == Some(r.value)
  {
    var a := Settled(script, 0, max);
    var b := Settled(script, SpentAfter(script, 0, max), max);
    if Evaluated(script, max, parse).Ok? {
      assert a < max && script(a).Delivers();
      if parse(script(a).content.value).None? { assert b < max && script(b).Delivers(); }
    }
  }

  /** No response, rate limited, or a server error. */
  ghost predicate Failing(r: Reply) {
    r.TransportError? || r.status == 429 || r.status >= 500
  }

  ghost predicate Brings(r: Reply, text: string) {
    r.Response? && r.status < 400 && r.content == Some(text)
  }

  lemma {:induction false} SettledAt(script: Script, from: nat, k: nat, max: nat)
    requires from <= k < max && (forall j | from <= j < k :: Failing(script(j))) && !Failing(script(k))
    ensures Settled(script, from, max) == k
    decreases k - from
  {
    if from < k { SettledAt(script, from + 1, k, max); }
  }

  /** Failures are repeated until the first other reply. If that brings content that parses, it is
      the answer and nothing more is asked; a client error or an empty envelope ends it. */
  lemma FirstReplyDecides(script: Script, max: nat, parse: Parser, k: nat)
    requires k < max && (forall j | 0 <= j < k :: Failing(script(j)))
    ensures forall text | Brings(script(k), text) && parse(text).Some? ::
      Evaluated(script, max, parse) == Ok(parse(text).value) && Spent(script, max, parse) == k + 1
    ensures script(k).Response? && ((400 <= script(k).status < 500 && script(k).status != 429)
                                    || (script(k).status < 400 && script(k).content.None?)) ==>
      Evaluated(script, max, parse) == ProviderUnavailable && Spent(script, max, parse) == k + 1
  {
    if !Failing(script(k)) { SettledAt(script, 0, k, max); }
  }

  /** Content that does not parse is asked for once more, on what is left of the budget; what that
      brings is final. */
  lemma SecondReplyDecides(script: Script, max: nat, parse: Parser, k: nat, text: string, l: nat)
    requires k < l < max && (forall j | 0 <= j < k :: Failing(script(j))) && Brings(script(k), text) && parse(text).None?
    requires forall j | k < j < l :: Failing(script(j))
    ensures forall again | Brings(script(l), again) ::
      && Spent(script, max, parse) == l + 1
      && Evaluated(script, max, parse) == if parse(again).Some? then Ok(parse(again).value) else ProviderUnavailable
    ensures !Failing(script(l)) && (script(l).status >= 400 || script(l).content.None?) ==>
      Evaluated(script, max, parse) == ProviderUnavailable && Spent(script, max, parse) == l + 1
  {
    SettledAt(script, 0, k, max);
    if !Failing(script(l)) { SettledAt(script, k + 1, l, max); }
  }

  /** The bounds are attained: a provider that never answers costs every request and all the sleep;
      with the three attempts of the default, 0.5 and 1 second. */
  lemma WorstCase(script: Script, max: nat, parse: Parser)
    requires max >= 1 && forall k: nat :: Failing(script(k))
    ensures Evaluated(script, max, parse) == ProviderUnavailable && SpentAfter(script, 0, max) == max
    ensures Slept(0, max - 1) == 0.5 * (Pow2(max - 1) as real - 1.0)
    ensures max == 3 ==> Slept(0, max - 1) == 1.5
  {
    SleptIs(0, max - 1);
    assert Pow2(2) == 4;
    assert Settled(script, 0, max) == max;
  }
}
