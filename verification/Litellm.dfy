/** The LLM client: cutting a conversation to a model's context window, and falling back from one
    candidate model to the next. */
module Litellm {
  import opened Options

  datatype Message = Message(role: string, content: string)

  /** The token counter; `None` when it raises. */
  type Counter = (string, seq<Message>) -> Option<nat>

  predicate Fits(count: Counter, model: string, limit: int, ms: seq<Message>) {
    count(model, ms).Some? && count(model, ms).value <= limit
  }

  predicate Raises(count: Counter, model: string, ms: seq<Message>) {
    count(model, ms).None?
  }

  function System(ms: seq<Message>): seq<Message> {
    if ms != [] && ms[0].role == "system" then [ms[0]] else []
  }

  function Others(ms: seq<Message>): seq<Message> {
    ms[|System(ms)|..]
  }

  /** Oldest messages go first, until the rest fits, cannot be counted, or is a single message. */
  function Cut(count: Counter, model: string, limit: int, system: seq<Message>, others: seq<Message>): seq<Message>
    decreases |others|
  {
    if |others| <= 1 then others
    else
      var rest := others[1..];
      if Raises(count, model, system + rest) || Fits(count, model, limit, system + rest) then rest
      else Cut(count, model, limit, system, rest)
  }

  function Truncated(count: Counter, model: string, limit: int, ms: seq<Message>): seq<Message> {
    if ms == [] || Raises(count, model, ms) || Fits(count, model, limit, ms) then ms
    else System(ms) + Cut(count, model, limit, System(ms), Others(ms))
  }

  method TruncateMessages(count: Counter, messages: seq<Message>, model: string, limit: int) returns (r: seq<Message>)
    ensures r == Truncated(count, model, limit, messages)
  {
    if messages == [] { return []; }
    var tokens := count(model, messages);
    if tokens.None? || tokens.value <= limit { return messages; }
    var system, others := [], messages;
    if others[0].role == "system" {
      system, others := [others[0]], others[1..];
    }
    while |others| > 1
      invariant Cut(count, model, limit, system, others) == Cut(count, model, limit, System(messages), Others(messages))
      invariant system == System(messages)
      decreases |others|
    {
      others := others[1..];
      var kept := system + others;
      tokens := count(model, kept);
      if tokens.None? { break; }
      if tokens.value <= limit { return kept; }
    }
    return system + others;
  }

  /** What is kept, for any counter: the system message and the messages from `k` on, where `k` is the
      least cut whose remainder fits or cannot be counted, and otherwise leaves the last message. */
  lemma {:induction false} CutIsFirstThatFits(count: Counter, model: string, limit: int, system: seq<Message>,
                                              others: seq<Message>) returns (k: nat)
    ensures k <= |others| && Cut(count, model, limit, system, others) == others[k..]
    ensures |others| <= 1 ==> k == 0
    ensures |others| > 1 ==> 1 <= k < |others|
    ensures forall j :: 1 <= j < k ==>
      !Raises(count, model, system + others[j..]) && !Fits(count, model, limit, system + others[j..])
    ensures |others| > 1 ==>
      Raises(count, model, system + others[k..]) || Fits(count, model, limit, system + others[k..]) || k == |others| - 1
    decreases |others|
  {
    if |others| <= 1 {
      k := 0;
    } else {
      var rest := others[1..];
      if Raises(count, model, system + rest) || Fits(count, model, limit, system + rest) {
        k := 1;
      } else {
        var i := CutIsFirstThatFits(count, model, limit, system, rest);
        k := if |rest| <= 1 then 1 else i + 1;
        forall j | 1 <= j < |others| ensures others[j..] == rest[j - 1..] {
        }
      }
    }
  }

  /** A conversation that the counter counts within the limit, or fails to count, is left alone; so is
      an empty one.  The limit itself still fits. */
  lemma WhatFitsIsKept(count: Counter, model: string, limit: int, ms: seq<Message>)
    ensures ms == [] || count(model, ms).None? || count(model, ms).value <= limit ==>
      Truncated(count, model, limit, ms) == ms
    ensures forall kept :: Fits(count, model, limit, kept) <==>
      count(model, kept).Some? && count(model, kept).value <= limit
    ensures System(ms) == (if ms != [] && ms[0].role == "system" then [ms[0]] else []) && ms == System(ms) + Others(ms)
  {
  }

  /** For a counter that does not raise: a conversation that fits is kept whole; otherwise the system
      message stays, with the longest proper suffix of the rest that fits, or with its last message
      when none does. */
  lemma TruncationKeepsLongestFittingSuffix(count: Counter, model: string, limit: int, ms: seq<Message>)
    requires forall xs :: !Raises(count, model, xs)
    ensures var r, s, o := Truncated(count, model, limit, ms), System(ms), Others(ms);
      && (Fits(count, model, limit, ms) ==> r == ms)
      && (!Fits(count, model, limit, ms) && |o| <= 1 ==> r == ms)
      && (!Fits(count, model, limit, ms) && |o| > 1 ==>
            if exists j :: 1 <= j < |o| && Fits(count, model, limit, s + o[j..])
            then exists j :: 1 <= j < |o| && r == s + o[j..] && Fits(count, model, limit, r)
                   && forall i :: 1 <= i < j ==> !Fits(count, model, limit, s + o[i..])
            else r == s + [o[|o| - 1]])
  {
    var s, o := System(ms), Others(ms);
    assert ms == s + o;
    var k := CutIsFirstThatFits(count, model, limit, s, o);
    if |o| > 1 { assert o[|o| - 1..] == [o[|o| - 1]]; }
  }

  /** Cutting a second time changes nothing, whatever the counter does. */
  lemma TruncationIsIdempotent(count: Counter, model: string, limit: int, ms: seq<Message>)
    ensures Truncated(count, model, limit, Truncated(count, model, limit, ms)) == Truncated(count, model, limit, ms)
  {
    var r := Truncated(count, model, limit, ms);
    if r != ms && !Raises(count, model, r) && !Fits(count, model, limit, r) {
      var s, o := System(ms), Others(ms);
      var k := CutIsFirstThatFits(count, model, limit, s, o);
      assert r == s + o[k..] && |o[k..]| <= 1;
      assert |Others(r)| <= 1;
      assert r == System(r) + Others(r);
    }
  }

  // ---------------------------------------------------------------- fallback

  datatype Candidate = Candidate(model: string, apiKey: string, window: int)

  datatype Fallback = Fallback(model: string, apiKey: string, window: Option<int>)

  datatype Keys = Keys(google: string, openrouter: string, openai: string, groq: string, cerebras: string)

  datatype Reply = Answer(text: string) | Error(reason: string)

  predicate Contains(s: string, part: string) {
    part <= s || (s != [] && Contains(s[1..], part))
  }

  function KeyFor(keys: Keys, model: string): string {
    if "openrouter/" <= model then keys.openrouter
    else if "openai/" <= model then keys.openai
    else if "groq/" <= model then keys.groq
    else if "cerebras/" <= model then keys.cerebras
    else keys.google
  }

  function WindowOf(model: string): int {
    if Contains(model, "70b") || Contains(model, "235b") then 32000
    else if Contains(model, "free") || Contains(model, "8b") then 8000
    else 1000000
  }

  function FallbackCandidate(f: Fallback): Candidate {
    Candidate(f.model, f.apiKey, if f.window.Some? then f.window.value else 8000)
  }

  function Candidates(keys: Keys, model: string, fallbacks: seq<Fallback>): seq<Candidate> {
    [Candidate(model, KeyFor(keys, model), WindowOf(model))]
    + seq(|fallbacks|, i requires 0 <= i < |fallbacks| => FallbackCandidate(fallbacks[i]))
  }

  /** Who is asked, in which order, with which key and which window: the requested model first, the key
      by its provider prefix (Google's without one) and the window by its name, then the fallbacks,
      those without a window with 8000 tokens. */
  lemma CandidatesAre(keys: Keys, model: string, fallbacks: seq<Fallback>)
    ensures var cs := Candidates(keys, model, fallbacks);
      && |cs| == 1 + |fallbacks| && cs[0].model == model
      && ("openrouter/" <= model ==> cs[0].apiKey == keys.openrouter)
      && ("openai/" <= model ==> cs[0].apiKey == keys.openai)
      && ("groq/" <= model ==> cs[0].apiKey == keys.groq)
      && ("cerebras/" <= model ==> cs[0].apiKey == keys.cerebras)
      && (!("openrouter/" <= model) && !("openai/" <= model) && !("groq/" <= model) && !("cerebras/" <= model) ==>
            cs[0].apiKey == keys.google)
      && (cs[0].window == 32000 <==> Occurs(model, "70b") || Occurs(model, "235b"))
      && (cs[0].window == 8000 <==>
            && !Occurs(model, "70b") && !Occurs(model, "235b")
            && (Occurs(model, "free") || Occurs(model, "8b")))
      && (cs[0].window in {32000, 8000} || cs[0].window == 1000000)
      && forall i :: 0 <= i < |fallbacks| ==>
           cs[i + 1] == Candidate(fallbacks[i].model, fallbacks[i].apiKey,
                                  match fallbacks[i].window case Some(w) => w case None => 8000)
  {
    ContainsIff(model, "70b");
    ContainsIff(model, "235b");
    ContainsIff(model, "free");
    ContainsIff(model, "8b");
    DifferentProviders(model);
  }

  predicate Occurs(s: string, part: string) {
    exists i :: 0 <= i <= |s| && part <= s[i..]
  }

  lemma {:induction false} ContainsIff(s: string, part: string)
    ensures Contains(s, part) <==> Occurs(s, part)
    decreases |s|
  {
    assert s[0..] == s;
    if s != [] {
      ContainsIff(s[1..], part);
      if Occurs(s[1..], part) {
        var i :| 0 <= i <= |s| - 1 && part <= s[1..][i..];
        assert s[i + 1..] == s[1..][i..];
      }
      if Occurs(s, part) {
        var i :| 0 <= i <= |s| && part <= s[i..];
        if i > 0 { assert s[1..][i - 1..] == s[i..]; }
      }
    }
  }

  lemma DifferentProviders(model: string)
    ensures "openrouter/" <= model ==> !("openai/" <= model) && !("groq/" <= model) && !("cerebras/" <= model)
    ensures "openai/" <= model ==> !("groq/" <= model) && !("cerebras/" <= model)
    ensures "groq/" <= model ==> !("cerebras/" <= model)
  {
    if "openrouter/" <= model { assert model[0] == 'o' && model[4] == 'r'; }
    if "openai/" <= model { assert model[0] == 'o' && model[4] == 'a'; }
    if "groq/" <= model { assert model[0] == 'g'; }
    if "cerebras/" <= model { assert model[0] == 'c'; }
  }

  method BuildCandidates(keys: Keys, model: string, fallbacks: seq<Fallback>) returns (candidates: seq<Candidate>)
    ensures candidates == Candidates(keys, model, fallbacks) && |candidates| == 1 + |fallbacks|
  {
    var primaryKey := keys.google;
    if "openrouter/" <= model { primaryKey := keys.openrouter; }
    else if "openai/" <= model { primaryKey := keys.openai; }
    else if "groq/" <= model { primaryKey := keys.groq; }
    else if "cerebras/" <= model { primaryKey := keys.cerebras; }
    candidates := [Candidate(model, primaryKey, WindowOf(model))];
    assert candidates == Candidates(keys, model, []);
    for i := 0 to |fallbacks|
      invariant |candidates| == 1 + i && candidates[0] == Candidate(model, KeyFor(keys, model), WindowOf(model))
      invariant forall k :: 0 <= k < i ==> candidates[k + 1] == FallbackCandidate(fallbacks[k])
    {
      candidates := candidates + [FallbackCandidate(fallbacks[i])];
    }
  }

  /** One completion request. */
  datatype Attempt = Attempt(model: string, apiKey: string, messages: seq<Message>)

  function AttemptFor(count: Counter, c: Candidate, messages: seq<Message>): Attempt {
    Attempt(c.model, c.apiKey, Truncated(count, c.model, c.window, messages))
  }

  /** `provider` answers each request or fails it.  The reply is that of the first candidate that
      succeeds; each one tried saw the original messages, cut to its own window; if none succeeds the
      error is the last one's. */
  method CompletionWithFallback(count: Counter, provider: Attempt -> Reply, keys: Keys, model: string,
                                messages: seq<Message>, fallbacks: seq<Fallback>)
    returns (reply: Reply, tried: seq<Attempt>)
    ensures var cs := Candidates(keys, model, fallbacks);
      && 1 <= |tried| <= |cs|
      && (forall i :: 0 <= i < |tried| ==> tried[i] == AttemptFor(count, cs[i], messages))
      && (forall i :: 0 <= i < |tried| - 1 ==> provider(tried[i]).Error?)
      && reply == provider(tried[|tried| - 1])
      && (reply.Error? ==> |tried| == |cs|)
  {
    var candidates := BuildCandidates(keys, model, fallbacks);
    hide Candidates, Truncated;
    var lastError := Error("");
    tried := [];
    for i := 0 to |candidates|
      invariant |tried| == i
      invariant forall k :: 0 <= k < i ==> tried[k] == AttemptFor(count, candidates[k], messages)
      invariant forall k :: 0 <= k < i ==> provider(tried[k]).Error?
      invariant i > 0 ==> lastError == provider(tried[i - 1])
    {
      var c := candidates[i];
      var cut := TruncateMessages(count, messages, c.model, c.window);
      var attempt := Attempt(c.model, c.apiKey, cut);
      tried := tried + [attempt];
      var r := provider(attempt);
      if r.Answer? { return r, tried; }
      lastError := r;
    }
    return lastError, tried;
  }
}
