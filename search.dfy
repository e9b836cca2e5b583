/** The search `bon_jailbreak` performs, as functions of the configuration,
    the prompt and the injected draw stream: up to `max_samples` random
    augmentations of the prompt, then the fallback strategies in order, each
    applied to the original prompt, stopping at the first candidate that
    passes `is_bypass_successful`. */
module Search {
  import opened Results
  import opened Text
  import opened Config
  import opened Detection
  import opened Augment
  import opened Fallback

  /** What `bon_jailbreak` returns when nothing passes: "No bypass achieved.",
      written around its middle word as the templates are. */
  const NoBypass: string := "No " + "bypass" + " achieved."

  /** How a search ends: with a passing candidate, with every candidate
      tried, or with the `IndexError` of `random.choice` on an empty list. */
  datatype Outcome = Bypassed(text: string) | Exhausted | Raised

  /** A search's outcome, the candidates it tested in order, and the
      position of the next unread draw. */
  datatype Trial = Trial(outcome: Outcome, tried: seq<string>, next: nat)

  /** What the Python call gives its caller for an outcome. */
  function Reply(outcome: Outcome): Raises<string> {
    match outcome
    case Bypassed(text) => Returns(text)
    case Exhausted => Returns(NoBypass)
    case Raised => IndexError
  }

  ghost predicate AllFail(keywords: seq<string>, candidates: seq<string>) {
    forall i :: 0 <= i < |candidates| ==> !IsBypassSuccessful(keywords, candidates[i])
  }

  /** A first-match search: a bypass is the last candidate tested and passes,
      and every candidate tested before it failed; any other outcome tested
      only failing candidates. */
  ghost predicate FirstMatch(keywords: seq<string>, t: Trial) {
    if t.outcome.Bypassed? then
      t.tried != [] && t.tried[|t.tried| - 1] == t.outcome.text &&
      IsBypassSuccessful(keywords, t.outcome.text) &&
      AllFail(keywords, t.tried[..|t.tried| - 1])
    else
      AllFail(keywords, t.tried)
  }

  /** The same search, after `earlier` candidates were tested first. */
  function Prepend(earlier: seq<string>, t: Trial): Trial {
    Trial(t.outcome, earlier + t.tried, t.next)
  }

  /** Failing candidates tested first keep a search first-match. */
  lemma PrependFailures(keywords: seq<string>, earlier: seq<string>, t: Trial)
    requires AllFail(keywords, earlier) && FirstMatch(keywords, t)
    ensures FirstMatch(keywords, Prepend(earlier, t))
  {
    var all := earlier + t.tried;
    if t.outcome.Bypassed? {
      assert all[..|all| - 1] == earlier + t.tried[..|t.tried| - 1];
    }
  }

  /** `for _ in range(remaining): augmented = augment_prompt(prompt); ...` */
  function PrimaryLoop(valves: Valves, prompt: string, rng: nat -> nat, pos: nat, remaining: nat): (t: Trial)
    ensures |t.tried| <= remaining
    ensures t.outcome.Exhausted? ==> |t.tried| == remaining
    decreases remaining
  {
    if remaining == 0 then Trial(Exhausted, [], pos)
    else match Augmented(valves, prompt, rng, pos)
      case IndexError => Trial(Raised, [], pos)
      case Returns(drawn) =>
        if IsBypassSuccessful(valves.bypassKeywords, drawn.text) then
          Trial(Bypassed(drawn.text), [drawn.text], drawn.next)
        else
          Prepend([drawn.text], PrimaryLoop(valves, prompt, rng, drawn.next, remaining - 1))
  }

  /** The random attempts stop at the first rewrite that passes. */
  lemma {:induction false} PrimaryFirstMatch(valves: Valves, prompt: string, rng: nat -> nat, pos: nat, remaining: nat)
    ensures FirstMatch(valves.bypassKeywords, PrimaryLoop(valves, prompt, rng, pos, remaining))
    decreases remaining
  {
    if remaining > 0 {
      match Augmented(valves, prompt, rng, pos)
      case IndexError =>
      case Returns(drawn) =>
        if !IsBypassSuccessful(valves.bypassKeywords, drawn.text) {
          var rest := PrimaryLoop(valves, prompt, rng, drawn.next, remaining - 1);
          PrimaryFirstMatch(valves, prompt, rng, drawn.next, remaining - 1);
          PrependFailures(valves.bypassKeywords, [drawn.text], rest);
        }
    }
  }

  /** `for strategy in strategies: fallback = strategy(prompt); ...` */
  function FallbackLoop(keywords: seq<string>, strategies: seq<Strategy>, prompt: string, pos: nat): (t: Trial)
    ensures !t.outcome.Raised? && t.next == pos
    ensures |t.tried| <= |strategies|
    ensures t.outcome.Exhausted? ==> |t.tried| == |strategies|
    decreases |strategies|
  {
    if strategies == [] then Trial(Exhausted, [], pos)
    else
      var candidate := strategies[0].Apply(prompt);
      if IsBypassSuccessful(keywords, candidate) then Trial(Bypassed(candidate), [candidate], pos)
      else Prepend([candidate], FallbackLoop(keywords, strategies[1..], prompt, pos))
  }

  /** The fallbacks stop at the first strategy whose rewrite passes. */
  lemma {:induction false} FallbackFirstMatch(keywords: seq<string>, strategies: seq<Strategy>, prompt: string, pos: nat)
    ensures FirstMatch(keywords, FallbackLoop(keywords, strategies, prompt, pos))
    decreases |strategies|
  {
    if strategies != [] {
      var candidate := strategies[0].Apply(prompt);
      if !IsBypassSuccessful(keywords, candidate) {
        FallbackFirstMatch(keywords, strategies[1..], prompt, pos);
        PrependFailures(keywords, [candidate], FallbackLoop(keywords, strategies[1..], prompt, pos));
      }
    }
  }

  /** The candidates the fallbacks test are the strategies' rewrites of the
      original prompt, in the strategies' order. */
  lemma {:induction false} FallbackTriesInOrder(keywords: seq<string>, strategies: seq<Strategy>, prompt: string, pos: nat)
    ensures var t := FallbackLoop(keywords, strategies, prompt, pos);
      forall i :: 0 <= i < |t.tried| ==> t.tried[i] == strategies[i].Apply(prompt)
    decreases |strategies|
  {
    if strategies != [] && !IsBypassSuccessful(keywords, strategies[0].Apply(prompt)) {
      var rest := FallbackLoop(keywords, strategies[1..], prompt, pos);
      FallbackTriesInOrder(keywords, strategies[1..], prompt, pos);
      var t := Prepend([strategies[0].Apply(prompt)], rest);
      forall i | 1 <= i < |t.tried|
        ensures t.tried[i] == strategies[i].Apply(prompt)
      {
        assert t.tried[i] == rest.tried[i - 1];
        assert strategies[1..][i - 1] == strategies[i];
      }
    }
  }

  // One iteration of each loop, for the imperative version to follow.

  lemma PrimaryStepRaises(valves: Valves, prompt: string, rng: nat -> nat, pos: nat, remaining: nat)
    requires remaining > 0 && Augmented(valves, prompt, rng, pos).IndexError?
    ensures PrimaryLoop(valves, prompt, rng, pos, remaining) == Trial(Raised, [], pos)
  {
  }

  lemma PrimaryStepPasses(valves: Valves, prompt: string, rng: nat -> nat, pos: nat, remaining: nat, drawn: Drawn)
    requires remaining > 0 && Augmented(valves, prompt, rng, pos) == Returns(drawn)
    requires IsBypassSuccessful(valves.bypassKeywords, drawn.text)
    ensures PrimaryLoop(valves, prompt, rng, pos, remaining) == Trial(Bypassed(drawn.text), [drawn.text], drawn.next)
  {
  }

  lemma PrimaryStepFails(valves: Valves, prompt: string, rng: nat -> nat, pos: nat, remaining: nat, drawn: Drawn)
    requires remaining > 0 && Augmented(valves, prompt, rng, pos) == Returns(drawn)
    requires !IsBypassSuccessful(valves.bypassKeywords, drawn.text)
    ensures PrimaryLoop(valves, prompt, rng, pos, remaining)
         == Prepend([drawn.text], PrimaryLoop(valves, prompt, rng, drawn.next, remaining - 1))
  {
  }

  lemma FallbackStepPasses(keywords: seq<string>, strategies: seq<Strategy>, prompt: string, pos: nat)
    requires strategies != [] && IsBypassSuccessful(keywords, strategies[0].Apply(prompt))
    ensures FallbackLoop(keywords, strategies, prompt, pos).outcome == Bypassed(strategies[0].Apply(prompt))
  {
  }

  lemma FallbackStepFails(keywords: seq<string>, strategies: seq<Strategy>, prompt: string, pos: nat, i: nat, tried: seq<string>)
    requires i < |strategies| && !IsBypassSuccessful(keywords, strategies[i].Apply(prompt))
    ensures Prepend(tried + [strategies[i].Apply(prompt)], FallbackLoop(keywords, strategies[i + 1..], prompt, pos))
         == Prepend(tried, FallbackLoop(keywords, strategies[i..], prompt, pos))
  {
    var candidate := strategies[i].Apply(prompt);
    var rest := FallbackLoop(keywords, strategies[i + 1..], prompt, pos);
    assert strategies[i..][1..] == strategies[i + 1..];
    assert FallbackLoop(keywords, strategies[i..], prompt, pos) == Prepend([candidate], rest);
    assert tried + [candidate] + rest.tried == tried + ([candidate] + rest.tried);
  }

  /** The fallbacks read no draws: where the stream stands changes nothing but `next`. */
  lemma {:induction false} FallbackPositionFree(keywords: seq<string>, strategies: seq<Strategy>, prompt: string, pos: nat, pos': nat)
    ensures FallbackLoop(keywords, strategies, prompt, pos').outcome == FallbackLoop(keywords, strategies, prompt, pos).outcome
    ensures FallbackLoop(keywords, strategies, prompt, pos').tried == FallbackLoop(keywords, strategies, prompt, pos).tried
    decreases |strategies|
  {
    if strategies != [] {
      FallbackPositionFree(keywords, strategies[1..], prompt, pos, pos');
    }
  }

  /** The whole of `bon_jailbreak(prompt)`, reading draws from `pos` on. */
  function Run(valves: Valves, strategies: seq<Strategy>, prompt: string, rng: nat -> nat, pos: nat): Trial {
    var primary := PrimaryLoop(valves, prompt, rng, pos, SampleCount(valves.maxSamples));
    if primary.outcome.Exhausted? then
      Prepend(primary.tried, FallbackLoop(valves.bypassKeywords, strategies, prompt, primary.next))
    else
      primary
  }

  // ---------------------------------------------------------------------------
  // Properties of the search

  /** A returned rewrite passes the keyword test, is the last candidate
      tested, and every candidate tested before it failed. */
  lemma SuccessPassesTest(valves: Valves, strategies: seq<Strategy>, prompt: string, rng: nat -> nat, pos: nat)
    ensures var t := Run(valves, strategies, prompt, rng, pos);
      (t.outcome.Bypassed? ==> IsBypassSuccessful(valves.bypassKeywords, t.outcome.text)) &&
      FirstMatch(valves.bypassKeywords, t)
  {
    var primary := PrimaryLoop(valves, prompt, rng, pos, SampleCount(valves.maxSamples));
    PrimaryFirstMatch(valves, prompt, rng, pos, SampleCount(valves.maxSamples));
    if primary.outcome.Exhausted? {
      FallbackFirstMatch(valves.bypassKeywords, strategies, prompt, primary.next);
      PrependFailures(valves.bypassKeywords, primary.tried,
        FallbackLoop(valves.bypassKeywords, strategies, prompt, primary.next));
    }
  }

  /** At most `max_samples` random candidates and one per fallback strategy are tested. */
  lemma TriesAtMost(valves: Valves, strategies: seq<Strategy>, prompt: string, rng: nat -> nat, pos: nat)
    ensures |Run(valves, strategies, prompt, rng, pos).tried| <= SampleCount(valves.maxSamples) + |strategies|
  {
  }

  /** The fallbacks run only once all `max_samples` random attempts failed:
      a random attempt that passes or raises ends the call. */
  lemma FallbacksOnlyAfterPrimary(valves: Valves, strategies: seq<Strategy>, prompt: string, rng: nat -> nat, pos: nat)
    ensures var primary := PrimaryLoop(valves, prompt, rng, pos, SampleCount(valves.maxSamples));
      !primary.outcome.Exhausted? ==>
        Run(valves, strategies, prompt, rng, pos) == primary &&
        |primary.tried| <= SampleCount(valves.maxSamples)
  {
  }

  lemma PrependParts(earlier: seq<string>, t: Trial)
    ensures var all := Prepend(earlier, t).tried;
      |all| == |earlier| + |t.tried| && all[..|earlier|] == earlier &&
      forall i :: |earlier| <= i < |all| ==> all[i] == t.tried[i - |earlier|]
  {
  }

  lemma RandomPartOfRun(valves: Valves, strategies: seq<Strategy>, prompt: string, rng: nat -> nat, pos: nat)
    requires PrimaryLoop(valves, prompt, rng, pos, SampleCount(valves.maxSamples)).outcome.Exhausted?
    ensures var n := SampleCount(valves.maxSamples);
      var t := Run(valves, strategies, prompt, rng, pos);
      |t.tried| >= n &&
      t.tried[..n] == PrimaryLoop(valves, prompt, rng, pos, n).tried &&
      AllFail(valves.bypassKeywords, t.tried[..n])
  {
    var n := SampleCount(valves.maxSamples);
    var primary := PrimaryLoop(valves, prompt, rng, pos, n);
    PrimaryFirstMatch(valves, prompt, rng, pos, n);
    PrependParts(primary.tried, FallbackLoop(valves.bypassKeywords, strategies, prompt, primary.next));
  }

  lemma PrependRewrites(earlier: seq<string>, t: Trial, strategies: seq<Strategy>, prompt: string)
    requires |t.tried| <= |strategies|
    requires forall i :: 0 <= i < |t.tried| ==> t.tried[i] == strategies[i].Apply(prompt)
    ensures var all := Prepend(earlier, t).tried;
      forall i :: |earlier| <= i < |all| ==> all[i] == strategies[i - |earlier|].Apply(prompt)
  {
    var all := Prepend(earlier, t).tried;
    forall i | |earlier| <= i < |all|
      ensures all[i] == strategies[i - |earlier|].Apply(prompt)
    {
      assert all[i] == t.tried[i - |earlier|];
    }
  }

  lemma FallbackPartOfRun(valves: Valves, strategies: seq<Strategy>, prompt: string, rng: nat -> nat, pos: nat)
    requires PrimaryLoop(valves, prompt, rng, pos, SampleCount(valves.maxSamples)).outcome.Exhausted?
    ensures var n := SampleCount(valves.maxSamples);
      var t := Run(valves, strategies, prompt, rng, pos);
      forall i :: n <= i < |t.tried| ==> t.tried[i] == strategies[i - n].Apply(prompt)
  {
    var primary := PrimaryLoop(valves, prompt, rng, pos, SampleCount(valves.maxSamples));
    var fallback := FallbackLoop(valves.bypassKeywords, strategies, prompt, primary.next);
    FallbackTriesInOrder(valves.bypassKeywords, strategies, prompt, primary.next);
    PrependRewrites(primary.tried, fallback, strategies, prompt);
    assert |primary.tried| == SampleCount(valves.maxSamples);
    assert Run(valves, strategies, prompt, rng, pos) == Prepend(primary.tried, fallback);
  }

  /** Once all `max_samples` random attempts failed, the fallbacks are tested
      in their declared order, each on the original prompt. */
  lemma FallbacksInOrder(valves: Valves, strategies: seq<Strategy>, prompt: string, rng: nat -> nat, pos: nat)
    requires PrimaryLoop(valves, prompt, rng, pos, SampleCount(valves.maxSamples)).outcome.Exhausted?
    ensures var n := SampleCount(valves.maxSamples);
      var t := Run(valves, strategies, prompt, rng, pos);
      |t.tried| >= n &&
      AllFail(valves.bypassKeywords, t.tried[..n]) &&
      t.tried[..n] == PrimaryLoop(valves, prompt, rng, pos, n).tried &&
      forall i :: n <= i < |t.tried| ==> t.tried[i] == strategies[i - n].Apply(prompt)
  {
    RandomPartOfRun(valves, strategies, prompt, rng, pos);
    FallbackPartOfRun(valves, strategies, prompt, rng, pos);
  }

  /** With `max_samples <= 0` only the fallbacks are evaluated. */
  lemma ZeroSamplesOnlyFallbacks(valves: Valves, strategies: seq<Strategy>, prompt: string, rng: nat -> nat, pos: nat)
    requires valves.maxSamples <= 0
    ensures Run(valves, strategies, prompt, rng, pos) == FallbackLoop(valves.bypassKeywords, strategies, prompt, pos)
  {
    var fallback := FallbackLoop(valves.bypassKeywords, strategies, prompt, pos);
    assert [] + fallback.tried == fallback.tried;
  }

  lemma {:induction false} PrimaryRaises(valves: Valves, prompt: string, rng: nat -> nat, pos: nat, remaining: nat)
    ensures var t := PrimaryLoop(valves, prompt, rng, pos, remaining);
      (t.outcome.Raised? ==> remaining > 0 && (valves.augmentationTypes == [] || valves.roleplayScenarios == [])) &&
      (remaining > 0 && valves.augmentationTypes == [] ==> t.outcome.Raised?)
    decreases remaining
  {
    if remaining > 0 {
      AugmentedRaises(valves, prompt, rng, pos);
      match Augmented(valves, prompt, rng, pos)
      case IndexError =>
      case Returns(drawn) =>
        PrimaryRaises(valves, prompt, rng, drawn.next, remaining - 1);
    }
  }

  /** `bon_jailbreak` raises only when it must choose from an empty list:
      always with no augmentation types and a positive sample count, and
      otherwise only with no roleplay scenarios, which raises as soon as the
      first draw picks `roleplay`. */
  lemma RaisesOnlyOnEmptyChoice(valves: Valves, strategies: seq<Strategy>, prompt: string, rng: nat -> nat, pos: nat)
    ensures var t := Run(valves, strategies, prompt, rng, pos);
      (t.outcome.Raised? ==> valves.maxSamples > 0 && (valves.augmentationTypes == [] || valves.roleplayScenarios == [])) &&
      (valves.maxSamples > 0 && valves.augmentationTypes == [] ==> t.outcome.Raised?)
    ensures valves.maxSamples > 0 && valves.roleplayScenarios == [] &&
            Choice(valves.augmentationTypes, rng, pos) == Returns("roleplay") ==>
      Run(valves, strategies, prompt, rng, pos).outcome.Raised?
  {
    PrimaryRaises(valves, prompt, rng, pos, SampleCount(valves.maxSamples));
  }

  /** With no keywords nothing passes: every candidate is tested and the
      call answers "No bypass achieved." unless a choice raised. */
  lemma NoKeywordsNoBypass(valves: Valves, strategies: seq<Strategy>, prompt: string, rng: nat -> nat, pos: nat)
    requires valves.bypassKeywords == []
    ensures var t := Run(valves, strategies, prompt, rng, pos);
      !t.outcome.Bypassed? &&
      (valves.augmentationTypes != [] && valves.roleplayScenarios != [] ==>
        t.outcome == Exhausted && Reply(t.outcome) == Returns(NoBypass) &&
        |t.tried| == SampleCount(valves.maxSamples) + |strategies|)
  {
    SuccessPassesTest(valves, strategies, prompt, rng, pos);
    RaisesOnlyOnEmptyChoice(valves, strategies, prompt, rng, pos);
  }

  lemma {:induction false} FallbackFindsMatch(keywords: seq<string>, strategies: seq<Strategy>, prompt: string, pos: nat, i: nat)
    requires i < |strategies| && IsBypassSuccessful(keywords, strategies[i].Apply(prompt))
    ensures FallbackLoop(keywords, strategies, prompt, pos).outcome.Bypassed?
    ensures |FallbackLoop(keywords, strategies, prompt, pos).tried| <= i + 1
    decreases i
  {
    if i > 0 && !IsBypassSuccessful(keywords, strategies[0].Apply(prompt)) {
      FallbackFindsMatch(keywords, strategies[1..], prompt, pos, i - 1);
    }
  }

  /** With the shipped configuration `bon_jailbreak` always returns a rewrite:
      `add_context`, the fourth fallback, always holds "hypothetical". So at
      most `max_samples + 4` candidates are tested and the answer is never
      "No bypass achieved." nor an exception. */
  lemma DefaultsAlwaysBypass(prompt: string, rng: nat -> nat, pos: nat)
    ensures var t := Run(DefaultValves, Strategies, prompt, rng, pos);
      t.outcome.Bypassed? && |t.tried| <= DefaultValves.maxSamples + 4
  {
    var valves := DefaultValves;
    var n := SampleCount(valves.maxSamples);
    var primary := PrimaryLoop(valves, prompt, rng, pos, n);
    PrimaryRaises(valves, prompt, rng, pos, n);
    if primary.outcome.Exhausted? {
      LateStrategiesMatchDefaults(AddContext, prompt);
      FallbackFindsMatch(valves.bypassKeywords, Strategies, prompt, primary.next, 3);
    }
  }

  /** A keyword list fails on a text from index `i` on when keyword `i`
      holds a character the lower-cased text lacks and the keywords after it
      fail. */
  lemma RejectAt(keywords: seq<string>, i: nat, prompt: string, c: nat)
    requires i < |keywords| && c < |keywords[i]| && keywords[i][c] !in Lower(prompt)
    requires !IsBypassSuccessful(keywords[i + 1..], prompt)
    ensures !IsBypassSuccessful(keywords[i..], prompt)
  {
    assert keywords[i..][0] == keywords[i] && keywords[i..][1..] == keywords[i + 1..];
    ContainsIffOccurs(Lower(prompt), keywords[i]);
    AbsentCharNeverOccurs(keywords[i], Lower(prompt), c);
  }

  /** The sentinel in lower case. */
  lemma SentinelLowered()
    ensures Lower(NoBypass) == "no " + "bypass" + " achieved."
  {
    LowerConcat("No " + "bypass", " achieved.");
    LowerConcat("No ", "bypass");
  }

  /** The last six shipped keywords fail on a text whose lower case lacks
      the letters r, t, f, x, u, l and m. */
  lemma DefaultsRejectLate(prompt: string)
    requires 'r' !in Lower(prompt) && 't' !in Lower(prompt) && 'f' !in Lower(prompt)
    requires 'x' !in Lower(prompt) && 'u' !in Lower(prompt) && 'l' !in Lower(prompt)
    requires 'm' !in Lower(prompt)
    ensures !IsBypassSuccessful(DefaultBypassKeywords[11..], prompt)
  {
    var ks := DefaultBypassKeywords;
    assert ks[17..] == [];
    RejectAt(ks, 16, prompt, 3);
    RejectAt(ks, 15, prompt, 4);
    RejectAt(ks, 14, prompt, 3);
    RejectAt(ks, 13, prompt, 1);
    RejectAt(ks, 12, prompt, 0);
    RejectAt(ks, 11, prompt, 5);
  }

  /** So do the last twelve. */
  lemma DefaultsRejectMiddle(prompt: string)
    requires 'r' !in Lower(prompt) && 't' !in Lower(prompt) && 'f' !in Lower(prompt)
    requires 'x' !in Lower(prompt) && 'u' !in Lower(prompt) && 'l' !in Lower(prompt)
    requires 'm' !in Lower(prompt)
    ensures !IsBypassSuccessful(DefaultBypassKeywords[5..], prompt)
  {
    var ks := DefaultBypassKeywords;
    DefaultsRejectLate(prompt);
    RejectAt(ks, 10, prompt, 0);
    RejectAt(ks, 9, prompt, 3);
    RejectAt(ks, 8, prompt, 1);
    RejectAt(ks, 7, prompt, 3);
    RejectAt(ks, 6, prompt, 4);
    RejectAt(ks, 5, prompt, 4);
  }

  /** A text whose lower case lacks the letters r, t, f, x, u, l and m fails
      the shipped test: each default keyword holds one of them. */
  lemma DefaultsRejectWithout(prompt: string)
    requires 'r' !in Lower(prompt) && 't' !in Lower(prompt) && 'f' !in Lower(prompt)
    requires 'x' !in Lower(prompt) && 'u' !in Lower(prompt) && 'l' !in Lower(prompt)
    requires 'm' !in Lower(prompt)
    ensures !IsBypassSuccessful(DefaultBypassKeywords, prompt)
  {
    var ks := DefaultBypassKeywords;
    DefaultsRejectMiddle(prompt);
    RejectAt(ks, 4, prompt, 1);
    RejectAt(ks, 3, prompt, 2);
    RejectAt(ks, 2, prompt, 0);
    RejectAt(ks, 1, prompt, 4);
    RejectAt(ks, 0, prompt, 0);
    assert ks[0..] == ks;
  }

  /** No shipped keyword occurs in "no bypass achieved.". */
  lemma DefaultsRejectSentinel()
    ensures !IsBypassSuccessful(DefaultBypassKeywords, NoBypass)
  {
    SentinelLowered();
    var text := Lower(NoBypass);
    assert 'r' !in text && 't' !in text && 'f' !in text && 'x' !in text;
    assert 'u' !in text && 'l' !in text && 'm' !in text;
    DefaultsRejectWithout(NoBypass);
  }

  /** So under the shipped configuration the reply is never the sentinel
      text: a default-built tool always answers with a passing rewrite. */
  lemma DefaultsNeverSentinel(prompt: string, rng: nat -> nat, pos: nat)
    ensures Reply(Run(DefaultValves, Strategies, prompt, rng, pos).outcome) != Returns(NoBypass)
  {
    DefaultsAlwaysBypass(prompt, rng, pos);
    DefaultsRejectSentinel();
    SuccessPassesTest(DefaultValves, Strategies, prompt, rng, pos);
  }

  lemma {:induction false} PrimaryIgnoresFallbackList(valves: Valves, names: seq<string>, prompt: string, rng: nat -> nat, pos: nat, remaining: nat)
    ensures PrimaryLoop(valves.(fallbackAugmentations := names), prompt, rng, pos, remaining)
         == PrimaryLoop(valves, prompt, rng, pos, remaining)
    decreases remaining
  {
    var other := valves.(fallbackAugmentations := names);
    if remaining > 0 {
      assert Augmented(other, prompt, rng, pos) == Augmented(valves, prompt, rng, pos);
      match Augmented(valves, prompt, rng, pos)
      case IndexError =>
      case Returns(drawn) =>
        PrimaryIgnoresFallbackList(valves, names, prompt, rng, drawn.next, remaining - 1);
    }
  }

  /** The `fallback_augmentations` setting is never read: the strategies
      tried are the fixed `FallbackStrategies` list whatever it says. */
  lemma FallbackSettingUnused(valves: Valves, names: seq<string>, strategies: seq<Strategy>, prompt: string, rng: nat -> nat, pos: nat)
    ensures Run(valves.(fallbackAugmentations := names), strategies, prompt, rng, pos)
         == Run(valves, strategies, prompt, rng, pos)
  {
    PrimaryIgnoresFallbackList(valves, names, prompt, rng, pos, SampleCount(valves.maxSamples));
  }

  /** When the sentinel itself fails the keyword test, the caller can tell a
      rewrite from "No bypass achieved." by the text alone. */
  lemma SentinelDistinguishable(valves: Valves, strategies: seq<Strategy>, prompt: string, rng: nat -> nat, pos: nat)
    requires !IsBypassSuccessful(valves.bypassKeywords, NoBypass)
    ensures var t := Run(valves, strategies, prompt, rng, pos);
      Reply(t.outcome) == Returns(NoBypass) <==> t.outcome.Exhausted?
  {
    SuccessPassesTest(valves, strategies, prompt, rng, pos);
  }

  /** The sentinel is in-band: with the keyword "bypass" and an augmentation
      id that leaves the prompt as it is, the prompt "No bypass achieved." is
      itself a successful rewrite, so the reply alone cannot tell success
      from failure. */
  lemma SentinelAmbiguous(rng: nat -> nat, pos: nat)
    ensures var valves := Valves(1, ["echo"], [], ["bypass"], []);
      Run(valves, Strategies, NoBypass, rng, pos).outcome == Bypassed(NoBypass)
  {
    var valves := Valves(1, ["echo"], [], ["bypass"], []);
    UnknownKeepsPrompt("echo", NoBypass);
    assert Lower("bypass") == "bypass";
    assert OccursAt("bypass", Lower("bypass"), 0);
    KeywordInFixedPart(["bypass"], 0, "No ", "bypass", " achieved.", 0);
    assert Augmented(valves, NoBypass, rng, pos) == Returns(Drawn(NoBypass, pos + 1));
  }
}
