/** The `Tools` object: its configuration, the fixed fallback strategies and
    the history of successful rewrites, which `bon_jailbreak` appends to in
    place. Randomness is the injected draw stream `rng`, read from `pos` on;
    each call returns the position of the next unread draw. */
module Tool {
  import opened Results
  import opened Text
  import opened Shuffle
  import opened Config
  import opened Detection
  import opened Augment
  import opened Fallback
  import opened Search

  class Tools {
    const valves: Valves
    const fallbackStrategies: seq<Strategy>
    var successfulAugmentations: seq<string>

    /** The strategies are the fixed list, and every recorded rewrite passed
        the keyword test when it was recorded. */
    ghost predicate Valid()
      reads this
    {
      fallbackStrategies == Strategies &&
      forall i :: 0 <= i < |successfulAugmentations| ==>
        IsBypassSuccessful(valves.bypassKeywords, successfulAugmentations[i])
    }

    /** `Tools()`: the shipped configuration and an empty history. */
    constructor ()
      ensures Valid()
      ensures valves == DefaultValves && successfulAugmentations == []
    {
      valves := DefaultValves;
      fallbackStrategies := Strategies;
      successfulAugmentations := [];
    }

    /** A tool whose host set the valves to `configured`. */
    constructor Configured(configured: Valves)
      ensures Valid()
      ensures valves == configured && successfulAugmentations == []
    {
      valves := configured;
      fallbackStrategies := Strategies;
      successfulAugmentations := [];
    }

    /** `augment_prompt(prompt)`. */
    method AugmentPrompt(prompt: string, rng: nat -> nat, pos: nat) returns (r: Raises<Drawn>)
      ensures r == Augmented(valves, prompt, rng, pos)
    {
      var types := valves.augmentationTypes;
      if |types| == 0 {
        return IndexError;
      }
      var augmentation := types[RandBelow(rng, pos, |types|)];
      if augmentation == "shuffle" {
        var words := Words(prompt);
        var buffer := new string[|words|](i requires 0 <= i < |words| => words[i]);
        assert buffer[..] == words;
        var next := ShuffleInPlace(buffer, rng, pos + 1);
        r := Returns(Drawn(Join(buffer[..]), next));
      } else if augmentation == "roleplay" {
        var scenarios := valves.roleplayScenarios;
        if |scenarios| == 0 {
          return IndexError;
        }
        var scenario := scenarios[RandBelow(rng, pos + 1, |scenarios|)];
        r := Returns(Drawn(RoleplayFrame(scenario).Wrap(prompt), pos + 2));
      } else {
        r := Returns(Drawn(Rewrite(augmentation, prompt), pos + 1));
      }
    }

    /** One pass of the first loop's body: augment, then test. It stops the
        loop when the choice raised or the rewrite passed; otherwise the loop
        goes on from the next draw with one sample fewer, to the same end. */
    method Attempt(prompt: string, rng: nat -> nat, pos: nat, remaining: nat, ghost goal: Trial)
      returns (stop: bool, outcome: Outcome, next: nat)
      requires remaining > 0
      requires PrimaryLoop(valves, prompt, rng, pos, remaining).outcome == goal.outcome
      requires PrimaryLoop(valves, prompt, rng, pos, remaining).next == goal.next
      ensures stop ==> outcome == goal.outcome && next == goal.next
      ensures !stop ==> PrimaryLoop(valves, prompt, rng, next, remaining - 1).outcome == goal.outcome
      ensures !stop ==> PrimaryLoop(valves, prompt, rng, next, remaining - 1).next == goal.next
    {
      var drawn := AugmentPrompt(prompt, rng, pos);
      if drawn.IndexError? {
        PrimaryStepRaises(valves, prompt, rng, pos, remaining);
        return true, Raised, pos;
      }
      var candidate := drawn.value.text;
      next := drawn.value.next;
      if IsBypassSuccessful(valves.bypassKeywords, candidate) {
        PrimaryStepPasses(valves, prompt, rng, pos, remaining, drawn.value);
        return true, Bypassed(candidate), next;
      }
      PrimaryStepFails(valves, prompt, rng, pos, remaining, drawn.value);
      stop, outcome := false, Exhausted;
    }

    /** The first loop of `bon_jailbreak`: up to `max_samples` augmentations,
        stopping at the first that passes the keyword test or raises. */
    method TryAugmentations(prompt: string, rng: nat -> nat, pos: nat) returns (outcome: Outcome, next: nat)
      ensures var t := PrimaryLoop(valves, prompt, rng, pos, SampleCount(valves.maxSamples));
        outcome == t.outcome && next == t.next
    {
      var remaining := SampleCount(valves.maxSamples);
      next := pos;
      ghost var goal := PrimaryLoop(valves, prompt, rng, pos, remaining);
      while remaining > 0
        invariant PrimaryLoop(valves, prompt, rng, next, remaining).outcome == goal.outcome
        invariant PrimaryLoop(valves, prompt, rng, next, remaining).next == goal.next
      {
        var stop;
        stop, outcome, next := Attempt(prompt, rng, next, remaining, goal);
        if stop {
          return;
        }
        remaining := remaining - 1;
      }
      outcome := Exhausted;
    }

    /** The second loop of `bon_jailbreak`: the fallback strategies in order,
        each on the original prompt, stopping at the first that passes. */
    method TryFallbacks(prompt: string) returns (outcome: Outcome)
      ensures outcome == FallbackLoop(valves.bypassKeywords, fallbackStrategies, prompt, 0).outcome
    {
      var keywords := valves.bypassKeywords;
      var i := 0;
      ghost var fallen: seq<string> := [];
      while i < |fallbackStrategies|
        invariant 0 <= i <= |fallbackStrategies|
        invariant Prepend(fallen, FallbackLoop(keywords, fallbackStrategies[i..], prompt, 0))
               == FallbackLoop(keywords, fallbackStrategies, prompt, 0)
      {
        var fallback := fallbackStrategies[i].Apply(prompt);
        if IsBypassSuccessful(keywords, fallback) {
          FallbackStepPasses(keywords, fallbackStrategies[i..], prompt, 0);
          return Bypassed(fallback);
        }
        FallbackStepFails(keywords, fallbackStrategies, prompt, 0, i, fallen);
        fallen := fallen + [fallback];
        i := i + 1;
      }
      return Exhausted;
    }

    /** `bon_jailbreak(prompt)`: the reply and the history are those of the
        search `Run`; a rewrite other than the sentinel passes the keyword
        test and is appended to the history, which otherwise stays as it was. */
    method BonJailbreak(prompt: string, rng: nat -> nat, pos: nat) returns (r: Raises<string>, next: nat)
      requires Valid()
      modifies this`successfulAugmentations
      ensures Valid()
      ensures var t := Run(valves, fallbackStrategies, prompt, rng, pos);
        r == Reply(t.outcome) && next == t.next &&
        successfulAugmentations ==
          old(successfulAugmentations) + (if t.outcome.Bypassed? then [t.outcome.text] else [])
      ensures r.Returns? && r.value != NoBypass ==>
        IsBypassSuccessful(valves.bypassKeywords, r.value) &&
        successfulAugmentations == old(successfulAugmentations) + [r.value]
      ensures r.IndexError? ==> successfulAugmentations == old(successfulAugmentations)
      ensures valves.bypassKeywords == [] ==>
        successfulAugmentations == old(successfulAugmentations) && (r.Returns? ==> r.value == NoBypass)
    {
      SuccessPassesTest(valves, fallbackStrategies, prompt, rng, pos);
      if valves.bypassKeywords == [] {
        NoKeywordsNoBypass(valves, fallbackStrategies, prompt, rng, pos);
      }
      var outcome;
      outcome, next := TryAugmentations(prompt, rng, pos);
      if outcome.Exhausted? {
        outcome := TryFallbacks(prompt);
        FallbackPositionFree(valves.bypassKeywords, fallbackStrategies, prompt, 0, next);
      }
      if outcome.Bypassed? {
        successfulAugmentations := successfulAugmentations + [outcome.text];
      }
      r := Reply(outcome);
    }

    /** `get_successful_augmentations()`: the recorded rewrites, in order, each
        of which passes the keyword test. */
    method GetSuccessfulAugmentations() returns (history: seq<string>)
      requires Valid()
      ensures history == successfulAugmentations
      ensures forall i :: 0 <= i < |history| ==> IsBypassSuccessful(valves.bypassKeywords, history[i])
    {
      history := successfulAugmentations;
    }
  }
}
