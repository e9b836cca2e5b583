# Enhanced bonJailbreak tool: a Dafny model

This project models the `Tools` class of `bonJailbreakTool.py`. It is an Open WebUI tool that
runs a "Best-of-N" search over rewrites of a prompt:

- it tries up to `max_samples` randomly chosen augmentations of the prompt;
- then it tries six fixed fallback rewrites, in order, each on the original prompt;
- it returns the first candidate whose lower-cased text contains one of the configured bypass
  keywords, and records it in the tool's history;
- when nothing passes, it returns the text "No bypass achieved.".

What the model covers:

- `Config`: the `Valves` record with its shipped defaults, and how many times
  `range(max_samples)` runs.
- `Text`: the string primitives the tool uses: `str.lower`/`str.upper` on ASCII letters,
  substring search, `s[::-1]`, `str.split()` (with Python's whitespace set) and `" ".join`.
- `Shuffle`: `random.shuffle` as CPython writes it. This is a Fisher-Yates pass from the last
  index down to 1, swapping with `randbelow(i + 1)`. It is done in place on an array and proved
  equal to a functional specification, which is a permutation of its input.
- `Detection`: `is_bypass_successful`.
- `Augment`: `augment_prompt`. The deterministic branches are `Rewrite`, and the fixed templates
  are an ordered table of id and frame. `Augmented` is the whole call with its random choices.
- `Fallback`: the six `FallbackStrategies` and their fixed order.
- `Search`: the two loops of `bon_jailbreak` as functions (`PrimaryLoop`, `FallbackLoop`, `Run`),
  and the properties of the search.
- `Tool`: the `Tools` class, with its configuration and its history of successful rewrites, a
  `seq` that `BonJailbreak` appends to in place. Its methods are proved against `Search` and
  `Augment`.

Randomness is an injected stream `rng: nat -> nat` read from a position `pos`. Each call returns
the position of the next unread draw. One `randbelow(n)` reads one draw and yields
`rng(pos) % n`. So `random.choice` reads one draw, and `random.shuffle` on `n > 1` words reads
`n - 1` draws. `random.choice` on an empty list raises `IndexError`. This is the `IndexError`
case of the `Raises` result; it is not a precondition.

Behaviour of the code worth knowing:

- The `fallback_augmentations` valve is never read. The fallbacks are always the six
  `FallbackStrategies` methods (`Search.FallbackSettingUnused`).
- The keywords are not lower-cased, only the text is. So a keyword holding a capital never
  matches (`Detection.CapitalKeywordNeverMatches`), and the test is not fully case-insensitive.
- Errors are possible: an empty `augmentation_types` list, with a positive `max_samples`, always
  raises `IndexError`. An empty `roleplay_scenarios` list raises it whenever `roleplay` is drawn.
- The `question` augmentation is "Can you explain or discuss {p}?", without a colon. The
  `ask_as_question` fallback has one.
- The reply "No bypass achieved." is in-band: a genuine rewrite can be the same text
  (`Search.SentinelAmbiguous`).

## Model

| member | source | states |
|---|---|---|
| Config.DefaultValves | bonJailbreakTool.py:24-96 | no ensures; the shipped valves: 1000 samples and the default lists, checked by `Augment.KnownAugmentationsAreDefaults`, `Augment.DefaultKeywordsLowercase` and `Search.DefaultsAlwaysBypass` |
| Config.SampleCount | bonJailbreakTool.py:138 | no ensures; how many times `range(max_samples)` runs, as stated about the loop by `Search.PrimaryLoop` and `Search.TriesAtMost` |
| Text.Lower | bonJailbreakTool.py:201 | no ensures; `str.lower()` on ASCII letters only, characterised by `Text.LowerOfUpper` and `Text.CapitalNeverOccursInLower` |
| Text.Upper | bonJailbreakTool.py:160-161 | no ensures; `str.upper()` on ASCII letters only, characterised by `Text.LowerOfUpper` |
| Text.Contains | bonJailbreakTool.py:201 | no ensures; `keyword in text`, characterised in both directions by `Text.ContainsIffOccurs` |
| Text.ContainsIffOccurs | bonJailbreakTool.py:201 | the substring search answers true exactly when the keyword occurs at some position of the text |
| Text.LowerOfUpper | bonJailbreakTool.py:160-161 | lower-casing an upper-cased text gives the lower-cased original |
| Text.Reverse | bonJailbreakTool.py:173-174 | `s[::-1]` has the same length and holds character `n-1-i` at position `i` |
| Text.ReverseInvolutive | bonJailbreakTool.py:173-174 | reversing twice gives the input back |
| Text.Words | bonJailbreakTool.py:157 | every word from `str.split()` is non-empty and holds no whitespace |
| Text.WordsAreNonEmptyPieces | bonJailbreakTool.py:157 | `str.split()` gives the non-empty pieces, in order, of the text cut at every whitespace character, as Python documents it |
| Text.Join | bonJailbreakTool.py:159 | no ensures; `" ".join(words)`, characterised by `Text.WordsOfJoin` |
| Text.WordsOfJoin | bonJailbreakTool.py:157-159 | splitting a single-space join of words gives the same words back |
| Shuffle.Shuffled | bonJailbreakTool.py:158 | no ensures; `random.shuffle` as a function of the list and the draws, characterised by `Shuffle.ShuffledPermutes` and implemented by `Shuffle.ShuffleInPlace` |
| Shuffle.RandBelow | bonJailbreakTool.py:155 | a draw reduced below a positive bound is below it |
| Shuffle.ShuffledPermutes | bonJailbreakTool.py:158 | the shuffled list has the input's length and multiset of elements |
| Shuffle.ShuffleInPlace | bonJailbreakTool.py:158 | the in-place Fisher-Yates pass leaves the array equal to `Shuffled` of its old contents and reads `n-1` draws (none for `n <= 1`) |
| Shuffle.ShuffleKeepsWords | bonJailbreakTool.py:156-159 | the words of split-shuffle-join are a permutation of the prompt's words, and unchanged for at most one word |
| Detection.IsBypassSuccessful | bonJailbreakTool.py:197-201 | no ensures; the keyword test, characterised in both directions by `Detection.BypassIffKeywordOccurs` |
| Detection.BypassIffKeywordOccurs | bonJailbreakTool.py:197-201 | the test passes exactly when some keyword is a substring of the lower-cased text |
| Detection.NoKeywordsNeverSucceed | bonJailbreakTool.py:201 | with no keywords no text passes |
| Detection.CapitalKeywordNeverMatches | bonJailbreakTool.py:201 | a keyword with an ASCII capital never matches, because only the text is lower-cased |
| Detection.UpperKeepsVerdict | bonJailbreakTool.py:161 | upper-casing a text never changes its verdict |
| Detection.KeywordInFixedPart | bonJailbreakTool.py:201 | a keyword inside one piece of a text makes the whole text pass |
| Augment.Templates | bonJailbreakTool.py:164-194 | no ensures; the fixed-text branches in elif order, checked by `Augment.TemplateIdsDistinct` and `Augment.TemplateKeepsPrompt` |
| Augment.RoleplayFrame | bonJailbreakTool.py:166-168 | no ensures; the roleplay wording around the chosen scenario, characterised by `Augment.RoleplayMatchesDefaults` |
| Augment.Rewrite | bonJailbreakTool.py:160-195 | no ensures; the branches that use no draw, characterised by `Augment.RepeatDoubles`, `Augment.ReverseTwice`, `Augment.CapitalizeKeepsVerdict`, `Augment.TemplateKeepsPrompt` and `Augment.UnknownKeepsPrompt` |
| Augment.KnownAugmentationsAreDefaults | bonJailbreakTool.py:26-47 | the shipped `augmentation_types` list names exactly the 18 ids the branches of `augment_prompt` recognise, in branch order |
| Augment.Augmented | bonJailbreakTool.py:153-195 | no ensures; `augment_prompt` with its draws, characterised by `Augment.AugmentedRaises` and `Augment.ShuffleBranchKeepsWords` and implemented by `Tool.Tools.AugmentPrompt` |
| Augment.UnwrapWrap | bonJailbreakTool.py:164-194 | a framed prompt can be read back out of its frame |
| Augment.LookupFinds | bonJailbreakTool.py:164-194 | in the elif chain an id that no earlier branch tests selects its own branch |
| Augment.LookupHit | bonJailbreakTool.py:164-194 | a template branch is taken only for an id that the chain tests |
| Augment.TemplateIdsDistinct | bonJailbreakTool.py:164-194 | the template ids are pairwise distinct and none is `capitalize`, `repeat` or `reverse` |
| Augment.Choice | bonJailbreakTool.py:155 | `random.choice` raises exactly on an empty list and otherwise returns a member |
| Augment.AugmentedRaises | bonJailbreakTool.py:155-168 | `augment_prompt` raises always when there are no augmentation types, and otherwise exactly when `roleplay` is drawn with no scenarios |
| Augment.RepeatDoubles | bonJailbreakTool.py:162-163 | `repeat` gives the prompt twice, twice as long |
| Augment.ReverseTwice | bonJailbreakTool.py:173-174 | `reverse` applied twice gives the prompt back |
| Augment.CapitalizeKeepsVerdict | bonJailbreakTool.py:160-161 | `capitalize` is `upper()` and never changes the keyword verdict |
| Augment.CapitalizeExample | bonJailbreakTool.py:160-161 | `capitalize` on "bake a cake" gives "BAKE A CAKE" |
| Augment.TemplateKeepsPrompt | bonJailbreakTool.py:164-194 | every template output is its fixed prefix, the prompt verbatim and its fixed suffix, and the prompt unwraps back out |
| Augment.UnknownKeepsPrompt | bonJailbreakTool.py:195 | an unrecognised id returns the prompt unchanged |
| Augment.ShuffleBranchKeepsWords | bonJailbreakTool.py:156-159 | when `shuffle` is drawn, the output's words are a permutation of the prompt's words |
| Augment.DefaultKeywordsLowercase | bonJailbreakTool.py:64-83 | the shipped keywords hold no capital, so each matches itself |
| Augment.DefaultKeywordInside | bonJailbreakTool.py:64-83 | under the default keywords, a text containing one of them verbatim passes |
| Augment.FramedKeyword | bonJailbreakTool.py:164-194 | a frame whose prefix spells a default keyword makes every prompt pass |
| Augment.TemplateSpellsKeyword | bonJailbreakTool.py:164-194 | a template whose prefix spells a default keyword passes for every prompt |
| Augment.SettingTemplatesMatch | bonJailbreakTool.py:164-192 | `hypothetical`, `narrative`, `fictional` and `sci-fi` pass under the defaults for every prompt |
| Augment.PerspectiveTemplatesMatch | bonJailbreakTool.py:183-194 | the five perspective templates pass under the defaults for every prompt |
| Augment.InstructionTemplatesMatch | bonJailbreakTool.py:175-182 | `question`, `summarize` and `metaphor` pass under the defaults for every prompt |
| Augment.SummarizeMatchesDefaults | bonJailbreakTool.py:177-178 | `summarize` passes under the defaults, through its capitalised first word |
| Augment.TemplatesMatchDefaults | bonJailbreakTool.py:164-194 | every fixed template except `contextualize` passes under the default keywords, whatever the prompt |
| Augment.RoleplayMatchesDefaults | bonJailbreakTool.py:166-168 | every roleplay output passes under the defaults, whatever the scenario and the prompt |
| Fallback.Strategy.Apply | bonJailbreakTool.py:109-131 | no ensures; each strategy's rewrite, characterised by `Fallback.StrategyKeepsPrompt` |
| Fallback.Strategies | bonJailbreakTool.py:98-107 | no ensures; the six strategies in declared order, as `Search.FallbacksInOrder` uses them |
| Fallback.StrategyKeepsPrompt | bonJailbreakTool.py:109-131 | each fallback is a fixed prefix, the prompt verbatim and a fixed suffix, and the prompt unwraps back out |
| Fallback.AddContextIsHypothetical | bonJailbreakTool.py:121-123 | `add_context` gives exactly the `hypothetical` augmentation's text |
| Fallback.LateStrategiesMatchDefaults | bonJailbreakTool.py:121-131 | `add_context`, `use_metaphor` and `ask_as_question` pass under the default keywords for every prompt |
| Search.NoBypass | bonJailbreakTool.py:151 | no ensures; the reply when nothing passes, characterised by `Search.SentinelDistinguishable` and `Search.SentinelAmbiguous` |
| Search.Reply | bonJailbreakTool.py:142-151 | no ensures; the returned text for each outcome, characterised by `Search.SentinelDistinguishable` |
| Search.Run | bonJailbreakTool.py:133-151 | no ensures; `bon_jailbreak` as a function, characterised by `Search.SuccessPassesTest`, `Search.TriesAtMost` and `Search.FallbacksInOrder` and implemented by `Tool.Tools.BonJailbreak` |
| Search.PrependFailures | bonJailbreakTool.py:138-149 | failing candidates tested first keep a search first-match |
| Search.PrimaryLoop | bonJailbreakTool.py:138-142 | the random loop tests at most `max_samples` candidates, and exactly that many when it runs out |
| Search.PrimaryFirstMatch | bonJailbreakTool.py:138-142 | the random loop stops at the first passing rewrite, and all rewrites tested before it failed |
| Search.FallbackLoop | bonJailbreakTool.py:145-149 | the fallback loop never raises, reads no draws, and tests at most one candidate per strategy, all of them when it runs out |
| Search.FallbackFirstMatch | bonJailbreakTool.py:145-149 | the fallback loop stops at the first passing rewrite, and all rewrites tested before it failed |
| Search.FallbackTriesInOrder | bonJailbreakTool.py:145-146 | the i-th fallback candidate is the i-th strategy applied to the original prompt |
| Search.FallbackPositionFree | bonJailbreakTool.py:145-149 | the fallback loop's outcome and candidates do not depend on the stream position |
| Search.SuccessPassesTest | bonJailbreakTool.py:138-151 | a returned rewrite passes the keyword test and is the first passing candidate of the whole search |
| Search.TriesAtMost | bonJailbreakTool.py:138-149 | at most `max_samples` plus the number of strategies candidates are tested |
| Search.FallbacksOnlyAfterPrimary | bonJailbreakTool.py:138-145 | a random attempt that passes or raises ends the call, so no fallback runs |
| Search.PrependParts | bonJailbreakTool.py:138-149 | the candidates of a continued search are the earlier candidates, then the continuation's |
| Search.FallbacksInOrder | bonJailbreakTool.py:144-149 | after `max_samples` failed attempts the fallbacks follow, in declared order, each on the original prompt |
| Search.ZeroSamplesOnlyFallbacks | bonJailbreakTool.py:138-151 | with `max_samples <= 0` the call is exactly the fallback loop |
| Search.PrimaryRaises | bonJailbreakTool.py:138-139 | the random loop raises only on an empty list, and always does with no augmentation types |
| Search.RaisesOnlyOnEmptyChoice | bonJailbreakTool.py:138-168 | `bon_jailbreak` raises only with a positive sample count and one of the two lists empty; it always raises with no augmentation types and a positive sample count, and with no scenarios whenever the first draw picks `roleplay` |
| Search.NoKeywordsNoBypass | bonJailbreakTool.py:138-151 | with no keywords nothing passes: every candidate is tested and the reply is "No bypass achieved." unless a choice raised |
| Search.FallbackFindsMatch | bonJailbreakTool.py:145-149 | a passing strategy at index `i` ends the fallback loop with a bypass after at most `i+1` candidates |
| Search.DefaultsAlwaysBypass | bonJailbreakTool.py:121-151 | with the shipped configuration the call always ends in a bypass, never taking the sentinel path or raising, after at most `max_samples + 4` candidates |
| Search.DefaultsRejectWithout | bonJailbreakTool.py:64-83 | a text whose lower case lacks r, t, f, x, u, l and m fails the shipped keyword test, since every default keyword holds one of these letters |
| Search.DefaultsRejectSentinel | bonJailbreakTool.py:151 | "No bypass achieved." itself fails the shipped keyword test |
| Search.DefaultsNeverSentinel | bonJailbreakTool.py:133-151 | with the shipped configuration the reply is never the text "No bypass achieved." |
| Search.PrimaryIgnoresFallbackList | bonJailbreakTool.py:86-94 | the random loop does not depend on `fallback_augmentations` |
| Search.FallbackSettingUnused | bonJailbreakTool.py:86-94 | `bon_jailbreak` does not depend on `fallback_augmentations` |
| Search.SentinelDistinguishable | bonJailbreakTool.py:151 | when the sentinel text itself fails the test, the reply is "No bypass achieved." exactly when nothing passed |
| Search.SentinelAmbiguous | bonJailbreakTool.py:151 | with the keyword "bypass", a rewrite equal to "No bypass achieved." is returned as a success |
| Tool.Tools.Valid | bonJailbreakTool.py:17-22 | no ensures; the strategies are the fixed list and every recorded rewrite passed the keyword test, kept by `Tool.Tools.BonJailbreak` |
| Tool.Tools.constructor | bonJailbreakTool.py:14-22 | a new tool has the default valves, the six strategies and an empty history |
| Tool.Tools.Configured | bonJailbreakTool.py:14-25 | a tool built with host-set valves has those valves and an empty history |
| Tool.Tools.AugmentPrompt | bonJailbreakTool.py:153-195 | `augment_prompt`, with its in-place shuffle, returns exactly `Augmented` and the next draw position |
| Tool.Tools.Attempt | bonJailbreakTool.py:139-142 | one loop pass either ends the random loop with its outcome or hands on to the rest of the loop |
| Tool.Tools.TryAugmentations | bonJailbreakTool.py:138-142 | the first loop ends with the outcome and draw position of `PrimaryLoop` |
| Tool.Tools.TryFallbacks | bonJailbreakTool.py:145-149 | the second loop ends with the outcome of `FallbackLoop` |
| Tool.Tools.BonJailbreak | bonJailbreakTool.py:133-151 | the reply is that of `Run`; a bypass is appended to the history and nothing else changes; a non-sentinel reply passes the test; with no keywords the history is unchanged |
| Tool.Tools.GetSuccessfulAugmentations | bonJailbreakTool.py:203-207 | returns the history, every entry of which passes the keyword test |

## Left out

- The distribution of Python's random generator. Draws are an arbitrary injected stream, so
  every property holds for every sequence of draws.
- The internals of CPython's `randbelow`: rejection sampling and bit consumption. One draw is
  one value reduced below its bound.
- Unicode case mapping. `lower()`/`upper()` are modelled on ASCII letters only; other
  characters are kept.
- Text.LowerOfUpper: holds for the ASCII case mapping only. In Python `"ı".upper()` is `"I"`
  (dotless ı) and `"ß".upper()` is `"SS"`, so lower-casing after upper-casing can change the text.
- Detection.UpperKeepsVerdict: holds for the ASCII case mapping only. Under the default
  keywords the prompt `"explaın"` (dotless ı) fails the test, while its upper case `"EXPLAIN"`
  passes through `"explain"`.
- Augment.CapitalizeKeepsVerdict: holds for the ASCII case mapping only, for the same reason:
  `capitalize` turns the failing `"explaın"` into the passing `"EXPLAIN"`.
- Pydantic validation of the valves, and a host reassigning `self.valves` after construction.
  The valves are fixed when the tool is built.
- Aliasing: `get_successful_augmentations` returns the live list in Python, and the model
  returns a copy of the history.
- The draw position after an exception. `IndexError` stops the call, and the model does not
  say how many draws were read.
- The module docstring, the Open WebUI integration and any claim about effect on a language
  model.
- Augment.TemplatesMatchDefaults: `contextualize` is left out of it. Its wording holds no
  default keyword, so its verdict depends on the prompt.
