# Token-creation automation (TokenUtility), modelled in Dafny

This project models the token-creation hook of a virtual-tabletop module.
When the host creates a token, `TokenUtility._onCreateToken` chooses one of
three outcomes. It does nothing, opens the Mighty Summoner dialog, or rolls
the creature's hit points automatically. An automatic roll resolves an HP
number in `rollHP`. That number is either the total of the actor's dice
formula or the stored maximum (0 when absent). `_buildHPData` turns it into
a payload whose `value` and `max` are both that number. `_processHPUpdate`
then sends it to `token.update`.

The hook is pure branching around host calls, so the model is functional:

- `js.dfy` (module `Js`) covers the JavaScript semantics the hook relies on:
  truthiness, `||` and `??`.
- `token_utility.dfy` (module `TokenUtility`) covers the decision, HP
  resolution, payload and handler. The decision and the payload are plain
  values. `RollHP`, `ProcessHPUpdate` and `OnCreateToken` return a `Run`:
  the host calls they make, in order, and whether they returned or threw.
- `token_utility_properties.dfy` (module `TokenUtilityProperties`) holds the
  lemmas that relate several runs, plus worked cases.

Host capabilities are parameters:

- The dice engine is a function `dice: JsValue -> RollOutcome`. It returns a
  total or rejects a malformed formula.
- Settings, the temporary-combatant flag, the feat check and the session
  user are passed in as plain values.

The source's behaviour is followed where it differs from what its comments
suggest:

- The guard `if (!hpUpdate) return;` tests the payload object. An object is
  always truthy, so the guard never fires. The token is updated even when
  the resolved HP is 0 (`ZeroHPIsStillWritten`). It is not skipped on a
  falsy HP.
- `rollHP` returns a number, not a payload, whatever its doc comment says.
- An override formula is used only when it is truthy. An empty-string
  override falls back to the stored formula.
- The payload is written under `actorData.data.attributes.hp`. The values
  are read from `system.attributes.hp`. The model keeps that asymmetry.

## Model

| member | source | states |
|---|---|---|
| `Js.Or` | modules/utils/token.js:74 | The logical OR of two values yields one of its operands: the left one when it is truthy, else the right one. The result is truthy iff either operand is. |
| `Js.Coalesce` | modules/utils/token.js:78 | Nullish coalescing yields the left operand unless it is undefined or null, and then the right one. The result is nullish iff both operands are. |
| `Js.FalsyValues` | modules/utils/token.js:76 | The falsy values are exactly undefined, null, false, 0 and the empty string. Every nullish value is falsy. |
| `TokenUtility.ShouldPromptUser` | modules/utils/token.js:26 | The dialog may prompt this user iff the user is not a GM or the prompt-GM setting is on. |
| `TokenUtility.ShouldRollHP` | modules/utils/token.js:42-51 | True iff all four hold: an actor exists, the disposition is hostile (-1), auto-roll is on, and the actor has no player owner. |
| `TokenUtility.Decide` | modules/utils/token.js:13-35 | No actor, a temporary combatant while the feature is on, or another user's event gives NoAction. Otherwise the dialog comes iff it is due. Otherwise auto-roll comes iff `ShouldRollHP`. |
| `TokenUtility.HPFormula` | modules/utils/token.js:74 | The formula is the override when it is truthy, else the stored formula. A formula exists iff either is truthy. |
| `TokenUtility.RollMode` | modules/utils/token.js:83-90 | The chat roll mode is `gmroll` iff the hide-auto-roll setting is on, and `roll` otherwise. |
| `TokenUtility.RollHP` | modules/utils/token.js:73-97 | The returned HP is never nullish. The dice engine is called once iff a formula exists, and never otherwise. One chat message is posted iff a rolled total is returned. No update and no dialog happen. |
| `TokenUtility.BuildHPData` | modules/utils/token.js:103-118 | The payload's `value` and `max` both equal the given HP, 0 included. |
| `TokenUtility.ProcessHPUpdate` | modules/utils/token.js:59-67 | If rollHP returns, the token is updated exactly once, last, with `BuildHPData` of that HP, whatever the HP. If rollHP throws, the error propagates and there is no update. |
| `TokenUtility.OnCreateToken` | modules/utils/token.js:13-35 | An ignored event makes no host call. There is at most one dialog and at most one update, never both. A dialog happens iff the decision is the dialog. An update happens iff the decision is auto-roll and rollHP returns. NoAction gives no host call and the dialog decision gives the dialog call alone. Auto-roll is exactly `ProcessHPUpdate` of the token's actor with no formula override, so the written payload is `BuildHPData` of the rolled HP and a rollHP error leaves the handler. |
| `TokenUtilityProperties.DialogPrecedesAutoRoll` | modules/utils/token.js:28-34 | Once the dialog is due, the handler opens it and makes no update. This holds whatever the disposition, player ownership, auto-roll and hide settings, and dice engine are. |
| `TokenUtilityProperties.TemporaryCombatantIgnored` | modules/utils/token.js:17-22 | A flagged temporary combatant, with the feature on, gives NoAction and no host call. |
| `TokenUtilityProperties.FallbackToStoredMax` | modules/utils/token.js:74-79 | With no truthy formula, rollHP returns the stored max, or 0 when it is nullish. It makes no host call and depends on neither the dice engine nor the hide setting. |
| `TokenUtilityProperties.RolledTotal` | modules/utils/token.js:81-96 | With a formula, rollHP returns the dice total. It evaluates the formula, then posts one chat message carrying that total and the actor's flavor text. The mode is `gmroll` iff hidden. |
| `TokenUtilityProperties.MalformedFormulaStopsHandler` | modules/utils/token.js:32-33 | A formula the engine rejects ends the handler with that error. The evaluation was the only host call. |
| `TokenUtilityProperties.BuildHPDataImage` | modules/utils/token.js:103-118 | `_buildHPData` is injective. Its image is exactly the full-health payloads (`value == max`). |
| `TokenUtilityProperties.ZeroHPIsStillWritten` | modules/utils/token.js:62-66 | An HP of 0 is falsy, but the payload is truthy. The token is therefore updated once, with 0/0. |
| `TokenUtilityProperties.StoredMaxFifteen` | modules/utils/token.js:76-78 | No formula and a stored max of 15 lead to a single update to 15/15. |
| `TokenUtilityProperties.FormulaRollsNine` | modules/utils/token.js:81-96 | Formula `2d6+3` rolling 9 with the hide setting on gives three calls: evaluate, a `gmroll` chat message, then an update to 9/9. |
| `TokenUtilityProperties.OtherUsersEventIgnored` | modules/utils/token.js:20 | An event raised by another user's client makes no host call. |

## Left out

- StoredFormula, StoredMax: read the HP formula and maximum of a null actor
  as undefined, which is what `getProperty` is assumed to return there.
  That helper belongs to the host and is not part of this model; if it
  throws instead, `RollHP` with no actor would end in that error rather
  than return 0 (`FallbackToStoredMax` states the assumed behaviour). The
  handler never reaches this case, since it only rolls when an actor exists.

- Dice evaluation (`new Roll`, `roll.evaluate`) is the host's engine. It is
  the `dice` parameter, and its totals are integers. Fractional and NaN
  totals are not modelled.
- Chat output (`roll.toMessage`, `ChatMessage.getSpeaker`) is recorded only
  as a `PostChat` call carrying the flavor text, roll mode and total. The
  speaker is not recorded.
- `MightySummoner._checkForFeat` and `MightySummoner._createDialog` are not
  part of this model. The feat check is the actor's `hasSummonerFeat`
  boolean. The dialog is the `OpenSummonDialog` call, and what it does next
  is not modelled.
- `Sidekick.getSetting`, `token.getFlag` and `getProperty` are host storage.
  Their values are inputs. Settings and flags enter as their truthiness.
- `token.update` persistence is recorded as the `UpdateToken` call. Its
  effect on the stored document is not modelled.
- A rejected `token.update` or `roll.toMessage` is not modelled. Those calls
  always succeed in the model.
- `async`/`await` sequencing is host-driven event dispatch. The trace keeps
  only the order of the calls.
- The promise values the handler returns (`_createDialog`'s and
  `token.update`'s results) are not modelled. Every run that does not throw
  returns `()`.
