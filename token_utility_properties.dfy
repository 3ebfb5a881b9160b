/**
 * Properties of the token-creation hook that relate several runs of it,
 * and the worked cases of its behaviour.
 */
module TokenUtilityProperties {
  import opened Js
  import opened TokenUtility

  /** Once the dialog is due, the handler opens it and nothing else, whatever
      the disposition, the player ownership, the auto-roll settings and the
      dice engine (none of which the requires mentions): the dialog is
      checked before the roll. */
  lemma DialogPrecedesAutoRoll(token: Token, settings: Settings, user: User, userId: string,
                               dice: JsValue -> RollOutcome)
    requires !Ignored(token, settings, user, userId) && DialogDue(token, settings, user)
    ensures OnCreateToken(token, settings, user, userId, dice) == Run([OpenSummonDialog], Returned(()))
    ensures Count(OnCreateToken(token, settings, user, userId, dice).calls, UpdateCall) == 0
  {
  }

  /** A temporary combatant, while temporary combatants are enabled, is left
      alone even when every auto-roll condition holds. */
  lemma TemporaryCombatantIgnored(token: Token, settings: Settings, user: User, userId: string,
                                  dice: JsValue -> RollOutcome)
    requires settings.tempCombatantsEnable && token.temporaryCombatant
    ensures Decide(token, settings, user, userId) == NoAction
    ensures OnCreateToken(token, settings, user, userId, dice).calls == []
  {
  }

  /** With no truthy override and no truthy stored formula, rollHP returns
      the stored maximum, or 0 when it is nullish, makes no host call, and
      does not depend on the dice engine or the hide setting. */
  lemma FallbackToStoredMax(actor: Option<Actor>, newFormula: JsValue, hideAutoRoll: bool, hideAutoRoll': bool,
                            dice: JsValue -> RollOutcome, dice': JsValue -> RollOutcome)
    requires !Truthy(newFormula) && !Truthy(StoredFormula(actor))
    ensures RollHP(actor, newFormula, hideAutoRoll, dice).calls == []
    ensures RollHP(actor, newFormula, hideAutoRoll, dice).outcome ==
              Returned(if Nullish(StoredMax(actor)) then Num(0) else StoredMax(actor))
    ensures RollHP(actor, newFormula, hideAutoRoll, dice) == RollHP(actor, newFormula, hideAutoRoll', dice')
  {
  }

  /** With a formula and an actor, rollHP returns the dice engine's total
      for that formula and announces it once, in the `gmroll` mode exactly
      when the hide setting is on. */
  lemma RolledTotal(actor: Actor, newFormula: JsValue, hideAutoRoll: bool, dice: JsValue -> RollOutcome)
    requires Truthy(HPFormula(Some(actor), newFormula))
    requires dice(HPFormula(Some(actor), newFormula)).Total?
    ensures var r := RollHP(Some(actor), newFormula, hideAutoRoll, dice);
            var total := dice(HPFormula(Some(actor), newFormula)).total;
            && r.outcome == Returned(Num(total))
            && |r.calls| == 2
            && r.calls[0] == EvaluateRoll(HPFormula(Some(actor), newFormula))
            && r.calls[1].PostChat? && r.calls[1].total == total
            && r.calls[1].flavor == actor.name + " rolls for HP!"
            && (r.calls[1].rollMode == "gmroll" <==> hideAutoRoll)
            && (r.calls[1].rollMode == "roll" <==> !hideAutoRoll)
  {
  }

  /** A formula the dice engine rejects ends the handler with that error,
      before any chat message or update. */
  lemma MalformedFormulaStopsHandler(token: Token, settings: Settings, user: User, userId: string,
                                     dice: JsValue -> RollOutcome)
    requires Decide(token, settings, user, userId) == AutoRollHP
    requires Truthy(StoredFormula(token.actor)) && dice(StoredFormula(token.actor)).Malformed?
    ensures var r := OnCreateToken(token, settings, user, userId, dice);
            && r.outcome == Threw(InvalidFormula(StoredFormula(token.actor)))
            && r.calls == [EvaluateRoll(StoredFormula(token.actor))]
  {
  }

  /** The payloads _buildHPData yields are exactly the full-health ones,
      and it loses nothing of the HP it is given. */
  lemma BuildHPDataImage(p: HPData, hp: JsValue, hp': JsValue)
    ensures FullHealth(p) <==> p == BuildHPData(HpOf(p).value)
    ensures BuildHPData(hp) == BuildHPData(hp') <==> hp == hp'
  {
  }

  /** An HP of 0 is falsy, yet the guard of _processHPUpdate tests the
      payload, which is an object, so the token is still updated, once,
      with value and max 0. */
  lemma ZeroHPIsStillWritten(token: Token, actor: Option<Actor>, formula: JsValue, hideAutoRoll: bool,
                             dice: JsValue -> RollOutcome)
    requires RollHP(if actor.Some? then actor else token.actor, formula, hideAutoRoll, dice).outcome == Returned(Num(0))
    ensures !Truthy(Num(0)) && Truthy(AsJs(BuildHPData(Num(0))))
    ensures var r := ProcessHPUpdate(token, actor, formula, hideAutoRoll, dice);
            && Count(r.calls, UpdateCall) == 1
            && r.calls[|r.calls| - 1] == UpdateToken(BuildHPData(Num(0)))
  {
  }

  // ---------------------------------------------------------------------
  // Worked cases
  // ---------------------------------------------------------------------

  function HostileToken(actor: Actor): Token {
    Token(Some(actor), Hostile, false)
  }

  const AutoRollOn := Settings(false, false, true, true, false)
  const Gm := User("gm", true)

  /** No formula and a stored maximum of 15: the token is set to 15/15
      without a roll or a chat message. */
  lemma StoredMaxFifteen(dice: JsValue -> RollOutcome)
    ensures var actor := Actor("Goblin", Str(""), Num(15), false, false);
            OnCreateToken(HostileToken(actor), AutoRollOn, Gm, "gm", dice)
              == Run([UpdateToken(BuildHPData(Num(15)))], Returned(()))
  {
  }

  /** Formula "2d6+3" rolling 9: one hidden announcement, then 9/9. */
  lemma FormulaRollsNine(dice: JsValue -> RollOutcome)
    requires dice(Str("2d6+3")) == Total(9)
    ensures var actor := Actor("Ogre", Str("2d6+3"), Num(15), false, false);
            OnCreateToken(HostileToken(actor), AutoRollOn, Gm, "gm", dice)
              == Run([EvaluateRoll(Str("2d6+3")), PostChat("Ogre rolls for HP!", "gmroll", 9),
                      UpdateToken(BuildHPData(Num(9)))], Returned(()))
  {
    assert Flavor("Ogre") == "Ogre rolls for HP!";
    var rolled := [EvaluateRoll(Str("2d6+3")), PostChat("Ogre rolls for HP!", "gmroll", 9)];
    assert rolled + [UpdateToken(BuildHPData(Num(9)))]
        == [EvaluateRoll(Str("2d6+3")), PostChat("Ogre rolls for HP!", "gmroll", 9), UpdateToken(BuildHPData(Num(9)))];
  }

  /** A token created by another user's client is never handled here. */
  lemma OtherUsersEventIgnored(dice: JsValue -> RollOutcome)
    ensures var actor := Actor("Ogre", Str("2d6+3"), Num(15), false, false);
            OnCreateToken(HostileToken(actor), AutoRollOn, Gm, "player", dice) == Run([], Returned(()))
  {
  }
}
