/**
 * The token-creation automation of the module's TokenUtility class.
 *
 * When the host creates a token, the hook decides between doing nothing,
 * opening the Mighty Summoner dialog, and rolling the creature's hit
 * points automatically; an automatic roll resolves an HP number (from a
 * dice formula or the stored maximum), builds an update payload whose
 * `value` and `max` both equal it, and asks the host to update the token.
 *
 * Everything the hook does to the outside world goes through host calls.
 * The model returns those calls, in order, as a trace (`Run.calls`)
 * together with how the handler ended (`Run.outcome`); the host's dice
 * engine is a function parameter `dice`.
 */
module TokenUtility {
  import opened Js

  datatype Option<T> = None | Some(value: T)

  // ---------------------------------------------------------------------
  // What the hook reads from the host
  // ---------------------------------------------------------------------

  /** The actor behind a token. `hpFormula` and `hpMax` are the values at
      `system.attributes.hp.formula` and `system.attributes.hp.max`.
      `hasSummonerFeat` is the answer of the Mighty Summoner feat check for
      the configured feat, which this model treats as opaque. */
  datatype Actor = Actor(
    name: string,
    hpFormula: JsValue,
    hpMax: JsValue,
    hasPlayerOwner: bool,
    hasSummonerFeat: bool)

  /** A token: its actor (absent is `None`), its disposition and the
      truthiness of its temporary-combatant flag. */
  datatype Token = Token(actor: Option<Actor>, disposition: int, temporaryCombatant: bool)

  /** The truthiness of each module setting the hook reads. */
  datatype Settings = Settings(
    mightySummoner: bool,
    mightySummonerPromptGm: bool,
    autoRollHP: bool,
    hideAutoRoll: bool,
    tempCombatantsEnable: bool)

  /** The user of this client session (`game.userId`, `game.user.isGM`). */
  datatype User = User(id: string, isGM: bool)

  /** The host's token disposition for a hostile creature. */
  const Hostile: int := -1

  // ---------------------------------------------------------------------
  // What the hook does to the host
  // ---------------------------------------------------------------------

  /** The HP part of the update payload, and the nesting it is written
      under: `actorData.data.attributes.hp`. */
  datatype HpPatch = HpPatch(value: JsValue, max: JsValue)
  datatype AttributesPatch = AttributesPatch(hp: HpPatch)
  datatype DataPatch = DataPatch(attributes: AttributesPatch)
  datatype ActorDataPatch = ActorDataPatch(data: DataPatch)
  datatype HPData = HPData(actorData: ActorDataPatch)

  /** One call into the host, in the order the hook makes them. */
  datatype HostCall =
    | EvaluateRoll(formula: JsValue)                          // new Roll(formula).evaluate()
    | PostChat(flavor: string, rollMode: string, total: int)  // roll.toMessage(...)
    | OpenSummonDialog                                        // MightySummoner._createDialog(token)
    | UpdateToken(payload: HPData)                            // token.update(payload)

  datatype CallKind = RollCall | ChatCall | DialogCall | UpdateCall

  /** What the dice engine makes of a formula: a total, or a rejection of a
      malformed formula. */
  datatype RollOutcome = Total(total: int) | Malformed

  /** An exception that leaves the handler: the dice engine's rejection,
      or the TypeError of reading `name` from a null actor. */
  datatype HostError = InvalidFormula(formula: JsValue) | ActorNameOfNull

  datatype Outcome<T> = Returned(value: T) | Threw(error: HostError)

  /** The host calls made, in order, and how the operation ended. */
  datatype Run<T> = Run(calls: seq<HostCall>, outcome: Outcome<T>)

  function KindOf(c: HostCall): CallKind {
    match c
    case EvaluateRoll(_) => RollCall
    case PostChat(_, _, _) => ChatCall
    case OpenSummonDialog => DialogCall
    case UpdateToken(_) => UpdateCall
  }

  /** The number of calls of kind `k` in a trace. */
  function Count(calls: seq<HostCall>, k: CallKind): (n: nat)
    ensures n <= |calls|
    ensures n == 0 <==> forall i :: 0 <= i < |calls| ==> KindOf(calls[i]) != k
  {
    if calls == [] then 0
    else (if KindOf(calls[0]) == k then 1 else 0) + Count(calls[1..], k)
  }

  /** Counting distributes over the concatenation of two traces. */
  lemma {:induction false} CountAppend(a: seq<HostCall>, b: seq<HostCall>, k: CallKind)
    ensures Count(a + b, k) == Count(a, k) + Count(b, k)
  {
    if a == [] {
      assert a + b == b;
    } else {
      assert (a + b)[1..] == a[1..] + b;
      CountAppend(a[1..], b, k);
    }
  }

  /** A trace of one call holds one call of that call's kind. */
  lemma CountSingle(c: HostCall, k: CallKind)
    ensures Count([c], k) == if KindOf(c) == k then 1 else 0
  {
  }

  // ---------------------------------------------------------------------
  // _onCreateToken / _shouldRollHP: the decision
  // ---------------------------------------------------------------------

  datatype Action = NoAction | PromptSummonDialog | AutoRollHP

  /** Whether the Mighty Summoner dialog may be shown to this user. */
  function ShouldPromptUser(isGM: bool, promptGm: bool): (r: bool)
    ensures r <==> !isGM || promptGm
  {
    if !isGM || (isGM && promptGm) then true else false
  }

  /** Whether this token's HP should be rolled automatically. */
  function ShouldRollHP(token: Token, settings: Settings): (r: bool)
    ensures r <==> token.actor.Some? && token.disposition == Hostile
                   && settings.autoRollHP && !token.actor.value.hasPlayerOwner
  {
    if token.actor.Some? && token.disposition == Hostile && settings.autoRollHP
       && !token.actor.value.hasPlayerOwner
    then true
    else false
  }

  /** The handler returns before reading anything else: no actor, a
      temporary combatant while those are enabled, or an event raised by
      another user's client. */
  predicate Ignored(token: Token, settings: Settings, user: User, userId: string) {
    token.actor.None? || (settings.tempCombatantsEnable && token.temporaryCombatant) || user.id != userId
  }

  /** The Mighty Summoner dialog is due: the setting is on, the actor has
      the feat, and this user is to be prompted. */
  predicate DialogDue(token: Token, settings: Settings, user: User) {
    && token.actor.Some?
    && settings.mightySummoner
    && token.actor.value.hasSummonerFeat
    && ShouldPromptUser(user.isGM, settings.mightySummonerPromptGm)
  }

  /** The three-way decision of the creation handler, checked in the
      handler's order: the early return, then the dialog, then the roll. */
  function Decide(token: Token, settings: Settings, user: User, userId: string): (a: Action)
    ensures Ignored(token, settings, user, userId) ==> a == NoAction
    ensures a == PromptSummonDialog <==> !Ignored(token, settings, user, userId) && DialogDue(token, settings, user)
    ensures a == AutoRollHP <==>
              !Ignored(token, settings, user, userId) && !DialogDue(token, settings, user) && ShouldRollHP(token, settings)
  {
    if token.actor.None? || (settings.tempCombatantsEnable && token.temporaryCombatant) || user.id != userId then
      NoAction
    else if settings.mightySummoner && token.actor.value.hasSummonerFeat
            && ShouldPromptUser(user.isGM, settings.mightySummonerPromptGm) then
      PromptSummonDialog
    else if ShouldRollHP(token, settings) then
      AutoRollHP
    else
      NoAction
  }

  // ---------------------------------------------------------------------
  // rollHP: resolving the HP number
  // ---------------------------------------------------------------------

  /** `getProperty(actor, "system.attributes.hp.formula")`; a null actor
      has no properties. */
  function StoredFormula(actor: Option<Actor>): JsValue {
    if actor.Some? then actor.value.hpFormula else Undefined
  }

  /** `getProperty(actor, "system.attributes.hp.max")`. */
  function StoredMax(actor: Option<Actor>): JsValue {
    if actor.Some? then actor.value.hpMax else Undefined
  }

  /** The formula rollHP rolls: the override when it is truthy, otherwise
      the stored formula. */
  function HPFormula(actor: Option<Actor>, newFormula: JsValue): (f: JsValue)
    ensures Truthy(newFormula) ==> f == newFormula
    ensures !Truthy(newFormula) ==> f == StoredFormula(actor)
    ensures Truthy(f) <==> Truthy(newFormula) || Truthy(StoredFormula(actor))
  {
    Or(newFormula, StoredFormula(actor))
  }

  /** The chat roll mode of the announcement. */
  function RollMode(hideAutoRoll: bool): (m: string)
    ensures m == "gmroll" <==> hideAutoRoll
    ensures m == "roll" <==> !hideAutoRoll
  {
    if hideAutoRoll then "gmroll" else "roll"
  }

  /** The flavor text of the announcement. */
  function Flavor(actorName: string): string {
    actorName + " rolls for HP!"
  }

  /** rollHP: with no formula, the stored maximum (0 when it is nullish),
      and no host call; with a formula, one evaluation by the dice engine,
      one chat announcement and the roll's total. */
  function RollHP(actor: Option<Actor>, newFormula: JsValue, hideAutoRoll: bool,
                  dice: JsValue -> RollOutcome): (r: Run<JsValue>)
    // the HP returned is never undefined or null
    ensures r.outcome.Returned? ==> !Nullish(r.outcome.value)
    // the dice engine is consulted exactly when a formula is chosen
    ensures Count(r.calls, RollCall) == if Truthy(HPFormula(actor, newFormula)) then 1 else 0
    // a chat message is posted exactly when a rolled total is returned
    ensures Count(r.calls, ChatCall) == if Truthy(HPFormula(actor, newFormula)) && r.outcome.Returned? then 1 else 0
    // rollHP itself never updates the token nor opens a dialog
    ensures Count(r.calls, UpdateCall) == 0 && Count(r.calls, DialogCall) == 0
  {
    var formula := HPFormula(actor, newFormula);
    if !Truthy(formula) then
      Run([], Returned(Coalesce(StoredMax(actor), Num(0))))
    else
      match dice(formula)
      case Malformed =>
        CountSingle(EvaluateRoll(formula), RollCall);
        Run([EvaluateRoll(formula)], Threw(InvalidFormula(formula)))
      case Total(total) =>
        if actor.None? then
          CountSingle(EvaluateRoll(formula), RollCall);
          Run([EvaluateRoll(formula)], Threw(ActorNameOfNull))
        else
          var chat := PostChat(Flavor(actor.value.name), RollMode(hideAutoRoll), total);
          CountAppend([EvaluateRoll(formula)], [chat], RollCall);
          CountAppend([EvaluateRoll(formula)], [chat], ChatCall);
          CountAppend([EvaluateRoll(formula)], [chat], UpdateCall);
          CountAppend([EvaluateRoll(formula)], [chat], DialogCall);
          CountSingle(EvaluateRoll(formula), RollCall);
          CountSingle(chat, ChatCall);
          CountSingle(chat, RollCall);
          CountSingle(EvaluateRoll(formula), ChatCall);
          assert [EvaluateRoll(formula)] + [chat] == [EvaluateRoll(formula), chat];
          Run([EvaluateRoll(formula), chat], Returned(Num(total)))
  }

  // ---------------------------------------------------------------------
  // _buildHPData and _processHPUpdate: the payload and the update
  // ---------------------------------------------------------------------

  /** The HP entry of a payload. */
  function HpOf(p: HPData): HpPatch {
    p.actorData.data.attributes.hp
  }

  /** A payload that sets the creature to full health. */
  predicate FullHealth(p: HPData) {
    HpOf(p).value == HpOf(p).max
  }

  /** _buildHPData: a payload setting both `value` and `max` to `hp`. */
  function BuildHPData(hp: JsValue): (p: HPData)
    ensures FullHealth(p) && HpOf(p).value == hp
  {
    HPData(ActorDataPatch(DataPatch(AttributesPatch(HpPatch(hp, hp)))))
  }

  /** Every payload is a JavaScript object. */
  function AsJs(p: HPData): JsValue {
    Object
  }

  /** _processHPUpdate: resolve the HP (the actor argument, or the token's
      actor when it is null), build the payload, and, past the guard on the
      payload, update the token with it. */
  function ProcessHPUpdate(token: Token, actor: Option<Actor>, formula: JsValue, hideAutoRoll: bool,
                           dice: JsValue -> RollOutcome): (r: Run<()>)
    ensures var rolled := RollHP(if actor.Some? then actor else token.actor, formula, hideAutoRoll, dice);
            && r.outcome.Returned? == rolled.outcome.Returned?
            && Count(r.calls, UpdateCall) == (if rolled.outcome.Returned? then 1 else 0)
            && (rolled.outcome.Returned? ==>
                  r.calls == rolled.calls + [UpdateToken(BuildHPData(rolled.outcome.value))])
            && (rolled.outcome.Threw? ==> r.calls == rolled.calls && r.outcome.error == rolled.outcome.error)
  {
    var who := if actor.Some? then actor else token.actor;
    var rolled := RollHP(who, formula, hideAutoRoll, dice);
    match rolled.outcome
    case Threw(e) => Run(rolled.calls, Threw(e))
    case Returned(newHP) =>
      var hpUpdate := BuildHPData(newHP);
      if !Truthy(AsJs(hpUpdate)) then
        Run(rolled.calls, Returned(()))
      else
        CountAppend(rolled.calls, [UpdateToken(hpUpdate)], UpdateCall);
        CountSingle(UpdateToken(hpUpdate), UpdateCall);
        Run(rolled.calls + [UpdateToken(hpUpdate)], Returned(()))
  }

  // ---------------------------------------------------------------------
  // _onCreateToken: the whole handler
  // ---------------------------------------------------------------------

  /** The token-creation hook: decide, then open the dialog or roll and
      update (`_processHPUpdate(token, actor)`, so no formula override). */
  function OnCreateToken(token: Token, settings: Settings, user: User, userId: string,
                         dice: JsValue -> RollOutcome): (r: Run<()>)
    ensures Ignored(token, settings, user, userId) ==> r == Run([], Returned(()))
    ensures Count(r.calls, UpdateCall) <= 1 && Count(r.calls, DialogCall) <= 1
    ensures Count(r.calls, DialogCall) == 1 <==> Decide(token, settings, user, userId) == PromptSummonDialog
    ensures Count(r.calls, UpdateCall) == 1 <==>
              Decide(token, settings, user, userId) == AutoRollHP
              && RollHP(token.actor, Null, settings.hideAutoRoll, dice).outcome.Returned?
    ensures Count(r.calls, DialogCall) == 0 || Count(r.calls, UpdateCall) == 0
    ensures Decide(token, settings, user, userId) == NoAction ==> r == Run([], Returned(()))
    ensures Decide(token, settings, user, userId) == PromptSummonDialog ==> r == Run([OpenSummonDialog], Returned(()))
    ensures Decide(token, settings, user, userId) == AutoRollHP ==>
              r == ProcessHPUpdate(token, token.actor, Null, settings.hideAutoRoll, dice)
  {
    match Decide(token, settings, user, userId)
    case NoAction => Run([], Returned(()))
    case PromptSummonDialog =>
      CountSingle(OpenSummonDialog, DialogCall);
      CountSingle(OpenSummonDialog, UpdateCall);
      Run([OpenSummonDialog], Returned(()))
    case AutoRollHP => ProcessHPUpdate(token, token.actor, Null, settings.hideAutoRoll, dice)
  }
}
