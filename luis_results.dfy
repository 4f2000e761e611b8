/**
 * LUISResultHandler: picks at most one UnityEvent to invoke for a LUIS
 * result by first-match searches over the configured actions, the result's
 * entities and the configured targets. GameObjects and the events bound in
 * the inspector are opaque ids; the gazed object is a parameter.
 */
module LuisResults {
  import opened Results
  import opened Luis

  type ObjectId = nat
  type ResponseId = nat

  /** LUISAction: the intent to match, the entity type whose entity is
      passed on, and the event to invoke (null is None). */
  datatype LuisAction = LuisAction(topScoringIntent: string, entityType: string, response: Option<ResponseId>)

  /** LUISTarget: a GameObject (null is None) and the entity name it
      answers to. */
  datatype LuisTarget = LuisTarget(target: Option<ObjectId>, entityName: string)

  /** The handler's serialized fields; null lists are None. */
  datatype HandlerConfig = HandlerConfig(
    entityTargetType: string,
    targets: Option<seq<LuisTarget>>,
    globalScope: bool,
    actions: Option<seq<LuisAction>>)

  /** Response.Invoke(target, entity). */
  datatype Invocation = Invocation(response: ResponseId, target: Option<ObjectId>, entity: LuisEntity)

  const ThisTargetSynonyms: seq<string> := ["this", "that", "it", "target", "object", "thing"]

  /** StringComparison.OrdinalIgnoreCase folds letters to upper case; only
      the ASCII letters are folded here. */
  function UpperAscii(c: char): (r: char)
    ensures 'a' <= c <= 'z' ==> r as int == c as int - 32
    ensures !('a' <= c <= 'z') ==> r == c
  {
    if 'a' <= c <= 'z' then (c as int - 32) as char else c
  }

  predicate EqualsIgnoreCase(a: string, b: string) {
    |a| == |b| && forall i :: 0 <= i < |a| ==> UpperAscii(a[i]) == UpperAscii(b[i])
  }

  lemma EqualsIgnoreCaseIsEquivalence(a: string, b: string, c: string)
    ensures EqualsIgnoreCase(a, a)
    ensures EqualsIgnoreCase(a, b) ==> EqualsIgnoreCase(b, a)
    ensures EqualsIgnoreCase(a, b) && EqualsIgnoreCase(b, c) ==> EqualsIgnoreCase(a, c)
  {
  }

  /** The index of the first element satisfying p: a foreach that breaks
      at the first match. */
  function FirstIndex<T>(xs: seq<T>, p: T -> bool): (r: Option<nat>)
    ensures r.Some? ==> r.value < |xs| && p(xs[r.value])
    ensures r.Some? ==> forall j :: 0 <= j < r.value ==> !p(xs[j])
    ensures r.None? <==> forall j :: 0 <= j < |xs| ==> !p(xs[j])
  {
    if xs == [] then None
    else if p(xs[0]) then Some(0)
    else
      match FirstIndex(xs[1..], p)
      case None => None
      case Some(i) => Some(i + 1)
  }

  /** Some element of xs equals s ignoring case. */
  predicate AnyEqualsIgnoreCase(xs: seq<string>, s: string) {
    exists i :: 0 <= i < |xs| && EqualsIgnoreCase(xs[i], s)
  }

  /** The entity has the type, or lists it among its resolution values. */
  predicate EntityMatches(e: LuisEntity, entityType: string) {
    EqualsIgnoreCase(e.entityType, entityType)
    || (e.resolution.Some? && AnyEqualsIgnoreCase(e.resolution.value, entityType))
  }

  /** The first entity of the result that matches the type. */
  function GetEntityFromLUISResult(result: LuisResult, entityType: string): (r: Option<LuisEntity>)
    ensures r.None? <==> forall i :: 0 <= i < |result.entities| ==> !EntityMatches(result.entities[i], entityType)
    ensures r.Some? ==> exists i :: (0 <= i < |result.entities| && result.entities[i] == r.value
      && EntityMatches(r.value, entityType)
      && forall j :: 0 <= j < i ==> !EntityMatches(result.entities[j], entityType))
  {
    match FirstIndex(result.entities, e => EntityMatches(e, entityType))
    case None => None
    case Some(i) => Some(result.entities[i])
  }

  predicate IntentMatches(a: LuisAction, intent: string) {
    EqualsIgnoreCase(a.topScoringIntent, intent)
  }

  /** The first action whose intent is the result's top scoring intent. */
  function FindAction(actions: seq<LuisAction>, intent: string): (r: Option<LuisAction>)
    ensures r.None? <==> forall i :: 0 <= i < |actions| ==> !IntentMatches(actions[i], intent)
    ensures r.Some? ==> exists i :: (0 <= i < |actions| && actions[i] == r.value
      && IntentMatches(r.value, intent)
      && forall j :: 0 <= j < i ==> !IntentMatches(actions[j], intent))
  {
    match FirstIndex(actions, a => IntentMatches(a, intent))
    case None => None
    case Some(i) => Some(actions[i])
  }

  /** The target entity names the gazed object. */
  predicate IsThisTarget(entity: string) {
    AnyEqualsIgnoreCase(ThisTargetSynonyms, entity)
  }

  /** A named target answers to the entity's text or one of its
      resolution values. */
  predicate TargetMatches(t: LuisTarget, e: LuisEntity) {
    EqualsIgnoreCase(t.entityName, e.entity)
    || (e.resolution.Some? && AnyEqualsIgnoreCase(e.resolution.value, t.entityName))
  }

  /** A null Response invokes nothing. */
  function PerformAction(action: LuisAction, target: Option<ObjectId>, entity: LuisEntity): (r: Option<Invocation>)
    ensures r.Some? <==> action.response.Some?
    ensures r.Some? ==> r.value == Invocation(action.response.value, target, entity)
  {
    match action.response
    case None => None
    case Some(response) => Some(Invocation(response, target, entity))
  }

  /** Where the action goes once the action, the target entity and the
      property entity are found. */
  function ChooseTarget(config: HandlerConfig, targets: seq<LuisTarget>, action: LuisAction,
                        targetEntity: LuisEntity, property: LuisEntity, gazed: Option<ObjectId>): Option<Invocation>
  {
    if IsThisTarget(targetEntity.entity) then
      if gazed.None? then None
      else if config.globalScope then PerformAction(action, gazed, property)
      else
        match FirstIndex(targets, (t: LuisTarget) => t.target == gazed)
        case None => None
        case Some(i) => PerformAction(action, targets[i].target, property)
    else
      match FirstIndex(targets, t => TargetMatches(t, targetEntity))
      case None => None
      case Some(i) => PerformAction(action, targets[i].target, property)
  }

  /** The one invocation, if any, that a LUIS result produces. */
  function OnLUISQueryResult(config: HandlerConfig, result: LuisResult, gazed: Option<ObjectId>): (r: Option<Invocation>)
    ensures config.targets.None? || config.actions.None? ==> r.None?
    ensures config.actions.Some? && FindAction(config.actions.value, result.topScoringIntent).None? ==> r.None?
    ensures r.Some? ==>
      var action := FindAction(config.actions.value, result.topScoringIntent);
      && action.Some? && action.value.response == Some(r.value.response)
      && GetEntityFromLUISResult(result, config.entityTargetType).Some?
      && GetEntityFromLUISResult(result, action.value.entityType) == Some(r.value.entity)
  {
    if config.targets.None? || config.actions.None? then None
    else
      match FindAction(config.actions.value, result.topScoringIntent)
      case None => None
      case Some(action) =>
        match GetEntityFromLUISResult(result, config.entityTargetType)
        case None => None
        case Some(targetEntity) =>
          match GetEntityFromLUISResult(result, action.entityType)
          case None => None
          case Some(property) =>
            ChooseTarget(config, config.targets.value, action, targetEntity, property, gazed)
  }

  /** A "this" target entity sends the action to the gazed object, with or
      without GlobalScope; without GlobalScope only if that object is a
      registered target. */
  lemma ThisTargetGoesToGaze(config: HandlerConfig, result: LuisResult, gazed: Option<ObjectId>)
    requires config.targets.Some? && config.actions.Some?
    requires GetEntityFromLUISResult(result, config.entityTargetType).Some?
    requires IsThisTarget(GetEntityFromLUISResult(result, config.entityTargetType).value.entity)
    ensures var r := OnLUISQueryResult(config, result, gazed);
      r.Some? ==> (gazed.Some? && r.value.target == gazed
        && (config.globalScope || exists i :: 0 <= i < |config.targets.value| && config.targets.value[i].target == gazed))
  {
    var targets := config.targets.value;
    var r := OnLUISQueryResult(config, result, gazed);
    if r.Some? && !config.globalScope {
      var i := FirstIndex(targets, (t: LuisTarget) => t.target == gazed);
      assert i.Some?;
      assert targets[i.value].target == gazed;
    }
  }

  /** Any other target entity sends the action to the first named target
      that answers to it, and only if there is one. */
  lemma NamedTargetIsFirstMatch(config: HandlerConfig, result: LuisResult, gazed: Option<ObjectId>)
    requires config.targets.Some? && config.actions.Some?
    requires GetEntityFromLUISResult(result, config.entityTargetType).Some?
    requires !IsThisTarget(GetEntityFromLUISResult(result, config.entityTargetType).value.entity)
    ensures var e := GetEntityFromLUISResult(result, config.entityTargetType).value;
      var targets := config.targets.value;
      var r := OnLUISQueryResult(config, result, gazed);
      r.Some? ==> exists i :: (0 <= i < |targets| && r.value.target == targets[i].target
        && TargetMatches(targets[i], e)
        && forall j :: 0 <= j < i ==> !TargetMatches(targets[j], e))
  {
    var e := GetEntityFromLUISResult(result, config.entityTargetType).value;
    var targets := config.targets.value;
    var r := OnLUISQueryResult(config, result, gazed);
    if r.Some? {
      var i := FirstIndex(targets, t => TargetMatches(t, e));
      assert i.Some?;
      assert r.value.target == targets[i.value].target;
    }
  }

  /** When every search succeeds and the event is bound, exactly one
      invocation happens. */
  lemma EverySearchSucceeds(config: HandlerConfig, result: LuisResult, gazed: Option<ObjectId>)
    requires config.targets.Some? && config.actions.Some?
    requires FindAction(config.actions.value, result.topScoringIntent).Some?
    requires FindAction(config.actions.value, result.topScoringIntent).value.response.Some?
    requires GetEntityFromLUISResult(result, config.entityTargetType).Some?
    requires GetEntityFromLUISResult(result, FindAction(config.actions.value, result.topScoringIntent).value.entityType).Some?
    requires var e := GetEntityFromLUISResult(result, config.entityTargetType).value;
      if IsThisTarget(e.entity) then
        gazed.Some? && (config.globalScope || exists i :: 0 <= i < |config.targets.value| && config.targets.value[i].target == gazed)
      else
        exists i :: 0 <= i < |config.targets.value| && TargetMatches(config.targets.value[i], e)
    ensures OnLUISQueryResult(config, result, gazed).Some?
  {
    var e := GetEntityFromLUISResult(result, config.entityTargetType).value;
    var targets := config.targets.value;
    if IsThisTarget(e.entity) && !config.globalScope {
      var i :| 0 <= i < |targets| && targets[i].target == gazed;
      var f := (t: LuisTarget) => t.target == gazed;
      assert f(targets[i]);
    } else if !IsThisTarget(e.entity) {
      var i :| 0 <= i < |targets| && TargetMatches(targets[i], e);
      var f := (t: LuisTarget) => TargetMatches(t, e);
      assert f(targets[i]);
    }
  }

  /** "This", "IT" and "Object" are synonyms for the gazed object. */
  lemma ThisSynonymsIgnoreCase()
    ensures IsThisTarget("This") && IsThisTarget("IT") && IsThisTarget("Object")
    ensures !IsThisTarget("these")
  {
    assert EqualsIgnoreCase(ThisTargetSynonyms[0], "This");
    assert EqualsIgnoreCase(ThisTargetSynonyms[2], "IT");
    assert EqualsIgnoreCase(ThisTargetSynonyms[4], "Object");
    forall i | 0 <= i < |ThisTargetSynonyms|
      ensures !EqualsIgnoreCase(ThisTargetSynonyms[i], "these")
    {
      if |ThisTargetSynonyms[i]| == 5 {
        assert ThisTargetSynonyms[i] == "thing";
        assert "thing"[2] == 'i' && "these"[2] == 'e';
        assert UpperAscii('i') != UpperAscii('e');
      }
    }
  }
}
