/**
 * Actions a handler result carries (src/action/index.ts and the action
 * classes it re-exports), told apart by their `type` tag.
 */
module Actions {
  import opened Wrappers
  import opened Values
  import opened States
  import opened Types

  /** A reply message (`any`): the built-in routes reply with a state, handlers with data. */
  datatype Payload = OfState(state: State) | OfValue(value: Value)

  datatype Action =
    | StateTimeoutAction(time: Timeout)
    | EventTimeoutAction(time: Timeout)
    | GenericTimeoutAction(time: Timeout, name: Option<string>)
    | ReplyAction(from: string, reply: Payload)
    | NextEventAction(eventType: string, context: Option<EventContext>, extra: Value)
    | PostponeAction
    | EmitAction(event: string, args: seq<Value>)
    /** An action of some other class, whose tag is none of the seven above. */
    | OtherAction(tag: string)

  /** The `type` field of an action. */
  function Tag(a: Action): string
  {
    match a
    case StateTimeoutAction(_) => "stateTimeout"
    case EventTimeoutAction(_) => "eventTimeout"
    case GenericTimeoutAction(_, _) => "genericTimeout"
    case ReplyAction(_, _) => "reply"
    case NextEventAction(_, _, _) => "nextEvent"
    case PostponeAction => "postpone"
    case EmitAction(_, _) => "emit"
    case OtherAction(t) => t
  }

  const KnownTags: set<string> :=
    {"stateTimeout", "eventTimeout", "genericTimeout", "reply", "nextEvent", "postpone", "emit"}

  /** An action whose tag matches its class: the foreign ones carry foreign tags. */
  predicate WellTagged(a: Action)
  {
    !a.OtherAction? || a.tag !in KnownTags
  }

  type Act = a: Action | WellTagged(a) witness PostponeAction

  predicate IsStateTimeoutAction(a: Action) { Tag(a) == "stateTimeout" }
  predicate IsEventTimeoutAction(a: Action) { Tag(a) == "eventTimeout" }
  predicate IsGenericTimeoutAction(a: Action) { Tag(a) == "genericTimeout" }
  predicate IsReplyAction(a: Action) { Tag(a) == "reply" }
  predicate IsNextEventAction(a: Action) { Tag(a) == "nextEvent" }
  predicate IsPostponeAction(a: Action) { Tag(a) == "postpone" }
  predicate IsEmitAction(a: Action) { Tag(a) == "emit" }

  /** How many of the seven tag predicates hold of `a`. */
  function TagMatches(a: Action): nat
  {
    (if IsStateTimeoutAction(a) then 1 else 0) + (if IsEventTimeoutAction(a) then 1 else 0) +
    (if IsGenericTimeoutAction(a) then 1 else 0) + (if IsReplyAction(a) then 1 else 0) +
    (if IsNextEventAction(a) then 1 else 0) + (if IsPostponeAction(a) then 1 else 0) +
    (if IsEmitAction(a) then 1 else 0)
  }

  /** The seven predicates are pairwise exclusive, and an unknown tag satisfies none of them. */
  lemma TagPredicatesExclusive(a: Action)
    ensures TagMatches(a) <= 1
    ensures TagMatches(a) == 0 <==> Tag(a) !in KnownTags
  {
  }

  /** For a well-tagged action each predicate identifies exactly its own class. */
  lemma TagPredicatesIdentifyClass(a: Act)
    ensures IsStateTimeoutAction(a) <==> a.StateTimeoutAction?
    ensures IsEventTimeoutAction(a) <==> a.EventTimeoutAction?
    ensures IsGenericTimeoutAction(a) <==> a.GenericTimeoutAction?
    ensures IsReplyAction(a) <==> a.ReplyAction?
    ensures IsNextEventAction(a) <==> a.NextEventAction?
    ensures IsPostponeAction(a) <==> a.PostponeAction?
    ensures IsEmitAction(a) <==> a.EmitAction?
  {
  }
}
