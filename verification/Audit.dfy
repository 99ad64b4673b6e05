/**
 * Replaying a card's audit trail.
 *
 * `View` is the part of a card that the trail must explain. `Apply` says what one event means for it, and
 * `Explains` what the event claims about the state it was written in.
 */
module Audit {
  import opened Wrappers
  import opened Domain

  datatype View = View(
    lane: LaneKey,
    resolution: Option<Resolution>,
    blocked: bool,
    blockedReason: Option<string>,
    archived: bool,
    title: string,
    description: string,
    priority: Priority,
    estimate: Option<nat>,
    assignee: Option<UserId>,
    tags: set<string>)

  function ViewOf(card: Card, lane: LaneKey, tags: set<string>): View {
    View(lane, card.resolution, card.blocked, card.blockedReason, card.archivedAt.Some?, card.title, card.description,
         card.priority, card.estimate, card.assignee, tags)
  }

  function ApplyChange(v: View, c: FieldChange): View {
    match c
    case TitleChange(_, to) => v.(title := to)
    case DescriptionChange(_, to) => v.(description := to)
    case PriorityChange(_, to) => v.(priority := to)
    case EstimateChange(_, to) => v.(estimate := to)
    case AssigneeChange(_, to) => v.(assignee := to)
    case TagsChange(_, to) => v.(tags := to)
    case LocationChange(_, _) => v
    case ReasonChange(_, _) => v
    case ResumeChange(_, _) => v
  }

  function Apply(v: View, b: Body): View {
    match b
    case Created(_, _) => v
    case StatusChanged(from, to, _, _) =>
      v.(lane := to,
         resolution := if from == Done then None else if to == Done then Some(Completed) else v.resolution)
    case Reordered(_, _, _) => v
    case FieldChanged(change) => ApplyChange(v, change)
    case BlockRaised(reason) => v.(blocked := true, blockedReason := Some(reason))
    case BlockCleared => v.(blocked := false, blockedReason := None)
    case CardCancelled(record) => v.(lane := Done, resolution := Some(record.resolution))
    case Reopened(to) => v.(lane := to, resolution := None, archived := false)
    case CardArchived => v.(archived := true)
    case Noted => v
  }

  /** The old value recorded by the event is the value the trail so far leads to. */
  predicate ChangeExplains(v: View, c: FieldChange) {
    match c
    case TitleChange(from, to) => from == v.title && from != to
    case DescriptionChange(from, to) => from == v.description && from != to
    case PriorityChange(from, to) => from == v.priority && from != to
    case EstimateChange(from, to) => from == v.estimate && from != to
    case AssigneeChange(from, to) => from == v.assignee && from != to
    case TagsChange(from, to) => from == v.tags && from != to
    case LocationChange(from, to) => from != to
    case ReasonChange(from, to) => v.lane == WaitingPartsVendor && from != to
    case ResumeChange(from, to) => v.lane == WaitingPartsVendor && from != to
  }

  predicate Explains(v: View, b: Body) {
    match b
    case Created(_, _) => false
    case StatusChanged(from, to, _, _) => from == v.lane && from != to && !v.archived
    case Reordered(lane, _, _) => lane == v.lane && !v.archived
    case FieldChanged(change) => ChangeExplains(v, change) && !v.archived
    case BlockRaised(_) => !v.blocked && !v.archived
    case BlockCleared => v.blocked && !v.archived
    case CardCancelled(record) =>
      record.priorLane == v.lane && v.lane != Done && record.resolution != Completed && !v.archived
    case Reopened(_) => v.lane == Done
    case CardArchived => v.lane == Done && !v.archived
    case Noted => !v.archived
  }

  /** A trail as the service writes it: one creation first, then only events that explain themselves. */
  predicate Coherent(keyAtBirth: LaneKey, log: seq<Event>) {
    && |log| > 0
    && log[0].body.Created?
    && (|log| > 1 ==> Coherent(keyAtBirth, log[..|log| - 1])
                      && Explains(Replay(keyAtBirth, log[..|log| - 1]), log[|log| - 1].body))
  }

  function Replay(keyAtBirth: LaneKey, log: seq<Event>): View
    requires |log| > 0 && log[0].body.Created?
  {
    if |log| == 1 then ViewOf(log[0].body.snapshot, keyAtBirth, log[0].body.tags)
    else Apply(Replay(keyAtBirth, log[..|log| - 1]), log[|log| - 1].body)
  }

  lemma AppendOne(keyAtBirth: LaneKey, log: seq<Event>, e: Event)
    requires Coherent(keyAtBirth, log)
    requires Explains(Replay(keyAtBirth, log), e.body)
    ensures Coherent(keyAtBirth, log + [e])
    ensures Replay(keyAtBirth, log + [e]) == Apply(Replay(keyAtBirth, log), e.body)
  {
    assert (log + [e])[..|log|] == log;
  }

  // ---- Several events of one command ----

  function ApplyAll(v: View, bodies: seq<Body>): View {
    if bodies == [] then v else Apply(ApplyAll(v, bodies[..|bodies| - 1]), bodies[|bodies| - 1])
  }

  predicate ExplainsAll(v: View, bodies: seq<Body>) {
    bodies == []
    || (ExplainsAll(v, bodies[..|bodies| - 1]) && Explains(ApplyAll(v, bodies[..|bodies| - 1]), bodies[|bodies| - 1]))
  }

  function Stamp(first: EventId, now: Time, bodies: seq<Body>): seq<Event> {
    seq(|bodies|, i requires 0 <= i < |bodies| => Event(first + i, now, bodies[i]))
  }

  lemma {:induction false} AppendAll(keyAtBirth: LaneKey, log: seq<Event>, first: EventId, now: Time, bodies: seq<Body>)
    requires Coherent(keyAtBirth, log)
    requires ExplainsAll(Replay(keyAtBirth, log), bodies)
    ensures Coherent(keyAtBirth, log + Stamp(first, now, bodies))
    ensures Replay(keyAtBirth, log + Stamp(first, now, bodies)) == ApplyAll(Replay(keyAtBirth, log), bodies)
    decreases |bodies|
  {
    if bodies == [] {
      assert log + Stamp(first, now, bodies) == log;
    } else {
      var n := |bodies| - 1;
      AppendAll(keyAtBirth, log, first, now, bodies[..n]);
      var front := log + Stamp(first, now, bodies[..n]);
      var last := Event(first + n, now, bodies[n]);
      AppendOne(keyAtBirth, front, last);
      assert log + Stamp(first, now, bodies) == front + [last];
    }
  }

  lemma ApplyOneMore(v: View, bodies: seq<Body>, b: Body)
    requires ExplainsAll(v, bodies) && Explains(ApplyAll(v, bodies), b)
    ensures ExplainsAll(v, bodies + [b]) && ApplyAll(v, bodies + [b]) == Apply(ApplyAll(v, bodies), b)
  {
    assert (bodies + [b])[..|bodies|] == bodies;
  }
}
