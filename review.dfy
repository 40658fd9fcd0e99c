/**
 * The review workflow shared by timesheets and expense reports: a record is
 * edited while DRAFT or RETURNED, submitted for review, then approved or
 * returned for revision.  Both models declare the same four statuses and
 * the same guarded transitions; this module states them once as a
 * transition function that the two classes are proved against.
 */
module Review {
  import opened Wrappers

  /** A timestamp from `timezone.now()`, passed in by the caller. */
  type Instant = int

  /** The primary key of a user. */
  type UserId = nat

  /** `Status`: DRAFT, SUBMITTED, APPROVED, RETURNED. */
  datatype Status = Draft | Submitted | Approved | Returned

  /** The three review actions. */
  datatype Action = Submit | Approve | ReturnForRevision

  /** `status in (DRAFT, RETURNED)`: the statuses in which the owner may edit. */
  predicate EditableStatus(s: Status) {
    s == Draft || s == Returned
  }

  /** `is_editable`: an editable status and an unlocked period. */
  predicate IsEditable(s: Status, locked: bool) {
    EditableStatus(s) && !locked
  }

  /**
   * The status after `action`, or `None` where the model raises
   * `ValidationError`: submitting needs an editable record, approving and
   * returning need a submitted one.
   */
  function Transition(s: Status, locked: bool, action: Action): (r: Option<Status>)
    ensures r.Some? ==> r.value != s
    ensures action == Submit ==> (r.Some? <==> IsEditable(s, locked)) && (r.Some? ==> r.value == Submitted)
    ensures action == Approve ==> (r.Some? <==> s == Submitted) && (r.Some? ==> r.value == Approved)
    ensures action == ReturnForRevision ==> (r.Some? <==> s == Submitted) && (r.Some? ==> r.value == Returned)
  {
    match action
    case Submit => if IsEditable(s, locked) then Some(Submitted) else None
    case Approve => if s == Submitted then Some(Approved) else None
    case ReturnForRevision => if s == Submitted then Some(Returned) else None
  }

  /** The status after a run of actions; an action that raises leaves the status as it was. */
  function Run(s: Status, locked: bool, actions: seq<Action>): Status
    decreases |actions|
  {
    if actions == [] then s
    else
      var t := Transition(s, locked, actions[0]);
      Run(if t.Some? then t.value else s, locked, actions[1..])
  }

  /** No action leaves APPROVED. */
  lemma {:induction false} ApprovedIsFinal(locked: bool, actions: seq<Action>)
    ensures Run(Approved, locked, actions) == Approved
    decreases |actions|
  {
    if actions != [] {
      ApprovedIsFinal(locked, actions[1..]);
    }
  }

  /** While the period is locked, a DRAFT or RETURNED record can never be submitted, so it keeps its status. */
  lemma {:induction false} LockedStaysPut(s: Status, actions: seq<Action>)
    requires EditableStatus(s)
    ensures Run(s, true, actions) == s
    decreases |actions|
  {
    if actions != [] {
      LockedStaysPut(s, actions[1..]);
    }
  }

  /**
   * Approval is reached only through submission: a run that starts in an
   * editable status and ends APPROVED contains a SUBMIT action.
   */
  lemma {:induction false} ApprovalNeedsSubmit(s: Status, locked: bool, actions: seq<Action>)
    requires EditableStatus(s)
    requires Run(s, locked, actions) == Approved
    ensures Submit in actions
    decreases |actions|
  {
    if actions == [] {
      assert false;
    } else if actions[0] == Submit {
    } else {
      ApprovalNeedsSubmit(s, locked, actions[1..]);
      assert actions == [actions[0]] + actions[1..];
    }
  }
}
