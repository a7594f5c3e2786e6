/** Plans and entitlements: internal/storage/auth/entitlement.go and `ImportSubscriptions`. */
module Entitlements {
  import opened Records
  import InvalidationLog
  import Organizations
  import Schema
  import Texts

  function PlanDraft(user: Id, now: Time): Draft {
    Draft(user, Account, EntitlementChanged, None, false, now)
  }

  /** `normalizeSubscriptionPlan`: key, name and notes after trimming; the free plan is never archived. */
  predicate PlanAllowed(key: string, plan: Plan) {
    && Texts.PlanKeyAllowed(Texts.Trim(key))
    && !Texts.IsBlank(plan.name) && Texts.Utf8Length(Texts.Trim(plan.name)) <= 128
    && (Texts.Trim(key) == FREE ==> plan.active)
    && Texts.Utf8Length(Texts.Trim(plan.notes)) <= 4096
  }

  /** `rows` lists the affected users. */
  function UpsertPlan(s: State, key: string, plan: Plan, rows: seq<Id>, now: Time): Tx {
    if !PlanAllowed(key, plan) then Abort(RequestInvalid)
    else if s.deployment.None? then Abort(NotFound)
    else Commit(s.(plans := s.plans[key := plan.(updatedAt := now)],
                   log := InvalidationLog.ForUsers(s.log, rows, PlanDraft(0, now))))
  }

  function SetGrant(s: State, user: Id, key: string, now: Time): Tx {
    if s.deployment.None? then Abort(NotFound)
    else if key !in s.plans || !s.plans[key].active then Abort(PlanNotFound)
    else if user !in s.access then Abort(NotFound)
    else if Schema.PlanKey(s, user) == key then Commit(s)
    else Commit(Organizations.Notify(s.(grants := s.grants[user := Grant(key, now)]), PlanDraft(user, now)))
  }

  type PlanRow = Row<string, Plan>
  type GrantRow = Row<Id, Grant>

  /** First row the loop stops at: a user without access, or a plan that is not there. */
  function GrantFault(s: State, plans: map<string, Plan>, rows: seq<GrantRow>): Option<Fault> {
    if rows == [] then None
    else if GrantFault(s, plans, rows[..|rows| - 1]).Some? then GrantFault(s, plans, rows[..|rows| - 1])
    else if rows[|rows| - 1].key !in s.access then Some(NotFound)
    else if rows[|rows| - 1].value.plan !in plans then Some(Constraint)
    else None
  }

  function Merge(s: State, plans: seq<PlanRow>, grants: seq<GrantRow>, rows: seq<Id>, now: Time): State {
    s.(plans := Put(s.plans, plans), grants := Put(s.grants, grants),
      log := InvalidationLog.ForUsers(s.log, rows, PlanDraft(0, now)))
  }

  function ImportSubscriptions(s: State, plans: seq<PlanRow>, grants: seq<GrantRow>, rows: seq<Id>, now: Time): Tx {
    if plans == [] || exists p <- plans :: !PlanAllowed(p.key, p.value) then Abort(RequestInvalid)
    else if s.deployment.None? || !s.deployment.value.active then Abort(NotFound)
    else
      var fault := GrantFault(s, Put(s.plans, plans), grants);
      if fault.Some? then Abort(fault.value) else Commit(Merge(s, plans, grants, rows, now))
  }
}
