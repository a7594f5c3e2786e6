/** Which plan everybody has after a committed assignment, plan change or subscription import. */
module PlanEffects {
  import opened Records
  import opened InvalidationLog
  import opened Schema
  import opened Entitlements
  import opened Coherence

  /** What the user is entitled to: the plan, its name and its limit. */
  ghost predicate Entitled(s: State, user: Id, key: string, name: string, limit: Option<nat>) {
    var quota := QuotaOf(s.plans, s.grants, user);
    quota.Some? && quota.value.key == key && quota.value.name == name && quota.value.limit == limit
  }

  /** Everybody's entitlement is what it was. */
  ghost predicate SameQuota(s: State, t: State, user: Id) {
    QuotaOf(t.plans, t.grants, user) == QuotaOf(s.plans, s.grants, user)
  }

  // ---- assignment ------------------------------------------------------------------------

  /** An active plan can be assigned to everybody with an access row. The user then has exactly this
      plan, nobody else's entitlement changes, and only a new plan is announced. */
  lemma Assigns(s: State, user: Id, key: string, now: Time)
    ensures SetGrant(s, user, key, now).Commit? <==>
              s.deployment.Some? && key in s.plans && s.plans[key].active && user in s.access
    ensures SetGrant(s, user, key, now).Commit? ==> Granted(s, SetGrant(s, user, key, now).state, user, key, now)
  {
    hide Granted, Append;
    if SetGrant(s, user, key, now).Commit? {
      if Has(s, user, key) {
        GrantKept(s, user, key, now);
      } else {
        GrantWritten(s, user, key, now);
      }
    }
  }

  ghost predicate Granted(s: State, t: State, user: Id, key: string, now: Time)
    requires key in s.plans
  {
    && t == s.(grants := t.grants, log := t.log)
    && Entitled(t, user, key, s.plans[key].name, s.plans[key].limit)
    && (forall u :: u != user ==> SameQuota(s, t, u) && (u in t.grants <==> u in s.grants))
    && if Has(s, user, key) then t == s
       else Adds(s.log, t.log, [Draft(user, Account, EntitlementChanged, None, false, now)])
  }

  lemma GrantWritten(s: State, user: Id, key: string, now: Time)
    requires key in s.plans && !Has(s, user, key)
    ensures Granted(s, s.(grants := s.grants[user := Grant(key, now)], log := Append(s.log, PlanDraft(user, now))),
              user, key, now)
  {
    OneAdded(s.log, PlanDraft(user, now));
    hide Adds, Append;
  }

  lemma GrantKept(s: State, user: Id, key: string, now: Time)
    requires key in s.plans && Has(s, user, key)
    ensures Granted(s, s, user, key, now)
  {
  }

  // ---- plans -----------------------------------------------------------------------------

  /** The user's effective plan: the assigned one, or else the free one. */
  predicate Has(s: State, user: Id, key: string) {
    key == if user in s.grants then s.grants[user].plan else FREE
  }

  /** The plan is as given, everybody whose effective plan it is has its name and limit, nobody else's
      entitlement changes, and each of the former with active access is told once. */
  ghost predicate PlanWritten(s: State, t: State, key: string, plan: Plan, now: Time) {
    && t == s.(plans := t.plans, log := t.log)
    && OnlyAt(s.plans, t.plans, key) && t.plans[key] == plan.(updatedAt := now)
    && (forall u :: Has(s, u, key) ==> Entitled(t, u, key, plan.name, plan.limit))
    && (forall u :: !Has(s, u, key) ==> SameQuota(s, t, u))
    && (forall u :: u in EntitledUsers(s, key) <==> u in s.access && s.access[u].active && Has(s, u, key))
    && ToEach(s.log, t.log, EntitledUsers(s, key), Draft(0, Account, EntitlementChanged, None, false, now))
  }

  lemma WritesPlan(s: State, key: string, plan: Plan, rows: seq<Id>, now: Time)
    requires Ordered(s.log) && Lists(rows, EntitledUsers(s, key))
    ensures UpsertPlan(s, key, plan, rows, now).Commit? <==> PlanAllowed(key, plan) && s.deployment.Some?
    ensures UpsertPlan(s, key, plan, rows, now).Commit? ==>
              PlanWritten(s, UpsertPlan(s, key, plan, rows, now).state, key, plan, now)
  {
    hide PlanAllowed, ToEach, EntitledUsers, ForUsers, Ordered, Lists, PlanWritten;
    if UpsertPlan(s, key, plan, rows, now).Commit? {
      PlanWrittenIs(s, key, plan, rows, now);
    }
  }

  lemma PlanWrittenIs(s: State, key: string, plan: Plan, rows: seq<Id>, now: Time)
    requires Ordered(s.log) && Lists(rows, EntitledUsers(s, key))
    ensures PlanWritten(s, s.(plans := s.plans[key := plan.(updatedAt := now)],
                              log := ForUsers(s.log, rows, PlanDraft(0, now))), key, plan, now)
  {
    EntitledUsersAre(s, key);
    hide ToEach, EntitledUsers, ForUsers, Ordered, Lists;
    ForUsersToEach(s.log, rows, EntitledUsers(s, key), PlanDraft(0, now));
  }

  // ---- import ----------------------------------------------------------------------------

  /** Row `i` is the last one of its key. */
  ghost predicate IsLast<K(!new), V(!new)>(rows: seq<Row<K, V>>, i: nat) {
    i < |rows| && forall j :: i < j < |rows| ==> rows[j].key != rows[i].key
  }

  /** Upserting row by row: the last row of a key wins, and a key without rows keeps what it has. */
  lemma {:induction false} LastStays<K(!new), V(!new)>(table: map<K, V>, rows: seq<Row<K, V>>, i: nat)
    requires IsLast(rows, i)
    ensures rows[i].key in Put(table, rows) && Put(table, rows)[rows[i].key] == rows[i].value
  {
    if i < |rows| - 1 {
      LastStays(table, rows[..|rows| - 1], i);
    }
  }

  lemma {:induction false} OthersStay<K(!new), V(!new)>(table: map<K, V>, rows: seq<Row<K, V>>, k: K)
    requires forall i :: 0 <= i < |rows| ==> rows[i].key != k
    ensures (k in Put(table, rows) <==> k in table) && (k in table ==> Put(table, rows)[k] == table[k])
  {
    if rows != [] {
      OthersStay(table, rows[..|rows| - 1], k);
    }
  }

  lemma {:induction false} PutHas<K, V>(table: map<K, V>, rows: seq<Row<K, V>>, k: K)
    ensures k in Put(table, rows) <==> k in table || exists i :: 0 <= i < |rows| && rows[i].key == k
  {
    if rows != [] {
      var rest := rows[..|rows| - 1];
      PutHas(table, rest, k);
      assert forall i :: 0 <= i < |rest| ==> rest[i] == rows[i];
    }
  }

  /** Every assignment is for somebody with access, and of a plan that is there or imported along. */
  ghost predicate Assignable(s: State, plans: seq<PlanRow>, grants: seq<GrantRow>) {
    forall g <- grants ::
      g.key in s.access && (g.value.plan in s.plans || exists i :: 0 <= i < |plans| && plans[i].key == g.value.plan)
  }

  lemma {:induction false} FaultIs(s: State, plans: map<string, Plan>, rows: seq<GrantRow>)
    ensures GrantFault(s, plans, rows).None? <==> forall g <- rows :: g.key in s.access && g.value.plan in plans
  {
    if rows != [] {
      var rest := rows[..|rows| - 1];
      FaultIs(s, plans, rest);
      assert rows == rest + [rows[|rows| - 1]];
    }
  }

  /** Plans and grants are the imported ones, of several for one key the last; everybody with active
      access is told once. */
  ghost predicate Imported(s: State, t: State, plans: seq<PlanRow>, grants: seq<GrantRow>, now: Time) {
    && t == s.(plans := t.plans, grants := t.grants, log := t.log)
    && LastRows(s.plans, t.plans, plans) && LastRows(s.grants, t.grants, grants)
    && (forall u :: u in ActiveUsers(s) <==> u in s.access && s.access[u].active)
    && ToEach(s.log, t.log, ActiveUsers(s), Draft(0, Account, EntitlementChanged, None, false, now))
  }

  ghost predicate LastRows<K(!new), V(!new)>(before: map<K, V>, after: map<K, V>, rows: seq<Row<K, V>>) {
    && (forall i: nat :: IsLast(rows, i) ==> rows[i].key in after && after[rows[i].key] == rows[i].value)
    && (forall k :: (forall i :: 0 <= i < |rows| ==> rows[i].key != k) ==>
          (k in after <==> k in before) && (k in before ==> after[k] == before[k]))
  }

  lemma LastRowsIs<K(!new), V(!new)>(table: map<K, V>, rows: seq<Row<K, V>>)
    ensures LastRows(table, Put(table, rows), rows)
  {
    hide Put;
    forall i: nat | IsLast(rows, i)
      ensures i < |rows| && rows[i].key in Put(table, rows) && Put(table, rows)[rows[i].key] == rows[i].value
    {
      LastStays(table, rows, i);
    }
    forall k | forall i :: 0 <= i < |rows| ==> rows[i].key != k
      ensures (k in Put(table, rows) <==> k in table) && (k in table ==> Put(table, rows)[k] == table[k])
    {
      OthersStay(table, rows, k);
    }
  }

  lemma Imports(s: State, plans: seq<PlanRow>, grants: seq<GrantRow>, rows: seq<Id>, now: Time)
    requires Ordered(s.log) && Lists(rows, ActiveUsers(s))
    ensures ImportSubscriptions(s, plans, grants, rows, now).Commit? <==>
              && plans != [] && (forall p <- plans :: PlanAllowed(p.key, p.value))
              && s.deployment.Some? && s.deployment.value.active && Assignable(s, plans, grants)
    ensures ImportSubscriptions(s, plans, grants, rows, now).Commit? ==>
              Imported(s, ImportSubscriptions(s, plans, grants, rows, now).state, plans, grants, now)
  {
    hide PlanAllowed, ToEach, ActiveUsers, ForUsers, Ordered, Lists, Put, LastRows, GrantFault;
    Assigned(s, plans, grants);
    LastRowsIs(s.plans, plans);
    LastRowsIs(s.grants, grants);
    ForUsersToEach(s.log, rows, ActiveUsers(s), PlanDraft(0, now));
    ActiveUsersAre(s);
    hide Assignable;
  }

  lemma ActiveUsersAre(s: State)
    ensures forall u :: u in ActiveUsers(s) <==> u in s.access && s.access[u].active
  {
  }

  lemma EntitledUsersAre(s: State, key: string)
    ensures forall u :: u in EntitledUsers(s, key) <==> u in s.access && s.access[u].active && Has(s, u, key)
  {
  }

  lemma Assigned(s: State, plans: seq<PlanRow>, grants: seq<GrantRow>)
    ensures GrantFault(s, Put(s.plans, plans), grants).None? <==> Assignable(s, plans, grants)
  {
    hide Put, GrantFault;
    FaultIs(s, Put(s.plans, plans), grants);
    forall key
      ensures key in Put(s.plans, plans) <==> key in s.plans || exists i :: 0 <= i < |plans| && plans[i].key == key
    {
      PutHas(s.plans, plans, key);
    }
  }

  /** After an import a user whose last imported row names a plan has that plan, as last imported. */
  lemma ImportedQuota(s: State, t: State, plans: seq<PlanRow>, grants: seq<GrantRow>, now: Time, g: nat, p: nat)
    requires Imported(s, t, plans, grants, now) && IsLast(grants, g) && IsLast(plans, p)
    requires plans[p].key == grants[g].value.plan
    ensures Entitled(t, grants[g].key, plans[p].key, plans[p].value.name, plans[p].value.limit)
  {
    hide ToEach;
  }
}
