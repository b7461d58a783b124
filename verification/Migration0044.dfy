// Revision 0044: tenant, company and store-membership scope is added by the upgrade and dropped by the
// downgrade behind a guard (alembic/versions/0044_tenant_company_store_authorization_scope.py).
module Migration0044 {
  import opened Options

  // ---- SQL's three truth values ----

  datatype Truth = Yes | No | Unknown

  function Of(b: bool): Truth {
    if b then Yes else No
  }

  function Not(t: Truth): Truth {
    match t case Yes => No case No => Yes case Unknown => Unknown
  }

  function Or(a: Truth, b: Truth): Truth {
    if a.Yes? || b.Yes? then Yes else if a.No? && b.No? then No else Unknown
  }

  function And(a: Truth, b: Truth): Truth {
    Not(Or(Not(a), Not(b)))
  }

  // `<>` between two truth values.
  function Differ(a: Truth, b: Truth): Truth {
    if a.Unknown? || b.Unknown? then Unknown else Of(a != b)
  }

  function Equal<T(==)>(a: Option<T>, b: Option<T>): Truth {
    if a.None? || b.None? then Unknown else Of(a.value == b.value)
  }

  // IS DISTINCT FROM FALSE never yields NULL.
  function NotFalse(b: Option<bool>): Truth {
    Of(b != Some(false))
  }

  // ---- the tables ----

  // users.role: owner, boss, admin, or any other text.
  datatype Role = Owner | Boss | Admin | OtherRole(name: string)

  datatype Store = Store(code: string, manager: Option<nat>)

  datatype Pair = Pair(user: nat, store: nat)

  // A tenant and a company.
  datatype Place = Place(tenant: nat, company: nat)

  datatype Tenant = Tenant(code: string, name: string, active: bool)

  datatype Company = Company(tenant: nat, code: string, name: string, active: bool)

  datatype Membership = Membership(
    canRead: bool, canWrite: bool, active: bool, managed: bool,
    previousActive: Option<bool>, previousRead: Option<bool>, previousWrite: Option<bool>)

  // Everything 0044 adds: two tables, the columns on users, stores and employee_logs, and the memberships.
  datatype Scope = Scope(
    tenants: map<nat, Tenant>, companies: map<nat, Company>,
    users: map<nat, Place>, stores: map<nat, Place>,
    memberships: map<Pair, Membership>, logs: map<nat, Option<nat>>)

  // roles: role per user id. scope is None before the upgrade and after the downgrade.
  datatype Db = Db(roles: map<nat, Role>, stores: map<nat, Store>, logs: set<nat>, scope: Option<Scope>)

  // The first id of a freshly created table.
  const FIRST: nat := 1

  predicate Privileged(role: Role) {
    !role.OtherRole?
  }

  // Foreign keys and unique constraints of the base tables; store_code is unique without the scope.
  ghost predicate BaseValid(db: Db) {
    && (forall s :: s in db.stores && db.stores[s].manager.Some? ==> db.stores[s].manager.value in db.roles)
    && (db.scope.None? ==> CodesUnique(db.stores))
  }

  predicate CodesUnique(stores: map<nat, Store>) {
    forall s, t :: s in stores && t in stores && stores[s].code == stores[t].code ==> s == t
  }

  ghost predicate ScopeValid(users: set<nat>, stores: set<nat>, logs: set<nat>, scope: Scope) {
    && scope.users.Keys == users && scope.stores.Keys == stores && scope.logs.Keys == logs
    && ReferencesHold(scope)
    && (forall u :: u in scope.users ==> PlacedIn(scope, scope.users[u]))
    && (forall s :: s in scope.stores ==> PlacedIn(scope, scope.stores[s]))
    && (forall k :: k in scope.memberships ==> k.user in users && k.store in stores)
  }

  ghost predicate ReferencesHold(scope: Scope) {
    && (forall a, b :: a in scope.tenants && b in scope.tenants && scope.tenants[a].code == scope.tenants[b].code ==> a == b)
    && (forall a, b :: a in scope.companies && b in scope.companies && SameCompany(scope.companies[a], scope.companies[b]) ==> a == b)
    && (forall c :: c in scope.companies ==> scope.companies[c].tenant in scope.tenants)
  }

  predicate SameCompany(a: Company, b: Company) {
    a.tenant == b.tenant && a.code == b.code
  }

  predicate PlacedIn(scope: Scope, place: Place) {
    place.company in scope.companies && scope.companies[place.company].tenant == place.tenant
  }

  ghost predicate Valid(db: Db) {
    BaseValid(db) && (db.scope.Some? ==> ScopeValid(db.roles.Keys, db.stores.Keys, db.logs, db.scope.value))
  }

  // ---- upgrade ----

  const DEFAULT_TENANT := Tenant("default", "Default Tenant", true)
  const DEFAULT_COMPANY := Company(FIRST, "default", "Default Company", true)
  const DEFAULT_TENANTS := map[FIRST := DEFAULT_TENANT]
  const DEFAULT_COMPANIES := map[FIRST := DEFAULT_COMPANY]
  const HOME := Place(FIRST, FIRST)
  const FULL := Membership(true, true, true, false, None, None, None)
  const ASSIGNED := Membership(true, true, true, true, Some(false), Some(false), Some(false))

  ghost predicate AllHome(places: map<nat, Place>, ids: set<nat>) {
    places.Keys == ids && forall i :: i in ids ==> places[i] == HOME
  }

  ghost predicate AllUnset(stores: map<nat, Option<nat>>, ids: set<nat>) {
    stores.Keys == ids && forall i :: i in ids ==> stores[i].None?
  }

  // Both inserts: privileged users first, then managers where there is no row yet.
  ghost predicate RowSeeded(db: Db, memberships: map<Pair, Membership>, k: Pair) {
    && (k in memberships <==> k.user in db.roles && k.store in db.stores
                              && (Privileged(db.roles[k.user]) || db.stores[k.store].manager == Some(k.user)))
    && (k in memberships ==> memberships[k] == if Privileged(db.roles[k.user]) then FULL else ASSIGNED)
  }

  ghost predicate MembershipsSeeded(db: Db, memberships: map<Pair, Membership>) {
    forall k :: RowSeeded(db, memberships, k)
  }

  ghost predicate Seeds(db: Db, scope: Scope) {
    && scope.tenants == DEFAULT_TENANTS && scope.companies == DEFAULT_COMPANIES
    && AllHome(scope.users, db.roles.Keys) && AllHome(scope.stores, db.stores.Keys) && AllUnset(scope.logs, db.logs)
    && MembershipsSeeded(db, scope.memberships)
  }

  // `after` is what the upgrade makes of `before`; Database.Upgrade computes one, and there is no other.
  ghost predicate Upgrades(before: Db, after: Db) {
    after.scope.Some? && after == before.(scope := after.scope) && Seeds(before, after.scope.value)
  }

  // ---- the downgrade's guard ----

  // id <> (SELECT id FROM ... WHERE code = 'default'): with no default row the subquery is NULL and selects nothing.
  predicate OutsideTenant(scope: Scope, id: nat) {
    exists t :: t in scope.tenants && scope.tenants[t].code == "default" && id != t
  }

  predicate OutsideCompany(scope: Scope, id: nat) {
    exists c :: c in scope.companies && scope.companies[c].code == "default" && id != c
  }

  predicate Outside(scope: Scope, place: Place) {
    OutsideTenant(scope, place.tenant) || OutsideCompany(scope, place.company)
  }

  predicate ScopedDataWouldBeLost(scope: Scope) {
    || (exists t :: t in scope.tenants && scope.tenants[t].code != "default")
    || (exists c :: c in scope.companies && scope.companies[c].code != "default")
    || (exists u :: u in scope.users && Outside(scope, scope.users[u]))
    || (exists s :: s in scope.stores && Outside(scope, scope.stores[s]))
    || (exists l :: l in scope.logs && scope.logs[l].Some?)
  }

  // The WHERE clause over one membership joined with its user and store.
  function Offends(m: Membership, user: nat, role: Role, manager: Option<nat>): Truth {
    var privileged, manages := Of(Privileged(role)), Equal(manager, Some(user));
    Or(Not(Of(m.active)),
    Or(Not(Of(m.canRead)),
    Or(Not(Of(m.canWrite)),
    Or(Not(Or(privileged, manages)),
    Or(Differ(Of(m.managed), And(manages, Not(privileged))),
    Or(And(Of(m.managed), Or(NotFalse(m.previousActive), Or(NotFalse(m.previousRead), NotFalse(m.previousWrite)))),
       And(Not(Of(m.managed)), Or(Of(m.previousActive.Some?), Or(Of(m.previousRead.Some?), Of(m.previousWrite.Some?))))))))))
  }

  predicate MembershipOffends(db: Db, scope: Scope, k: Pair) {
    && k in scope.memberships && k.user in db.roles && k.store in db.stores
    && Offends(scope.memberships[k], k.user, db.roles[k.user], db.stores[k.store].manager).Yes?
  }

  // A pair the upgrade would insert, with no membership now.
  predicate MembershipMissing(db: Db, scope: Scope, u: nat, s: nat) {
    && u in db.roles && s in db.stores
    && Or(Of(Privileged(db.roles[u])), Equal(db.stores[s].manager, Some(u))).Yes?
    && Pair(u, s) !in scope.memberships
  }

  predicate MembershipsWouldBeLost(db: Db, scope: Scope) {
    || (exists k :: k in scope.memberships && MembershipOffends(db, scope, k))
    || (exists u, s :: u in db.roles && s in db.stores && MembershipMissing(db, scope, u, s))
  }

  predicate Accepts(db: Db)
    requires db.scope.Some?
  {
    CodesUnique(db.stores) && !ScopedDataWouldBeLost(db.scope.value) && !MembershipsWouldBeLost(db, db.scope.value)
  }

  function Downgraded(db: Db): Db {
    db.(scope := None)
  }

  // ---- what the guard accepts, row by row ----

  // A membership of somebody without a privileged role in a store that has no manager: the comparison with
  // the manager is NULL there, and with it three of the guard's conditions.
  predicate Orphan(db: Db, k: Pair) {
    k.user in db.roles && k.store in db.stores && !Privileged(db.roles[k.user]) && db.stores[k.store].manager.None?
  }

  predicate NoOrphans(db: Db, scope: Scope) {
    forall k :: k in scope.memberships ==> !Orphan(db, k)
  }

  // The two kinds of row the upgrade writes.
  predicate Plain(m: Membership) {
    m == FULL || m == ASSIGNED
  }

  lemma AcceptedRow(m: Membership, user: nat, role: Role, manager: Option<nat>)
    ensures !Offends(m, user, role, manager).Yes? <==>
            if Privileged(role) then m == FULL
            else if manager.None? then Plain(m)
            else manager == Some(user) && m == ASSIGNED
  {
  }

  // What acceptance means for the pair k.
  ghost predicate Settled(db: Db, scope: Scope, k: Pair) {
    && (k in scope.memberships ==>
          && k.user in db.roles && k.store in db.stores
          && (Privileged(db.roles[k.user]) ==> scope.memberships[k] == FULL)
          && (!Privileged(db.roles[k.user]) && db.stores[k.store].manager.Some? ==>
                db.stores[k.store].manager == Some(k.user) && scope.memberships[k] == ASSIGNED))
    && (k.user in db.roles && k.store in db.stores && (Privileged(db.roles[k.user]) || db.stores[k.store].manager == Some(k.user)) ==>
          k in scope.memberships)
  }

  lemma AcceptedIsSettled(db: Db, k: Pair)
    requires Valid(db) && db.scope.Some? && !MembershipsWouldBeLost(db, db.scope.value)
    ensures Settled(db, db.scope.value, k)
  {
    var scope := db.scope.value;
    if k in scope.memberships {
      assert !MembershipOffends(db, scope, k);
      AcceptedRow(scope.memberships[k], k.user, db.roles[k.user], db.stores[k.store].manager);
    }
    if k.user in db.roles && k.store in db.stores {
      assert !MembershipMissing(db, scope, k.user, k.store);
      assert k == Pair(k.user, k.store);
    }
  }

  // ---- the round trips ----

  // Whatever the guard lets through, the only memberships lost are those of orphans: every other row comes
  // back as it was and none is invented.
  lemma OnlyOrphansAreLost(db: Db, again: Db, k: Pair)
    requires Valid(db) && db.scope.Some? && Accepts(db) && Upgrades(Downgraded(db), again)
    ensures var before, after := db.scope.value.memberships, again.scope.value.memberships;
            && (k in after <==> k in before && !Orphan(db, k))
            && (k in after ==> after[k] == before[k])
  {
    AcceptedIsSettled(db, k);
    assert RowSeeded(Downgraded(db), again.scope.value.memberships, k);
  }

  // For every database the guard lets through, downgrading and upgrading again gives the same memberships
  // exactly when no orphan holds one.
  lemma MembershipsSurvive(db: Db, again: Db)
    requires Valid(db) && db.scope.Some? && Accepts(db) && Upgrades(Downgraded(db), again)
    ensures again.scope.value.memberships == db.scope.value.memberships <==> NoOrphans(db, db.scope.value)
  {
    var before, after := db.scope.value.memberships, again.scope.value.memberships;
    forall k ensures (k in after <==> k in before && !Orphan(db, k)) && (k in after ==> after[k] == before[k]) {
      OnlyOrphansAreLost(db, again, k);
    }
    SameUnless(db, before, after);
  }

  lemma SameUnless(db: Db, before: map<Pair, Membership>, after: map<Pair, Membership>)
    requires forall k :: k in after <==> k in before && !Orphan(db, k)
    requires forall k :: k in after ==> after[k] == before[k]
    ensures after == before <==> forall k :: k in before ==> !Orphan(db, k)
  {
    if forall k :: k in before ==> !Orphan(db, k) {
      assert after.Keys == before.Keys;
    }
  }

  // The default tenant and company as the upgrade writes them.
  ghost predicate DefaultRowsAsSeeded(scope: Scope) {
    && scope.tenants == DEFAULT_TENANTS
    && scope.companies == DEFAULT_COMPANIES
  }

  lemma EverybodyIsAtHome(db: Db)
    requires Valid(db) && db.scope.Some? && DefaultRowsAsSeeded(db.scope.value) && !ScopedDataWouldBeLost(db.scope.value)
    ensures AllHome(db.scope.value.users, db.roles.Keys) && AllHome(db.scope.value.stores, db.stores.Keys)
    ensures AllUnset(db.scope.value.logs, db.logs)
  {
    var scope := db.scope.value;
    assert scope.tenants[FIRST].code == "default" && scope.companies[FIRST].code == "default";
    forall u | u in scope.users ensures scope.users[u] == HOME {
      assert !Outside(scope, scope.users[u]);
    }
    forall s | s in scope.stores ensures scope.stores[s] == HOME {
      assert !Outside(scope, scope.stores[s]);
    }
  }

  lemma SamePlaces(a: map<nat, Place>, b: map<nat, Place>, ids: set<nat>)
    requires AllHome(a, ids) && AllHome(b, ids)
    ensures a == b
  {
  }

  lemma SameLogs(a: map<nat, Option<nat>>, b: map<nat, Option<nat>>, ids: set<nat>)
    requires AllUnset(a, ids) && AllUnset(b, ids)
    ensures a == b
  {
  }

  // The whole scope, and not only the memberships, survives exactly when in addition the default tenant and
  // company rows are still what the upgrade writes: the guard does not look at their names or active flags.
  lemma ScopeSurvives(db: Db, again: Db)
    requires Valid(db) && db.scope.Some? && Accepts(db) && Upgrades(Downgraded(db), again)
    ensures again == db <==> DefaultRowsAsSeeded(db.scope.value) && NoOrphans(db, db.scope.value)
  {
    MembershipsSurvive(db, again);
    if DefaultRowsAsSeeded(db.scope.value) {
      EverybodyIsAtHome(db);
      SamePlaces(db.scope.value.users, again.scope.value.users, db.roles.Keys);
      SamePlaces(db.scope.value.stores, again.scope.value.stores, db.stores.Keys);
      SameLogs(db.scope.value.logs, again.scope.value.logs, db.logs);
    }
  }

  // ---- what the guard lets be lost, told from the two databases ----

  function TenantCodes(scope: Scope): set<string> {
    set t | t in scope.tenants :: scope.tenants[t].code
  }

  // The code of the company's tenant, if there is one, and its own.
  function CodesOf(scope: Scope, company: nat): (Option<string>, string)
    requires company in scope.companies
  {
    var c := scope.companies[company];
    (if c.tenant in scope.tenants then Some(scope.tenants[c.tenant].code) else None, c.code)
  }

  function CompanyCodes(scope: Scope): set<(Option<string>, string)> {
    set c | c in scope.companies :: CodesOf(scope, c)
  }

  const DEFAULT_CODES: (Option<string>, string) := (Some("default"), "default")

  // The membership of k comes back as it was, or is a plain one of an orphan.
  predicate MembershipKept(db: Db, before: map<Pair, Membership>, after: map<Pair, Membership>, k: Pair) {
    if Orphan(db, k) then k in before ==> before[k] == FULL || before[k] == ASSIGNED
    else (k in before <==> k in after) && (k in before ==> after[k] == before[k])
  }

  // No tenant or company code goes, no log loses its store, and of the memberships only plain ones of orphans do.
  ghost predicate Kept(db: Db, before: Scope, after: Scope) {
    && TenantCodes(before) <= TenantCodes(after) && CompanyCodes(before) <= CompanyCodes(after)
    && after.logs == before.logs
    && forall k :: MembershipKept(db, before.memberships, after.memberships, k)
  }

  lemma SeededCodes(db: Db, scope: Scope)
    requires Seeds(db, scope)
    ensures TenantCodes(scope) == {"default"} && CompanyCodes(scope) == {DEFAULT_CODES}
    ensures forall i :: i in scope.companies ==> CodesOf(scope, i) == DEFAULT_CODES
  {
    assert FIRST in scope.tenants && FIRST in scope.companies;
    assert CodesOf(scope, FIRST) == DEFAULT_CODES;
  }

  // Where every code is "default", unique codes leave one tenant and one company, and everybody is in them.
  lemma OneHome(db: Db, scope: Scope)
    requires Valid(db) && db.scope == Some(scope)
    requires TenantCodes(scope) <= {"default"} && CompanyCodes(scope) <= {DEFAULT_CODES}
    ensures forall t :: t in scope.tenants ==> scope.tenants[t].code == "default"
    ensures forall c :: c in scope.companies ==> scope.companies[c].code == "default" && CodesOf(scope, c) == DEFAULT_CODES
    ensures forall place :: PlacedIn(scope, place) ==> !Outside(scope, place)
  {
    forall t | t in scope.tenants ensures scope.tenants[t].code == "default" {
      assert scope.tenants[t].code in TenantCodes(scope);
    }
    forall c | c in scope.companies ensures scope.companies[c].code == "default" && CodesOf(scope, c) == DEFAULT_CODES {
      assert CodesOf(scope, c) in CompanyCodes(scope);
    }
    forall c, d | c in scope.companies && d in scope.companies ensures c == d {
      assert SameCompany(scope.companies[c], scope.companies[d]);
    }
  }

  lemma ScopeAccepted(db: Db, again: Db)
    requires Valid(db) && db.scope.Some? && Upgrades(Downgraded(db), again)
    ensures !ScopedDataWouldBeLost(db.scope.value) <==>
              && TenantCodes(db.scope.value) <= TenantCodes(again.scope.value)
              && CompanyCodes(db.scope.value) <= CompanyCodes(again.scope.value)
              && again.scope.value.logs == db.scope.value.logs
  {
    var scope, after := db.scope.value, again.scope.value;
    SeededCodes(Downgraded(db), after);
    if !ScopedDataWouldBeLost(scope) {
      forall c | c in scope.companies ensures CodesOf(scope, c) == DEFAULT_CODES { }
      SameLogs(scope.logs, after.logs, db.logs);
    } else if TenantCodes(scope) <= {"default"} && CompanyCodes(scope) <= {DEFAULT_CODES} {
      OneHome(db, scope);
    }
  }

  ghost predicate Refused(db: Db, scope: Scope, k: Pair) {
    MembershipOffends(db, scope, k) || MembershipMissing(db, scope, k.user, k.store)
  }

  lemma LostIfRefused(db: Db, scope: Scope)
    requires db.scope == Some(scope)
    ensures MembershipsWouldBeLost(db, scope) <==> exists k :: Refused(db, scope, k)
  {
    if MembershipsWouldBeLost(db, scope) {
      if k :| k in scope.memberships && MembershipOffends(db, scope, k) {
        assert Refused(db, scope, k);
      } else {
        var u, i :| u in db.roles && i in db.stores && MembershipMissing(db, scope, u, i);
        assert Refused(db, scope, Pair(u, i));
      }
    }
  }

  lemma PairAccepted(db: Db, scope: Scope, after: map<Pair, Membership>, k: Pair)
    requires db.scope == Some(scope) && RowSeeded(db, after, k)
    requires k in scope.memberships ==> k.user in db.roles && k.store in db.stores
    ensures !Refused(db, scope, k) <==> MembershipKept(db, scope.memberships, after, k)
  {
    assert k == Pair(k.user, k.store);
    if k in scope.memberships { AcceptedRow(scope.memberships[k], k.user, db.roles[k.user], db.stores[k.store].manager); }
  }

  lemma MembershipsAccepted(db: Db, again: Db)
    requires Valid(db) && db.scope.Some? && Upgrades(Downgraded(db), again)
    ensures !MembershipsWouldBeLost(db, db.scope.value) <==>
              forall k :: MembershipKept(db, db.scope.value.memberships, again.scope.value.memberships, k)
  {
    var scope, after := db.scope.value, again.scope.value.memberships;
    LostIfRefused(db, scope);
    forall k ensures !Refused(db, scope, k) <==> MembershipKept(db, scope.memberships, after, k) {
      assert RowSeeded(Downgraded(db), after, k);
      PairAccepted(db, scope, after, k);
    }
  }

  // The guard accepts a database exactly if store codes are unique and downgrading and upgrading it again loses
  // none of the rest: nothing, that is, but names and active flags of the default rows, and plain memberships
  // of orphans.
  lemma AcceptsExactly(db: Db, again: Db)
    requires Valid(db) && db.scope.Some? && Upgrades(Downgraded(db), again)
    ensures Accepts(db) <==> CodesUnique(db.stores) && Kept(db, db.scope.value, again.scope.value)
  {
    ScopeAccepted(db, again);
    MembershipsAccepted(db, again);
  }

  // So what it accepts has no tenant and no company but the default ones, which are then there again (and there
  // before, if there was any company at all); every user and store is in them as before.
  lemma CodesSurvive(db: Db, again: Db)
    requires Valid(db) && db.scope.Some? && Accepts(db) && Upgrades(Downgraded(db), again)
    ensures var before, after := db.scope.value, again.scope.value;
            && Valid(Downgraded(db)) && Valid(again)
            && TenantCodes(before) <= TenantCodes(after) == {"default"} && CompanyCodes(before) <= CompanyCodes(after) == {DEFAULT_CODES}
            && (TenantCodes(before) == TenantCodes(after) && CompanyCodes(before) == CompanyCodes(after) <==> before.companies != map[])
            && (forall u :: u in before.users ==> CodesOf(after, after.users[u].company) == CodesOf(before, before.users[u].company))
            && (forall i :: i in before.stores ==> CodesOf(after, after.stores[i].company) == CodesOf(before, before.stores[i].company))
  {
    var before, after := db.scope.value, again.scope.value;
    AcceptsExactly(db, again);
    SeededCodes(Downgraded(db), after);
    OneHome(db, before);
    FreshScope(Downgraded(db), after);
    if before.companies != map[] {
      var c :| c in before.companies;
      assert CodesOf(before, c) in CompanyCodes(before);
      assert before.tenants[before.companies[c].tenant].code in TenantCodes(before);
    }
  }

  // The guard's tests on users and stores decide nothing: where tenants and companies are the default ones, the
  // foreign keys have put everybody there.
  lemma PlacesNeverDecide(db: Db, scope: Scope)
    requires Valid(db) && db.scope == Some(scope)
    requires forall t :: t in scope.tenants ==> scope.tenants[t].code == "default"
    requires forall c :: c in scope.companies ==> scope.companies[c].code == "default"
    ensures forall u :: u in scope.users ==> !Outside(scope, scope.users[u])
    ensures forall i :: i in scope.stores ==> !Outside(scope, scope.stores[i])
  {
  }

  lemma FreshMemberships(db: Db, up: Db)
    requires Upgrades(db, up)
    ensures !MembershipsWouldBeLost(up, up.scope.value)
  {
    var scope := up.scope.value;
    forall k | k in scope.memberships ensures !MembershipOffends(up, scope, k) {
      assert RowSeeded(db, scope.memberships, k);
      AcceptedRow(scope.memberships[k], k.user, up.roles[k.user], up.stores[k.store].manager);
    }
    forall u, s | u in up.roles && s in up.stores ensures !MembershipMissing(up, scope, u, s) {
      assert RowSeeded(db, scope.memberships, Pair(u, s));
    }
  }

  lemma FreshScope(db: Db, scope: Scope)
    requires Seeds(db, scope)
    ensures ScopeValid(db.roles.Keys, db.stores.Keys, db.logs, scope) && !ScopedDataWouldBeLost(scope)
  {
    assert scope.companies[FIRST].tenant == FIRST;
    assert !Outside(scope, HOME);
    forall k | k in scope.memberships ensures k.user in db.roles && k.store in db.stores {
      assert RowSeeded(db, scope.memberships, k);
    }
  }

  // The guard lets every database through straight after its upgrade, and the downgrade then undoes it.
  lemma FreshUpgradeIsAccepted(db: Db, up: Db)
    requires Valid(db) && db.scope.None? && Upgrades(db, up)
    ensures Valid(up) && Accepts(up) && Downgraded(up) == db
  {
    FreshMemberships(db, up);
    FreshScope(db, up.scope.value);
  }

  // The upgrade of a database is determined.
  lemma UpgradeIsDetermined(db: Db, up: Db, other: Db)
    requires Upgrades(db, up) && Upgrades(db, other)
    ensures up == other
  {
    SamePlaces(up.scope.value.users, other.scope.value.users, db.roles.Keys);
    SamePlaces(up.scope.value.stores, other.scope.value.stores, db.stores.Keys);
    SameLogs(up.scope.value.logs, other.scope.value.logs, db.logs);
    SameMemberships(db, up.scope.value.memberships, other.scope.value.memberships);
  }

  lemma SameMemberships(db: Db, a: map<Pair, Membership>, b: map<Pair, Membership>)
    requires MembershipsSeeded(db, a) && MembershipsSeeded(db, b)
    ensures a == b
  {
    forall k ensures (k in a <==> k in b) && (k in a ==> a[k] == b[k]) {
      assert RowSeeded(db, a, k) && RowSeeded(db, b, k);
    }
  }

  // A membership the guard does not see: a full one, of a plain employee, in a store without a manager.
  // No upgrade of the downgraded database brings it back.
  lemma GuardMissesAnOrphan(k: Pair) returns (db: Db)
    ensures Valid(db) && db.scope.Some? && Accepts(db) && k in db.scope.value.memberships
    ensures forall again :: Upgrades(Downgraded(db), again) ==> k !in again.scope.value.memberships
  {
    var scope := Scope(DEFAULT_TENANTS, DEFAULT_COMPANIES, map[k.user := HOME], map[k.store := HOME], map[k := FULL], map[]);
    db := Db(map[k.user := OtherRole("staff")], map[k.store := Store("jd-1", None)], {}, Some(scope));
    OrphanValid(db, scope, k);
    OrphanAtHome(scope, k);
    OrphanAccepted(db, scope, k);
    forall again | Upgrades(Downgraded(db), again) ensures k !in again.scope.value.memberships {
      assert RowSeeded(Downgraded(db), again.scope.value.memberships, k);
    }
  }

  lemma OrphanValid(db: Db, scope: Scope, k: Pair)
    requires db.roles == map[k.user := OtherRole("staff")] && db.stores == map[k.store := Store("jd-1", None)] && db.logs == {}
    requires scope == Scope(DEFAULT_TENANTS, DEFAULT_COMPANIES, map[k.user := HOME], map[k.store := HOME], map[k := FULL], map[])
    ensures ScopeValid(db.roles.Keys, db.stores.Keys, db.logs, scope)
  {
    assert scope.companies[FIRST].tenant == FIRST;
  }

  lemma OrphanAtHome(scope: Scope, k: Pair)
    requires scope == Scope(DEFAULT_TENANTS, DEFAULT_COMPANIES, map[k.user := HOME], map[k.store := HOME], map[k := FULL], map[])
    ensures !ScopedDataWouldBeLost(scope)
  {
    assert !Outside(scope, HOME);
  }

  lemma OrphanAccepted(db: Db, scope: Scope, k: Pair)
    requires db.roles == map[k.user := OtherRole("staff")] && db.stores == map[k.store := Store("jd-1", None)]
    requires scope.memberships == map[k := FULL]
    ensures !MembershipsWouldBeLost(db, scope)
  {
    AcceptedRow(FULL, k.user, OtherRole("staff"), None);
    assert !MembershipOffends(db, scope, k);
  }

  lemma SeedsBase(before: Db, after: Db)
    requires before.roles == after.roles && before.stores == after.stores && before.logs == after.logs
    ensures forall m :: MembershipsSeeded(before, m) <==> MembershipsSeeded(after, m)
  {
    forall m, k ensures RowSeeded(before, m, k) <==> RowSeeded(after, m, k) {
    }
  }

  // ---- the migration, statement by statement ----

  class Database {
    var roles: map<nat, Role>
    var stores: map<nat, Store>
    var logs: set<nat>
    var hasScope: bool
    var tenants: map<nat, Tenant>
    var companies: map<nat, Company>
    var userPlaces: map<nat, Place>
    var storePlaces: map<nat, Place>
    var memberships: map<Pair, Membership>
    var logStores: map<nat, Option<nat>>

    function Tables(): Db
      reads this
    {
      Db(roles, stores, logs,
         if hasScope then Some(Scope(tenants, companies, userPlaces, storePlaces, memberships, logStores)) else None)
    }

    constructor (roles: map<nat, Role>, stores: map<nat, Store>, logs: set<nat>)
      ensures Tables() == Db(roles, stores, logs, None)
    {
      this.roles, this.stores, this.logs, hasScope := roles, stores, logs, false;
      tenants, companies, userPlaces, storePlaces, memberships, logStores := map[], map[], map[], map[], map[], map[];
    }

    // UPDATE users / UPDATE stores: every row gets the default tenant and company.
    method Placed(ids: set<nat>) returns (places: map<nat, Place>)
      ensures AllHome(places, ids)
    {
      places := map i | i in ids :: HOME;
    }

    // ADD COLUMN employee_logs.store_id, nullable.
    method AddLogStores()
      modifies this`logStores
      ensures AllUnset(logStores, logs)
    {
      logStores := map l | l in logs :: None;
    }

    // SELECT over users CROSS JOIN stores, with the role filter.
    method PrivilegedRows() returns (rows: map<Pair, Membership>)
      ensures forall k :: k in rows <==> k.user in roles && k.store in stores && Privileged(roles[k.user])
      ensures forall k :: k in rows ==> rows[k] == FULL
    {
      rows := map u, s | u in roles && s in stores && Privileged(roles[u]) :: Pair(u, s) := FULL;
    }

    // SELECT over users JOIN stores ON stores.manager_user_id = users.id
    method ManagerRows() returns (rows: map<Pair, Membership>)
      ensures forall k :: k in rows <==> k.user in roles && k.store in stores && stores[k.store].manager == Some(k.user)
      ensures forall k :: k in rows ==> rows[k] == ASSIGNED
    {
      rows := map u, s | u in roles && s in stores && stores[s].manager == Some(u) :: Pair(u, s) := ASSIGNED;
    }

    // INSERT ... ON CONFLICT (user_id, store_id) DO NOTHING: a row that is there stays as it is.
    method Insert(rows: map<Pair, Membership>)
      modifies this`memberships
      ensures forall k :: k in memberships <==> k in old(memberships) || k in rows
      ensures forall k :: k in memberships ==> memberships[k] == if k in old(memberships) then old(memberships[k]) else rows[k]
    {
      memberships := rows + memberships;
    }

    method InsertMemberships()
      modifies this`memberships
      ensures MembershipsSeeded(Tables(), memberships)
    {
      memberships := map[];
      var rows := PrivilegedRows();
      Insert(rows);
      rows := ManagerRows();
      Insert(rows);
    }

    method Upgrade()
      requires !hasScope
      modifies this
      ensures Upgrades(old(Tables()), Tables())
    {
      tenants := DEFAULT_TENANTS;
      companies := DEFAULT_COMPANIES;
      userPlaces := Placed(roles.Keys);
      storePlaces := Placed(stores.Keys);
      AddLogStores();
      InsertMemberships();
      hasScope := true;
      SeedsBase(old(Tables()), Tables());
    }

    // Returns false, with nothing changed, where the migration raises.
    method Downgrade() returns (ok: bool)
      requires hasScope
      modifies this
      ensures ok == Accepts(old(Tables()))
      ensures Tables() == if ok then Downgraded(old(Tables())) else old(Tables())
      ensures ok ==> forall t :: t in old(tenants) ==> old(tenants)[t].code == "default"
      ensures ok ==> forall c :: c in old(companies) ==> old(companies)[c].code == "default"
    {
      var db := Tables();
      if !CodesUnique(stores) { return false; }
      if ScopedDataWouldBeLost(db.scope.value) { return false; }
      if MembershipsWouldBeLost(db, db.scope.value) { return false; }
      hasScope := false;
      logStores, memberships := map[], map[];
      storePlaces, userPlaces := map[], map[];
      companies, tenants := map[], map[];
      return true;
    }
  }
}
