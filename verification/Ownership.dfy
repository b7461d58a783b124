// Who owns a task, and which ownership sources the daily scheduler trusts
// (backend/task_center_ownership.py; backend/worker.py, run_daily_scheduler).
module Ownership {
  import opened Options

  // The five ownership columns of a task and its canonical run. The same record serves as the
  // ownership dictionary a queue item carries.
  datatype Owner = Owner(tenant: Option<int>, company: Option<int>, requester: Option<int>,
                         storeScope: Option<string>, scopeKey: Option<string>,
                         canonicalRun: Option<string>)
  {
    predicate Complete() {
      && tenant.Some? && company.Some? && requester.Some?
      && storeScope.Some? && storeScope.value != ""
      && scopeKey.Some? && scopeKey.value != ""
    }

    predicate SameFields(o: Owner) {
      && tenant == o.tenant && company == o.company && requester == o.requester
      && storeScope == o.storeScope && scopeKey == o.scopeKey
    }
  }

  // task_ownership_context; None stands for the ValueError.
  function ContextOf(task: Owner): Option<Owner> {
    if task.Complete() then Some(task) else None
  }

  // bind_task_ownership_from_task; None stands for the ValueError.
  function BoundFrom(parent: Owner): Option<Owner> {
    match ContextOf(parent)
    case None => None
    case Some(c) => Some(c.(canonicalRun := None))
  }

  // owned_task_from_context_or_none on the row it looks at. A missing claim is one that is not a
  // dictionary of exactly the expected keys. A NULL column equals no claimed value.
  predicate OwnedBy(row: Owner, claim: Option<Owner>) {
    && claim.Some?
    && claim.value.Complete()
    && row.SameFields(claim.value)
    && row.canonicalRun == claim.value.canonicalRun
  }

  // A claim opens a row exactly when it is the row's own ownership context.
  lemma OwnedIffOwnContext(row: Owner, claim: Option<Owner>)
    ensures OwnedBy(row, claim) <==> claim.Some? && ContextOf(row) == claim
  {
  }

  // The five fields are there and neither text is empty.
  predicate Whole(o: Owner) {
    && o.tenant != None && o.company != None && o.requester != None
    && o.storeScope != None && o.storeScope != Some("") && o.scopeKey != None && o.scopeKey != Some("")
  }

  // So a claim opens a row exactly when it repeats the row's whole record; nothing opens a row that lacks a field.
  lemma OpensExactly(row: Owner, claim: Option<Owner>)
    ensures OwnedBy(row, claim) <==> Whole(row) && claim == Some(row)
  {
  }

  // A spawned task inherits all five fields, drops the canonical run, and is opened by the context
  // queued with it.
  lemma BoundIsOwned(parent: Owner)
    ensures BoundFrom(parent).Some? <==> parent.Complete()
    ensures BoundFrom(parent).Some? ==>
              var child := BoundFrom(parent).value;
              child.SameFields(parent) && child.canonicalRun == None && OwnedBy(child, ContextOf(child))
  {
  }

  // What resolve_graph_ownership returns for an active user.
  datatype Scope = Scope(tenant: int, company: int, requester: int, storeScope: string, scopeKey: string)

  datatype Source = Source(id: nat, owner: Owner)

  predicate Claims(s: Source, key: string) {
    s.owner.Complete() && s.owner.scopeKey.value == key
  }

  // The requester is active and all five fields are what the requester's scope resolves to now.
  predicate Confirmed(s: Source, scopes: map<int, Scope>)
    requires s.owner.Complete()
  {
    && s.owner.requester.value in scopes
    && var scope := scopes[s.owner.requester.value];
       s.owner.SameFields(Owner(Some(scope.tenant), Some(scope.company), Some(scope.requester),
                                Some(scope.storeScope), Some(scope.scopeKey), None))
  }

  // The scheduler may act for a scope: somebody claims it, and all who claim it are confirmed and agree.
  ghost predicate Trusted(sources: seq<Source>, scopes: map<int, Scope>, key: string) {
    && (exists i :: 0 <= i < |sources| && Claims(sources[i], key))
    && (forall i :: 0 <= i < |sources| && Claims(sources[i], key) ==> Confirmed(sources[i], scopes))
    && (forall i, j :: 0 <= i < |sources| && 0 <= j < |sources| && Claims(sources[i], key) && Claims(sources[j], key)
          ==> sources[i].owner == sources[j].owner)
  }

  // All five fields are what the scope of the requester they name resolves to now.
  predicate Current(o: Owner, scopes: map<int, Scope>) {
    && o.requester.Some? && o.requester.value in scopes
    && var scope := scopes[o.requester.value];
       && o.tenant == Some(scope.tenant) && o.company == Some(scope.company) && o.requester == Some(scope.requester)
       && o.storeScope == Some(scope.storeScope) && o.scopeKey == Some(scope.scopeKey)
  }

  // What it takes to be trusted, field by field.
  lemma TrustedExactly(sources: seq<Source>, scopes: map<int, Scope>, key: string)
    ensures Trusted(sources, scopes, key) <==>
              && (exists i :: 0 <= i < |sources| && Whole(sources[i].owner) && sources[i].owner.scopeKey == Some(key))
              && (forall i :: 0 <= i < |sources| && Whole(sources[i].owner) && sources[i].owner.scopeKey == Some(key) ==>
                    Current(sources[i].owner, scopes))
              && (forall i, j :: 0 <= i < |sources| && 0 <= j < |sources|
                                 && Whole(sources[i].owner) && sources[i].owner.scopeKey == Some(key)
                                 && Whole(sources[j].owner) && sources[j].owner.scopeKey == Some(key) ==>
                    sources[i].owner == sources[j].owner)
  {
    forall i | 0 <= i < |sources|
      ensures Claims(sources[i], key) <==> Whole(sources[i].owner) && sources[i].owner.scopeKey == Some(key)
      ensures Claims(sources[i], key) ==> (Confirmed(sources[i], scopes) <==> Current(sources[i].owner, scopes))
    {
    }
  }

  // What the selection loop knows after the first n sources.
  ghost predicate Collected(sources: seq<Source>, scopes: map<int, Scope>, n: nat,
                            valid: map<string, Source>, invalid: set<string>)
    requires n <= |sources|
  {
    && (forall key :: key in valid ==> FirstConfirmed(sources, scopes, n, key, valid[key]))
    && (forall i :: 0 <= i < n && sources[i].owner.Complete() ==> Placed(sources[i], scopes, valid, invalid))
    && (forall key :: key in invalid ==> !Trusted(sources, scopes, key))
  }

  // s is among the first n sources, is a confirmed claim on key, and no claim on key has a lower id.
  ghost predicate FirstConfirmed(sources: seq<Source>, scopes: map<int, Scope>, n: nat, key: string, s: Source)
    requires n <= |sources|
  {
    && Claims(s, key) && Confirmed(s, scopes)
    && s in sources[..n]
    && forall i :: 0 <= i < n && Claims(sources[i], key) && Confirmed(sources[i], scopes) ==> s.id <= sources[i].id
  }

  // A complete source either discredits its scope or agrees with the source kept for it.
  ghost predicate Placed(s: Source, scopes: map<int, Scope>, valid: map<string, Source>, invalid: set<string>)
    requires s.owner.Complete()
  {
    var key := s.owner.scopeKey.value;
    && (Confirmed(s, scopes) ==> key in valid)
    && (key in invalid || (Confirmed(s, scopes) && key in valid && valid[key].owner == s.owner))
  }

  // The selection loop of the scheduler. `scopes` holds the resolved scope of every active requester;
  // `sources` comes ordered by id.
  method SelectSources(sources: seq<Source>, scopes: map<int, Scope>) returns (kept: map<string, Source>)
    requires forall i, j :: 0 <= i < j < |sources| ==> sources[i].id < sources[j].id
    ensures forall key :: key in kept <==> Trusted(sources, scopes, key)
    ensures forall key :: key in kept ==> kept[key] in sources && Claims(kept[key], key)
    ensures forall key, i :: key in kept && 0 <= i < |sources| && Claims(sources[i], key) ==> kept[key].id <= sources[i].id
  {
    var valid: map<string, Source> := map[];
    var invalid: set<string> := {};
    for n := 0 to |sources|
      invariant Collected(sources, scopes, n, valid, invalid)
    {
      var source := sources[n];
      ghost var valid0, invalid0 := valid, invalid;
      if source.owner.Complete() {
        var claimed := source.owner.scopeKey.value;
        if source.owner.requester.value !in scopes {
          invalid := invalid + {claimed};
        } else if !Confirmed(source, scopes) {
          invalid := invalid + {claimed};
        } else if claimed in valid && ContextOf(valid[claimed].owner) != ContextOf(source.owner) {
          invalid := invalid + {claimed};
        } else if claimed !in valid {
          valid := valid[claimed := source];
        }
      }
      CollectedStep(sources, scopes, n, valid0, invalid0, valid, invalid);
    }
    kept := DropAll(valid, invalid);
    forall key ensures key in kept <==> Trusted(sources, scopes, key) {
      TrustedIffKept(sources, scopes, valid, invalid, key);
    }
  }

  // One round of the loop, as a relation on the two collections.
  ghost predicate Round(s: Source, scopes: map<int, Scope>, valid: map<string, Source>, invalid: set<string>,
                        valid': map<string, Source>, invalid': set<string>)
  {
    if !s.owner.Complete() then valid' == valid && invalid' == invalid
    else
      var key := s.owner.scopeKey.value;
      if !Confirmed(s, scopes) || (key in valid && valid[key].owner != s.owner)
      then valid' == valid && invalid' == invalid + {key}
      else invalid' == invalid && valid' == if key in valid then valid else valid[key := s]
  }

  lemma CollectedStep(sources: seq<Source>, scopes: map<int, Scope>, n: nat,
                      valid: map<string, Source>, invalid: set<string>,
                      valid': map<string, Source>, invalid': set<string>)
    requires n < |sources| && forall i, j :: 0 <= i < j < |sources| ==> sources[i].id < sources[j].id
    requires Collected(sources, scopes, n, valid, invalid)
    requires Round(sources[n], scopes, valid, invalid, valid', invalid')
    ensures Collected(sources, scopes, n + 1, valid', invalid')
  {
    forall key | key in valid' ensures FirstConfirmed(sources, scopes, n + 1, key, valid'[key]) {
      StillFirst(sources, scopes, n, valid, invalid, valid', invalid', key);
    }
    forall i | 0 <= i < n + 1 && sources[i].owner.Complete() ensures Placed(sources[i], scopes, valid', invalid') {
      if i < n { StillPlaced(sources[i], scopes, sources[n], valid, invalid, valid', invalid'); }
    }
    forall key | key in invalid' && key !in invalid ensures !Trusted(sources, scopes, key) {
      Discredited(sources, scopes, n, valid, invalid, key);
    }
  }

  lemma StillFirst(sources: seq<Source>, scopes: map<int, Scope>, n: nat,
                   valid: map<string, Source>, invalid: set<string>,
                   valid': map<string, Source>, invalid': set<string>, key: string)
    requires n < |sources| && forall i, j :: 0 <= i < j < |sources| ==> sources[i].id < sources[j].id
    requires Collected(sources, scopes, n, valid, invalid)
    requires Round(sources[n], scopes, valid, invalid, valid', invalid') && key in valid'
    ensures FirstConfirmed(sources, scopes, n + 1, key, valid'[key])
  {
    assert sources[..n + 1] == sources[..n] + [sources[n]];
    if key in valid {
      assert FirstConfirmed(sources, scopes, n, key, valid[key]);
      var j :| 0 <= j < n && sources[j] == valid[key];
    } else {
      forall i | 0 <= i < n && Claims(sources[i], key) ensures !Confirmed(sources[i], scopes) {
        assert Placed(sources[i], scopes, valid, invalid);
      }
    }
  }

  lemma StillPlaced(s: Source, scopes: map<int, Scope>, newcomer: Source,
                    valid: map<string, Source>, invalid: set<string>,
                    valid': map<string, Source>, invalid': set<string>)
    requires s.owner.Complete() && Placed(s, scopes, valid, invalid)
    requires Round(newcomer, scopes, valid, invalid, valid', invalid')
    ensures Placed(s, scopes, valid', invalid')
  {
  }

  lemma Discredited(sources: seq<Source>, scopes: map<int, Scope>, n: nat,
                    valid: map<string, Source>, invalid: set<string>, key: string)
    requires n < |sources| && Collected(sources, scopes, n, valid, invalid)
    requires Claims(sources[n], key)
    requires !Confirmed(sources[n], scopes) || (key in valid && valid[key].owner != sources[n].owner)
    ensures !Trusted(sources, scopes, key)
  {
    if Confirmed(sources[n], scopes) {
      assert FirstConfirmed(sources, scopes, n, key, valid[key]);
      var j :| 0 <= j < n && sources[j] == valid[key];
    }
  }

  lemma TrustedIffKept(sources: seq<Source>, scopes: map<int, Scope>, valid: map<string, Source>, invalid: set<string>, key: string)
    requires Collected(sources, scopes, |sources|, valid, invalid)
    ensures key in valid && key !in invalid <==> Trusted(sources, scopes, key)
  {
    if key in valid && key !in invalid {
      assert FirstConfirmed(sources, scopes, |sources|, key, valid[key]);
      forall i | 0 <= i < |sources| && Claims(sources[i], key)
        ensures Confirmed(sources[i], scopes) && sources[i].owner == valid[key].owner
      {
        assert Placed(sources[i], scopes, valid, invalid);
      }
    }
    if Trusted(sources, scopes, key) {
      var i :| 0 <= i < |sources| && Claims(sources[i], key);
      assert Placed(sources[i], scopes, valid, invalid);
    }
  }

  // The loop that pops every discredited scope.
  method DropAll(valid: map<string, Source>, invalid: set<string>) returns (kept: map<string, Source>)
    ensures kept == map key | key in valid && key !in invalid :: valid[key]
  {
    kept := valid;
    var rest := invalid;
    while rest != {}
      invariant rest <= invalid
      invariant kept == map key | key in valid && key !in invalid - rest :: valid[key]
    {
      var key :| key in rest;
      kept := kept - {key};
      rest := rest - {key};
    }
  }
}
