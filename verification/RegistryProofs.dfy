/** The registry's indexes against a linear scan, over every run of registrations. */
module RegistryProofs {
  import opened Text
  import opened Registry

  /** The linear scan: a registered company has the use case, with this profile. */
  predicate IsRegistered(entries: map<string, Entry>, r: Resolution) {
    var id := r.company.companyId;
    && id in entries && entries[id].company == r.company
    && r.useCaseId in entries[id].byUseCase && entries[id].byUseCase[r.useCaseId] == r.profile
  }

  predicate IndexedIn(ix: Indexes, r: Resolution) {
    && Find(ix.profiles, r.profile.id) == Some(r)
    && Find(ix.namespaces, r.profile.namespaceId) == Some(r)
  }

  /** Entries are under their company's id and hold profiles named after company and use case. */
  ghost predicate Keyed(entries: map<string, Entry>) {
    forall id :: id in entries ==>
      && entries[id].company.companyId == id
      && forall u :: u in entries[id].byUseCase ==> entries[id].byUseCase[u].id == ProfileId(id, u)
  }

  /** Index entries are under their own keys, and every namespace's resolution is in the profile index. */
  ghost predicate IndexKeyed(ix: Indexes) {
    && (forall id :: id in ix.profiles ==>
          ix.profiles[id].profile.id == id == ProfileId(ix.profiles[id].company.companyId, ix.profiles[id].useCaseId))
    && (forall n :: n in ix.namespaces ==>
          ix.namespaces[n].profile.namespaceId == n && Find(ix.profiles, ix.namespaces[n].profile.id) == Some(ix.namespaces[n]))
  }

  /** The invariant of every run, failed calls included. */
  ghost predicate Consistent(s: State) {
    Keyed(s.entries) && IndexKeyed(s.indexes) && forall r :: IsRegistered(s.entries, r) ==> IndexedIn(s.indexes, r)
  }

  /** No index entry is an orphan. */
  ghost predicate Sound(s: State) {
    && (forall id :: id in s.indexes.profiles ==> IsRegistered(s.entries, s.indexes.profiles[id]))
    && (forall n :: n in s.indexes.namespaces ==> IsRegistered(s.entries, s.indexes.namespaces[n]))
  }

  ghost predicate Grows<K, V>(a: map<K, V>, b: map<K, V>) {
    forall k :: k in a ==> k in b && b[k] == a[k]
  }

  ghost predicate IndexGrows(a: Indexes, b: Indexes) { Grows(a.profiles, b.profiles) && Grows(a.namespaces, b.namespaces) }

  // ---- Filling ----

  /** The resolutions one registration adds: all of one company, named after their use cases. */
  ghost predicate Batch(company: Company, rs: seq<Resolution>) {
    && (forall i :: 0 <= i < |rs| ==>
          rs[i].company == company && rs[i].profile.id == ProfileId(company.companyId, rs[i].useCaseId))
  }

  lemma {:induction false} FillGrows(ix: Indexes, rs: seq<Resolution>, k: nat)
    requires k <= |rs|
    ensures IndexGrows(ix, FilledUpTo(ix, rs, k).indexes)
  {
    if k > 0 { FillGrows(ix, rs, k - 1); }
  }

  lemma {:induction false} FillIndexes(ix: Indexes, rs: seq<Resolution>, k: nat, i: nat)
    requires i < k <= |rs| && FilledUpTo(ix, rs, k).error.None?
    ensures IndexedIn(FilledUpTo(ix, rs, k).indexes, rs[i])
  {
    if i < k - 1 { FillIndexes(ix, rs, k - 1, i); }
  }

  lemma AddKeepsKeys(ix: Indexes, r: Resolution)
    requires IndexKeyed(ix) && r.profile.id == ProfileId(r.company.companyId, r.useCaseId)
    ensures IndexKeyed(Added(ix, r).indexes)
  {
    hide ProfileId;
  }

  lemma {:induction false} FillKeepsKeys(ix: Indexes, company: Company, rs: seq<Resolution>, k: nat)
    requires k <= |rs| && IndexKeyed(ix) && Batch(company, rs)
    ensures IndexKeyed(FilledUpTo(ix, rs, k).indexes)
  {
    hide ProfileId, IndexKeyed, Added;
    if k > 0 {
      FillKeepsKeys(ix, company, rs, k - 1);
      AddKeepsKeys(FilledUpTo(ix, rs, k - 1).indexes, rs[k - 1]);
    }
  }

  /** Whatever filling adds to an index comes from the batch. */
  lemma {:induction false} FillAdds(ix: Indexes, rs: seq<Resolution>, k: nat)
    requires k <= |rs|
    ensures var filled := FilledUpTo(ix, rs, k).indexes;
      && (forall id :: id in filled.profiles && id !in ix.profiles ==> filled.profiles[id] in rs)
      && (forall n :: n in filled.namespaces && n !in ix.namespaces ==> filled.namespaces[n] in rs)
  {
    if k > 0 { FillAdds(ix, rs, k - 1); }
  }

  /** Filling changes an index only by adding to the profile index. */
  lemma {:induction false} FillChanges(ix: Indexes, rs: seq<Resolution>, k: nat)
    requires k <= |rs|
    ensures var filled := FilledUpTo(ix, rs, k).indexes;
      filled == ix || exists id :: id in filled.profiles && id !in ix.profiles
  {
    if k > 0 {
      FillChanges(ix, rs, k - 1);
      FillGrows(FilledUpTo(ix, rs, k - 1).indexes, [rs[k - 1]], 0);
      var before, after := FilledUpTo(ix, rs, k - 1).indexes, FilledUpTo(ix, rs, k).indexes;
      if before == ix && after != ix {
        assert rs[k - 1].profile.id in after.profiles;
      } else if after != ix {
        var id :| id in before.profiles && id !in ix.profiles;
        assert id in after.profiles;
      }
    }
  }

  /** Filling fails from any later indexes if it failed from these. */
  lemma {:induction false} FillFailsAtFirst(ix: Indexes, rs: seq<Resolution>, k: nat)
    requires k <= |rs| && rs != [] && rs[0].profile.id in ix.profiles && k >= 1
    ensures FilledUpTo(ix, rs, k) == Filling(ix, Some(DuplicateProfileId))
  {
    if k > 1 {
      FillFailsAtFirst(ix, rs, k - 1);
    } else {
      assert FilledUpTo(ix, rs, 0) == Filling(ix, None);
    }
  }

  lemma {:induction false} FailureLeavesFirst(ix: Indexes, rs: seq<Resolution>, k: nat)
    requires 1 <= k <= |rs|
    ensures rs[0].profile.id in FilledUpTo(ix, rs, k).indexes.profiles
  {
    if k > 1 {
      FailureLeavesFirst(ix, rs, k - 1);
    } else {
      assert FilledUpTo(ix, rs, 0) == Filling(ix, None);
    }
  }

  function IdsUpTo(rs: seq<Resolution>, k: nat): set<string>
    requires k <= |rs|
  {
    if k == 0 then {} else IdsUpTo(rs, k - 1) + {rs[k - 1].profile.id}
  }

  function NamespacesUpTo(rs: seq<Resolution>, k: nat): set<string>
    requires k <= |rs|
  {
    if k == 0 then {} else NamespacesUpTo(rs, k - 1) + {rs[k - 1].profile.namespaceId}
  }

  /** The ids and namespaces of the first k of a batch are free, and none repeats an earlier one. */
  predicate FreshUpTo(ix: Indexes, rs: seq<Resolution>, k: nat)
    requires k <= |rs|
  {
    forall i :: 0 <= i < k ==>
      && rs[i].profile.id !in ix.profiles && rs[i].profile.id !in IdsUpTo(rs, i)
      && rs[i].profile.namespaceId !in ix.namespaces && rs[i].profile.namespaceId !in NamespacesUpTo(rs, i)
  }

  lemma {:induction false} FillKeys(ix: Indexes, rs: seq<Resolution>, k: nat)
    requires k <= |rs| && FilledUpTo(ix, rs, k).error.None?
    ensures FilledUpTo(ix, rs, k).indexes.profiles.Keys == ix.profiles.Keys + IdsUpTo(rs, k)
    ensures FilledUpTo(ix, rs, k).indexes.namespaces.Keys == ix.namespaces.Keys + NamespacesUpTo(rs, k)
  {
    if k > 0 { FillKeys(ix, rs, k - 1); }
  }

  /** Filling succeeds exactly when the batch is fresh. */
  lemma {:induction false} FillSucceedsIff(ix: Indexes, rs: seq<Resolution>, k: nat)
    requires k <= |rs|
    ensures FilledUpTo(ix, rs, k).error.None? <==> FreshUpTo(ix, rs, k)
  {
    hide IdsUpTo, NamespacesUpTo, Added;
    if k > 0 {
      FillSucceedsIff(ix, rs, k - 1);
      var before := FilledUpTo(ix, rs, k - 1);
      if before.error.None? {
        FillKeys(ix, rs, k - 1);
        AddSucceedsIff(before.indexes, rs[k - 1]);
      }
    }
  }

  lemma AddSucceedsIff(ix: Indexes, r: Resolution)
    ensures Added(ix, r).error.None? <==> r.profile.id !in ix.profiles.Keys && r.profile.namespaceId !in ix.namespaces.Keys
  {
  }

  // ---- One registration ----

  /** What a call will try to add, known before it runs: nothing when the company is registered, is not
      ready or lacks a profile. */
  function BatchFor(s: State, call: Registration): Option<seq<Resolution>> {
    var company := call.company;
    if company.companyId in s.entries || call.ready.None? then None
    else
      ProfilesKeys(company, call.ready.value);
      var found := ProfilesUpTo(company, call.ready.value, |company.useCases|);
      if found.Failure? then None else Some(ResolutionsOf(company, found.value))
  }

  ghost predicate Fills(s: State, call: Registration, rs: seq<Resolution>) { BatchFor(s, call) == Some(rs) }

  lemma BatchOfCall(s: State, call: Registration, rs: seq<Resolution>)
    requires Fills(s, call, rs)
    ensures Batch(call.company, rs)
    ensures var found := ProfilesUpTo(call.company, call.ready.value, |call.company.useCases|).value;
      forall u :: u in found ==> Resolution(call.company, u, found[u]) in rs
  {
    hide ProfileId, ProfilesUpTo;
    ProfilesKeys(call.company, call.ready.value);
    var found := ProfilesUpTo(call.company, call.ready.value, |call.company.useCases|).value;
    forall u | u in found ensures Resolution(call.company, u, found[u]) in rs {
      var ids := Unique(call.company.useCases);
      assert u in ids;
      var i :| 0 <= i < |ids| && ids[i] == u;
      assert rs[i] == Resolution(call.company, u, found[u]);
    }
  }

  predicate FailedFilling(s: State, call: Registration) {
    Registered(s, call).error in {Some(DuplicateProfileId), Some(DuplicateNamespace)}
  }

  lemma {:induction false} FoundErrors(company: Company, profiles: seq<Profile>, k: nat)
    requires k <= |company.useCases|
    ensures ProfilesUpTo(company, profiles, k).Failure? ==> ProfilesUpTo(company, profiles, k).error.ProfileNotProduced?
  {
    if k > 0 { FoundErrors(company, profiles, k - 1); }
  }

  /** A call either fails before filling and changes nothing, or fills. */
  lemma CallCases(s: State, call: Registration) returns (fills: bool, rs: seq<Resolution>)
    ensures !fills ==> Registered(s, call).state == s && Registered(s, call).error.Some? && !FailedFilling(s, call)
    ensures !fills ==> BatchFor(s, call).None?
    ensures fills ==> Fills(s, call, rs)
    ensures fills ==> Registered(s, call).error == FilledUpTo(s.indexes, rs, |rs|).error
    ensures fills ==> Registered(s, call).state.indexes == FilledUpTo(s.indexes, rs, |rs|).indexes
    ensures fills && Registered(s, call).error.Some? ==> Registered(s, call).state.entries == s.entries
    ensures fills && Registered(s, call).error.None? ==>
      Registered(s, call).state.entries
        == s.entries[call.company.companyId := Entry(call.company, call.ready.value,
                       ProfilesUpTo(call.company, call.ready.value, |call.company.useCases|).value)]
  {
    hide ProfilesUpTo, FilledUpTo;
    fills, rs := false, [];
    if call.company.companyId !in s.entries && call.ready.Some? {
      var found := ProfilesUpTo(call.company, call.ready.value, |call.company.useCases|);
      FoundErrors(call.company, call.ready.value, |call.company.useCases|);
      if found.Success? {
        ProfilesKeys(call.company, call.ready.value);
        fills, rs := true, ResolutionsOf(call.company, found.value);
      }
    }
  }

  lemma StepGrows(s: State, call: Registration)
    ensures Grows(s.entries, Registered(s, call).state.entries)
    ensures IndexGrows(s.indexes, Registered(s, call).state.indexes)
  {
    hide Registered, FilledUpTo, ProfilesUpTo;
    var fills, rs := CallCases(s, call);
    if fills {
      FillGrows(s.indexes, rs, |rs|);
    }
  }

  lemma NewEntryScan(entries: map<string, Entry>, company: Company, entry: Entry, r: Resolution)
    requires company.companyId !in entries && entry.company == company
    ensures IsRegistered(entries[company.companyId := entry], r) <==>
      IsRegistered(entries, r)
      || (r.company == company && r.useCaseId in entry.byUseCase && r.profile == entry.byUseCase[r.useCaseId])
  {
  }

  lemma GrownIndexed(a: Indexes, b: Indexes, r: Resolution)
    requires IndexGrows(a, b) && IndexedIn(a, r)
    ensures IndexedIn(b, r)
  {
  }

  /** Every call keeps the invariant, whether it succeeds, fails early or fails halfway. */
  lemma StepKeepsConsistent(s: State, call: Registration)
    requires Consistent(s)
    ensures Consistent(Registered(s, call).state)
  {
    hide Registered, FilledUpTo, ProfilesUpTo, ProfileId, IndexedIn, IsRegistered, Unique;
    var fills, rs := CallCases(s, call);
    if fills {
      var company, after := call.company, Registered(s, call).state;
      BatchOfCall(s, call, rs);
      FillKeepsKeys(s.indexes, company, rs, |rs|);
      FillGrows(s.indexes, rs, |rs|);
      ProfilesKeys(company, call.ready.value);
      forall r | IsRegistered(after.entries, r) ensures IndexedIn(after.indexes, r) {
        if IsRegistered(s.entries, r) {
          GrownIndexed(s.indexes, after.indexes, r);
        } else {
          NewEntryScan(s.entries, company, after.entries[company.companyId], r);
          var i :| 0 <= i < |rs| && rs[i] == r;
          FillIndexes(s.indexes, rs, |rs|, i);
        }
      }
    }
  }

  // ---- Runs ----

  function Run(calls: seq<Registration>): State {
    if calls == [] then EMPTY else Registered(Run(calls[..|calls| - 1]), calls[|calls| - 1]).state
  }

  lemma {:induction false} RunIsConsistent(calls: seq<Registration>)
    ensures Consistent(Run(calls))
  {
    hide Registered, Consistent;
    if calls == [] {
      EmptyIsConsistent();
    } else {
      RunIsConsistent(calls[..|calls| - 1]);
      StepKeepsConsistent(Run(calls[..|calls| - 1]), calls[|calls| - 1]);
    }
  }

  lemma EmptyIsConsistent()
    ensures Consistent(EMPTY) && Sound(EMPTY)
  {
  }

  /** After any run, failed calls included, each registered use case is found by its profile id, by
      its namespace and by company and use case, with the same resolution. */
  lemma RegisteredIsFoundThreeWays(calls: seq<Registration>, r: Resolution)
    requires IsRegistered(Run(calls).entries, r)
    ensures var s := Run(calls);
      && Resolved(s, Lookup(None, None, None, Some(r.profile.id))) == Some(r)
      && Resolved(s, Lookup(None, None, Some(r.profile.namespaceId), None)) == Some(r)
      && Resolved(s, Lookup(Some(r.company.companyId), Some(r.useCaseId), None, None)) == Some(r)
  {
    hide Run;
    RunIsConsistent(calls);
    assert IndexedIn(Run(calls).indexes, r);
  }

  // ---- Orphans ----

  /** The condition on the indexes before the call: the first profile id of its batch is free, but
      among all its ids and namespaces one is taken or repeated. */
  predicate LeavesBehind(s: State, call: Registration) {
    match BatchFor(s, call)
    case None => false
    case Some(rs) => rs != [] && rs[0].profile.id !in s.indexes.profiles && !FreshUpTo(s.indexes, rs, |rs|)
  }

  /** Exactly then the call fails after it has written something. */
  lemma LeavesBehindIff(s: State, call: Registration)
    ensures LeavesBehind(s, call) <==> Registered(s, call).error.Some? && Registered(s, call).state != s
  {
    hide Registered, FilledUpTo, FreshUpTo, BatchFor;
    var fills, rs := CallCases(s, call);
    if fills {
      FillSucceedsIff(s.indexes, rs, |rs|);
      if rs == [] {
        NothingToFill(s.indexes, rs);
      } else if rs[0].profile.id in s.indexes.profiles {
        FillFailsAtFirst(s.indexes, rs, |rs|);
      } else {
        FailureLeavesFirst(s.indexes, rs, |rs|);
      }
    }
  }

  lemma {:induction false} SuccessNeedsFreshIds(ix: Indexes, rs: seq<Resolution>, k: nat, i: nat)
    requires i < k <= |rs| && FilledUpTo(ix, rs, k).error.None?
    ensures rs[i].profile.id !in ix.profiles
  {
    if i < k - 1 {
      SuccessNeedsFreshIds(ix, rs, k - 1, i);
    } else {
      FillGrows(ix, rs, k - 1);
    }
  }

  lemma ScanSurvives(s: State, call: Registration, r: Resolution)
    requires IsRegistered(s.entries, r)
    ensures IsRegistered(Registered(s, call).state.entries, r)
  {
    hide Registered;
    StepGrows(s, call);
  }

  /** On a sound state a call leaves an orphan exactly under that condition. */
  lemma StepSoundIff(s: State, call: Registration)
    requires Consistent(s) && Sound(s)
    ensures Sound(Registered(s, call).state) <==> !LeavesBehind(s, call)
  {
    hide Registered, FilledUpTo, ProfilesUpTo, ProfileId, Unique, Consistent, LeavesBehind;
    LeavesBehindIff(s, call);
    var fills, rs := CallCases(s, call);
    var after := Registered(s, call).state;
    if fills {
      BatchOfCall(s, call, rs);
      FillAdds(s.indexes, rs, |rs|);
      FillGrows(s.indexes, rs, |rs|);
      if Registered(s, call).error.None? {
        SuccessIsSound(s, call, rs);
      } else if LeavesBehind(s, call) {
        FillChanges(s.indexes, rs, |rs|);
        var id :| id in after.indexes.profiles && id !in s.indexes.profiles;
        assert after.indexes.profiles[id] in rs;
        assert !IsRegistered(after.entries, after.indexes.profiles[id]);
      }
    }
  }

  lemma SuccessIsSound(s: State, call: Registration, rs: seq<Resolution>)
    requires Sound(s) && Fills(s, call, rs) && Registered(s, call).error.None?
    requires Registered(s, call).state.indexes == FilledUpTo(s.indexes, rs, |rs|).indexes
    ensures Sound(Registered(s, call).state)
  {
    var after := Registered(s, call).state;
    FillAdds(s.indexes, rs, |rs|);
    FillGrows(s.indexes, rs, |rs|);
    BatchIsRegistered(s, call, rs);
    hide Registered, FilledUpTo, ProfilesUpTo, Fills, Unique, IsRegistered;
    forall id | id in after.indexes.profiles ensures IsRegistered(after.entries, after.indexes.profiles[id]) {
      if id in s.indexes.profiles { ScanSurvives(s, call, s.indexes.profiles[id]); }
    }
    forall n | n in after.indexes.namespaces ensures IsRegistered(after.entries, after.indexes.namespaces[n]) {
      if n in s.indexes.namespaces { ScanSurvives(s, call, s.indexes.namespaces[n]); }
    }
  }

  lemma BatchIsRegistered(s: State, call: Registration, rs: seq<Resolution>)
    requires Fills(s, call, rs) && Registered(s, call).error.None?
    ensures forall r :: r in rs ==> IsRegistered(Registered(s, call).state.entries, r)
  {
    hide ProfilesUpTo, FilledUpTo, ProfileId, Registered, BatchFor;
    var fills, same := CallCases(s, call);
    BatchRegisters(s, call, rs, Registered(s, call).state.entries);
  }

  lemma BatchRegisters(s: State, call: Registration, rs: seq<Resolution>, entries: map<string, Entry>)
    requires Fills(s, call, rs)
    requires entries == s.entries[call.company.companyId := Entry(call.company, call.ready.value,
                          ProfilesUpTo(call.company, call.ready.value, |call.company.useCases|).value)]
    ensures forall r :: r in rs ==> IsRegistered(entries, r)
  {
    ProfilesKeys(call.company, call.ready.value);
    hide ProfilesUpTo, ProfileId, Unique;
  }

  /** An orphan is never adopted: its profile id is taken, so no later call can register it. */
  lemma OrphansStay(s: State, call: Registration)
    requires Consistent(s) && !Sound(s)
    ensures !Sound(Registered(s, call).state)
  {
    hide Registered, FilledUpTo, ProfilesUpTo, ProfileId, Unique, IsRegistered;
    var r := OrphanOf(s);
    var after := Registered(s, call).state;
    StepGrows(s, call);
    assert after.indexes.profiles[r.profile.id] == r;
    if IsRegistered(after.entries, r) {
      var fills, rs := CallCases(s, call);
      NewEntryScan(s.entries, call.company, after.entries[call.company.companyId], r);
      BatchOfCall(s, call, rs);
      var i :| 0 <= i < |rs| && rs[i] == r;
      SuccessNeedsFreshIds(s.indexes, rs, |rs|, i);
      assert false;
    }
  }

  lemma OrphanOf(s: State) returns (r: Resolution)
    requires Consistent(s) && !Sound(s)
    ensures Find(s.indexes.profiles, r.profile.id) == Some(r) && !IsRegistered(s.entries, r)
  {
    hide IsRegistered, ProfileId;
    if exists id :: id in s.indexes.profiles && !IsRegistered(s.entries, s.indexes.profiles[id]) {
      var id :| id in s.indexes.profiles && !IsRegistered(s.entries, s.indexes.profiles[id]);
      r := s.indexes.profiles[id];
    } else {
      var n :| n in s.indexes.namespaces && !IsRegistered(s.entries, s.indexes.namespaces[n]);
      r := s.indexes.namespaces[n];
    }
  }

  /** After any run every index entry belongs to a registered company exactly when no call of the run
      met the condition on the indexes it found. */
  lemma {:induction false} RunSoundIff(calls: seq<Registration>)
    ensures Sound(Run(calls)) <==> forall i :: 0 <= i < |calls| ==> !LeavesBehind(Run(calls[..i]), calls[i])
  {
    hide Registered, Sound, LeavesBehind;
    if calls == [] {
      EmptyIsConsistent();
    } else {
      var before, last := calls[..|calls| - 1], calls[|calls| - 1];
      RunSoundIff(before);
      RunIsConsistent(before);
      if Sound(Run(before)) {
        StepSoundIff(Run(before), last);
      } else {
        OrphansStay(Run(before), last);
      }
      hide Run, Consistent;
      assert forall i :: 0 <= i < |before| ==> before[..i] == calls[..i] && before[i] == calls[i];
      assert calls[..|before|] == before;
    }
  }

  /** Two companies of one use case each that share a namespace: the second is not registered, but
      its profile id is found. */
  lemma SharedNamespaceLeavesOrphan(a: string, b: string, u: string, v: string, namespaceId: string)
    requires a != b && ProfileId(a, u) != ProfileId(b, v)
    ensures var first := Registration(Company(a, [u]), Some([Profile(ProfileId(a, u), namespaceId)]));
      var second := Registration(Company(b, [v]), Some([Profile(ProfileId(b, v), namespaceId)]));
      var s := Run([first, second]);
      && b !in s.entries && !Sound(s)
      && Resolved(s, Lookup(None, None, None, Some(ProfileId(b, v)))).Some?
  {
    hide ProfileId, Sound;
    var first := Registration(Company(a, [u]), Some([Profile(ProfileId(a, u), namespaceId)]));
    var second := Registration(Company(b, [v]), Some([Profile(ProfileId(b, v), namespaceId)]));
    SingleRegistration(EMPTY, a, u, namespaceId);
    assert [first][..0] == [] && [first, second][..1] == [first];
    assert Run([]) == EMPTY;
    var s := Run([first]);
    assert s == Registered(EMPTY, first).state;
    hide Registered, LeavesBehind;
    assert s.entries.Keys == {a} && s.indexes.profiles.Keys == {ProfileId(a, u)};
    SingleRegistration(s, b, v, namespaceId);
    EmptyIsConsistent();
    RunIsConsistent([first]);
    StepSoundIff(EMPTY, first);
    StepSoundIff(s, second);
  }

  /** What a company of one use case does to any state it is new to. */
  lemma SingleRegistration(s: State, company: string, useCase: string, namespaceId: string)
    requires company !in s.entries && ProfileId(company, useCase) !in s.indexes.profiles
    ensures var profile := Profile(ProfileId(company, useCase), namespaceId);
      var call, r := Registration(Company(company, [useCase]), Some([profile])), Resolution(Company(company, [useCase]), useCase, profile);
      && Registered(s, call).state.indexes.profiles == s.indexes.profiles[profile.id := r]
      && (LeavesBehind(s, call) <==> namespaceId in s.indexes.namespaces)
      && (namespaceId in s.indexes.namespaces ==> Registered(s, call).state.entries == s.entries)
      && (namespaceId !in s.indexes.namespaces ==>
            && Registered(s, call).state.indexes.namespaces == s.indexes.namespaces[namespaceId := r]
            && Registered(s, call).state.entries.Keys == s.entries.Keys + {company})
  {
    hide ProfileId;
    var profile := Profile(ProfileId(company, useCase), namespaceId);
    var c, r := Company(company, [useCase]), Resolution(Company(company, [useCase]), useCase, profile);
    assert ProfilesUpTo(c, [profile], 0) == Success(map[]);
    assert ProfilesUpTo(c, [profile], 1) == Success(map[useCase := profile]);
    assert Unique([useCase]) == [useCase] by { assert [useCase][..0] == [] && Unique([]) == []; }
    var rs := ResolutionsOf(c, map[useCase := profile]);
    assert rs == [r];
    assert FilledUpTo(s.indexes, rs, 0) == Filling(s.indexes, None);
    assert FilledUpTo(s.indexes, rs, 1) == Added(s.indexes, r);
  }

  // ---- No second chance ----

  lemma NothingToFill(ix: Indexes, rs: seq<Resolution>)
    ensures rs == [] ==> FilledUpTo(ix, rs, |rs|) == Filling(ix, None)
  {
  }

  /** A taken profile id keeps its company from being registered with its use case. */
  lemma TakenIdBlocks(s: State, call: Registration, useCaseId: string)
    requires useCaseId in call.company.useCases && ProfileId(call.company.companyId, useCaseId) in s.indexes.profiles
    ensures Registered(s, call).error.Some?
  {
    hide Registered, FilledUpTo, ProfilesUpTo, ProfileId, Unique;
    var fills, rs := CallCases(s, call);
    if fills && Registered(s, call).error.None? {
      BatchOfCall(s, call, rs);
      ProfilesKeys(call.company, call.ready.value);
      var found := ProfilesUpTo(call.company, call.ready.value, |call.company.useCases|).value;
      var i :| 0 <= i < |rs| && rs[i] == Resolution(call.company, useCaseId, found[useCaseId]);
      SuccessNeedsFreshIds(s.indexes, rs, |rs|, i);
      assert false;
    }
  }

  lemma {:induction false} RunGrows(calls: seq<Registration>, more: seq<Registration>)
    ensures IndexGrows(Run(calls).indexes, Run(calls + more).indexes)
  {
    hide Registered;
    if more == [] {
      assert calls + more == calls;
    } else {
      var before := calls + more[..|more| - 1];
      RunGrows(calls, more[..|more| - 1]);
      assert (calls + more)[..|calls + more| - 1] == before;
      StepGrows(Run(before), more[|more| - 1]);
    }
  }

  /** However the run goes on, no call can register the company of an index entry, an orphan's above
      all, with the use case of that entry. */
  lemma IndexEntryBlocks(calls: seq<Registration>, more: seq<Registration>, r: Resolution, call: Registration)
    requires Find(Run(calls).indexes.profiles, r.profile.id) == Some(r)
    requires call.company.companyId == r.company.companyId && r.useCaseId in call.company.useCases
    ensures Registered(Run(calls + more), call).error.Some?
  {
    hide Run, Registered, ProfileId;
    RunIsConsistent(calls);
    RunGrows(calls, more);
    TakenIdBlocks(Run(calls + more), call, r.useCaseId);
  }

  /** After a registration that failed while filling, every later call for the company that has its
      first use case fails too. */
  lemma FailedFillingIsFinal(calls: seq<Registration>, call: Registration, more: seq<Registration>, again: Registration)
    requires FailedFilling(Run(calls), call)
    requires again.company.companyId == call.company.companyId
    requires call.company.useCases != [] ==> call.company.useCases[0] in again.company.useCases
    ensures Registered(Run(calls + [call] + more), again).error.Some?
  {
    hide Registered, ProfileId, Unique, IndexGrows;
    var s := Run(calls);
    FirstIdTaken(s, call);
    RunGrows(calls + [call], more);
    assert (calls + [call])[..|calls|] == calls;
    assert Run(calls + [call]) == Registered(s, call).state;
    IdStaysTaken(Run(calls + [call]).indexes, Run(calls + [call] + more).indexes,
                 ProfileId(call.company.companyId, call.company.useCases[0]));
    hide Run;
    TakenIdBlocks(Run(calls + [call] + more), again, call.company.useCases[0]);
  }

  lemma IdStaysTaken(a: Indexes, b: Indexes, id: string)
    requires IndexGrows(a, b) && id in a.profiles
    ensures id in b.profiles
  {
  }

  lemma FirstIdTaken(s: State, call: Registration)
    requires FailedFilling(s, call)
    ensures call.company.useCases != []
    ensures ProfileId(call.company.companyId, call.company.useCases[0]) in Registered(s, call).state.indexes.profiles
  {
    var fills, rs := CallCases(s, call);
    hide ProfileId, ProfilesUpTo, FilledUpTo, Registered;
    NothingToFill(s.indexes, rs);
    assert rs != [];
    BatchOfCall(s, call, rs);
    FirstIsFirst(call.company.useCases);
    FailureLeavesFirst(s.indexes, rs, |rs|);
  }

  lemma {:induction false} FirstIsFirst(ids: seq<string>)
    ensures ids == [] <==> Unique(ids) == []
    ensures ids != [] ==> Unique(ids)[0] == ids[0]
  {
    if |ids| > 1 { FirstIsFirst(ids[..|ids| - 1]); }
  }
}
