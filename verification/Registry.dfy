/** The company deployment registry: companies, and two indexes over their profiles. */
module Registry {
  import opened Text

  datatype Profile = Profile(id: string, namespaceId: string)

  datatype Company = Company(companyId: string, useCases: seq<string>)

  datatype Entry = Entry(company: Company, profiles: seq<Profile>, byUseCase: map<string, Profile>)

  datatype Resolution = Resolution(company: Company, useCaseId: string, profile: Profile)

  datatype RegisterError =
    | DuplicateCompany | NotReady | ProfileNotProduced(useCaseId: string) | DuplicateProfileId | DuplicateNamespace

  /** One call: the company, and the profiles of its deployment unless the deployment or the adapter
      packs were rejected. */
  datatype Registration = Registration(company: Company, ready: Option<seq<Profile>>)

  datatype Indexes = Indexes(profiles: map<string, Resolution>, namespaces: map<string, Resolution>)

  datatype State = State(entries: map<string, Entry>, indexes: Indexes)

  const EMPTY := State(map[], Indexes(map[], map[]))

  function ProfileId(companyId: string, useCaseId: string): string { companyId + "." + useCaseId }

  /** The first profile with the id. */
  function FindProfile(profiles: seq<Profile>, id: string): (p: Option<Profile>)
    ensures p.Some? ==> p.value in profiles && p.value.id == id
    ensures p.None? ==> forall q :: q in profiles ==> q.id != id
  {
    if profiles == [] then None
    else if profiles[0].id == id then Some(profiles[0])
    else FindProfile(profiles[1..], id)
  }

  function ProfilesUpTo(company: Company, profiles: seq<Profile>, k: nat): Result<map<string, Profile>, RegisterError>
    requires k <= |company.useCases|
  {
    if k == 0 then Success(map[])
    else match ProfilesUpTo(company, profiles, k - 1)
         case Failure(error) => Failure(error)
         case Success(before) =>
           var useCase := company.useCases[k - 1];
           var profile := FindProfile(profiles, ProfileId(company.companyId, useCase));
           if profile.None? then Failure(ProfileNotProduced(useCase))
           else Success(before[useCase := profile.value])
  }

  // ---- Filling the indexes ----

  datatype Filling = Filling(indexes: Indexes, error: Option<RegisterError>)

  /** The profile index is written before the namespace is checked. */
  function Added(ix: Indexes, r: Resolution): Filling {
    if r.profile.id in ix.profiles then Filling(ix, Some(DuplicateProfileId))
    else
      var one := Indexes(ix.profiles[r.profile.id := r], ix.namespaces);
      if r.profile.namespaceId in ix.namespaces then Filling(one, Some(DuplicateNamespace))
      else Filling(Indexes(one.profiles, ix.namespaces[r.profile.namespaceId := r]), None)
  }

  function FilledUpTo(ix: Indexes, rs: seq<Resolution>, k: nat): Filling
    requires k <= |rs|
  {
    if k == 0 then Filling(ix, None)
    else
      var before := FilledUpTo(ix, rs, k - 1);
      if before.error.Some? then before else Added(before.indexes, rs[k - 1])
  }

  /** The map's entries, in the order in which their keys were first set. */
  function ResolutionsOf(company: Company, byUseCase: map<string, Profile>): (rs: seq<Resolution>)
    requires forall u :: u in company.useCases ==> u in byUseCase
    ensures |rs| == |Unique(company.useCases)|
    ensures forall i :: 0 <= i < |rs| ==>
      rs[i] == Resolution(company, Unique(company.useCases)[i], byUseCase[Unique(company.useCases)[i]])
  {
    var ids := Unique(company.useCases);
    seq(|ids|, i requires 0 <= i < |ids| => Resolution(company, ids[i], byUseCase[ids[i]]))
  }

  lemma {:induction false} ProfilesUpToKeys(company: Company, profiles: seq<Profile>, k: nat)
    requires k <= |company.useCases|
    ensures var r := ProfilesUpTo(company, profiles, k);
      r.Success? ==>
        && (forall u :: u in r.value <==> u in company.useCases[..k])
        && (forall u :: u in r.value ==> r.value[u].id == ProfileId(company.companyId, u))
  {
    hide ProfileId;
    if k > 0 {
      ProfilesUpToKeys(company, profiles, k - 1);
      assert company.useCases[..k] == company.useCases[..k - 1] + [company.useCases[k - 1]];
    }
  }

  lemma ProfilesKeys(company: Company, profiles: seq<Profile>)
    ensures var r := ProfilesUpTo(company, profiles, |company.useCases|);
      r.Success? ==>
        && (forall u :: u in r.value <==> u in company.useCases)
        && (forall u :: u in r.value ==> r.value[u].id == ProfileId(company.companyId, u))
  {
    hide ProfilesUpTo, ProfileId;
    ProfilesUpToKeys(company, profiles, |company.useCases|);
    assert company.useCases[..|company.useCases|] == company.useCases;
  }

  // ---- register ----

  datatype Outcome = Outcome(state: State, error: Option<RegisterError>)

  /** A failure while filling leaves what was written so far in the indexes. */
  function Registered(s: State, call: Registration): Outcome {
    var company := call.company;
    if company.companyId in s.entries then Outcome(s, Some(DuplicateCompany))
    else if call.ready.None? then Outcome(s, Some(NotReady))
    else match ProfilesUpTo(company, call.ready.value, |company.useCases|)
         case Failure(error) => Outcome(s, Some(error))
         case Success(byUseCase) =>
           ProfilesKeys(company, call.ready.value);
           var rs := ResolutionsOf(company, byUseCase);
           var filling := FilledUpTo(s.indexes, rs, |rs|);
           if filling.error.Some? then Outcome(s.(indexes := filling.indexes), filling.error)
           else Outcome(State(s.entries[company.companyId := Entry(company, call.ready.value, byUseCase)], filling.indexes), None)
  }

  datatype Lookup = Lookup(companyId: Option<string>, useCaseId: Option<string>, namespaceId: Option<string>, profileId: Option<string>)

  function Find<V>(m: map<string, V>, key: string): Option<V> {
    if key in m then Some(m[key]) else None
  }

  /** The profile id comes first, then company and use case, then the namespace. */
  function Resolved(s: State, lookup: Lookup): Option<Resolution> {
    if lookup.profileId.Some? then Find(s.indexes.profiles, lookup.profileId.value)
    else if lookup.companyId.Some? && lookup.useCaseId.Some? then
      var entry := Find(s.entries, lookup.companyId.value);
      if entry.None? then None
      else
        var profile := Find(entry.value.byUseCase, lookup.useCaseId.value);
        if profile.None? then None
        else Some(Resolution(entry.value.company, lookup.useCaseId.value, profile.value))
    else if lookup.namespaceId.Some? then Find(s.indexes.namespaces, lookup.namespaceId.value)
    else None
  }

  class CompanyDeploymentRegistry {
    var entries: map<string, Entry>
    var profileIndex: map<string, Resolution>
    var namespaceIndex: map<string, Resolution>

    constructor ()
      ensures Value() == EMPTY
    {
      entries, profileIndex, namespaceIndex := map[], map[], map[];
    }

    ghost function Value(): State
      reads this
    {
      State(entries, Indexes(profileIndex, namespaceIndex))
    }

    method Register(call: Registration) returns (error: Option<RegisterError>)
      modifies this
      ensures Outcome(Value(), error) == Registered(old(Value()), call)
    {
      hide ProfileId, Unique, Added;
      var company := call.company;
      if company.companyId in entries {
        return Some(DuplicateCompany);
      }
      if call.ready.None? {
        return Some(NotReady);
      }
      var profiles := CollectProfiles(company, call.ready.value);
      if profiles.Failure? {
        return Some(profiles.error);
      }
      var byUseCase := profiles.value;
      ProfilesKeys(company, call.ready.value);
      error := FillIndexes(ResolutionsOf(company, byUseCase));
      if error.None? {
        entries := entries[company.companyId := Entry(company, call.ready.value, byUseCase)];
      }
    }

    method FillIndexes(rs: seq<Resolution>) returns (error: Option<RegisterError>)
      modifies this
      ensures entries == old(entries)
      ensures Filling(Indexes(profileIndex, namespaceIndex), error)
           == FilledUpTo(Indexes(old(profileIndex), old(namespaceIndex)), rs, |rs|)
    {
      error := None;
      for k := 0 to |rs|
        invariant entries == old(entries)
        invariant Filling(Indexes(profileIndex, namespaceIndex), error)
               == FilledUpTo(Indexes(old(profileIndex), old(namespaceIndex)), rs, k)
      {
        if error.None? {
          error := AddUnique(rs[k]);
        }
      }
    }

    method AddUnique(r: Resolution) returns (error: Option<RegisterError>)
      modifies this
      ensures entries == old(entries)
      ensures Filling(Indexes(profileIndex, namespaceIndex), error)
           == Added(Indexes(old(profileIndex), old(namespaceIndex)), r)
    {
      if r.profile.id in profileIndex {
        return Some(DuplicateProfileId);
      }
      profileIndex := profileIndex[r.profile.id := r];
      if r.profile.namespaceId in namespaceIndex {
        return Some(DuplicateNamespace);
      }
      namespaceIndex := namespaceIndex[r.profile.namespaceId := r];
      return None;
    }

    method ResolveProfile(lookup: Lookup) returns (r: Option<Resolution>)
      ensures r == Resolved(Value(), lookup)
    {
      if lookup.profileId.Some? {
        return Find(profileIndex, lookup.profileId.value);
      }
      if lookup.companyId.Some? && lookup.useCaseId.Some? {
        var entry := Find(entries, lookup.companyId.value);
        if entry.None? {
          return None;
        }
        var profile := Find(entry.value.byUseCase, lookup.useCaseId.value);
        if profile.None? {
          return None;
        }
        return Some(Resolution(entry.value.company, lookup.useCaseId.value, profile.value));
      }
      if lookup.namespaceId.Some? {
        return Find(namespaceIndex, lookup.namespaceId.value);
      }
      return None;
    }
  }

  method CollectProfiles(company: Company, profiles: seq<Profile>) returns (result: Result<map<string, Profile>, RegisterError>)
    ensures result == ProfilesUpTo(company, profiles, |company.useCases|)
  {
    hide ProfileId;
    result := Success(map[]);
    for k := 0 to |company.useCases|
      invariant result == ProfilesUpTo(company, profiles, k)
    {
      if result.Success? {
        var useCase := company.useCases[k];
        var profile := FindProfile(profiles, ProfileId(company.companyId, useCase));
        result := if profile.None? then Failure(ProfileNotProduced(useCase)) else Success(result.value[useCase := profile.value]);
      }
    }
  }
}
