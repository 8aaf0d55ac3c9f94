/** Which model runs a job: resolution at submission, retargeting before execution
    and on retry. Health probes are answers from outside, possibly different every
    time one model is asked. */
module Registries {
  import opened Types
  import opened ModelCatalogs

  datatype ResolveError = Unknown(name: string) | Unavailable(model: string)

  datatype Outcome<+T> = Ok(value: T) | Err(error: ResolveError)

  datatype Resolution = Resolution(requested: string, resolved: string, fallbackUsed: bool, chain: seq<string>)

  datatype Health = Health(ok: bool, permanent: bool)

  predicate Usable(c: Catalog, chain: seq<string>, probe: nat -> bool, i: nat)
    requires i < |chain|
  {
    chain[i] in c.models && c.models[chain[i]].enabled && probe(i)
  }

  /** The first member of the chain that is enabled and answers healthy. */
  function FirstUsable(c: Catalog, chain: seq<string>, probe: nat -> bool, from: nat := 0): (r: Option<nat>)
    requires from <= |chain|
    ensures r.Some? ==> from <= r.value < |chain| && Usable(c, chain, probe, r.value)
    ensures r.Some? ==> forall i :: from <= i < r.value ==> !Usable(c, chain, probe, i)
    ensures r.None? ==> forall i :: from <= i < |chain| ==> !Usable(c, chain, probe, i)
    decreases |chain| - from
  {
    if from == |chain| then None
    else if Usable(c, chain, probe, from) then Some(from)
    else FirstUsable(c, chain, probe, from + 1)
  }

  function ResolvedGroup(c: Catalog, requested: string, group: string, probe: nat -> bool): Outcome<Resolution>
    requires group in c.groups
  {
    var chain := Chain(c.groups[group]);
    match FirstUsable(c, chain, probe)
    case Some(i) => Ok(Resolution(requested, chain[i], i > 0, chain))
    case None =>
      if chain[0] in c.models && c.models[chain[0]].enabled then Ok(Resolution(requested, chain[0], false, chain))
      else Err(Unavailable(group))
  }

  method ResolveGroup(c: Catalog, requested: string, group: string, probe: nat -> bool) returns (r: Outcome<Resolution>)
    requires group in c.groups && GroupOk(c, group)
    ensures r == ResolvedGroup(c, requested, group, probe)
  {
    var chain := Chain(c.groups[group]);
    for index := 0 to |chain|
      invariant FirstUsable(c, chain, probe) == FirstUsable(c, chain, probe, index)
    {
      assert chain[index] in chain;
      if c.models[chain[index]].enabled {
        if probe(index) {
          return Ok(Resolution(requested, chain[index], index > 0, chain));
        }
      }
    }
    if !c.models[chain[0]].enabled {
      return Err(Unavailable(group));
    }
    // The job stays on the primary; a later attempt resolves the group again.
    return Ok(Resolution(requested, chain[0], false, chain));
  }

  ghost function Resolved(c: Catalog, name: string, probe: nat -> bool): Outcome<Resolution> {
    match Followed(c.aliases, name)
    case None => Err(Unknown(name))
    case Some(target) =>
      if target in c.groups then ResolvedGroup(c, name, target, probe)
      else if target !in c.models then Err(Unknown(name))
      else if !c.models[target].enabled then Err(Unavailable(target))
      else Ok(Resolution(name, target, false, [target]))
  }

  /** Member i of the group the name stands for is enabled and answers healthy, and no
      member before it is and does. */
  ghost predicate Serves(c: Catalog, name: string, probe: nat -> bool, i: nat)
    requires NamesGroup(c, name)
  {
    var chain := MembersOf(c, name);
    i < |chain| && chain[i] in c.models && c.models[chain[i]].enabled && probe(i)
    && forall k :: 0 <= k < i && chain[k] in c.models && probe(k) ==> !c.models[chain[k]].enabled
  }

  ghost function MembersOf(c: Catalog, name: string): seq<string>
    requires NamesGroup(c, name)
  {
    var group := c.groups[Followed(c.aliases, name).value];
    [group.primary] + group.fallbacks
  }

  /** Every member is disabled, or answers unhealthy and is not the primary. */
  ghost predicate NobodyServes(c: Catalog, name: string, probe: nat -> bool)
    requires NamesGroup(c, name)
  {
    var chain := MembersOf(c, name);
    forall i :: 0 <= i < |chain| && chain[i] in c.models && c.models[chain[i]].enabled ==> i > 0 && !probe(i)
  }

  lemma ServersAreUsable(c: Catalog, name: string, probe: nat -> bool)
    requires CatalogOk(c) && NamesGroup(c, name)
    ensures var chain := MembersOf(c, name);
      match FirstUsable(c, chain, probe)
      case Some(n) => forall i: nat :: Serves(c, name, probe, i) <==> i == n
      case None => forall i: nat :: !Serves(c, name, probe, i)
  {
    var chain, first := MembersOf(c, name), FirstUsable(c, MembersOf(c, name), probe);
    hide CatalogOk, FirstUsable;
    assert forall k :: 0 <= k < |chain| ==>
      (chain[k] in c.models && c.models[chain[k]].enabled && probe(k) <==> Usable(c, chain, probe, k));
    forall i: nat ensures Serves(c, name, probe, i) <==> first == Some(i) {
      if first.Some? {
        assert Usable(c, chain, probe, first.value);
        assert i < first.value ==> !Usable(c, chain, probe, i);
      } else {
        assert i < |chain| ==> !Usable(c, chain, probe, i);
      }
    }
  }

  lemma GroupResolves(c: Catalog, name: string, probe: nat -> bool)
    requires CatalogOk(c) && NamesGroup(c, name)
    ensures var r, chain := Resolved(c, name, probe), MembersOf(c, name);
      && (forall i: nat :: Serves(c, name, probe, i) ==> r == Ok(Resolution(name, chain[i], i > 0, chain)))
      && (r.Ok? && (forall i: nat :: !Serves(c, name, probe, i)) ==> r == Ok(Resolution(name, chain[0], false, chain)))
  {
    var chain := MembersOf(c, name);
    assert chain == Chain(c.groups[Followed(c.aliases, name).value]) && chain != [];
    ServersAreUsable(c, name, probe);
    hide Serves, FirstUsable, CatalogOk;
    match FirstUsable(c, chain, probe)
    case Some(n) =>
      assert Serves(c, name, probe, n);
      assert Resolved(c, name, probe) == Ok(Resolution(name, chain[n], n > 0, chain));
    case None =>
      assert Resolved(c, name, probe).Ok? ==> Resolved(c, name, probe) == Ok(Resolution(name, chain[0], false, chain));
  }

  lemma NobodyResolves(c: Catalog, name: string, probe: nat -> bool)
    requires CatalogOk(c) && NamesGroup(c, name)
    ensures Resolved(c, name, probe).Err? <==> NobodyServes(c, name, probe)
  {
    var chain, first := MembersOf(c, name), FirstUsable(c, MembersOf(c, name), probe);
    hide FirstUsable;
    assert forall k :: 0 <= k < |chain| ==>
      (chain[k] in c.models && c.models[chain[k]].enabled && probe(k) <==> Usable(c, chain, probe, k));
    if first.None? && NobodyServes(c, name, probe) {
      assert !(chain[0] in c.models && c.models[chain[0]].enabled);
    }
  }

  /** A group is its first enabled healthy member, or its primary when that is enabled
      and no member is healthy; a model is itself, when enabled. */
  method Resolve(c: Catalog, name: string, probe: nat -> bool) returns (r: Outcome<Resolution>)
    requires CatalogOk(c)
    ensures r == Resolved(c, name, probe)
    ensures NamesGroup(c, name) ==> forall i: nat :: Serves(c, name, probe, i) ==>
      r == Ok(Resolution(name, MembersOf(c, name)[i], i > 0, MembersOf(c, name)))
    ensures NamesGroup(c, name) ==> (r.Err? <==> NobodyServes(c, name, probe))
    ensures NamesGroup(c, name) && r.Ok? && (forall i: nat :: !Serves(c, name, probe, i)) ==>
      r == Ok(Resolution(name, MembersOf(c, name)[0], false, MembersOf(c, name)))
    ensures !NamesGroup(c, name) && r.Ok? ==>
      Followed(c.aliases, name) == Some(r.value.resolved) && r.value.resolved in c.models
      && c.models[r.value.resolved].enabled && !r.value.fallbackUsed
    ensures !NamesGroup(c, name) && r.Err? ==>
      match Followed(c.aliases, name)
      case None => r.error == Unknown(name)
      case Some(model) => if model !in c.models then r.error == Unknown(name)
                          else !c.models[model].enabled && r.error == Unavailable(model)
  {
    if NamesGroup(c, name) {
      GroupResolves(c, name, probe);
      NobodyResolves(c, name, probe);
    }
    hide Serves, NobodyServes;
    var target := Follow(c.aliases, name);
    if target.None? {
      return Err(Unknown(name));
    }
    if target.value in c.groups {
      r := ResolveGroup(c, name, target.value, probe);
      return;
    }
    if target.value !in c.models {
      return Err(Unknown(name));
    }
    if !c.models[target.value].enabled {
      return Err(Unavailable(target.value));
    }
    return Ok(Resolution(name, target.value, false, [target.value]));
  }

  method IsGroup(c: Catalog, name: string) returns (r: bool)
    requires CatalogOk(c)
    ensures r <==> NamesGroup(c, name)
  {
    var target := Follow(c.aliases, name);
    r := target.Some? && target.value in c.groups;
  }

  ghost predicate NamesGroup(c: Catalog, name: string) {
    Followed(c.aliases, name).Some? && Followed(c.aliases, name).value in c.groups
  }

  // Fidelity

  /** The model is one the caller's name allows: the model it names, or a member of
      the group it names. */
  ghost predicate Faithful(c: Catalog, requested: string, model: string) {
    model in c.models
    && match Followed(c.aliases, requested)
       case None => false
       case Some(target) => if target in c.groups then model in Chain(c.groups[target]) else model == target
  }

  lemma ResolveIsFaithful(c: Catalog, name: string, probe: nat -> bool)
    requires CatalogOk(c) && Resolved(c, name, probe).Ok?
    ensures Faithful(c, name, Resolved(c, name, probe).value.resolved)
    ensures Resolved(c, name, probe).value.fallbackUsed ==> NamesGroup(c, name)
  {
  }

  /** A name that is no group always resolves to the same model. */
  lemma OnlyGroupsMove(c: Catalog, requested: string, a: string, b: string)
    requires Faithful(c, requested, a) && Faithful(c, requested, b) && !NamesGroup(c, requested)
    ensures a == b
  {
  }

  // Retargeting

  /** The model is an enabled member of the group the name stands for: the first one
      that answers healthy, or the primary when none does. */
  ghost predicate BestMember(c: Catalog, requested: string, probe: nat -> bool, model: string) {
    NamesGroup(c, requested)
    && var chain := Chain(c.groups[Followed(c.aliases, requested).value]);
       model in c.models && c.models[model].enabled
       && exists i :: 0 <= i < |chain| && chain[i] == model && FirstChoice(c, chain, probe, i)
  }

  /** The first usable member, or the first of all when there is none. */
  ghost predicate FirstChoice(c: Catalog, chain: seq<string>, probe: nat -> bool, i: nat)
    requires i < |chain|
  {
    (forall k :: 0 <= k < i ==> !Usable(c, chain, probe, k))
    && (Usable(c, chain, probe, i) || (i == 0 && forall k :: 0 <= k < |chain| ==> !Usable(c, chain, probe, k)))
  }

  lemma ResolvedIsBest(c: Catalog, requested: string, probe: nat -> bool)
    requires CatalogOk(c) && NamesGroup(c, requested) && Resolved(c, requested, probe).Ok?
    ensures BestMember(c, requested, probe, Resolved(c, requested, probe).value.resolved)
    ensures Faithful(c, requested, Resolved(c, requested, probe).value.resolved)
  {
  }

  /** There is one best member, unless nobody serves. */
  lemma BestIsOne(c: Catalog, requested: string, probe: nat -> bool)
    requires CatalogOk(c) && NamesGroup(c, requested)
    ensures forall m :: BestMember(c, requested, probe, m) ==>
      Resolved(c, requested, probe).Ok? && m == Resolved(c, requested, probe).value.resolved
  {
    var chain := Chain(c.groups[Followed(c.aliases, requested).value]);
    forall m | BestMember(c, requested, probe, m)
      ensures Resolved(c, requested, probe).Ok? && m == Resolved(c, requested, probe).value.resolved
    {
      var i :| 0 <= i < |chain| && chain[i] == m && FirstChoice(c, chain, probe, i);
      var resolution := Resolved(c, requested, probe);
      assert resolution.Ok?;
      var k :| 0 <= k < |chain| && chain[k] == resolution.value.resolved && FirstChoice(c, chain, probe, k) by {
        ResolvedIsBest(c, requested, probe);
      }
      ChoicesAgree(c, chain, probe, i, k);
    }
  }

  lemma ChoicesAgree(c: Catalog, chain: seq<string>, probe: nat -> bool, i: nat, k: nat)
    requires i < |chain| && k < |chain| && FirstChoice(c, chain, probe, i) && FirstChoice(c, chain, probe, k)
    ensures i == k
  {
  }

  datatype Target = Run(model: string) | Refuse

  /** Where a claimed job runs. own is the health of its model, again and after the
      two later probes of the model its group resolves to. */
  ghost function ExecutionTarget(c: Catalog, requested: string, resolved: string, own: Health, probe: nat -> bool,
                                 again: Health, after: Health): Target {
    if own.ok then Run(resolved)
    else if NamesGroup(c, requested) then
      match Resolved(c, requested, probe)
      case Err(_) => Refuse
      case Ok(resolution) =>
        if resolution.resolved != resolved && again.ok then Run(resolution.resolved)
        else if after.permanent then Refuse
        else if own.permanent then Refuse
        else Run(resolved)
    else if own.permanent then Refuse
    else Run(resolved)
  }

  method PickExecutionTarget(c: Catalog, requested: string, resolved: string, own: Health, probe: nat -> bool,
                             again: Health, after: Health)
    returns (r: Target)
    requires CatalogOk(c)
    ensures r == ExecutionTarget(c, requested, resolved, own, probe, again, after)
    ensures r.Run? && Faithful(c, requested, resolved) ==> Faithful(c, requested, r.model)
    ensures r.Run? && r.model != resolved ==> !own.ok && again.ok && BestMember(c, requested, probe, r.model)
    ensures own.ok ==> r == Run(resolved)
    ensures !own.ok && !NamesGroup(c, requested) ==> r == if own.permanent then Refuse else Run(resolved)
    ensures !own.ok && NamesGroup(c, requested) && NobodyServes(c, requested, probe) ==> r == Refuse
    ensures !own.ok && NamesGroup(c, requested) && !NobodyServes(c, requested, probe) ==>
      exists model :: BestMember(c, requested, probe, model)
    ensures !own.ok ==> forall model :: BestMember(c, requested, probe, model) ==>
      r == if model != resolved && again.ok then Run(model)
           else if after.permanent || own.permanent then Refuse else Run(resolved)
  {
    if own.ok {
      return Run(resolved);
    }
    var grouped := IsGroup(c, requested);
    if grouped {
      var resolution := Resolve(c, requested, probe);
      BestIsOne(c, requested, probe);
      if resolution.Err? {
        return Refuse;
      }
      ResolvedIsBest(c, requested, probe);
      if resolution.value.resolved != resolved && again.ok {
        return Run(resolution.value.resolved);
      }
      if after.permanent {
        return Refuse;
      }
    }
    if own.permanent {
      return Refuse;
    }
    return Run(resolved);
  }

  /** The model a retried job waits for. */
  ghost function RetryTarget(c: Catalog, requested: string, resolved: string, probe: nat -> bool): string {
    if !NamesGroup(c, requested) then resolved
    else
      match Resolved(c, requested, probe)
      case Err(_) => resolved
      case Ok(resolution) => resolution.resolved
  }

  lemma RetryIsBest(c: Catalog, requested: string, resolved: string, probe: nat -> bool)
    requires CatalogOk(c)
    ensures var r := RetryTarget(c, requested, resolved, probe);
      if NamesGroup(c, requested) && !NobodyServes(c, requested, probe) then BestMember(c, requested, probe, r)
      else r == resolved
  {
    hide CatalogOk, NobodyServes, BestMember, Resolved;
    if NamesGroup(c, requested) {
      NobodyResolves(c, requested, probe);
      if Resolved(c, requested, probe).Ok? {
        ResolvedIsBest(c, requested, probe);
      }
    }
  }

  method PickRetryTarget(c: Catalog, requested: string, resolved: string, probe: nat -> bool) returns (r: string)
    requires CatalogOk(c)
    ensures r == RetryTarget(c, requested, resolved, probe)
    ensures Faithful(c, requested, resolved) ==> Faithful(c, requested, r)
    ensures if NamesGroup(c, requested) && !NobodyServes(c, requested, probe) then BestMember(c, requested, probe, r)
            else r == resolved
  {
    RetryIsBest(c, requested, resolved, probe);
    var grouped := IsGroup(c, requested);
    if !grouped {
      return resolved;
    }
    var resolution := Resolve(c, requested, probe);
    if resolution.Err? {
      return resolved;
    }
    ResolvedIsBest(c, requested, probe);
    return resolution.value.resolved;
  }

  /** Whatever the probes answer, retargeting never leaves what the caller named. */
  lemma RetargetsAreFaithful(c: Catalog, requested: string, resolved: string, own: Health, probe: nat -> bool,
                             again: Health, after: Health)
    requires CatalogOk(c) && Faithful(c, requested, resolved)
    ensures var target := ExecutionTarget(c, requested, resolved, own, probe, again, after); target.Run? ==>
      Faithful(c, requested, target.model)
    ensures Faithful(c, requested, RetryTarget(c, requested, resolved, probe))
  {
  }

}
