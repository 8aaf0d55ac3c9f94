/** Configured models, aliases and groups: when the configuration is accepted, and
    where a name leads. */
module ModelCatalogs {
  import opened Types

  datatype ModelSpec = ModelSpec(enabled: bool, adapter: string, endpoint: Option<string>)

  datatype Group = Group(primary: string, fallbacks: seq<string>)

  datatype Catalog = Catalog(models: map<string, ModelSpec>, aliases: map<string, string>, groups: map<string, Group>)

  function Chain(group: Group): seq<string> {
    [group.primary] + group.fallbacks
  }

  // Following aliases

  /** The name after n renames; a name that is no alias stays. */
  function Walk(aliases: map<string, string>, name: string, n: nat): string {
    if n == 0 then name
    else
      var last := Walk(aliases, name, n - 1);
      if last in aliases then aliases[last] else last
  }

  ghost predicate EndsAfter(aliases: map<string, string>, name: string, n: nat) {
    Walk(aliases, name, n) !in aliases
  }

  ghost predicate Ends(aliases: map<string, string>, name: string) {
    exists n: nat :: EndsAfter(aliases, name, n)
  }

  /** Where the name leads, unless it goes round in a cycle. */
  ghost function Followed(aliases: map<string, string>, name: string): Option<string> {
    if Ends(aliases, name) then
      var n: nat :| EndsAfter(aliases, name, n);
      Some(Walk(aliases, name, n))
    else None
  }

  lemma {:induction false} StaysAtEnd(aliases: map<string, string>, name: string, n: nat, m: nat)
    requires EndsAfter(aliases, name, n) && n <= m
    ensures Walk(aliases, name, m) == Walk(aliases, name, n)
    decreases m
  {
    if n < m {
      StaysAtEnd(aliases, name, n, m - 1);
    }
  }

  lemma FollowedIs(aliases: map<string, string>, name: string, n: nat)
    requires EndsAfter(aliases, name, n)
    ensures Followed(aliases, name) == Some(Walk(aliases, name, n))
  {
    assert Ends(aliases, name);
    var m: nat :| EndsAfter(aliases, name, m) && Followed(aliases, name) == Some(Walk(aliases, name, m));
    if n <= m {
      StaysAtEnd(aliases, name, n, m);
    } else {
      StaysAtEnd(aliases, name, m, n);
    }
  }

  /** Two visits to one alias mean the walk never ends. */
  lemma {:induction false} CycleNeverEnds(aliases: map<string, string>, name: string, i: nat, j: nat, n: nat)
    requires i < j && Walk(aliases, name, i) == Walk(aliases, name, j)
    requires forall k: nat :: k <= j ==> Walk(aliases, name, k) in aliases
    ensures Walk(aliases, name, n) in aliases
    decreases n
  {
    if n > j {
      Periodic(aliases, name, i, j, n);
      CycleNeverEnds(aliases, name, i, j, n - (j - i));
    }
  }

  lemma {:induction false} Periodic(aliases: map<string, string>, name: string, i: nat, j: nat, n: nat)
    requires i < j <= n && Walk(aliases, name, i) == Walk(aliases, name, j)
    ensures Walk(aliases, name, n) == Walk(aliases, name, n - (j - i))
    decreases n
  {
    if n > j {
      Periodic(aliases, name, i, j, n - 1);
    }
  }

  /** The trail so far: where the walk has been, each place once. */
  ghost predicate IsTrail(aliases: map<string, string>, name: string, trail: seq<string>) {
    && (forall k :: 0 <= k < |trail| ==> trail[k] == Walk(aliases, name, k) && trail[k] in aliases)
    && forall i, j :: 0 <= i < j < |trail| ==> trail[i] != trail[j]
  }

  lemma {:induction false} TrailFits(keys: set<string>, trail: seq<string>)
    requires forall k :: 0 <= k < |trail| ==> trail[k] in keys
    requires forall i, j :: 0 <= i < j < |trail| ==> trail[i] != trail[j]
    ensures |trail| <= |keys|
  {
    if trail != [] {
      var last := trail[|trail| - 1];
      TrailFits(keys - {last}, trail[..|trail| - 1]);
    }
  }

  method Follow(aliases: map<string, string>, name: string) returns (target: Option<string>)
    ensures target == Followed(aliases, name)
  {
    var seen: seq<string> := [];
    var cursor := name;
    while cursor in aliases
      invariant cursor == Walk(aliases, name, |seen|) && IsTrail(aliases, name, seen)
      invariant |seen| <= |aliases.Keys|
      decreases |aliases.Keys| - |seen|
    {
      if cursor in seen {
        var i :| 0 <= i < |seen| && seen[i] == cursor;
        forall n: nat ensures !EndsAfter(aliases, name, n) {
          CycleNeverEnds(aliases, name, i, |seen|, n);
        }
        return None;
      }
      seen := seen + [cursor];
      TrailFits(aliases.Keys, seen);
      cursor := aliases[cursor];
    }
    FollowedIs(aliases, name, |seen|);
    return Some(cursor);
  }

  // Validation

  ghost predicate AliasOk(c: Catalog, alias: string) {
    alias !in c.models
    && match Followed(c.aliases, alias)
       case None => false
       case Some(target) => target in c.models || target in c.groups
  }

  predicate GroupOk(c: Catalog, name: string)
    requires name in c.groups
  {
    name !in c.models && name !in c.aliases && c.groups[name].primary != ""
    && forall member :: member in Chain(c.groups[name]) ==> member in c.models
  }

  const ADAPTERS := {"mock", "laya", "jev", "http", "systemone-http", "generic"}
  const REMOTE := {"http", "systemone-http", "generic"}

  predicate SpecOk(spec: ModelSpec) {
    spec.adapter in ADAPTERS && (spec.adapter in REMOTE ==> spec.endpoint.Some? && spec.endpoint.value != "")
  }

  /** What the service relies on. */
  ghost predicate CatalogOk(c: Catalog) {
    && c.models != map[]
    && (forall alias :: alias in c.aliases ==> AliasOk(c, alias))
    && (forall name :: name in c.groups ==> GroupOk(c, name))
    && (forall id :: id in c.models ==> SpecOk(c.models[id]))
  }

  /** False where the configuration is refused. */
  method ValidateGraph(c: Catalog) returns (ok: bool)
    ensures ok <==> CatalogOk(c)
  {
    if c.models == map[] {
      return false;
    }
    ok := NoCollisions(c);
    if !ok {
      return;
    }
    ok := AliasesLead(c);
    if !ok {
      return;
    }
    ok := GroupsStand(c);
    if !ok {
      return;
    }
    ok := AdaptersKnown(c);
  }

  method GroupsStand(c: Catalog) returns (ok: bool)
    ensures ok <==> forall name :: name in c.groups ==> GroupOk(c, name)
    ensures ok <==> forall name :: name in c.groups ==>
      name !in c.models && name !in c.aliases && c.groups[name].primary != "" && c.groups[name].primary in c.models
      && forall member :: member in c.groups[name].fallbacks ==> member in c.models
  {
    var todo := c.groups.Keys;
    while todo != {}
      invariant todo <= c.groups.Keys && forall name :: name in c.groups && name !in todo ==> GroupOk(c, name)
      decreases |todo|
    {
      var name :| name in todo;
      if name in c.models || name in c.aliases {
        return false;
      }
      var group := c.groups[name];
      var chain := [group.primary] + group.fallbacks;
      if group.primary == "" {
        return false;
      }
      for k := 0 to |chain|
        invariant forall i :: 0 <= i < k ==> chain[i] in c.models
      {
        if chain[k] !in c.models {
          assert chain[k] in Chain(group);
          return false;
        }
      }
      todo := todo - {name};
    }
    return true;
  }

  method AdaptersKnown(c: Catalog) returns (ok: bool)
    ensures ok <==> forall id :: id in c.models ==> SpecOk(c.models[id])
  {
    var todo := c.models.Keys;
    while todo != {}
      invariant todo <= c.models.Keys && forall id :: id in c.models && id !in todo ==> SpecOk(c.models[id])
      decreases |todo|
    {
      var id :| id in todo;
      var spec := c.models[id];
      if spec.adapter !in {"mock", "laya", "jev", "http", "systemone-http", "generic"} {
        return false;
      }
      if spec.adapter in {"http", "systemone-http", "generic"} && (spec.endpoint.None? || spec.endpoint.value == "") {
        return false;
      }
      todo := todo - {id};
    }
    return true;
  }

  method NoCollisions(c: Catalog) returns (ok: bool)
    ensures ok <==> forall alias :: alias in c.aliases ==> alias !in c.models
  {
    ok := c.aliases.Keys !! c.models.Keys;
  }

  method AliasesLead(c: Catalog) returns (ok: bool)
    requires forall alias :: alias in c.aliases ==> alias !in c.models
    ensures ok <==> forall alias :: alias in c.aliases ==> AliasOk(c, alias)
  {
    var todo := c.aliases.Keys;
    while todo != {}
      invariant todo <= c.aliases.Keys
      invariant forall alias :: alias in c.aliases && alias !in todo ==> AliasOk(c, alias)
      decreases |todo|
    {
      var alias :| alias in todo;
      var target := Follow(c.aliases, alias);
      if target.None? || (target.value !in c.models && target.value !in c.groups) {
        assert !AliasOk(c, alias);
        return false;
      }
      todo := todo - {alias};
    }
    return true;
  }

  /** In an accepted configuration following never fails, and what an alias means
      is exactly one of a model and a group. */
  lemma FollowIsTotal(c: Catalog, name: string)
    requires CatalogOk(c)
    ensures Followed(c.aliases, name).Some?
    ensures var target := Followed(c.aliases, name).value;
      && target !in c.aliases
      && (name !in c.aliases ==> target == name)
      && (name in c.aliases ==> (target in c.models <==> target !in c.groups))
  {
    if name in c.aliases {
      assert AliasOk(c, name);
      var target := Followed(c.aliases, name).value;
      if target in c.groups {
        assert GroupOk(c, target);
      }
    } else {
      assert EndsAfter(c.aliases, name, 0);
      FollowedIs(c.aliases, name, 0);
    }
  }
}
