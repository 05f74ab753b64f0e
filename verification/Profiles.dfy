/** Runtime versions of a runtime that serves several machine profiles (machine_profiles.py). */
module Profiles {
  import opened Json
  import opened Contracts
  import opened Requirements
  import opened Text

  const RECIPE_KEY := "magic_recipe"
  const CONFIG_KEY := "magic_config"
  const PROFILE_KEY := "magic_profile"
  const FEATURE_PREFIX := "magic_feature_"
  const SEPARATOR := '@'

  type Versions = map<string, string>

  /** `recipe_key`: where a further profile keeps one of its own values. */
  function NamespacedKey(profile: string, key: string): string {
    key + [SEPARATOR] + profile
  }

  /** The keys that belong to one profile; the rest are facts of the shared runtime. */
  predicate OwnKey(key: string) {
    key == RECIPE_KEY || key == CONFIG_KEY || key == PROFILE_KEY || StartsWith(key, FEATURE_PREFIX)
  }

  /** What `inspect_runtime` returns: no key or profile name carries the separator. */
  ghost predicate Inspected(profile: string, versions: Versions) {
    && SEPARATOR !in profile
    && (forall k | k in versions :: SEPARATOR !in k)
    && FixedKeysPresent(versions)
  }

  /** The key a namespaced key was made from. */
  function PlainKey(profile: string, key: string): string {
    if |key| > |profile| then key[..|key| - |profile| - 1] else ""
  }

  lemma PlainKeyOf(profile: string, key: string)
    ensures PlainKey(profile, NamespacedKey(profile, key)) == key
  {
  }

  predicate FixedKeysPresent(versions: Versions) {
    RECIPE_KEY in versions && CONFIG_KEY in versions && PROFILE_KEY in versions
  }

  function OwnKeys(profile: string, versions: Versions): set<string> {
    set k | k in versions && OwnKey(k) :: NamespacedKey(profile, k)
  }

  /** `namespaced_versions`: a further profile's own values, under its own keys. */
  function NamespacedVersions(profile: string, versions: Versions): Versions
    requires FixedKeysPresent(versions)
  {
    map n | n in OwnKeys(profile, versions) :: if PlainKey(profile, n) in versions then versions[PlainKey(profile, n)] else ""
  }

  lemma NamespacedHas(profile: string, versions: Versions, key: string)
    requires FixedKeysPresent(versions) && key in versions && OwnKey(key)
    ensures NamespacedKey(profile, key) in NamespacedVersions(profile, versions)
    ensures NamespacedVersions(profile, versions)[NamespacedKey(profile, key)] == versions[key]
  {
    PlainKeyOf(profile, key);
  }

  lemma NamespacedFrom(profile: string, versions: Versions, name: string) returns (key: string)
    requires FixedKeysPresent(versions) && name in NamespacedVersions(profile, versions)
    ensures key in versions && OwnKey(key) && name == NamespacedKey(profile, key)
    ensures NamespacedVersions(profile, versions)[name] == versions[key]
  {
    key :| key in versions && OwnKey(key) && name == NamespacedKey(profile, key);
    PlainKeyOf(profile, key);
  }

  /** `attested_versions`: the shared facts as they are, a further profile's own values namespaced. */
  function AttestedVersions(profile: string, versions: Versions): Versions
    requires FixedKeysPresent(versions)
  {
    (map k | k in versions && !OwnKey(k) :: versions[k]) + NamespacedVersions(profile, versions)
  }

  /** What the plugin of the runtime's `i`-th profile attests: only the first keeps the plain keys. */
  function PluginAttests(profiles: seq<string>, inspected: map<string, Versions>, i: nat): Versions
    requires i < |profiles| && profiles[i] in inspected && FixedKeysPresent(inspected[profiles[i]])
  {
    if i == 0 then inspected[profiles[0]] else AttestedVersions(profiles[i], inspected[profiles[i]])
  }

  ghost predicate EachInspected(profiles: seq<string>, inspected: map<string, Versions>) {
    && profiles != []
    && (forall i | 0 <= i < |profiles| :: profiles[i] in inspected && Inspected(profiles[i], inspected[profiles[i]]))
  }

  ghost predicate Distinct(profiles: seq<string>) {
    forall i, k | 0 <= i < k < |profiles| :: profiles[i] != profiles[k]
  }

  /** One unchanged runtime: two inspections agree on every fact that is not a profile's own. */
  ghost predicate OneRuntime(profiles: seq<string>, inspected: map<string, Versions>)
    requires EachInspected(profiles, inspected)
  {
    forall i, j, k | 0 <= i < |profiles| && 0 <= j < |profiles| && !OwnKey(k)
        && k in inspected[profiles[i]] && k in inspected[profiles[j]] ::
      inspected[profiles[i]][k] == inspected[profiles[j]][k]
  }

  /** What the worker registers after merging the first `n` profiles. */
  function Merged(profiles: seq<string>, inspected: map<string, Versions>, n: nat): Versions
    requires 1 <= n <= |profiles|
    requires forall i | 0 <= i < n :: profiles[i] in inspected && FixedKeysPresent(inspected[profiles[i]])
  {
    if n == 1 then inspected[profiles[0]]
    else Merged(profiles, inspected, n - 1) + NamespacedVersions(profiles[n - 1], inspected[profiles[n - 1]])
  }

  /** The merge loop of `prepare_environment`. */
  method PrepareVersions(profiles: seq<string>, inspected: map<string, Versions>) returns (versions: Versions)
    requires EachInspected(profiles, inspected)
    ensures versions == Merged(profiles, inspected, |profiles|)
    ensures forall k | SEPARATOR !in k :: k in versions <==> k in inspected[profiles[0]]
    ensures forall k | k in inspected[profiles[0]] :: versions[k] == inspected[profiles[0]][k]
    ensures Distinct(profiles) ==> forall i, k | 1 <= i < |profiles| && k in inspected[profiles[i]] && OwnKey(k) ::
              RegisteredAs(versions, profiles[i], k, inspected[profiles[i]][k])
    ensures forall name | name in versions && SEPARATOR in name :: FromFurtherProfile(profiles, inspected, name)
  {
    versions := inspected[profiles[0]];
    for i := 1 to |profiles|
      invariant versions == Merged(profiles, inspected, i)
    {
      versions := versions + NamespacedVersions(profiles[i], inspected[profiles[i]]);
    }
    forall k | SEPARATOR !in k
      ensures k in versions <==> k in inspected[profiles[0]]
      ensures k in versions ==> versions[k] == inspected[profiles[0]][k]
    {
      MergedPlain(profiles, inspected, |profiles|, k);
    }
    if Distinct(profiles) {
      forall i, k | 1 <= i < |profiles| && k in inspected[profiles[i]] && OwnKey(k)
        ensures RegisteredAs(versions, profiles[i], k, inspected[profiles[i]][k])
      {
        MergedOwn(profiles, inspected, |profiles|, i, k);
      }
    }
    forall name | name in versions && SEPARATOR in name ensures FromFurtherProfile(profiles, inspected, name) {
      MergedFrom(profiles, inspected, |profiles|, name);
    }
  }

  /** A profile's own value is registered under its namespaced key. */
  ghost predicate RegisteredAs(versions: Versions, profile: string, key: string, value: string) {
    NamespacedKey(profile, key) in versions && versions[NamespacedKey(profile, key)] == value
  }

  /** The name is a further profile's namespaced key. */
  ghost predicate FromFurtherProfile(profiles: seq<string>, inspected: map<string, Versions>, name: string) {
    exists i, k | 1 <= i < |profiles| && profiles[i] in inspected && k in inspected[profiles[i]] ::
      OwnKey(k) && name == NamespacedKey(profiles[i], k)
  }

  lemma {:induction false} MergedFrom(profiles: seq<string>, inspected: map<string, Versions>, n: nat, name: string)
    requires 1 <= n <= |profiles| && EachInspected(profiles, inspected)
    requires name in Merged(profiles, inspected, n) && SEPARATOR in name
    ensures FromFurtherProfile(profiles, inspected, name)
  {
    if n > 1 {
      if name in NamespacedVersions(profiles[n - 1], inspected[profiles[n - 1]]) {
        var k := NamespacedFrom(profiles[n - 1], inspected[profiles[n - 1]], name);
      } else {
        MergedFrom(profiles, inspected, n - 1, name);
      }
    }
  }

  /** Namespaced keys collide only for the same profile and the same key. */
  lemma NamespacedKeysDiffer(p: string, k: string, q: string, l: string)
    requires SEPARATOR !in k && SEPARATOR !in l
    requires NamespacedKey(p, k) == NamespacedKey(q, l)
    ensures p == q && k == l
  {
    PartitionJoined(k, p, SEPARATOR);
    PartitionJoined(l, q, SEPARATOR);
  }

  lemma OtherProfilesKey(p: string, versions: Versions, q: string, key: string)
    requires Inspected(p, versions) && p != q && SEPARATOR !in key
    ensures NamespacedKey(q, key) !in NamespacedVersions(p, versions)
  {
    if NamespacedKey(q, key) in NamespacedVersions(p, versions) {
      var k := NamespacedFrom(p, versions, NamespacedKey(q, key));
      NamespacedKeysDiffer(q, key, p, k);
      assert false;
    }
  }

  lemma PlainIsNotNamespaced(p: string, versions: Versions, key: string)
    requires FixedKeysPresent(versions) && SEPARATOR !in key
    ensures key !in NamespacedVersions(p, versions)
  {
    if key in NamespacedVersions(p, versions) {
      var _ := NamespacedFrom(p, versions, key);
      assert false;
    }
  }

  lemma {:induction false} MergedPlain(profiles: seq<string>, inspected: map<string, Versions>, n: nat, key: string)
    requires 1 <= n <= |profiles| && EachInspected(profiles, inspected)
    requires SEPARATOR !in key
    ensures key in Merged(profiles, inspected, n) <==> key in inspected[profiles[0]]
    ensures key in inspected[profiles[0]] ==> Merged(profiles, inspected, n)[key] == inspected[profiles[0]][key]
  {
    if n > 1 {
      MergedPlain(profiles, inspected, n - 1, key);
      PlainIsNotNamespaced(profiles[n - 1], inspected[profiles[n - 1]], key);
    }
  }

  lemma {:induction false} MergedOwn(profiles: seq<string>, inspected: map<string, Versions>, n: nat, i: nat, key: string)
    requires 1 <= n <= |profiles| && EachInspected(profiles, inspected) && Distinct(profiles)
    requires 1 <= i < n && key in inspected[profiles[i]] && OwnKey(key)
    ensures NamespacedKey(profiles[i], key) in Merged(profiles, inspected, n)
    ensures Merged(profiles, inspected, n)[NamespacedKey(profiles[i], key)] == inspected[profiles[i]][key]
  {
    if i == n - 1 {
      NamespacedHas(profiles[i], inspected[profiles[i]], key);
    } else {
      MergedOwn(profiles, inspected, n - 1, i, key);
      OtherProfilesKey(profiles[n - 1], inspected[profiles[n - 1]], profiles[i], key);
    }
  }

  /** What a profile's plugin attests equals what the worker registered, on every key both have. */
  lemma AttestationAgrees(profiles: seq<string>, inspected: map<string, Versions>, i: nat, key: string)
    requires EachInspected(profiles, inspected) && Distinct(profiles) && OneRuntime(profiles, inspected)
    requires i < |profiles| && key in PluginAttests(profiles, inspected, i)
    requires key in Merged(profiles, inspected, |profiles|)
    ensures Merged(profiles, inspected, |profiles|)[key] == PluginAttests(profiles, inspected, i)[key]
  {
    var own := NamespacedVersions(profiles[i], inspected[profiles[i]]);
    if i > 0 && key in own {
      var k := NamespacedFrom(profiles[i], inspected[profiles[i]], key);
      MergedOwn(profiles, inspected, |profiles|, i, k);
    } else {
      MergedPlain(profiles, inspected, |profiles|, key);
    }
  }

  /** The configuration check of `_verify_output`: every pinned version is reported back. */
  predicate Reports(reported: Versions, pinned: Versions) {
    forall k | k in pinned :: k in reported && reported[k] == pinned[k]
  }

  /** A leased job that pins only keys its profile's plugin attests always passes that check. */
  lemma PinnedJobPasses(profiles: seq<string>, inspected: map<string, Versions>, i: nat, r: JobRequirements, q: WorkerQuery)
    requires EachInspected(profiles, inspected) && Distinct(profiles) && OneRuntime(profiles, inspected)
    requires q.runtimeVersions == Merged(profiles, inspected, |profiles|)
    requires Satisfies(r, q)
    requires i < |profiles| && r.runtimeVersions.Keys <= PluginAttests(profiles, inspected, i).Keys
    ensures Reports(PluginAttests(profiles, inspected, i), r.runtimeVersions)
  {
    forall k | k in r.runtimeVersions
      ensures k in PluginAttests(profiles, inspected, i)
      ensures PluginAttests(profiles, inspected, i)[k] == r.runtimeVersions[k]
    {
      assert k in r.runtimeVersions.Keys && k in PluginAttests(profiles, inspected, i).Keys;
      AttestationAgrees(profiles, inspected, i, k);
    }
  }

  /** A further profile never attests a plain key that belongs to the runtime's first profile. */
  lemma FurtherProfileHidesPlainKeys(profiles: seq<string>, inspected: map<string, Versions>, i: nat, key: string)
    requires EachInspected(profiles, inspected)
    requires 1 <= i < |profiles| && OwnKey(key) && SEPARATOR !in key
    ensures key !in PluginAttests(profiles, inspected, i)
  {
    PlainIsNotNamespaced(profiles[i], inspected[profiles[i]], key);
  }

  /** The keys a profile owns, by their names. */
  predicate Owned(key: string) {
    key in {"magic_recipe", "magic_config", "magic_profile"} || (|key| >= 14 && key[..14] == "magic_feature_")
  }

  lemma OwnKeysAreOwned(key: string)
    ensures OwnKey(key) <==> Owned(key)
  {
    assert |FEATURE_PREFIX| == 14;
  }

  /** A further profile attests exactly the runtime's shared facts and, with its own name after an @,
   *  its own values. */
  lemma AttestedExactly(profile: string, versions: Versions, name: string, value: string)
    requires Inspected(profile, versions)
    ensures name in AttestedVersions(profile, versions) && AttestedVersions(profile, versions)[name] == value <==>
      || (name in versions && !Owned(name) && versions[name] == value)
      || (exists k | k in versions :: Owned(k) && name == k + "@" + profile && versions[k] == value)
  {
    OwnKeysAreOwned(name);
    var own := NamespacedVersions(profile, versions);
    if name in own {
      var k := NamespacedFrom(profile, versions, name);
      OwnKeysAreOwned(k);
      assert name == k + "@" + profile;
    }
    forall k | k in versions && Owned(k) && name == k + "@" + profile
      ensures name in own && own[name] == versions[k]
    {
      OwnKeysAreOwned(k);
      NamespacedHas(profile, versions, k);
      assert NamespacedKey(profile, k) == name;
    }
    if name in versions {
      PlainIsNotNamespaced(profile, versions, name);
    }
  }

  // ----- the recipe a job pins

  /** `pinned_recipe`: the plain key's value, else that of the first namespaced key in sorted order. */
  ghost function PinnedRecipe(versions: Versions): Option<string> {
    var prefix := RECIPE_KEY + [SEPARATOR];
    var named := set k | k in versions && StartsWith(k, prefix);
    if RECIPE_KEY in versions then Some(versions[RECIPE_KEY])
    else if named == {} then None
    else Some(versions[Least(named)])
  }

  /** A namespaced recipe key, by its name. */
  predicate RecipeNamed(key: string) {
    |key| >= 13 && key[..13] == "magic_recipe@"
  }

  lemma RecipePrefix(key: string)
    ensures StartsWith(key, RECIPE_KEY + [SEPARATOR]) <==> RecipeNamed(key)
  {
    assert RECIPE_KEY + [SEPARATOR] == "magic_recipe@";
  }

  /** A job pins a recipe exactly when it pins the plain key or a namespaced one; the plain key wins, then
   *  the namespaced key that sorts first. */
  lemma PinnedRecipeExactly(versions: Versions)
    ensures "magic_recipe" in versions ==> PinnedRecipe(versions) == Some(versions["magic_recipe"])
    ensures PinnedRecipe(versions).Some? <==>
      "magic_recipe" in versions || exists k | k in versions :: RecipeNamed(k)
    ensures forall first | "magic_recipe" !in versions && first in versions && RecipeNamed(first)
        && (forall k | k in versions && RecipeNamed(k) :: StringLE(first, k)) ::
      PinnedRecipe(versions) == Some(versions[first])
  {
    var named := set k | k in versions && StartsWith(k, RECIPE_KEY + [SEPARATOR]);
    forall k ensures k in named <==> k in versions && RecipeNamed(k) {
      RecipePrefix(k);
    }
    if "magic_recipe" !in versions && named != {} {
      assert RecipeNamed(Least(named));
      assert PinnedRecipe(versions) == Some(versions[Least(named)]);
    }
    forall first | "magic_recipe" !in versions && first in versions && RecipeNamed(first)
        && (forall k | k in versions && RecipeNamed(k) :: StringLE(first, k))
      ensures PinnedRecipe(versions) == Some(versions[first])
    {
      assert first in named;
      StringLEAntisymmetric(first, Least(named));
    }
  }

  /** A job that pins only one further profile's attested recipe is bound to that profile's recipe. */
  lemma PinnedRecipeOfProfile(profiles: seq<string>, inspected: map<string, Versions>, i: nat, pinned: Versions)
    requires EachInspected(profiles, inspected)
    requires 1 <= i < |profiles|
    requires pinned.Keys <= PluginAttests(profiles, inspected, i).Keys
    requires Reports(PluginAttests(profiles, inspected, i), pinned)
    requires NamespacedKey(profiles[i], RECIPE_KEY) in pinned
    ensures PinnedRecipe(pinned) == Some(inspected[profiles[i]][RECIPE_KEY])
  {
    var name := NamespacedKey(profiles[i], RECIPE_KEY);
    FurtherProfileHidesPlainKeys(profiles, inspected, i, RECIPE_KEY);
    assert RECIPE_KEY !in pinned.Keys;
    forall k | k in pinned && StartsWith(k, RECIPE_KEY + [SEPARATOR]) ensures k == name {
      assert k in pinned.Keys && k in PluginAttests(profiles, inspected, i).Keys;
      RecipeKeyOfProfile(profiles, inspected, i, k);
    }
    OnlyRecipe(pinned, name);
    RecipeIsAttested(profiles, inspected, i);
  }

  lemma OnlyRecipe(pinned: Versions, name: string)
    requires RECIPE_KEY !in pinned && name in pinned && StartsWith(name, RECIPE_KEY + [SEPARATOR])
    requires forall k | k in pinned && StartsWith(k, RECIPE_KEY + [SEPARATOR]) :: k == name
    ensures PinnedRecipe(pinned) == Some(pinned[name])
  {
    var named := set k | k in pinned && StartsWith(k, RECIPE_KEY + [SEPARATOR]);
    assert name in named;
    assert Least(named) == name;
  }

  lemma RecipeIsAttested(profiles: seq<string>, inspected: map<string, Versions>, i: nat)
    requires EachInspected(profiles, inspected) && 1 <= i < |profiles|
    ensures NamespacedKey(profiles[i], RECIPE_KEY) in PluginAttests(profiles, inspected, i)
    ensures PluginAttests(profiles, inspected, i)[NamespacedKey(profiles[i], RECIPE_KEY)] ==
            inspected[profiles[i]][RECIPE_KEY]
  {
    NamespacedHas(profiles[i], inspected[profiles[i]], RECIPE_KEY);
  }

  lemma RecipeKeyOfProfile(profiles: seq<string>, inspected: map<string, Versions>, i: nat, key: string)
    requires EachInspected(profiles, inspected)
    requires 1 <= i < |profiles| && key in PluginAttests(profiles, inspected, i)
    requires StartsWith(key, RECIPE_KEY + [SEPARATOR])
    ensures key == NamespacedKey(profiles[i], RECIPE_KEY)
  {
    var prefix := RECIPE_KEY + [SEPARATOR];
    var rest := key[|prefix|..];
    assert key == RECIPE_KEY + [SEPARATOR] + rest;
    assert key[|RECIPE_KEY|] == SEPARATOR;
    PartitionJoined(RECIPE_KEY, rest, SEPARATOR);
    var k := NamespacedFrom(profiles[i], inspected[profiles[i]], key);
    PartitionJoined(k, profiles[i], SEPARATOR);
  }
}
