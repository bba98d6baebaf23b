/**
 * The development-only debug panel: the public environment variables, with
 * missing values written as "undefined" and client ids shortened.
 */
module DebugInfo {
  import opened Wrappers
  import opened Text
  import opened Seqs

  const PublicPrefix: string := "NEXT_PUBLIC"
  const MaskedMarker: string := "CLIENT_ID"
  const Unset: string := "undefined"
  /** How many characters of a client id are shown. */
  const ShownPrefix: nat := 20

  predicate IsPublicKey(key: string) {
    StartsWith(key, PublicPrefix)
  }

  /** `process.env[key] || "undefined"`: a missing or empty value reads "undefined". */
  function EnvValue(env: map<string, string>, key: string): (v: string)
    ensures v != ""
    ensures v == Unset || (key in env && v == env[key])
    ensures key in env && env[key] != "" ==> v == env[key]
  {
    if key in env && env[key] != "" then env[key] else Unset
  }

  /** The dictionary the panel lists: every public key, with its value as read. */
  function PublicEnv(keys: seq<string>, env: map<string, string>): (m: map<string, string>)
    ensures m.Keys == set k | k in keys && IsPublicKey(k)
    ensures forall k :: k in m ==> m[k] == EnvValue(env, k) && m[k] != ""
  {
    map k | k in keys && IsPublicKey(k) :: EnvValue(env, k)
  }

  /**
   * The `filter` and `reduce` building `envVars`: keeps the keys that start
   * with "NEXT_PUBLIC" and assigns each its value, one key at a time.
   */
  method CollectEnvVars(keys: seq<string>, env: map<string, string>) returns (envVars: map<string, string>)
    ensures envVars == PublicEnv(keys, env)
  {
    var publicKeys := Filter(keys, (k: string) => IsPublicKey(k));
    envVars := map[];
    var i := 0;
    while i < |publicKeys|
      invariant 0 <= i <= |publicKeys|
      invariant envVars.Keys == set k | k in publicKeys[..i]
      invariant forall k :: k in envVars ==> envVars[k] == EnvValue(env, k)
    {
      assert publicKeys[..i + 1] == publicKeys[..i] + [publicKeys[i]];
      envVars := envVars[publicKeys[i] := EnvValue(env, publicKeys[i])];
      i := i + 1;
    }
    assert publicKeys[..i] == publicKeys;
    SameKeysSameMap(envVars, keys, env, publicKeys);
  }

  lemma SameKeysSameMap(m: map<string, string>, keys: seq<string>, env: map<string, string>, publicKeys: seq<string>)
    requires publicKeys == Filter(keys, (k: string) => IsPublicKey(k))
    requires m.Keys == set k | k in publicKeys
    requires forall k :: k in m ==> m[k] == EnvValue(env, k)
    ensures m == PublicEnv(keys, env)
  {
    FilterSelects(keys, (k: string) => IsPublicKey(k));
    forall k | k in keys && IsPublicKey(k) ensures k in publicKeys {
      assert k in multiset(keys);
      assert k in multiset(publicKeys);
    }
    assert m.Keys == PublicEnv(keys, env).Keys;
  }

  /** The text shown for one entry: client ids cut to 20 characters plus "...", the rest verbatim. */
  function DisplayValue(key: string, value: string): string {
    if Contains(key, MaskedMarker) then (if value != "" then Take(value, ShownPrefix) + "..." else Unset)
    else value
  }

  /**
   * What the panel shows for a listed key: the value itself unless the key
   * contains "CLIENT_ID"; then at most its first 20 characters followed by
   * "...", which for an unset value is "undefined...".
   */
  lemma ShownValue(keys: seq<string>, env: map<string, string>, key: string)
    requires key in keys && IsPublicKey(key)
    ensures key in PublicEnv(keys, env)
    ensures var v := EnvValue(env, key);
            var d := DisplayValue(key, PublicEnv(keys, env)[key]);
            && (!Contains(key, MaskedMarker) ==> d == v)
            && (Contains(key, MaskedMarker) ==>
                  && |d| == (if |v| < ShownPrefix then |v| else ShownPrefix) + 3
                  && d[..|d| - 3] == v[..|d| - 3]
                  && d[|d| - 3..] == "...")
            && (Contains(key, MaskedMarker) && (key !in env || env[key] == "") ==> d == "undefined...")
  {
    var v := EnvValue(env, key);
    if Contains(key, MaskedMarker) {
      var d := Take(v, ShownPrefix) + "...";
      assert d[..|d| - 3] == Take(v, ShownPrefix);
    }
  }

  /** The open panel: each listed key with the text shown for it. */
  datatype Panel = Panel(showDebug: bool, shown: map<string, string>)

  /** Nothing outside development; the entries only while the panel is open. */
  function RenderDebug(nodeEnv: string, showDebug: bool, envVars: map<string, string>): (r: Option<Panel>)
    ensures r.None? <==> nodeEnv != "development"
    ensures r.Some? ==> r.value.showDebug == showDebug
    ensures r.Some? && !showDebug ==> r.value.shown == map[]
    ensures r.Some? && showDebug ==> r.value.shown.Keys == envVars.Keys
    ensures r.Some? && showDebug ==> forall k :: k in envVars ==> r.value.shown[k] == DisplayValue(k, envVars[k])
  {
    if nodeEnv != "development" then None
    else if !showDebug then Some(Panel(false, map[]))
    else Some(Panel(true, map k | k in envVars :: DisplayValue(k, envVars[k])))
  }

  /** The Debug button's state. */
  class DebugToggle {
    var showDebug: bool

    constructor ()
      ensures !showDebug
    {
      showDebug := false;
    }

    /** Pressing the button flips the state, so pressing it twice restores it. */
    method Press()
      modifies this
      ensures showDebug == !old(showDebug)
    {
      showDebug := !showDebug;
    }
  }
}
