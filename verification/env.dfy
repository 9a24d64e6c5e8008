/** Environment maps (`Record<string, string>` and `process.env`) as association
    lists, so that the insertion order JavaScript objects keep is kept here too.
 */
module Env {
  import opened Wrappers

  type Env = seq<(string, string)>

  /** `env[key]`: the value of the first entry with that key. */
  function Lookup(env: Env, key: string): (r: Option<string>)
    ensures r.Some? <==> exists i :: 0 <= i < |env| && env[i].0 == key
  {
    if |env| == 0 then None
    else if env[0].0 == key then Some(env[0].1)
    else Lookup(env[1..], key)
  }

  /** A value found under a key comes from an entry of the list. */
  lemma {:induction false} LookupIn(env: Env, key: string)
    ensures Lookup(env, key).Some? ==> (key, Lookup(env, key).value) in env
    decreases |env|
  {
    if |env| > 0 && env[0].0 != key {
      LookupIn(env[1..], key);
    }
  }

  /** `{ ...env, [key]: value }`: an existing key keeps its position and gets
      the new value, a new key is appended. */
  function Set(env: Env, key: string, value: string): (r: Env)
    ensures Lookup(r, key) == Some(value)
    ensures forall k :: k != key ==> Lookup(r, k) == Lookup(env, k)
    ensures |r| == if Lookup(env, key).Some? then |env| else |env| + 1
    ensures forall i :: 0 <= i < |env| && env[i].0 != key ==> r[i] == env[i]
  {
    if |env| == 0 then [(key, value)]
    else if env[0].0 == key then [(key, value)] + env[1..]
    else
      var rest := Set(env[1..], key, value);
      assert forall k :: Lookup([env[0]] + rest, k) == if env[0].0 == k then Some(env[0].1) else Lookup(rest, k);
      [env[0]] + rest
  }

  /** `process.env[key] || default`: an unset or empty variable gives the default. */
  function GetOr(env: Env, key: string, default: string): string {
    OrElse(Lookup(env, key), default)
  }
}
