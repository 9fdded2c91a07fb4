/**
 * The helpers of pruner/utils/utils.go, with the process environment made
 * an explicit map from variable names to values (a variable that is set to
 * the empty string is a key with value "").
 */
module Utils {

  type Env = map<string, string>

  /**
   * GetEnv: the value of `key` when the variable is set, even when that
   * value is empty, and `defaultValue` only when it is not set.
   */
  function GetEnv(env: Env, key: string, defaultValue: string): (r: string)
    ensures key in env ==> r == env[key]
    ensures key !in env ==> r == defaultValue
  {
    if key in env then env[key] else defaultValue
  }

  /** os.Getenv: an unset variable reads as the empty string. */
  function Getenv(env: Env, key: string): (r: string)
    ensures key in env ==> r == env[key]
    ensures key !in env ==> r == ""
  {
    GetEnv(env, key, "")
  }

  /** GetEnv yields the default exactly when the key is absent or holds the default itself. */
  lemma GetEnvIsDefault(env: Env, key: string, defaultValue: string)
    ensures GetEnv(env, key, defaultValue) == defaultValue <==> key !in env || env[key] == defaultValue
  {
  }

  /** Contains: a linear search for `str` in `list`. */
  function Contains(list: seq<string>, str: string): (r: bool)
    ensures r <==> exists i :: 0 <= i < |list| && list[i] == str
    ensures list == [] ==> !r
    decreases |list|
  {
    if list == [] then false
    else if list[0] == str then true
    else
      var r := Contains(list[1..], str);
      assert forall i :: 1 <= i < |list| ==> list[i] == list[1..][i - 1];
      r
  }

  /** An element found in a list is still found after more elements are appended. */
  lemma ContainsAppend(l: seq<string>, m: seq<string>, str: string)
    ensures Contains(l, str) ==> Contains(l + m, str)
    ensures Contains(l + m, str) <==> Contains(l, str) || Contains(m, str)
  {
    if Contains(l, str) {
      var i :| 0 <= i < |l| && l[i] == str;
      assert (l + m)[i] == str;
    }
    if Contains(m, str) {
      var i :| 0 <= i < |m| && m[i] == str;
      assert (l + m)[|l| + i] == str;
    }
    if Contains(l + m, str) {
      var i :| 0 <= i < |l + m| && (l + m)[i] == str;
      if i < |l| { assert l[i] == str; } else { assert m[i - |l|] == str; }
    }
  }
}
