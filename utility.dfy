/** The configuration accessor of utility.py: `deep_get`, a walk through nested
    dictionaries of a parsed JSON document that falls back to a default. */
module Utility {
  import opened Wrappers

  /** A parsed JSON document, as Python's `json.load` represents it. */
  datatype Json =
    | Null
    | Bool(b: bool)
    | Int(i: int)
    | Float(x: real)
    | Str(s: string)
    | List(items: seq<Json>)
    | Dict(fields: map<string, Json>)

  /** What `deep_get(d, *keys, default=default)` returns, one key at a time:
      a dictionary cursor moves to the key's value, or to `default` when the
      key is missing; any other cursor ends the walk with `default`. */
  function DeepGetSpec(d: Json, keys: seq<string>, default: Json): Json
    decreases |keys|
  {
    if keys == [] then d
    else match d
      case Dict(m) => DeepGetSpec(if keys[0] in m then m[keys[0]] else default, keys[1..], default)
      case _ => default
  }

  /** The value stored at the end of `keys` when every key is present along a
      chain of dictionaries, and None otherwise. This is the plain meaning of a
      nested lookup, with no default involved. */
  function PathValue(d: Json, keys: seq<string>): Option<Json>
    decreases |keys|
  {
    if keys == [] then Some(d)
    else match d
      case Dict(m) => if keys[0] in m then PathValue(m[keys[0]], keys[1..]) else None
      case _ => None
  }

  /** `deep_get` as the source writes it: a loop that rebinds the cursor on each
      key and returns `default` from inside the loop when the cursor is not a
      dictionary. It has no `modifies` clause: the document passed in is only read. */
  method DeepGet(d: Json, keys: seq<string>, default: Json) returns (r: Json)
    ensures r == DeepGetSpec(d, keys, default)
    ensures keys == [] ==> r == d
    ensures PathValue(d, keys).Some? ==> r == PathValue(d, keys).value
    ensures !default.Dict? ==> r == PathValue(d, keys).GetOr(default)
  {
    DeepGetFollowsPath(d, keys, default);
    if !default.Dict? {
      DeepGetMatchesPath(d, keys, default);
    }
    var cursor := d;
    var i := 0;
    while i < |keys|
      invariant 0 <= i <= |keys|
      invariant DeepGetSpec(cursor, keys[i..], default) == DeepGetSpec(d, keys, default)
    {
      match cursor {
        case Dict(m) =>
          cursor := if keys[i] in m then m[keys[i]] else default;
        case _ =>
          return default;
      }
      i := i + 1;
    }
    r := cursor;
  }

  /** Once the cursor has reached the value `v` at the end of a present prefix
      of the keys, `deep_get` carries on from `v` with the remaining keys. */
  lemma {:induction false} DeepGetAfterPrefix(d: Json, keys: seq<string>, default: Json, k: nat)
    requires k <= |keys|
    requires PathValue(d, keys[..k]).Some?
    ensures DeepGetSpec(d, keys, default) == DeepGetSpec(PathValue(d, keys[..k]).value, keys[k..], default)
    decreases k
  {
    if k > 0 {
      assert keys[..k][0] == keys[0];
      assert keys[..k][1..] == keys[1..][..k - 1];
      match d
      case Dict(m) =>
        DeepGetAfterPrefix(m[keys[0]], keys[1..], default, k - 1);
        assert keys[1..][k - 1..] == keys[k..];
      case _ =>
    }
  }

  /** When every key is present along a chain of dictionaries, `deep_get`
      returns the value at the end of the path, whatever the default. */
  lemma {:induction false} DeepGetFollowsPath(d: Json, keys: seq<string>, default: Json)
    ensures PathValue(d, keys).Some? ==> DeepGetSpec(d, keys, default) == PathValue(d, keys).value
    decreases |keys|
  {
    if keys != [] {
      match d
      case Dict(m) =>
        if keys[0] in m {
          DeepGetFollowsPath(m[keys[0]], keys[1..], default);
        }
      case _ =>
    }
  }

  /** With a default that is not a dictionary, `deep_get` is exactly the plain
      nested lookup with a fallback: the value at the end of the path when every
      key is present, and `default` otherwise. */
  lemma {:induction false} DeepGetMatchesPath(d: Json, keys: seq<string>, default: Json)
    requires !default.Dict?
    ensures DeepGetSpec(d, keys, default) == PathValue(d, keys).GetOr(default)
    decreases |keys|
  {
    if keys != [] {
      match d
      case Dict(m) =>
        if keys[0] in m {
          DeepGetMatchesPath(m[keys[0]], keys[1..], default);
        } else {
          DefaultAbsorbs(keys[1..], default);
        }
      case _ =>
    }
  }

  /** A non-dictionary default, once it is the cursor, is also the result. */
  lemma DefaultAbsorbs(keys: seq<string>, default: Json)
    requires !default.Dict?
    ensures DeepGetSpec(default, keys, default) == default
  {
  }

  /** A non-dictionary value reached while keys remain ends the walk with
      `default`: a string, a number, a list or None cannot be indexed further. */
  lemma DeepGetNonDict(d: Json, keys: seq<string>, default: Json, k: nat)
    requires k < |keys|
    requires PathValue(d, keys[..k]).Some? && !PathValue(d, keys[..k]).value.Dict?
    ensures DeepGetSpec(d, keys, default) == default
  {
    DeepGetAfterPrefix(d, keys, default, k);
  }

  /** A key missing from the dictionary reached so far replaces the cursor by
      `default` and the walk goes on from there with the keys that follow; so
      when `default` is not a dictionary, the result is `default`. */
  lemma DeepGetMissingKey(d: Json, keys: seq<string>, default: Json, k: nat)
    requires k < |keys|
    requires PathValue(d, keys[..k]).Some? && PathValue(d, keys[..k]).value.Dict?
    requires keys[k] !in PathValue(d, keys[..k]).value.fields
    ensures DeepGetSpec(d, keys, default) == DeepGetSpec(default, keys[k + 1..], default)
    ensures !default.Dict? ==> DeepGetSpec(d, keys, default) == default
  {
    DeepGetAfterPrefix(d, keys, default, k);
    assert keys[k..][1..] == keys[k + 1..];
  }

  /** A key that is present but holds None gives None at the end of the walk,
      not `default`. */
  lemma DeepGetPresentNull(d: Json, keys: seq<string>, default: Json)
    requires PathValue(d, keys) == Some(Null)
    ensures DeepGetSpec(d, keys, default) == Null
  {
    DeepGetFollowsPath(d, keys, default);
  }
}
