/** `deep_access` (util.py): successive key lookups into nested dictionaries. */
module Util {
  import opened Wrappers

  /** A JSON-like value, as the device documents are: nested dictionaries
      and lists of numbers, strings and booleans. */
  datatype Value =
    | Null
    | Bool(b: bool)
    | Number(r: real)
    | Str(s: string)
    | List(items: seq<Value>)
    | Dict(entries: map<string, Value>)

  /** Python's `val[key]` for a string key: a dictionary lookup, a KeyError
      when the key is missing, a TypeError for anything that is not a
      dictionary (a list or a string needs an integer index). */
  function Index(v: Value, key: string): (r: Result<Value>)
    ensures r.Ok? <==> v.Dict? && key in v.entries
    ensures r.Ok? ==> r.value == v.entries[key]
    ensures v.Dict? && key !in v.entries ==> r == Err(KeyError(key))
  {
    match v
    case Dict(m) => if key in m then Ok(m[key]) else Err(KeyError(key))
    case _ => Err(TypeError)
  }

  /** Indexing by each key of `keys` in turn; the first failing lookup ends it. */
  function DeepGet(x: Value, keys: seq<string>): Result<Value>
    decreases |keys|
  {
    if keys == [] then Ok(x)
    else
      match Index(x, keys[0])
      case Ok(v) => DeepGet(v, keys[1..])
      case Err(e) => Err(e)
  }

  /** deep_access(x, keylist), util.py:3-11: rebinds `val` once per key. */
  method DeepAccess(x: Value, keylist: seq<string>) returns (r: Result<Value>)
    ensures r == DeepGet(x, keylist)
    ensures keylist == [] ==> r == Ok(x)
  {
    var val := x;
    var i := 0;
    while i < |keylist|
      invariant 0 <= i <= |keylist|
      invariant DeepGet(x, keylist[..i]) == Ok(val)
    {
      DeepGetSnoc(x, keylist[..i], keylist[i]);
      assert keylist[..i + 1] == keylist[..i] + [keylist[i]];
      match Index(val, keylist[i])
      case Err(e) =>
        DeepGetAppend(x, keylist[..i + 1], keylist[i + 1..]);
        assert keylist[..i + 1] + keylist[i + 1..] == keylist;
        return Err(e);
      case Ok(v) =>
        val := v;
      i := i + 1;
    }
    assert keylist[..i] == keylist;
    r := Ok(val);
  }

  /** Looking up `k1 + k2` is looking up `k1`, then `k2` in what was found;
      a failure in `k1` is the failure of the whole lookup. */
  lemma {:induction false} DeepGetAppend(x: Value, k1: seq<string>, k2: seq<string>)
    ensures DeepGet(x, k1 + k2) ==
      match DeepGet(x, k1)
      case Ok(v) => DeepGet(v, k2)
      case Err(e) => Err(e)
    decreases |k1|
  {
    if k1 == [] {
      assert k1 + k2 == k2;
    } else {
      assert (k1 + k2)[0] == k1[0];
      assert (k1 + k2)[1..] == k1[1..] + k2;
      match Index(x, k1[0])
      case Ok(v) => DeepGetAppend(v, k1[1..], k2);
      case Err(e) =>
    }
  }

  /** One more key: the lookup of `keys + [key]` indexes the value found for `keys`. */
  lemma DeepGetSnoc(x: Value, keys: seq<string>, key: string)
    ensures DeepGet(x, keys + [key]) ==
      match DeepGet(x, keys)
      case Ok(v) => Index(v, key)
      case Err(e) => Err(e)
  {
    DeepGetAppend(x, keys, [key]);
    match DeepGet(x, keys) {
      case Ok(v) =>
        assert [key][1..] == [];
        match Index(v, key) {
          case Ok(w) =>
          case Err(e) =>
        }
      case Err(e) =>
    }
  }

  /** The result is the value reached by indexing along the keys, in order:
      every key of the path exists in the dictionary reached before it. */
  lemma {:induction false} DeepGetPath(x: Value, keys: seq<string>, i: nat)
    requires DeepGet(x, keys).Ok?
    requires i < |keys|
    ensures DeepGet(x, keys[..i]).Ok?
    ensures DeepGet(x, keys[..i]).value.Dict?
    ensures keys[i] in DeepGet(x, keys[..i]).value.entries
  {
    DeepGetAppend(x, keys[..i], keys[i..]);
    assert keys[..i] + keys[i..] == keys;
    match DeepGet(x, keys[..i])
    case Ok(v) =>
      assert keys[i..][0] == keys[i];
    case Err(e) =>
  }

  /** No default: a key missing from the dictionary reached so far makes the
      whole lookup a KeyError for that key, whatever keys follow. */
  lemma MissingKeyRaises(x: Value, k1: seq<string>, key: string, k2: seq<string>)
    requires DeepGet(x, k1).Ok?
    requires DeepGet(x, k1).value.Dict?
    requires key !in DeepGet(x, k1).value.entries
    ensures DeepGet(x, k1 + [key] + k2) == Err(KeyError(key))
  {
    DeepGetAppend(x, k1 + [key], k2);
    DeepGetSnoc(x, k1, key);
  }
}
