/**
 * The JSON payload of an inbound activity, and the few Python operations the
 * handlers apply to it: truthiness, subscripting a dict and the `in` test on
 * strings.
 */
module Values {
  import opened Wrappers

  /** A decoded JSON value. JSON numbers are kept as reals. */
  datatype Value =
    | Null
    | Bool(b: bool)
    | Num(r: real)
    | Str(s: string)
    | Obj(fields: map<string, Value>)

  /** Python truthiness, as used by `if not sport_id`. */
  predicate Truthy(v: Value) {
    match v
    case Null => false
    case Bool(b) => b
    case Num(r) => r != 0.0
    case Str(s) => s != ""
    case Obj(m) => |m| != 0
  }

  /** Why subscripting a payload value failed. */
  datatype AccessError =
    | KeyError(key: string)   // a dict without the key
    | TypeError               // a string, number, boolean or null subscripted by a key

  /** Python's `v[key]` on a decoded payload value. */
  function Field(v: Value, key: string): (r: Result<Value, AccessError>)
    ensures r.Ok? <==> v.Obj? && key in v.fields
    ensures r.Ok? ==> r.value == v.fields[key]
    ensures r.Err? && v.Obj? ==> r.error == KeyError(key)
    ensures !v.Obj? ==> r == Err(TypeError)
  {
    match v
    case Obj(m) => if key in m then Ok(m[key]) else Err(KeyError(key))
    case _ => Err(TypeError)
  }

  /** An exception raised by Python code: its class name and `str(e)`. */
  datatype PyException = PyException(cls: string, msg: string)

  /** The KeyError a missing dict key raises: its `str` is the quoted key. */
  function KeyErrorOf(key: string): PyException {
    PyException("KeyError", "'" + key + "'")
  }

  /** `d[key]` on a dict. */
  function Key(d: map<string, Value>, key: string): (r: Result<Value, PyException>)
    ensures key in d <==> r.Ok?
    ensures r.Ok? ==> r.value == d[key]
    ensures r.Err? ==> r.error == KeyErrorOf(key)
  {
    if key in d then Ok(d[key]) else Err(KeyErrorOf(key))
  }

  /** `p` occurs in `s` starting at index `i`. */
  ghost predicate OccursAt(s: string, p: string, i: int) {
    0 <= i <= |s| - |p| && s[i..i + |p|] == p
  }

  /** Python's `p in s` for two strings, scanning `s` from the left. */
  predicate Contains(s: string, p: string)
    decreases |s|
  {
    if |p| > |s| then false
    else if s[..|p|] == p then true
    else Contains(s[1..], p)
  }

  /** The scan finds `p` exactly when `p` occurs somewhere in `s`. */
  lemma {:induction false} ContainsIffOccurs(s: string, p: string)
    ensures Contains(s, p) <==> exists i :: OccursAt(s, p, i)
    decreases |s|
  {
    if |p| > |s| {
      forall i ensures !OccursAt(s, p, i) { }
    } else if s[..|p|] == p {
      assert OccursAt(s, p, 0);
    } else {
      var t := s[1..];
      ContainsIffOccurs(t, p);
      if Contains(t, p) {
        var j :| OccursAt(t, p, j);
        assert s[j + 1..j + 1 + |p|] == t[j..j + |p|];
        assert OccursAt(s, p, j + 1);
      } else {
        forall i | OccursAt(s, p, i) ensures false {
          if i > 0 {
            assert t[i - 1..i - 1 + |p|] == s[i..i + |p|];
            assert OccursAt(t, p, i - 1);
          }
        }
      }
    }
  }
}
