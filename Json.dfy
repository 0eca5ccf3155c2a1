/** Values a Python program obtains from `response.json()`, and the few
    Python operations the pipeline applies to them: `key in v`, `v[key]`,
    `v.get(key)`, `list.extend(v)` and membership in a dict with string keys.
    Each operation reports the exception Python would raise as `None`. */
module Json {

  datatype Option<+T> = None | Some(value: T)

  /** A decoded JSON document as Python holds it. An object is a dict, kept as
      its list of (key, value) pairs in insertion order; keys of a dict are
      distinct, so the first pair with a key is the one Python sees. */
  datatype Json =
    | Null
    | Bool(b: bool)
    | Int(i: int)
    | Float(x: real)
    | Str(s: string)
    | Arr(elems: seq<Json>)
    | Obj(fields: seq<(string, Json)>)

  /** The empty list that a failed page fetch returns. */
  const EmptyList: Json := Arr([])

  predicate HasKey(fields: seq<(string, Json)>, key: string)
  {
    exists i :: 0 <= i < |fields| && fields[i].0 == key
  }

  /** The value stored under `key` in a dict. */
  function Lookup(fields: seq<(string, Json)>, key: string): (v: Json)
    requires HasKey(fields, key)
    ensures exists i :: 0 <= i < |fields| && fields[i] == (key, v)
  {
    if fields[0].0 == key then fields[0].1 else Lookup(fields[1..], key)
  }

  /** `sub` occurs as a contiguous slice of `s` (Python's `sub in s` on strings). */
  predicate IsSubstring(sub: string, s: string)
    decreases |s|
  {
    (|sub| <= |s| && s[..|sub|] == sub) || (s != [] && IsSubstring(sub, s[1..]))
  }

  /** `sub` occurs in `s` starting at index `i`. */
  predicate OccursAt(sub: string, s: string, i: int)
  {
    0 <= i <= |s| - |sub| && s[i..i + |sub|] == sub
  }

  /** Where the scan from the front succeeds, `sub` occurs at some index. */
  lemma {:induction false} ScanOccurs(sub: string, s: string)
    requires IsSubstring(sub, s)
    ensures exists i :: OccursAt(sub, s, i)
    decreases |s|
  {
    if |sub| <= |s| && s[..|sub|] == sub {
      assert s[0..|sub|] == s[..|sub|];
      assert OccursAt(sub, s, 0);
    } else {
      ScanOccurs(sub, s[1..]);
      var j :| OccursAt(sub, s[1..], j);
      assert s[j + 1..j + 1 + |sub|] == s[1..][j..j + |sub|];
      assert OccursAt(sub, s, j + 1);
    }
  }

  /** An occurrence at index `i` is found by the scan from the front. */
  lemma {:induction false} OccursScan(sub: string, s: string, i: int)
    requires OccursAt(sub, s, i)
    ensures IsSubstring(sub, s)
    decreases i
  {
    if i == 0 {
      assert s[..|sub|] == s[0..|sub|];
    } else {
      assert s[1..][i - 1..i - 1 + |sub|] == s[i..i + |sub|];
      OccursScan(sub, s[1..], i - 1);
    }
  }

  /** The scan from the front finds `sub` exactly when it occurs at some index. */
  lemma IsSubstringIffOccurs(sub: string, s: string)
    ensures IsSubstring(sub, s) <==> exists i :: OccursAt(sub, s, i)
  {
    if IsSubstring(sub, s) {
      ScanOccurs(sub, s);
    }
    if i :| OccursAt(sub, s, i) {
      OccursScan(sub, s, i);
    }
  }

  /** Python's `key in v` for a string `key`: a key test on a dict, an
      element test on a list, a substring test on a string; on None, a
      number or a bool it raises TypeError, reported as `None`. */
  function Contains(v: Json, key: string): (r: Option<bool>)
    ensures r.None? <==> v.Null? || v.Bool? || v.Int? || v.Float?
    ensures v.Obj? ==> r == Some(HasKey(v.fields, key))
    ensures v.Arr? ==> r == Some(Str(key) in v.elems)
    ensures v.Str? ==> r == Some(exists i :: OccursAt(key, v.s, i))
  {
    match v
    case Obj(fields) => Some(HasKey(fields, key))
    case Arr(elems) => Some(Str(key) in elems)
    case Str(s) => IsSubstringIffOccurs(key, s); Some(IsSubstring(key, s))
    case _ => None
  }

  /** Python's `v[key]` for a string `key`: only a dict holding `key`
      answers; a dict without it raises KeyError, and every other value
      raises TypeError (a list or string needs an integer index). */
  function Subscript(v: Json, key: string): (r: Option<Json>)
    ensures r.Some? <==> v.Obj? && HasKey(v.fields, key)
    ensures r.Some? ==> r.value == Lookup(v.fields, key)
  {
    if v.Obj? && HasKey(v.fields, key) then Some(Lookup(v.fields, key)) else None
  }

  /** Python's `v.get(key)`: `Some(None)` models the missing key, which
      `.get` reports as None; only a dict has `.get`, on anything else the
      call raises AttributeError, reported as `None`. */
  function Get(v: Json, key: string): (r: Option<Option<Json>>)
    ensures r.None? <==> !v.Obj?
    ensures r.Some? && r.value.Some? <==> v.Obj? && HasKey(v.fields, key)
    ensures r.Some? && r.value.Some? ==> r.value.value == Lookup(v.fields, key)
  {
    match v
    case Obj(fields) => Some(if HasKey(fields, key) then Some(Lookup(fields, key)) else None)
    case _ => None
  }

  /** The keys of a dict in insertion order. */
  function Keys(fields: seq<(string, Json)>): (ks: seq<Json>)
    ensures |ks| == |fields|
  {
    if fields == [] then [] else [Str(fields[0].0)] + Keys(fields[1..])
  }

  /** The one-character strings of `s`, in order. */
  function Chars(s: string): (cs: seq<Json>)
    ensures |cs| == |s|
  {
    if s == [] then [] else [Str([s[0]])] + Chars(s[1..])
  }

  /** `Keys` holds each key, as a string, at its position. */
  lemma {:induction false} KeysElements(fields: seq<(string, Json)>)
    ensures forall i :: 0 <= i < |fields| ==> Keys(fields)[i] == Str(fields[i].0)
  {
    if fields != [] {
      KeysElements(fields[1..]);
    }
  }

  /** `Chars` holds each character, as a one-character string, at its
      position. */
  lemma {:induction false} CharsElements(s: string)
    ensures forall i :: 0 <= i < |s| ==> Chars(s)[i] == Str([s[i]])
  {
    if s != [] {
      CharsElements(s[1..]);
    }
  }

  /** What `list.extend(v)` appends: the elements of a list, the characters
      of a string, the keys of a dict; None, numbers and bools are not
      iterable and make `extend` raise TypeError, reported as `None`. */
  function Iterate(v: Json): (r: Option<seq<Json>>)
    ensures r.None? <==> v.Null? || v.Bool? || v.Int? || v.Float?
    ensures v.Arr? ==> r == Some(v.elems)
    ensures v.Str? ==> r.Some? && |r.value| == |v.s|
    ensures v.Obj? ==> r.Some? && |r.value| == |v.fields|
  {
    match v
    case Arr(elems) => Some(elems)
    case Str(s) => Some(Chars(s))
    case Obj(fields) => Some(Keys(fields))
    case _ => None
  }

  /** Python's `v in d` for a dict `d` whose keys are the strings `keys`:
      `v` is hashed first, and a list or a dict is unhashable (TypeError,
      reported as `None`); a string is a member when it is one of the keys;
      None, a number or a bool never equals a string key. */
  function InStringKeyedDict(v: Json, keys: set<string>): (r: Option<bool>)
    ensures r.None? <==> v.Arr? || v.Obj?
    ensures r == Some(true) <==> v.Str? && v.s in keys
  {
    match v
    case Arr(_) => None
    case Obj(_) => None
    case Str(s) => Some(s in keys)
    case _ => Some(false)
  }

  /** `extend` with a string appends its one-character strings in order,
      and with a dict its keys in insertion order. */
  lemma IterateElements(v: Json)
    ensures v.Str? ==> forall i :: 0 <= i < |v.s| ==> Iterate(v).value[i] == Str([v.s[i]])
    ensures v.Obj? ==> forall i :: 0 <= i < |v.fields| ==> Iterate(v).value[i] == Str(v.fields[i].0)
  {
    match v
    case Str(s) => CharsElements(s);
    case Obj(fields) => KeysElements(fields);
    case _ =>
  }

  /** Python's integer reading of a JSON number used as a count: an int is
      itself and a bool is 0 or 1 (bool is a subclass of int). Anything
      else makes `min(32, v)`, the worker-pool bound check or
      `range(1, v + 1)` raise, reported as `None`. */
  function AsInt(v: Json): (r: Option<int>)
    ensures r.Some? <==> v.Int? || v.Bool?
    ensures v.Int? ==> r == Some(v.i)
    ensures v.Bool? ==> r == Some(if v.b then 1 else 0)
  {
    match v
    case Int(i) => Some(i)
    case Bool(b) => Some(if b then 1 else 0)
    case _ => None
  }
}
