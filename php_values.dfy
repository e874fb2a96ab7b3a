/** PHP values as `json_decode($text, true)` produces them, and the few array
    operations `push` performs on them: `isset`, `??`, `foreach` and offset
    assignment. PHP arrays are ordered maps; they are modelled as a sequence of
    (key, value) entries in insertion order. */
module PhpValues {

  datatype Option<+T> = None | Some(value: T)

  /** The Error a PHP offset assignment throws on a value that cannot become an array. */
  datatype PhpError =
    | ScalarUsedAsArray   // `$x[k] = v` on true, an int or a float
    | StringOffsetWrite   // `$x[k] = v` on a string, with a plain string key

  datatype Result<+T> = Ok(value: T) | Err(error: PhpError)

  /** An array key: PHP keys are integers or strings. */
  datatype Key = IntKey(i: int) | StrKey(s: string)

  /** A string key that starts with a letter or `_`, as every key `push` uses
      does. PHP keeps such a key a string (an integer string such as "7" would
      become the integer key 7), and on a string value it names no character
      offset (an integer offset such as 0 would). */
  predicate PlainStringKey(k: Key)
  {
    k.StrKey? && |k.s| > 0 && ('a' <= k.s[0] <= 'z' || 'A' <= k.s[0] <= 'Z' || k.s[0] == '_')
  }

  /** The keys the array operations below are modelled for. */
  type PlainKey = k: Key | PlainStringKey(k) witness StrKey("_")

  datatype Value =
    | Null
    | Bool(b: bool)
    | Int(i: int)
    | Float(r: real)
    | Str(s: string)
    | Arr(entries: seq<(Key, Value)>)

  /** The keys of an array, in order. */
  function Keys(entries: seq<(Key, Value)>): (ks: seq<Key>)
    ensures |ks| == |entries|
    ensures forall j :: 0 <= j < |entries| ==> ks[j] == entries[j].0
  {
    if entries == [] then [] else [entries[0].0] + Keys(entries[1..])
  }

  /** The value stored under `k`, if any. */
  function Lookup(entries: seq<(Key, Value)>, k: Key): (r: Option<Value>)
    ensures r.Some? <==> k in Keys(entries)
  {
    if entries == [] then None
    else if entries[0].0 == k then Some(entries[0].1)
    else Lookup(entries[1..], k)
  }

  /** No key occurs twice in the array: PHP's array invariant. */
  predicate DistinctKeys(entries: seq<(Key, Value)>)
  {
    forall i, j :: 0 <= i < j < |entries| ==> entries[i].0 != entries[j].0
  }

  /** A value PHP can hold: every array in it, at any depth, has distinct keys. */
  predicate WellFormed(v: Value)
  {
    match v
    case Arr(entries) => DistinctKeys(entries) && forall j :: 0 <= j < |entries| ==> WellFormed(entries[j].1)
    case _ => true
  }

  /** In an array with distinct keys, each entry's key finds that entry's value. */
  lemma {:induction false} LookupFindsEntry(entries: seq<(Key, Value)>, j: nat)
    requires DistinctKeys(entries) && j < |entries|
    ensures Lookup(entries, entries[j].0) == Some(entries[j].1)
  {
    if j > 0 {
      assert entries[0].0 != entries[j].0;
      assert entries[1..][j - 1] == entries[j];
      LookupFindsEntry(entries[1..], j - 1);
    }
  }

  /** `$v[$k] ?? null` for a plain string key: the stored value when `$v` is an
      array holding `k`, null otherwise (a string `$v` included). */
  function Get(v: Value, k: PlainKey): Value
  {
    if v.Arr? then
      match Lookup(v.entries, k)
      case Some(x) => x
      case None => Null
    else Null
  }

  /** Under PHP's invariant, `??` reads the one entry with key `k`: its value
      when the array has such an entry, null when it has none or is no array. */
  lemma GetSpec(v: Value, k: PlainKey)
    requires WellFormed(v)
    ensures v.Arr? ==> forall j :: 0 <= j < |v.entries| && v.entries[j].0 == k ==> Get(v, k) == v.entries[j].1
    ensures v.Arr? && (forall j :: 0 <= j < |v.entries| ==> v.entries[j].0 != k) ==> Get(v, k) == Null
    ensures !v.Arr? ==> Get(v, k) == Null
  {
    if v.Arr? {
      forall j | 0 <= j < |v.entries| && v.entries[j].0 == k
        ensures Get(v, k) == v.entries[j].1
      {
        LookupFindsEntry(v.entries, j);
      }
    }
  }

  /** `isset($v[$k])` for a plain string key: `$v` is an array holding a
      non-null value under `k`; a string subscripted with such a key is never
      set. */
  predicate Isset(v: Value, k: PlainKey)
  {
    Get(v, k) != Null
  }

  /** Under PHP's invariant, `isset` holds exactly when some entry has key `k`
      and a non-null value. */
  lemma IssetSpec(v: Value, k: PlainKey)
    requires WellFormed(v)
    ensures Isset(v, k) <==> v.Arr? && exists j :: 0 <= j < |v.entries| && v.entries[j].0 == k && v.entries[j].1 != Null
  {
    GetSpec(v, k);
    if Isset(v, k) {
      var j :| 0 <= j < |Keys(v.entries)| && Keys(v.entries)[j] == k;
      assert v.entries[j].0 == k;
    }
  }

  /** `foreach ($v as $x)`: the values of an array in order; on any other value
      PHP warns and runs the body zero times. */
  function ForeachValues(v: Value): seq<Value>
  {
    if v.Arr? then seq(|v.entries|, j requires 0 <= j < |v.entries| => v.entries[j].1) else []
  }

  /** Under PHP's invariant, `foreach` visits the value of every key exactly
      once, in key order; over any other value it visits nothing. */
  lemma ForeachVisitsKeysInOrder(v: Value)
    requires WellFormed(v)
    ensures v.Arr? ==> |ForeachValues(v)| == |Keys(v.entries)|
    ensures v.Arr? ==> forall i, j :: 0 <= i < j < |Keys(v.entries)| ==> Keys(v.entries)[i] != Keys(v.entries)[j]
    ensures v.Arr? ==> forall j :: 0 <= j < |ForeachValues(v)| ==>
      Lookup(v.entries, Keys(v.entries)[j]) == Some(ForeachValues(v)[j])
    ensures !v.Arr? ==> ForeachValues(v) == []
  {
    if v.Arr? {
      forall j | 0 <= j < |v.entries|
        ensures Lookup(v.entries, Keys(v.entries)[j]) == Some(ForeachValues(v)[j])
      {
        LookupFindsEntry(v.entries, j);
      }
    }
  }

  /** Looking up in an array whose first entry is `e`. */
  lemma LookupCons(e: (Key, Value), rest: seq<(Key, Value)>, k: Key)
    ensures Lookup([e] + rest, k) == if e.0 == k then Some(e.1) else Lookup(rest, k)
  {
  }

  /** `$a[$k] = $x` on an array: an existing key keeps its place and gets the
      new value; a new key is appended at the end. */
  function Set(entries: seq<(Key, Value)>, k: PlainKey, x: Value): (r: seq<(Key, Value)>)
    ensures Lookup(r, k) == Some(x)
    ensures forall k' :: k' != k ==> Lookup(r, k') == Lookup(entries, k')
  {
    if entries == [] then [(k, x)]
    else if entries[0].0 == k then
      var r := [(k, x)] + entries[1..];
      assert forall k' :: Lookup(r, k') == if k' == k then Some(x) else Lookup(entries[1..], k') by {
        forall k' { LookupCons((k, x), entries[1..], k'); }
      }
      r
    else
      var rest := Set(entries[1..], k, x);
      assert forall k' :: Lookup([entries[0]] + rest, k') == if entries[0].0 == k' then Some(entries[0].1) else Lookup(rest, k') by {
        forall k' { LookupCons(entries[0], rest, k'); }
      }
      [entries[0]] + rest
  }

  /** Assigning keeps the order of the existing keys: an existing key stays
      where it is, a new one goes last. */
  lemma {:induction false} SetKeys(entries: seq<(Key, Value)>, k: PlainKey, x: Value)
    ensures Keys(Set(entries, k, x)) == if k in Keys(entries) then Keys(entries) else Keys(entries) + [k]
  {
    if entries != [] && entries[0].0 != k {
      SetKeys(entries[1..], k, x);
      var rest := Set(entries[1..], k, x);
      assert ([entries[0]] + rest)[1..] == rest;
      assert Keys([entries[0]] + rest) == [entries[0].0] + Keys(rest);
      assert Keys(entries) == [entries[0].0] + Keys(entries[1..]);
      assert (k in Keys(entries)) == (k in Keys(entries[1..]));
    } else if entries != [] {
      var r := [(k, x)] + entries[1..];
      assert r[1..] == entries[1..];
      assert Keys(r) == [k] + Keys(entries[1..]);
      assert Keys(entries) == [k] + Keys(entries[1..]);
    }
  }

  /** Assigning adds no entry but the new one: every entry of the result is
      `(k, x)` or an entry the array already had. */
  lemma {:induction false} SetEntries(entries: seq<(Key, Value)>, k: PlainKey, x: Value)
    ensures forall p :: p in Set(entries, k, x) ==> p == (k, x) || p in entries
  {
    if entries != [] && entries[0].0 != k {
      SetEntries(entries[1..], k, x);
      assert Set(entries, k, x) == [entries[0]] + Set(entries[1..], k, x);
    }
  }

  /** Assigning keeps PHP's array invariant. */
  lemma SetWellFormed(entries: seq<(Key, Value)>, k: PlainKey, x: Value)
    requires WellFormed(Arr(entries)) && WellFormed(x)
    ensures WellFormed(Arr(Set(entries, k, x)))
  {
    var r := Set(entries, k, x);
    SetKeys(entries, k, x);
    SetEntries(entries, k, x);
    forall i, j | 0 <= i < j < |r|
      ensures r[i].0 != r[j].0
    {
      assert Keys(r)[i] == r[i].0 && Keys(r)[j] == r[j].0;
      if k !in Keys(entries) && j == |entries| {
        assert Keys(r)[i] == Keys(entries)[i];
      } else {
        assert Keys(r)[i] == Keys(entries)[i] && Keys(r)[j] == Keys(entries)[j];
      }
    }
    forall j | 0 <= j < |r|
      ensures WellFormed(r[j].1)
    {
      assert r[j] in r;
      if r[j] != (k, x) {
        var i :| 0 <= i < |entries| && entries[i] == r[j];
      }
    }
  }

  /** `$v[$k] = $x` on any value, for a plain string key. Null and false are
      silently turned into a new array (for false PHP 8.1+ only emits a
      deprecation notice); true, numbers and strings make PHP throw an Error. */
  function AssignOffset(v: Value, k: PlainKey, x: Value): (r: Result<Value>)
    ensures r.Ok? <==> (v.Arr? || v == Null || v == Bool(false))
    ensures r.Ok? ==> r.value.Arr? && Lookup(r.value.entries, k) == Some(x)
    ensures r.Ok? && v.Arr? ==> forall k' :: k' != k ==> Lookup(r.value.entries, k') == Lookup(v.entries, k')
    ensures r.Ok? && !v.Arr? ==> r.value == Arr([(k, x)])
    ensures r.Ok? && WellFormed(v) && WellFormed(x) ==> WellFormed(r.value)
    ensures v.Str? ==> r == Err(StringOffsetWrite)
  {
    match v
    case Arr(entries) =>
      assert WellFormed(v) && WellFormed(x) ==> WellFormed(Arr(Set(entries, k, x))) by {
        if WellFormed(v) && WellFormed(x) {
          SetWellFormed(entries, k, x);
        }
      }
      Ok(Arr(Set(entries, k, x)))
    case Null => Ok(Arr([(k, x)]))
    case Bool(b) => if b then Err(ScalarUsedAsArray) else Ok(Arr([(k, x)]))
    case Int(_) => Err(ScalarUsedAsArray)
    case Float(_) => Err(ScalarUsedAsArray)
    case Str(_) => Err(StringOffsetWrite)
  }
}
