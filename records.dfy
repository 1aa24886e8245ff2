/**
 * The flat key/value containers the entities are converted to and from:
 * a storage row and a JSON object are both modelled as a map from key to scalar.
 * A container is filled by a sequence of `set` calls and read by typed `get` calls.
 */
module Records {
  import opened Wrappers

  /** A scalar stored under one key. */
  datatype Value = VStr(s: string) | VInt(i: int) | VNull

  /** A storage row or a JSON object. */
  type Record = map<string, Value>

  /** Why a typed `get` fails. */
  datatype Error = MissingKey(key: string) | TypeMismatch(key: string)

  /** One `set(key, value)` call on a container under construction. */
  datatype Entry = Entry(key: string, value: Value)

  /** The declared type of a value read from a container. */
  datatype FieldType = StringType | IntType

  predicate HasType(v: Value, kind: FieldType)
  {
    match kind
    case StringType => v.VStr?
    case IntType => v.VInt?
  }

  /** The value a `get` sees under `key`: an absent key reads as null. */
  function Lookup(rec: Record, key: string): Value
  {
    if key in rec then rec[key] else VNull
  }

  /** The keys a sequence of `set` calls writes. */
  function KeysOf(entries: seq<Entry>): set<string>
  {
    set i | 0 <= i < |entries| :: entries[i].key
  }

  /** No two `set` calls of the sequence write the same key. */
  predicate DistinctKeys(entries: seq<Entry>)
  {
    forall i, j :: 0 <= i < j < |entries| ==> entries[i].key != entries[j].key
  }

  /**
   * Applies the `set` calls of `entries` to `rec`, first to last. The result
   * holds exactly the old keys and the written ones; a key nobody writes keeps
   * its value, and the last write of a key is the one that stays.
   */
  function SetAll(rec: Record, entries: seq<Entry>): (r: Record)
    ensures r.Keys == rec.Keys + KeysOf(entries)
    ensures forall k :: k in rec && k !in KeysOf(entries) ==> r[k] == rec[k]
    ensures forall i :: 0 <= i < |entries| && entries[i].key !in KeysOf(entries[i + 1..]) ==>
              r[entries[i].key] == entries[i].value
    decreases |entries|
  {
    if entries == [] then rec
    else
      var head, tail := entries[0], entries[1..];
      assert KeysOf(entries) == {head.key} + KeysOf(tail) by {
        forall k | k in KeysOf(entries) ensures k in {head.key} + KeysOf(tail) {
          var i :| 0 <= i < |entries| && entries[i].key == k;
          if i > 0 { assert tail[i - 1].key == k; }
        }
      }
      var r := SetAll(rec[head.key := head.value], tail);
      assert forall i :: 1 <= i < |entries| ==> entries[i] == tail[i - 1] && entries[i + 1..] == tail[i..];
      r
  }

  /** A container built from nothing but the `set` calls of `entries`. */
  function Build(entries: seq<Entry>): (r: Record)
    requires DistinctKeys(entries)
    ensures r.Keys == KeysOf(entries)
    ensures forall i :: 0 <= i < |entries| ==> r[entries[i].key] == entries[i].value
  {
    assert forall i :: 0 <= i < |entries| ==> entries[i].key !in KeysOf(entries[i + 1..]);
    SetAll(map[], entries)
  }

  /** Encodes an optional string: `nil` is stored as null. */
  function FromOptString(o: Option<string>): (v: Value)
    ensures v.VNull? <==> o.None?
  {
    match o
    case None => VNull
    case Some(s) => VStr(s)
  }

  /** Encodes an optional integer identifier: `nil` is stored as null. */
  function FromOptInt(o: Option<int>): (v: Value)
    ensures v.VNull? <==> o.None?
  {
    match o
    case None => VNull
    case Some(n) => VInt(n)
  }

  /** `get` of a non-optional String: null or absent is missing, an Int is a mismatch. */
  function GetString(rec: Record, key: string): (r: Result<string, Error>)
    ensures r.Ok? <==> Lookup(rec, key).VStr?
    ensures r.Ok? ==> key in rec && rec[key] == VStr(r.value)
    ensures r.Err? ==> r.error.key == key && (r.error.MissingKey? <==> Lookup(rec, key).VNull?)
  {
    match Lookup(rec, key)
    case VStr(s) => Ok(s)
    case VInt(_) => Err(TypeMismatch(key))
    case VNull => Err(MissingKey(key))
  }

  /** `get` of a non-optional Int: null or absent is missing, a String is a mismatch. */
  function GetInt(rec: Record, key: string): (r: Result<int, Error>)
    ensures r.Ok? <==> Lookup(rec, key).VInt?
    ensures r.Ok? ==> key in rec && rec[key] == VInt(r.value)
    ensures r.Err? ==> r.error.key == key && (r.error.MissingKey? <==> Lookup(rec, key).VNull?)
  {
    match Lookup(rec, key)
    case VInt(n) => Ok(n)
    case VStr(_) => Err(TypeMismatch(key))
    case VNull => Err(MissingKey(key))
  }

  /** `get` of an optional String: null or absent reads as `nil`, an Int is a mismatch. */
  function GetOptString(rec: Record, key: string): (r: Result<Option<string>, Error>)
    ensures r.Ok? <==> !Lookup(rec, key).VInt?
    ensures r.Ok? ==> FromOptString(r.value) == Lookup(rec, key)
    ensures r.Err? ==> r.error == TypeMismatch(key)
  {
    match Lookup(rec, key)
    case VStr(s) => Ok(Some(s))
    case VInt(_) => Err(TypeMismatch(key))
    case VNull => Ok(None)
  }

  /** `get` of an optional integer identifier: null or absent reads as `nil`. */
  function GetOptInt(rec: Record, key: string): (r: Result<Option<int>, Error>)
    ensures r.Ok? <==> !Lookup(rec, key).VStr?
    ensures r.Ok? ==> FromOptInt(r.value) == Lookup(rec, key)
    ensures r.Err? ==> r.error == TypeMismatch(key)
  {
    match Lookup(rec, key)
    case VInt(n) => Ok(Some(n))
    case VStr(_) => Err(TypeMismatch(key))
    case VNull => Ok(None)
  }

  /** A column declared by a table's `prepare`: the identifier, or a named column of a type. */
  datatype Column = IdColumn | Typed(name: string, kind: FieldType)

  function ColumnName(c: Column): string
  {
    match c
    case IdColumn => "id"
    case Typed(name, _) => name
  }

  function ColumnNames(cols: seq<Column>): set<string>
  {
    set i | 0 <= i < |cols| :: ColumnName(cols[i])
  }

  /** Distinct optional strings are stored as distinct values. */
  lemma FromOptStringInjective(a: Option<string>, b: Option<string>)
    requires FromOptString(a) == FromOptString(b)
    ensures a == b
  {
  }

  /** Distinct optional identifiers are stored as distinct values. */
  lemma FromOptIntInjective(a: Option<int>, b: Option<int>)
    requires FromOptInt(a) == FromOptInt(b)
    ensures a == b
  {
  }
}
