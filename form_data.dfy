/** The multipart bodies the product pages send: a `FormData` is an ordered
    list of (key, value) parts, and the server reads a field as the value of
    the first part with that key (`FormData.get`). */
module FormData {
  import opened Basics

  /** A file the user picked, known by its name. */
  datatype ImageFile = ImageFile(fileName: string)

  /** A part's value: a text field or a file. */
  datatype PartValue = Text(text: string) | File(file: ImageFile)

  /** One part: its key and its value. The pages' keys are datatypes naming
      their fields, so distinct fields have distinct keys by construction. */
  datatype Part<K> = Part(key: K, value: PartValue)

  /** `formData.get(key)`: the value of the first part named `key`. */
  function Get<K(==)>(parts: seq<Part<K>>, key: K): Option<PartValue> {
    if parts == [] then None
    else if parts[0].key == key then Some(parts[0].value)
    else Get(parts[1..], key)
  }

  /** `Get` finds nothing exactly when no part has the key, and otherwise
      the value of the earliest part that has it. */
  lemma {:induction false} GetIsFirstMatch<K>(parts: seq<Part<K>>, key: K)
    ensures Get(parts, key) == None <==> forall i :: 0 <= i < |parts| ==> parts[i].key != key
    ensures Get(parts, key).Some? ==>
      exists i :: 0 <= i < |parts| && parts[i].key == key && parts[i].value == Get(parts, key).value
                  && forall j :: 0 <= j < i ==> parts[j].key != key
    decreases |parts|
  {
    if parts != [] && parts[0].key != key {
      var tail := parts[1..];
      GetIsFirstMatch(tail, key);
      forall i | 0 < i < |parts| ensures parts[i] == tail[i - 1] { }
      if Get(tail, key).Some? {
        var i :| 0 <= i < |tail| && tail[i].key == key && tail[i].value == Get(tail, key).value
                 && forall j :: 0 <= j < i ==> tail[j].key != key;
        assert parts[i + 1] == tail[i];
      }
    } else if parts != [] {
      assert parts[0].key == key;
    }
  }

  /** `formData.append(key, value)`. */
  function Append<K>(parts: seq<Part<K>>, key: K, value: PartValue): (r: seq<Part<K>>)
    ensures |r| == |parts| + 1 && r[..|parts|] == parts && r[|parts|] == Part(key, value)
  {
    parts + [Part(key, value)]
  }

  /** Appending a part leaves every field already present as it was and
      makes the new key readable when it was not. */
  lemma {:induction false} GetAppend<K>(parts: seq<Part<K>>, key: K, value: PartValue, k: K)
    ensures Get(Append(parts, key, value), k) ==
      if Get(parts, k).Some? then Get(parts, k)
      else if key == k then Some(value)
      else None
    decreases |parts|
  {
    var r := Append(parts, key, value);
    if parts != [] {
      assert r[0] == parts[0];
      assert r[1..] == Append(parts[1..], key, value);
      GetAppend(parts[1..], key, value, k);
    }
  }

  /** `GetAppend` for every key at once. */
  lemma GetAppendAll<K>(parts: seq<Part<K>>, key: K, value: PartValue)
    ensures forall k ::
              Get(Append(parts, key, value), k) ==
              if Get(parts, k).Some? then Get(parts, k) else if key == k then Some(value) else None
  {
    forall k {
      GetAppend(parts, key, value, k);
    }
  }
}
