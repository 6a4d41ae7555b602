/** Multipart form data as the components build it and the route handlers read it: an
    ordered list of named entries, each a text value or an uploaded file. */
module Forms {
  import opened Common
  import opened Base64

  datatype File = File(name: string, bytes: seq<byte>)

  /** `FormDataEntryValue`: a string or a File. */
  datatype FormValue = Text(text: string) | Upload(file: File)

  datatype Entry = Entry(key: string, value: FormValue)

  /** `formData.get(key)`: the value of the first entry with that name, or null. */
  function Get(entries: seq<Entry>, key: string): Option<FormValue>
    decreases |entries|
  {
    if entries == [] then None
    else if entries[0].key == key then Some(entries[0].value)
    else Get(entries[1..], key)
  }

  /** `get` answers null exactly when no entry has the name, and otherwise the value of the
      first entry that has it. */
  lemma {:induction false} GetFindsFirst(entries: seq<Entry>, key: string)
    ensures Get(entries, key).None? <==> forall i :: 0 <= i < |entries| ==> entries[i].key != key
    ensures Get(entries, key).Some? ==> exists i :: 0 <= i < |entries| && entries[i] == Entry(key, Get(entries, key).value) &&
                                                   forall j :: 0 <= j < i ==> entries[j].key != key
    decreases |entries|
  {
    if entries != [] && entries[0].key != key {
      var r := Get(entries[1..], key);
      GetFindsFirst(entries[1..], key);
      assert forall i :: 1 <= i < |entries| ==> entries[i] == entries[1..][i - 1];
      if r.Some? {
        var i :| 0 <= i < |entries| - 1 && entries[1..][i] == Entry(key, r.value) &&
                 forall j :: 0 <= j < i ==> entries[1..][j].key != key;
        assert entries[i + 1] == Entry(key, r.value);
      }
    }
  }

  /** JavaScript truthiness of what `get` returns: null and the empty string are falsy, any
      other string and every File (even an empty one) are truthy. */
  predicate Truthy(v: Option<FormValue>) {
    match v
    case None => false
    case Some(Text(s)) => s != ""
    case Some(Upload(_)) => true
  }
}
