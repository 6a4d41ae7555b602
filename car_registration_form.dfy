/** The car registration form of the dashboard. Its state is a JavaScript object, kept here
    as its properties in insertion order; the handlers update one property at a time, and
    submitting turns every property into one multipart form entry. */
module CarRegistrationForm {
  import opened Common
  import opened Numbers
  import opened Forms

  /** The values a property of the form state can hold. */
  datatype JsValue = Str(s: string) | Num(n: JsNumber) | FileValue(file: File) | Null | Undefined

  datatype Prop = Prop(key: string, value: JsValue)

  /** An object never has two properties with one key. */
  predicate KeysUnique(props: seq<Prop>) {
    forall i, j :: 0 <= i < j < |props| ==> props[i].key != props[j].key
  }

  /** The initial state: the current year, price 0, no image, four doors, automatic. */
  function Defaults(currentYear: int): (r: seq<Prop>)
    ensures KeysUnique(r)
  {
    [ Prop("model", Str("")), Prop("manufacturer", Str("")), Prop("year", Num(Finite(currentYear))),
      Prop("price", Num(Finite(0))), Prop("image", Null), Prop("color", Str("")),
      Prop("licensePlate", Str("")), Prop("doors", Num(Finite(4))), Prop("transmission", Str("automático")) ]
  }

  /** `props[key]`, or None when the object has no such property. */
  function Lookup(props: seq<Prop>, key: string): (r: Option<JsValue>)
    ensures r.None? <==> forall i :: 0 <= i < |props| ==> props[i].key != key
    ensures KeysUnique(props) ==> forall i :: 0 <= i < |props| && props[i].key == key ==> r == Some(props[i].value)
    decreases |props|
  {
    if props == [] then None
    else if props[0].key == key then Some(props[0].value)
    else
      assert forall i :: 1 <= i < |props| ==> props[i] == props[1..][i - 1];
      Lookup(props[1..], key)
  }

  /** A fresh form has no image yet (null), the current year, price 0 and four doors. */
  lemma DefaultsReadBack(currentYear: int)
    ensures var r := Defaults(currentYear);
      Lookup(r, "image") == Some(Null) && Lookup(r, "year") == Some(Num(Finite(currentYear))) &&
      Lookup(r, "price") == Some(Num(Finite(0))) && Lookup(r, "doors") == Some(Num(Finite(4))) &&
      Lookup(r, "transmission") == Some(Str("automático")) &&
      Lookup(r, "model") == Some(Str("")) && Lookup(r, "manufacturer") == Some(Str("")) &&
      Lookup(r, "color") == Some(Str("")) && Lookup(r, "licensePlate") == Some(Str(""))
  {
    var r := Defaults(currentYear);
    assert r[0].key == "model" && r[1].key == "manufacturer" && r[2].key == "year" && r[3].key == "price";
    assert r[4].key == "image" && r[5].key == "color" && r[6].key == "licensePlate";
    assert r[7].key == "doors" && r[8].key == "transmission";
  }

  /** `{ ...props, [key]: v }`: an existing property keeps its place and takes the new value;
      a new one is added at the end. */
  function Assign(props: seq<Prop>, key: string, v: JsValue): (r: seq<Prop>)
    ensures Lookup(props, key).Some? ==> (|r| == |props| &&
      forall i :: 0 <= i < |props| ==> r[i] == (if props[i].key == key then Prop(key, v) else props[i]))
    ensures Lookup(props, key).None? ==> r == props + [Prop(key, v)]
    ensures KeysUnique(props) ==> KeysUnique(r)
  {
    if Lookup(props, key).Some? then
      seq(|props|, i requires 0 <= i < |props| => if props[i].key == key then Prop(key, v) else props[i])
    else props + [Prop(key, v)]
  }

  /** After an assignment the property reads back the new value, and every other property
      reads as before. */
  lemma AssignThenLookup(props: seq<Prop>, key: string, v: JsValue, other: string)
    requires KeysUnique(props) && other != key
    ensures Lookup(Assign(props, key, v), key) == Some(v)
    ensures Lookup(Assign(props, key, v), other) == Lookup(props, other)
  {
    var r := Assign(props, key, v);
    var k :| 0 <= k < |r| && r[k].key == key && r[k].value == v;
    if Lookup(props, other).Some? {
      var j :| 0 <= j < |props| && props[j].key == other;
      assert r[j] == props[j];
    } else {
      assert forall i :: 0 <= i < |r| ==> r[i].key != other;
    }
  }

  /** What `handleInputChange` stores for input `name`: the price through `parseFloat`
      (whose fraction is not modelled, so it reads like `parseInt`), other number inputs
      through `Number`, and text as typed. */
  function InputValue(name: string, value: string, isNumberInput: bool): (r: JsValue)
    ensures name == "price" ==> r == Num(ParseInt(value))
    ensures name != "price" && isNumberInput ==> r == Num(ToNumber(value))
    ensures name != "price" && !isNumberInput ==> r == Str(value)
  {
    if name == "price" then Num(ParseInt(value))
    else if isNumberInput then Num(ToNumber(value))
    else Str(value)
  }

  /** `String(value)` for the values that are not files. */
  function StringOf(v: JsValue): (r: string)
    requires !v.FileValue?
    ensures v.Str? ==> r == v.s
    ensures v.Num? ==> ParseInt(r) == v.n && ToNumber(r) == v.n
    ensures v.Null? ==> r == "null"
    ensures v.Undefined? ==> r == "undefined"
  {
    match v
    case Str(s) => s
    case Num(n) => ParseIntOfString(n); ToNumberOfString(n); NumberToString(n)
    case Null => "null"
    case Undefined => "undefined"
  }

  /** The entry a property becomes: a file as the file, anything else as its string. */
  function EntryOf(p: Prop): (e: Entry)
    ensures e.key == p.key
    ensures p.value.FileValue? <==> e.value.Upload?
    ensures p.value.FileValue? ==> e.value == Upload(p.value.file)
    ensures !p.value.FileValue? ==> e.value == Text(StringOf(p.value))
  {
    if p.value.FileValue? then Entry(p.key, Upload(p.value.file))
    else Entry(p.key, Text(StringOf(p.value)))
  }

  /** The form data a submit sends: one entry per property, in property order. */
  function Serialize(props: seq<Prop>): (r: seq<Entry>)
    ensures |r| == |props|
    ensures forall i :: 0 <= i < |props| ==> r[i] == EntryOf(props[i])
  {
    seq(|props|, i requires 0 <= i < |props| => EntryOf(props[i]))
  }

  /** Reading a submitted field back by name gives the entry its property became: the keys
      are unique, so the first entry with the name is that property's. */
  lemma SubmittedFieldReadsBack(props: seq<Prop>, k: nat)
    requires KeysUnique(props) && k < |props|
    ensures Get(Serialize(props), props[k].key) == Some(EntryOf(props[k]).value)
  {
    var entries := Serialize(props);
    var r := Get(entries, props[k].key);
    GetFindsFirst(entries, props[k].key);
    var i :| 0 <= i < |entries| && entries[i] == Entry(props[k].key, r.value) &&
             forall j :: 0 <= j < i ==> entries[j].key != props[k].key;
    assert entries[i].key == props[i].key;
  }

  /** The form's state and what it has handed to `onSubmit` so far. */
  class CarForm {
    var formData: seq<Prop>
    var submitted: seq<seq<Entry>>

    ghost predicate Valid()
      reads this
    {
      KeysUnique(formData)
    }

    /** The first render and its effect: present `initialData` replaces the whole state. */
    constructor (currentYear: int, initialData: Option<seq<Prop>>)
      requires initialData.Some? ==> KeysUnique(initialData.value)
      ensures Valid() && submitted == []
      ensures formData == if initialData.Some? then initialData.value else Defaults(currentYear)
    {
      formData := Defaults(currentYear);
      submitted := [];
      if initialData.Some? {
        formData := initialData.value;
      }
    }

    /** The `initialData` effect on a later render whose `initialData` differs from the last
        one: present data replaces the whole form state, absent data leaves it alone. */
    method InitialDataChanged(initialData: Option<seq<Prop>>)
      requires Valid() && (initialData.Some? ==> KeysUnique(initialData.value))
      modifies this
      ensures Valid() && submitted == old(submitted)
      ensures formData == if initialData.Some? then initialData.value else old(formData)
    {
      if initialData.Some? {
        formData := initialData.value;
      }
    }

    method HandleInputChange(name: string, value: string, isNumberInput: bool)
      requires Valid()
      modifies this
      ensures Valid() && submitted == old(submitted)
      ensures formData == Assign(old(formData), name, InputValue(name, value, isNumberInput))
    {
      formData := Assign(formData, name, InputValue(name, value, isNumberInput));
    }

    /** `handleFileChange` with the chosen files: the first becomes the image; with none,
        nothing changes. */
    method HandleFileChange(files: seq<File>)
      requires Valid()
      modifies this
      ensures Valid() && submitted == old(submitted)
      ensures formData == if files == [] then old(formData) else Assign(old(formData), "image", FileValue(files[0]))
    {
      if files != [] {
        formData := Assign(formData, "image", FileValue(files[0]));
      }
    }

    method HandleSelectChange(name: string, value: string)
      requires Valid()
      modifies this
      ensures Valid() && submitted == old(submitted)
      ensures formData == Assign(old(formData), name, Str(value))
    {
      formData := Assign(formData, name, Str(value));
    }

    /** `handleSubmit`: build the form data entry by entry and call `onSubmit` once. */
    method HandleSubmit()
      modifies this
      ensures formData == old(formData)
      ensures submitted == old(submitted) + [Serialize(formData)]
    {
      var toSend: seq<Entry> := [];
      var i := 0;
      while i < |formData|
        invariant 0 <= i <= |formData|
        invariant |toSend| == i
        invariant forall j :: 0 <= j < i ==> toSend[j] == EntryOf(formData[j])
      {
        var p := formData[i];
        if p.value.FileValue? {
          toSend := toSend + [Entry(p.key, Upload(p.value.file))];
        } else {
          toSend := toSend + [Entry(p.key, Text(StringOf(p.value)))];
        }
        i := i + 1;
      }
      assert toSend == Serialize(formData);
      submitted := submitted + [toSend];
    }
  }
}
