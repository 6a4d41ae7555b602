/** `/api/cars`: GET lists the cars with each stored image turned into a data URL; POST
    creates a car from multipart form data; PUT updates the car whose id the form names,
    replacing its image only when a new one is uploaded. */
module CarsRoute {
  import opened Common
  import opened Numbers
  import Base64
  import opened Forms
  import opened CarRegistrationForm

  /** The media type and encoding of the URL (section 3 of RFC 2397), before the data. */
  const DataUrlPrefix: string := "data:image/jpeg;base64,"

  /** The image as a `data:` URL whose data is the base64 encoding (section 4 of RFC 4648)
      of the stored bytes. */
  function DataUrl(bytes: seq<Base64.byte>): (r: string)
    ensures |r| >= |DataUrlPrefix| && r[..|DataUrlPrefix|] == DataUrlPrefix
    ensures Base64.Decode(r[|DataUrlPrefix|..]) == Some(bytes)
  {
    var r := DataUrlPrefix + Base64.Encode(bytes);
    Base64.DecodeEncode(bytes);
    assert r[|DataUrlPrefix|..] == Base64.Encode(bytes);
    r
  }

  /** The bytes a JPEG data URL carries, or None when it is not one or its data is not
      base64. */
  function ParseDataUrl(s: string): Option<seq<Base64.byte>> {
    if |s| >= |DataUrlPrefix| && s[..|DataUrlPrefix|] == DataUrlPrefix then Base64.Decode(s[|DataUrlPrefix|..])
    else None
  }

  /** Different images give different URLs, and each URL gives back its image. */
  lemma DataUrlRoundTrip(b: seq<Base64.byte>, c: seq<Base64.byte>)
    ensures ParseDataUrl(DataUrl(b)) == Some(b)
    ensures DataUrl(b) == DataUrl(c) ==> b == c
  {
  }

  /** A row of the `car` table; `image` holds the raw bytes, if any. */
  datatype CarRecord = CarRecord(
    id: nat, model: string, manufacturer: string, year: int, price: int, image: Option<seq<Base64.byte>>,
    color: string, licensePlate: string, doors: int, transmission: string)

  /** A car as GET returns it. */
  datatype CarView = CarView(
    id: nat, model: string, manufacturer: string, year: int, price: int, image: Option<string>,
    color: string, licensePlate: string, doors: int, transmission: string)

  function View(c: CarRecord): (v: CarView)
    ensures c.image.None? <==> v.image.None?
    ensures c.image.Some? ==> ParseDataUrl(v.image.value) == c.image
  {
    CarView(c.id, c.model, c.manufacturer, c.year, c.price,
            if c.image.Some? then Some(DataUrl(c.image.value)) else None,
            c.color, c.licensePlate, c.doors, c.transmission)
  }

  /** GET. `fault` says that `findMany` throws. */
  function GetCars(rows: seq<CarRecord>, fault: bool): (r: Response<seq<CarView>>)
    ensures fault <==> r == Error(500, "Failed to fetch cars")
    ensures !fault ==> r.status == 200 && r.body.Json? && |r.body.value| == |rows|
    ensures !fault ==> forall i :: 0 <= i < |rows| ==>
      var v := r.body.value[i];
      v.id == rows[i].id && v.model == rows[i].model && v.manufacturer == rows[i].manufacturer &&
      v.year == rows[i].year && v.price == rows[i].price && v.color == rows[i].color &&
      v.licensePlate == rows[i].licensePlate && v.doors == rows[i].doors &&
      v.transmission == rows[i].transmission &&
      (rows[i].image.None? <==> v.image.None?) &&
      (rows[i].image.Some? ==> ParseDataUrl(v.image.value) == rows[i].image)
  {
    if fault then Error(500, "Failed to fetch cars")
    else JsonOk(seq(|rows|, i requires 0 <= i < |rows| => View(rows[i])))
  }

  /** What a handler ends in: a reply, or an exception it does not catch (the framework then
      answers 500). */
  datatype Handled<+T> = Replied(response: Response<T>) | Threw

  /** `formData.get(key) as string` used as a string column: only a text entry is one. */
  function TextField(entries: seq<Entry>, key: string): (r: Option<string>)
    ensures r.Some? <==> Get(entries, key).Some? && Get(entries, key).value.Text?
  {
    match Get(entries, key)
    case Some(Text(s)) => Some(s)
    case _ => None
  }

  /** `parseInt(formData.get(key) as string)`: a missing entry is read as `"null"` and a file
      as `"[object File]"`, both NaN. */
  function IntField(entries: seq<Entry>, key: string): (r: JsNumber)
    ensures Get(entries, key).Some? && Get(entries, key).value.Text? ==> r == ParseInt(Get(entries, key).value.text)
    ensures !(Get(entries, key).Some? && Get(entries, key).value.Text?) ==> r.NaN?
  {
    match Get(entries, key)
    case Some(Text(s)) => ParseInt(s)
    case _ =>
      assert LeadingDigits("null") == [] && LeadingDigits("[object File]") == [];
      NaN
  }

  /** The image part of the form: None when reading it throws (a non-empty text value has no
      `arrayBuffer`), Some(None) for no image (null or the empty string), else the bytes of
      the uploaded file, however short. */
  function ImageField(entries: seq<Entry>): (r: Option<Option<seq<Base64.byte>>>)
    ensures r == None <==> (Get(entries, "image").Some? && Get(entries, "image").value.Text? &&
                            Get(entries, "image").value.text != "")
    ensures r == Some(None) <==> !Truthy(Get(entries, "image"))
  {
    match Get(entries, "image")
    case None => Some(None)
    case Some(Text(s)) => if s == "" then Some(None) else None
    case Some(Upload(f)) => Some(Some(f.bytes))
  }

  /** The columns POST and PUT write apart from the image. */
  datatype CarFields = CarFields(
    model: string, manufacturer: string, year: int, price: int,
    color: string, licensePlate: string, doors: int, transmission: string)

  /** The columns read from the form, or None when the database would reject them: a string
      column that is not text, or a number column that is NaN. The price goes through
      `parseFloat`, read here like `parseInt`. */
  function Fields(entries: seq<Entry>): (r: Option<CarFields>)
    ensures r.Some? <==>
      TextField(entries, "model").Some? && TextField(entries, "manufacturer").Some? &&
      TextField(entries, "color").Some? && TextField(entries, "licensePlate").Some? &&
      TextField(entries, "transmission").Some? && IntField(entries, "year").Finite? &&
      IntField(entries, "price").Finite? && IntField(entries, "doors").Finite?
    ensures r.Some? ==>
      r.value.model == TextField(entries, "model").value &&
      r.value.manufacturer == TextField(entries, "manufacturer").value &&
      r.value.color == TextField(entries, "color").value &&
      r.value.licensePlate == TextField(entries, "licensePlate").value &&
      r.value.transmission == TextField(entries, "transmission").value &&
      r.value.year == IntField(entries, "year").value &&
      r.value.price == IntField(entries, "price").value && r.value.doors == IntField(entries, "doors").value
  {
    var model := TextField(entries, "model");
    var manufacturer := TextField(entries, "manufacturer");
    var color := TextField(entries, "color");
    var plate := TextField(entries, "licensePlate");
    var transmission := TextField(entries, "transmission");
    var year := IntField(entries, "year");
    var price := IntField(entries, "price");
    var doors := IntField(entries, "doors");
    if model.Some? && manufacturer.Some? && color.Some? && plate.Some? && transmission.Some? &&
       year.Finite? && price.Finite? && doors.Finite?
    then Some(CarFields(model.value, manufacturer.value, year.value, price.value,
                        color.value, plate.value, doors.value, transmission.value))
    else None
  }

  function Record(id: nat, f: CarFields, image: Option<seq<Base64.byte>>): CarRecord {
    CarRecord(id, f.model, f.manufacturer, f.year, f.price, image, f.color, f.licensePlate, f.doors, f.transmission)
  }

  /** Where the row with that id is, if any. */
  function RowOf(rows: seq<CarRecord>, id: int): (r: Option<nat>)
    ensures r.None? <==> forall k :: 0 <= k < |rows| ==> rows[k].id != id
    ensures r.Some? ==> r.value < |rows| && rows[r.value].id == id
    decreases |rows|
  {
    if rows == [] then None
    else if rows[0].id == id then Some(0)
    else
      var r := RowOf(rows[1..], id);
      if r.Some? then Some(r.value + 1) else None
  }

  /** The row PUT writes: same id, the form's columns, and the new image only when one was
      uploaded. */
  function Updated(row: CarRecord, f: CarFields, upload: Option<seq<Base64.byte>>): (r: CarRecord)
    ensures r.id == row.id
    ensures r.image == if upload.Some? then upload else row.image
    ensures r.model == f.model && r.manufacturer == f.manufacturer && r.year == f.year && r.price == f.price
    ensures r.color == f.color && r.licensePlate == f.licensePlate && r.doors == f.doors
    ensures r.transmission == f.transmission
  {
    Record(row.id, f, if upload.Some? then upload else row.image)
  }

  /** Ids in increasing order, all below the next one the table hands out. */
  predicate IdsBelow(rows: seq<CarRecord>, nextId: nat) {
    (forall i, j :: 0 <= i < j < |rows| ==> rows[i].id < rows[j].id) &&
    (forall i :: 0 <= i < |rows| ==> rows[i].id < nextId)
  }

  /** A row with the next id, appended, keeps the ids ordered and below the new next id. */
  lemma AppendKeepsIdsBelow(rows: seq<CarRecord>, nextId: nat, car: CarRecord)
    requires IdsBelow(rows, nextId) && car.id == nextId
    ensures IdsBelow(rows + [car], nextId + 1)
  {
  }

  /** Overwriting a row with one of the same id keeps the ids as they were. */
  lemma ReplaceKeepsIdsBelow(rows: seq<CarRecord>, nextId: nat, k: nat, car: CarRecord)
    requires IdsBelow(rows, nextId) && k < |rows| && car.id == rows[k].id
    ensures IdsBelow(rows[k := car], nextId)
  {
    assert forall i :: 0 <= i < |rows| ==> rows[k := car][i].id == rows[i].id;
  }

  /** The `car` table, with its auto-incremented id. */
  class CarTable {
    var rows: seq<CarRecord>
    var nextId: nat

    ghost predicate Valid()
      reads this
    {
      IdsBelow(rows, nextId)
    }

    constructor ()
      ensures Valid() && rows == [] && nextId == 1
    {
      rows := [];
      nextId := 1;
    }

    /** POST. The handler catches nothing: a throwing image read or a rejected row ends the
        request with nothing stored. */
    method Post(entries: seq<Entry>) returns (h: Handled<CarRecord>)
      requires Valid()
      modifies this
      ensures Valid()
      ensures h.Replied? <==> ImageField(entries).Some? && Fields(entries).Some?
      ensures h.Replied? ==>
        var car := Record(old(nextId), Fields(entries).value, ImageField(entries).value);
        h.response == JsonOk(car) && rows == old(rows) + [car] && nextId == old(nextId) + 1
      ensures h.Threw? ==> rows == old(rows) && nextId == old(nextId)
    {
      var image := ImageField(entries);
      if image.None? {
        return Threw;
      }
      var fields := Fields(entries);
      if fields.None? {
        return Threw;
      }
      var car := Record(nextId, fields.value, image.value);
      AppendKeepsIdsBelow(rows, nextId, car);
      rows := rows + [car];
      nextId := nextId + 1;
      h := Replied(JsonOk(car));
    }

    /** PUT. The id comes from the form's `id` entry; an id that is NaN or names no car makes
        the update throw. Every column but the image is overwritten; the image only when a
        file is uploaded. */
    method Put(entries: seq<Entry>) returns (h: Handled<CarRecord>)
      requires Valid()
      modifies this
      ensures Valid() && nextId == old(nextId)
      ensures h.Replied? <==>
        ImageField(entries).Some? && Fields(entries).Some? && IntField(entries, "id").Finite? &&
        RowOf(old(rows), IntField(entries, "id").value).Some?
      ensures h.Threw? ==> rows == old(rows)
      ensures h.Replied? ==>
        var k := RowOf(old(rows), IntField(entries, "id").value).value;
        var car := Updated(old(rows)[k], Fields(entries).value, ImageField(entries).value);
        rows == old(rows)[k := car] && h.response == JsonOk(car)
    {
      var id := IntField(entries, "id");
      var image := ImageField(entries);
      if image.None? {
        return Threw;
      }
      var fields := Fields(entries);
      if fields.None? || id.NaN? {
        return Threw;
      }
      var found := RowOf(rows, id.value);
      if found.None? {
        return Threw;
      }
      var k := found.value;
      var car := Updated(rows[k], fields.value, image.value);
      ReplaceKeepsIdsBelow(rows, nextId, k, car);
      rows := rows[k := car];
      h := Replied(JsonOk(car));
    }
  }

  /** A property of the form state reads back, after submission, as the entry it became. */
  lemma FieldReadsBack(props: seq<Prop>, key: string, v: JsValue)
    requires CarRegistrationForm.KeysUnique(props) && Lookup(props, key) == Some(v)
    ensures Forms.Get(Serialize(props), key) == Some(EntryOf(Prop(key, v)).value)
  {
    var k :| 0 <= k < |props| && props[k].key == key;
    SubmittedFieldReadsBack(props, k);
  }

  /** A text property of the form state arrives as that text. */
  lemma SubmittedTextField(props: seq<Prop>, key: string, text: string)
    requires CarRegistrationForm.KeysUnique(props) && Lookup(props, key) == Some(Str(text))
    ensures TextField(Serialize(props), key) == Some(text)
  {
    FieldReadsBack(props, key, Str(text));
  }

  /** A finite number in the form state arrives as its decimal text and is parsed back. */
  lemma SubmittedNumberField(props: seq<Prop>, key: string, n: int)
    requires CarRegistrationForm.KeysUnique(props) && Lookup(props, key) == Some(Num(Finite(n)))
    ensures IntField(Serialize(props), key) == Finite(n)
  {
    FieldReadsBack(props, key, Num(Finite(n)));
    ParseIntOfString(Finite(n));
  }

  /** What the registration form submits is what POST stores: a state whose text fields are
      strings, whose numbers are finite and whose image is a chosen file is read back field
      for field, the numbers through their decimal text. */
  lemma SubmittedCarIsStored(props: seq<Prop>, f: File, model: string, manufacturer: string, color: string,
                             plate: string, transmission: string, year: int, price: int, doors: int)
    requires CarRegistrationForm.KeysUnique(props)
    requires Lookup(props, "image") == Some(FileValue(f))
    requires Lookup(props, "model") == Some(Str(model)) && Lookup(props, "manufacturer") == Some(Str(manufacturer))
    requires Lookup(props, "color") == Some(Str(color)) && Lookup(props, "licensePlate") == Some(Str(plate))
    requires Lookup(props, "transmission") == Some(Str(transmission))
    requires Lookup(props, "year") == Some(Num(Finite(year))) && Lookup(props, "price") == Some(Num(Finite(price)))
    requires Lookup(props, "doors") == Some(Num(Finite(doors)))
    ensures ImageField(Serialize(props)) == Some(Some(f.bytes))
    ensures Fields(Serialize(props)) == Some(CarFields(model, manufacturer, year, price, color, plate, doors, transmission))
  {
    FieldReadsBack(props, "image", FileValue(f));
    SubmittedTextField(props, "model", model);
    SubmittedTextField(props, "manufacturer", manufacturer);
    SubmittedTextField(props, "color", color);
    SubmittedTextField(props, "licensePlate", plate);
    SubmittedTextField(props, "transmission", transmission);
    SubmittedNumberField(props, "year", year);
    SubmittedNumberField(props, "price", price);
    SubmittedNumberField(props, "doors", doors);
  }

  /** A form state whose image is still null submits the text "null", which POST cannot
      read as a file: the request throws. */
  lemma NullImageMakesPostThrow(props: seq<Prop>)
    requires CarRegistrationForm.KeysUnique(props) && Lookup(props, "image") == Some(Null)
    ensures ImageField(Serialize(props)) == None
  {
    FieldReadsBack(props, "image", Null);
  }
}
