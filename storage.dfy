/** The device key-value store and the JSON encoding of the contact list.
    The store maps keys to strings; a read or a write may fail, which the
    caller says with a flag. The strings themselves are classified by what
    `JSON.parse` makes of them: the serialisation of a contact array, or
    anything else. */
module Storage {
  import opened Builtins
  import opened ContactCard

  /** The single key under which the whole contact list is kept. */
  const ContactsKey: string := "contacts"

  /** A stored string. `ContactsJson(cs)` is the text `JSON.stringify(cs)`
      produces; `OtherText(t)` is any text that does not parse as a contact
      array, including the empty string. */
  datatype StoredValue = ContactsJson(contacts: seq<Contact>) | OtherText(text: string)

  /** JavaScript truthiness of the stored string: non-empty. A serialised
      array is at least `[]`, so it is always truthy. */
  function Truthy(v: StoredValue): (b: bool)
    ensures b <==> v != OtherText("")
  {
    v.ContactsJson? || |v.text| > 0
  }

  /** `JSON.parse`, reduced to success with the list, or failure. Only a
      serialised array parses, and then to exactly the array it holds; the
      empty string never parses. */
  function Parse(v: StoredValue): (r: Option<seq<Contact>>)
    ensures r.Some? <==> v.ContactsJson?
    ensures r.Some? ==> r.value == v.contacts && Truthy(v)
  {
    match v
    case ContactsJson(cs) => Some(cs)
    case OtherText(_) => None
  }

  /** `JSON.stringify` of the whole list. */
  function Stringify(contacts: seq<Contact>): (v: StoredValue)
    ensures Truthy(v)
    ensures Parse(v) == Some(contacts)
  {
    ContactsJson(contacts)
  }

  /** A list parsed from a stored string serialises back to that string. */
  lemma StringifyParse(v: StoredValue)
    requires Parse(v).Some?
    ensures Stringify(Parse(v).value) == v
  {
  }

  /** What `AsyncStorage.getItem` resolves to: a rejected promise, or the
      value, `null` when the key is absent. */
  datatype ReadResult = ReadFailed | ReadValue(value: Option<StoredValue>)

  class DeviceStore {
    var items: map<string, StoredValue>

    constructor(items: map<string, StoredValue>)
      ensures this.items == items
    {
      this.items := items;
    }

    /** `getItem(key)`; `fails` says whether the read is rejected. */
    function GetItem(key: string, fails: bool): (r: ReadResult)
      reads this
      ensures fails <==> r.ReadFailed?
      ensures r.ReadValue? ==> (r.value.Some? <==> key in items)
      ensures r.ReadValue? && key in items ==> r.value.value == items[key]
    {
      if fails then ReadFailed
      else if key in items then ReadValue(Some(items[key]))
      else ReadValue(None)
    }

    /** `setItem(key, value)`; a failed write is dropped and changes nothing. */
    method SetItem(key: string, value: StoredValue, fails: bool)
      modifies this
      ensures items == if fails then old(items) else old(items)[key := value]
    {
      if !fails {
        items := items[key := value];
      }
    }
  }
}
