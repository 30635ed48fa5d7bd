/** The contacts screen: the full list, the add-contact form shown in a
    modal, the load effect that runs once on mount and the persist effect
    that writes the whole list back after every change to it. */
module ContactScreen {
  import opened Builtins
  import opened ContactCard
  import opened Storage
  import opened Navigation

  /** The seven inputs of the add-contact form. */
  datatype Field = Name | Mobile | Email | AccountNumber | Ifsc | Upi | Remark

  /** The form's state: every contact field except `id`, as typed. */
  datatype Draft = Draft(
    name: string,
    mobile: string,
    email: string,
    accountNumber: string,
    ifsc: string,
    upi: string,
    remark: string)
  {
    /** `form[key]` */
    function Get(f: Field): string {
      match f
      case Name => name
      case Mobile => mobile
      case Email => email
      case AccountNumber => accountNumber
      case Ifsc => ifsc
      case Upi => upi
      case Remark => remark
    }

    /** `{...prev, [key]: text}`: one field replaced, the others kept. */
    function With(f: Field, text: string): (d: Draft)
      ensures d.Get(f) == text
      ensures forall g :: g != f ==> d.Get(g) == Get(g)
    {
      match f
      case Name => this.(name := text)
      case Mobile => this.(mobile := text)
      case Email => this.(email := text)
      case AccountNumber => this.(accountNumber := text)
      case Ifsc => this.(ifsc := text)
      case Upi => this.(upi := text)
      case Remark => this.(remark := text)
    }

    /** The Save guard `form.name && form.mobile`: both non-empty, where a
        string of spaces counts as non-empty. */
    function CanSave(): (ok: bool)
      ensures ok <==> name != "" && mobile != ""
      ensures ok ==> this != EmptyForm
    {
      |name| > 0 && |mobile| > 0
    }
  }

  /** The form as it is mounted: every field empty. */
  const EmptyForm: Draft := Draft("", "", "", "", "", "", "")

  /** The inputs the form renders, in order, with their labels. */
  const FormFields: seq<(Field, string)> := [
    (Name, "Name"), (Mobile, "Mobile"), (Email, "Email"),
    (AccountNumber, "Account Number"), (Ifsc, "IFSC Code"), (Upi, "UPI ID"),
    (Remark, "Remark")]

  /** Every field of a draft has exactly one input, and a mounted form
      starts with all of them empty. */
  lemma FormFieldsCoverDraft()
    ensures |FormFields| == 7
    ensures forall i, j :: 0 <= i < j < |FormFields| ==> FormFields[i].0 != FormFields[j].0
    ensures (set p | p in FormFields :: p.0) == {Name, Mobile, Email, AccountNumber, Ifsc, Upi, Remark}
    ensures forall f: Field :: EmptyForm.Get(f) == ""
  {
    assert FormFields[0] in FormFields && FormFields[1] in FormFields && FormFields[2] in FormFields;
    assert FormFields[3] in FormFields && FormFields[4] in FormFields && FormFields[5] in FormFields;
    assert FormFields[6] in FormFields;
  }

  /** The draft a contact's fields would fill in, absent ones as empty. */
  function DraftOf(c: Contact): Draft {
    Draft(c.name, c.mobile, c.email.GetOr(""), c.accountNumber.GetOr(""),
          c.ifsc.GetOr(""), c.upi.GetOr(""), c.remark.GetOr(""))
  }

  /** `{id: Date.now().toString(), ...data}` with `now` the clock reading. */
  function NewContact(now: nat, data: Draft): (c: Contact)
    ensures c.id == NumberToString(now) && IsDigits(c.id) && c.id != ""
    ensures DraftOf(c) == data
    ensures c.email.Some? && c.accountNumber.Some? && c.ifsc.Some? && c.upi.Some? && c.remark.Some?
  {
    Contact(NumberToString(now), data.name, data.mobile, Some(data.email),
            Some(data.accountNumber), Some(data.ifsc), Some(data.upi), Some(data.remark))
  }

  /** Two contacts added at different clock readings get different ids;
      two added within the same millisecond do not. */
  lemma NewContactIds(now1: nat, now2: nat, d1: Draft, d2: Draft)
    ensures NewContact(now1, d1).id == NewContact(now2, d2).id <==> now1 == now2
  {
    if now1 != now2 {
      NumberToStringInjective(now1, now2);
    }
  }

  /** `handleAdd`'s list update: the new contact in front of the old list. */
  function Prepend(now: nat, data: Draft, contacts: seq<Contact>): (r: seq<Contact>)
    ensures |r| == |contacts| + 1
    ensures r[0] == NewContact(now, data)
    ensures r[1..] == contacts
  {
    [NewContact(now, data)] + contacts
  }

  /** Adding A and then B leaves B first and A second, ahead of the old list. */
  lemma AddTwiceOrder(t1: nat, a: Draft, t2: nat, b: Draft, contacts: seq<Contact>)
    ensures Prepend(t2, b, Prepend(t1, a, contacts))
            == [NewContact(t2, b), NewContact(t1, a)] + contacts
  {
  }

  /** The outcome of the mount-time load: a stored string that is present,
      non-empty and parses replaces the list; an absent or empty value, a
      failed read or a parse error (caught by the same `catch`) keeps it. */
  function LoadedOrKept(current: seq<Contact>, r: ReadResult): (cs: seq<Contact>)
    ensures r.ReadFailed? ==> cs == current
    ensures r == ReadValue(None) ==> cs == current
    ensures r.ReadValue? && r.value.Some? && !Truthy(r.value.value) ==> cs == current
    ensures r.ReadValue? && r.value.Some? && Parse(r.value.value).None? ==> cs == current
    ensures r.ReadValue? && r.value.Some? && Parse(r.value.value).Some? ==> cs == Parse(r.value.value).value
  {
    match r
    case ReadFailed => current
    case ReadValue(None) => current
    case ReadValue(Some(v)) =>
      if !Truthy(v) then current
      else match Parse(v)
        case Some(parsed) => parsed
        case None => current
  }

  /** A list that was written is what a later load gives back. */
  lemma LoadAfterWrite(current: seq<Contact>, written: seq<Contact>)
    ensures LoadedOrKept(current, ReadValue(Some(Stringify(written)))) == written
  {
  }

  class ContactScreen {
    var contacts: seq<Contact>
    var modalVisible: bool
    /** The state of the form in the modal; the modal unmounts the form while
        hidden, so the form is mounted afresh, empty, every time it opens. */
    var form: Draft
    var navigations: seq<NavAction>
    const store: DeviceStore

    constructor(store: DeviceStore)
      ensures contacts == [] && !modalVisible && form == EmptyForm && navigations == []
      ensures this.store == store
    {
      contacts := [];
      modalVisible := false;
      form := EmptyForm;
      navigations := [];
      this.store := store;
    }

    /** The persist effect, run after every change to `contacts`: the whole
        list is serialised and written under the one key. */
    method Persist(writeFails: bool)
      modifies store
      ensures store.items == if writeFails then old(store.items)
                             else old(store.items)[ContactsKey := Stringify(contacts)]
    {
      store.SetItem(ContactsKey, Stringify(contacts), writeFails);
    }

    /** The load effect: read the key, and replace the list only when the
        value is present, non-empty and parses. Replacing the list fires the
        persist effect, which writes back the very value that was read, so
        the store ends as it was. */
    method Load(readFails: bool, writeFails: bool)
      modifies this, store
      ensures contacts == LoadedOrKept(old(contacts), old(store.GetItem(ContactsKey, readFails)))
      ensures store.items == old(store.items)
      ensures modalVisible == old(modalVisible) && form == old(form)
      ensures navigations == old(navigations)
    {
      var r := store.GetItem(ContactsKey, readFails);
      if r.ReadValue? && r.value.Some? && Truthy(r.value.value) {
        var parsed := Parse(r.value.value);
        if parsed.Some? {
          contacts := parsed.value;
          StringifyParse(r.value.value);
          Persist(writeFails);
          assert store.items == old(store.items);
        }
      }
    }

    /** `handleAdd`: prepend the new contact, close the modal, and persist
        the whole new list. */
    method HandleAdd(data: Draft, now: nat, writeFails: bool)
      modifies this, store
      ensures contacts == Prepend(now, data, old(contacts))
      ensures !modalVisible
      ensures store.items == if writeFails then old(store.items)
                             else old(store.items)[ContactsKey := Stringify(contacts)]
      ensures form == old(form) && navigations == old(navigations)
    {
      contacts := [NewContact(now, data)] + contacts;
      modalVisible := false;
      Persist(writeFails);
    }

    /** `toggleModal`: show or hide the form; showing it mounts an empty one. */
    method ToggleModal()
      modifies this
      ensures modalVisible == !old(modalVisible)
      ensures modalVisible ==> form == EmptyForm
      ensures !modalVisible ==> form == old(form)
      ensures contacts == old(contacts) && navigations == old(navigations)
    {
      modalVisible := !modalVisible;
      if modalVisible {
        form := EmptyForm;
      }
    }

    /** Typing into one input of the open form. */
    method EditField(f: Field, text: string)
      requires modalVisible
      modifies this
      ensures form == old(form).With(f, text)
      ensures modalVisible && contacts == old(contacts) && navigations == old(navigations)
    {
      form := form.With(f, text);
    }

    /** Cancel, which is wired to `toggleModal`: from the open form it
        closes the modal and leaves the list alone. */
    method Cancel()
      requires modalVisible
      modifies this
      ensures !modalVisible
      ensures contacts == old(contacts) && form == old(form) && navigations == old(navigations)
    {
      ToggleModal();
    }

    /** Save: submits the form to `handleAdd` only when both the name and
        the mobile number are non-empty; otherwise nothing happens and the
        form stays open. */
    method Save(now: nat, writeFails: bool) returns (submitted: bool)
      requires modalVisible
      modifies this, store
      ensures submitted == old(form).CanSave()
      ensures submitted ==> contacts == Prepend(now, old(form), old(contacts)) && !modalVisible
      ensures submitted ==> store.items == if writeFails then old(store.items)
                                           else old(store.items)[ContactsKey := Stringify(contacts)]
      ensures !submitted ==> contacts == old(contacts) && modalVisible && store.items == old(store.items)
      ensures form == old(form) && navigations == old(navigations)
    {
      submitted := form.CanSave();
      if submitted {
        HandleAdd(form, now, writeFails);
      }
    }

    /** Pressing the card in row `i` opens the pay screen with that contact. */
    method PressCard(i: nat)
      requires i < |contacts|
      modifies this
      ensures navigations == old(navigations) + [Navigate(PayRoute(old(contacts)[i]))]
      ensures contacts == old(contacts) && modalVisible == old(modalVisible) && form == old(form)
    {
      navigations := navigations + [Press(contacts[i], PayCallback)];
    }

    /** The header's back arrow. */
    method PressBack()
      modifies this
      ensures navigations == old(navigations) + [GoBack]
      ensures contacts == old(contacts) && modalVisible == old(modalVisible) && form == old(form)
    {
      navigations := navigations + [GoBack];
    }
  }
}
