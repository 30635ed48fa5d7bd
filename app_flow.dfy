/** The contacts flow across screens: the contacts screen mounts and loads,
    the user opens the form, types a draft field by field and saves, then
    returns to the dashboard, whose focus effect reads the list back from
    the shared store. Every storage access here succeeds. */
module AppFlow {
  import opened Builtins
  import opened ContactCard
  import opened Storage
  import opened ContactScreen
  import opened DashboardScreen

  /** Typing every field of `d`, in the form's order, into the open form. */
  method TypeDraft(screen: ContactScreen, d: Draft)
    requires screen.modalVisible
    modifies screen
    ensures screen.form == d
    ensures screen.modalVisible && screen.contacts == old(screen.contacts)
  {
    screen.EditField(Name, d.name);
    screen.EditField(Mobile, d.mobile);
    screen.EditField(Email, d.email);
    screen.EditField(AccountNumber, d.accountNumber);
    screen.EditField(Ifsc, d.ifsc);
    screen.EditField(Upi, d.upi);
    screen.EditField(Remark, d.remark);
  }

  /** The list a first load makes of what the store holds. */
  function Initial(items: map<string, StoredValue>): seq<Contact> {
    LoadedOrEmpty(ReadValue(if ContactsKey in items then Some(items[ContactsKey]) else None))
  }

  /** Saving a draft on the contacts screen and refocusing the dashboard:
      the dashboard shows the new contact in front of what was stored
      before, or, when the draft lacks a name or a mobile number, just what
      was stored before. */
  method SaveThenRefocus(items: map<string, StoredValue>, d: Draft, now: nat)
    returns (saved: bool, shown: seq<Contact>)
    ensures saved == d.CanSave()
    ensures saved ==> shown == [NewContact(now, d)] + Initial(items)
    ensures !saved ==> shown == Initial(items)
  {
    var store := new DeviceStore(items);
    var contacts := new ContactScreen(store);
    contacts.Load(false, false);
    DashboardLoadIsLoadFromEmpty(store.GetItem(ContactsKey, false), []);
    contacts.ToggleModal();
    TypeDraft(contacts, d);
    saved := contacts.Save(now, false);
    var dashboard := new DashboardScreen(store);
    dashboard.OnFocus(false);
    shown := dashboard.contacts;
  }

  /** Two contacts saved one after the other come back newest first. */
  method SaveTwoThenRefocus(a: Draft, b: Draft, t1: nat, t2: nat) returns (shown: seq<Contact>)
    requires a.CanSave() && b.CanSave()
    ensures shown == [NewContact(t2, b), NewContact(t1, a)]
  {
    var store := new DeviceStore(map[]);
    var contacts := new ContactScreen(store);
    contacts.ToggleModal();
    TypeDraft(contacts, a);
    var savedA := contacts.Save(t1, false);
    contacts.ToggleModal();
    TypeDraft(contacts, b);
    var savedB := contacts.Save(t2, false);
    var dashboard := new DashboardScreen(store);
    dashboard.OnFocus(false);
    shown := dashboard.contacts;
  }
}
