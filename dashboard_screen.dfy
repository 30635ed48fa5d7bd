/** The dashboard: it re-reads the stored contact list every time it gains
    focus and hands it to the contacts preview. */
module DashboardScreen {
  import opened Builtins
  import opened ContactCard
  import opened Storage
  import opened Navigation
  import ContactsSection
  import ContactScreen

  /** `loadContacts`: a present, non-empty value that parses becomes the
      list; an absent or empty value gives the empty list, and so does a
      failed read or a parse error thrown inside `then`, both caught by the
      `catch`. The previous list plays no part. */
  function LoadedOrEmpty(r: ReadResult): (cs: seq<Contact>)
    ensures r.ReadFailed? ==> cs == []
    ensures r == ReadValue(None) ==> cs == []
    ensures r.ReadValue? && r.value.Some? && !Truthy(r.value.value) ==> cs == []
    ensures r.ReadValue? && r.value.Some? && Parse(r.value.value).None? ==> cs == []
    ensures r.ReadValue? && r.value.Some? && Parse(r.value.value).Some? ==> cs == Parse(r.value.value).value
  {
    match r
    case ReadFailed => []
    case ReadValue(None) => []
    case ReadValue(Some(v)) =>
      if Truthy(v) then
        match Parse(v)
        case Some(parsed) => parsed
        case None => []
      else []
  }

  /** The dashboard's fallback is the contacts screen's load started from an
      empty list: the two agree whenever the stored value parses, and differ
      only in that the contacts screen keeps what it had. */
  lemma DashboardLoadIsLoadFromEmpty(r: ReadResult, current: seq<Contact>)
    ensures LoadedOrEmpty(r) == ContactScreen.LoadedOrKept([], r)
    ensures ContactScreen.LoadedOrKept(current, r) == current
            || ContactScreen.LoadedOrKept(current, r) == LoadedOrEmpty(r)
  {
  }

  class DashboardScreen {
    var contacts: seq<Contact>
    var navigations: seq<NavAction>
    const store: DeviceStore

    constructor(store: DeviceStore)
      ensures contacts == [] && navigations == [] && this.store == store
    {
      contacts := [];
      navigations := [];
      this.store := store;
    }

    /** The focus effect: every time the screen gains focus the stored list
        is read again and replaces, never merges with, the one shown. */
    method OnFocus(readFails: bool)
      modifies this
      ensures contacts == LoadedOrEmpty(store.GetItem(ContactsKey, readFails))
      ensures navigations == old(navigations)
    {
      var r := store.GetItem(ContactsKey, readFails);
      if r.ReadFailed? {
        contacts := [];
      } else if r.value.Some? && Truthy(r.value.value) {
        var parsed := Parse(r.value.value);
        contacts := if parsed.Some? then parsed.value else [];
      } else {
        contacts := [];
      }
    }

    /** The contacts preview for the current list. */
    function Section(): (v: ContactsSection.SectionView)
      reads this
      ensures v.count == |contacts|
    {
      ContactsSection.Render(contacts)
    }

    /** The preview's header button opens the contacts screen. */
    method ViewAll()
      modifies this
      ensures navigations == old(navigations) + [Navigate(ContactsRoute)]
      ensures contacts == old(contacts)
    {
      navigations := navigations + [Navigate(ContactsRoute)];
    }

    /** A preview row's card opens the pay screen with that contact. */
    method PayFromRow(i: nat)
      requires i < |ContactsSection.Inline(contacts)|
      modifies this
      ensures navigations == old(navigations) + [Navigate(PayRoute(old(contacts)[i]))]
      ensures contacts == old(contacts)
    {
      navigations := navigations + [ContactsSection.PressRow(contacts, i, PayCallback)];
    }
  }
}
