/** The dashboard's contacts preview: a header with the total count, a
    button labelled "View All" or "Add", and either the first six contacts
    or an empty-state message. */
module ContactsSection {
  import opened Builtins
  import opened ContactCard

  /** How many contacts the preview lists at most. */
  const InlineLimit: nat := 6

  /** `contacts.slice(0, 6)`: the first six contacts in their order, or all
      of them when there are fewer. */
  function Inline(contacts: seq<Contact>): (r: seq<Contact>)
    ensures |r| == Min(InlineLimit, |contacts|)
    ensures forall i :: 0 <= i < |r| ==> r[i] == contacts[i]
  {
    Take(contacts, InlineLimit)
  }

  /** What the section shows below its header. */
  datatype Body = EmptyState | Rows(rows: seq<Contact>)

  /** The rendered section: the number in "Contacts (n)", the button label
      and the body. */
  datatype SectionView = SectionView(count: nat, buttonLabel: string, body: Body)

  function Render(contacts: seq<Contact>): (v: SectionView)
    ensures v.count == |contacts|
    ensures v.buttonLabel == "View All" <==> |contacts| > InlineLimit
    ensures v.buttonLabel != "View All" ==> v.buttonLabel == "Add"
    ensures v.body.EmptyState? <==> contacts == []
    ensures v.body.Rows? ==> v.body.rows == Inline(contacts) && |v.body.rows| >= 1
  {
    var inline := Inline(contacts);
    SectionView(
      |contacts|,
      if |contacts| > |inline| then "View All" else "Add",
      if |inline| == 0 then EmptyState else Rows(inline))
  }

  /** Pressing row `i` of the preview calls the section's `onPay` with the
      `i`-th contact of the whole list, unchanged. */
  function PressRow<R>(contacts: seq<Contact>, i: nat, onPay: Contact -> R): (r: R)
    requires i < |Inline(contacts)|
    ensures r == onPay(contacts[i])
  {
    Press(Inline(contacts)[i], onPay)
  }
}
