/** The pay screen: a read-only view of one contact, a Bank/UPI selector
    with a dropdown, an amount and a remark, and the Pay button. Alerts and
    the return to the previous screen are recorded as effects. */
module PayScreen {
  import opened Builtins
  import opened ContactCard
  import opened Navigation

  datatype PayMethod = Bank | Upi

  /** The selector's text for a method. */
  function Label(m: PayMethod): string {
    match m
    case Bank => "Bank"
    case Upi => "UPI"
  }

  /** The read-only routing inputs shown for the chosen method. */
  datatype RoutingFields = UpiFields(upi: string) | BankFields(accountNumber: string, ifsc: string)

  /** `value || ''` on an optional string field. */
  function OrEmpty(o: Option<string>): string {
    o.GetOr("")
  }

  /** UPI shows the contact's UPI id; Bank shows its account number and
      IFSC; a missing value shows as the empty string. Nothing but the
      method and the contact decides what is shown. */
  function ShownFields(m: PayMethod, c: Contact): (f: RoutingFields)
    ensures f.UpiFields? <==> m == Upi
    ensures f.UpiFields? ==> (c.upi.Some? ==> f.upi == c.upi.value) && (c.upi.None? ==> f.upi == "")
    ensures f.BankFields? ==> ((c.accountNumber.Some? ==> f.accountNumber == c.accountNumber.value)
                               && (c.accountNumber.None? ==> f.accountNumber == ""))
    ensures f.BankFields? ==> (c.ifsc.Some? ==> f.ifsc == c.ifsc.value) && (c.ifsc.None? ==> f.ifsc == "")
  {
    match m
    case Upi => UpiFields(OrEmpty(c.upi))
    case Bank => BankFields(OrEmpty(c.accountNumber), OrEmpty(c.ifsc))
  }

  /** What the screen asks of the outside world: an alert, or a navigation
      request of the same kind the other screens record. */
  datatype Effect = Alert(message: string) | Nav(action: NavAction)

  const EnterAmountMessage: string := "Enter an amount"

  /** The text before the amount in the confirmation. The source file holds
      the rupee sign double-encoded, as the three characters U+00E2 U+201A
      U+00B9, and that is the text the alert shows. */
  const PaidPrefix: string := "Paid \U{E2}\U{201A}\U{B9}"

  /** The confirmation: the prefix, the amount, " via ", the method's label,
      " to " and the contact's name. */
  function PaidMessage(amount: string, m: PayMethod, name: string): (r: string)
    ensures |r| == |PaidPrefix| + |amount| + 5 + |Label(m)| + 4 + |name|
    ensures r[..|PaidPrefix| + |amount|] == PaidPrefix + amount
    ensures r[|r| - |name|..] == name
    ensures r != EnterAmountMessage
  {
    PaidPrefix + amount + " via " + Label(m) + " to " + name
  }

  class PayScreen {
    /** The route parameter; no handler writes to it. */
    const contact: Contact
    var payMethod: PayMethod
    var dropdownOpen: bool
    var amount: string
    var note: string
    var effects: seq<Effect>

    constructor(contact: Contact)
      ensures this.contact == contact
      ensures payMethod == Bank && !dropdownOpen && amount == "" && note == "" && effects == []
    {
      this.contact := contact;
      payMethod := Bank;
      dropdownOpen := false;
      amount := "";
      note := "";
      effects := [];
    }

    /** The avatar's initials, by the same rule as the contact card's. */
    function AvatarInitials(): (r: string)
      ensures |r| <= 2
      ensures r == InitialsByPosition(contact.name)
    {
      InitialsAgree(contact.name);
      Initials(contact.name)
    }

    /** The routing inputs currently shown. */
    function Fields(): (f: RoutingFields)
      reads this
      ensures f.UpiFields? <==> payMethod == Upi
    {
      ShownFields(payMethod, contact)
    }

    /** Tapping the selector opens or closes the dropdown; the method stays. */
    method PressSelector()
      modifies this
      ensures dropdownOpen == !old(dropdownOpen)
      ensures payMethod == old(payMethod) && amount == old(amount) && note == old(note)
      ensures effects == old(effects)
    {
      dropdownOpen := !dropdownOpen;
    }

    /** Choosing an item of the open dropdown selects it and closes the list. */
    method ChooseMethod(m: PayMethod)
      requires dropdownOpen
      modifies this
      ensures payMethod == m && !dropdownOpen
      ensures amount == old(amount) && note == old(note) && effects == old(effects)
    {
      payMethod := m;
      dropdownOpen := false;
    }

    method EditAmount(text: string)
      modifies this
      ensures amount == text
      ensures payMethod == old(payMethod) && dropdownOpen == old(dropdownOpen) && note == old(note)
      ensures effects == old(effects)
    {
      amount := text;
    }

    method EditNote(text: string)
      modifies this
      ensures note == text
      ensures payMethod == old(payMethod) && dropdownOpen == old(dropdownOpen) && amount == old(amount)
      ensures effects == old(effects)
    {
      note := text;
    }

    /** `handlePay`: with an empty amount it only alerts; with any other
        amount, numeric or not, it alerts a confirmation naming the amount,
        the method and the contact and then goes back, once. */
    method HandlePay()
      modifies this
      ensures old(amount) == "" ==> effects == old(effects) + [Alert(EnterAmountMessage)]
      ensures old(amount) != "" ==>
        effects == old(effects) + [Alert(PaidMessage(old(amount), old(payMethod), contact.name)), Nav(GoBack)]
      ensures payMethod == old(payMethod) && dropdownOpen == old(dropdownOpen)
      ensures amount == old(amount) && note == old(note)
    {
      if amount == "" {
        effects := effects + [Alert(EnterAmountMessage)];
        return;
      }
      effects := effects + [Alert(PaidMessage(amount, payMethod, contact.name))];
      effects := effects + [Nav(GoBack)];
    }

    /** The header's back arrow. */
    method PressBack()
      modifies this
      ensures effects == old(effects) + [Nav(GoBack)]
      ensures payMethod == old(payMethod) && dropdownOpen == old(dropdownOpen)
      ensures amount == old(amount) && note == old(note)
    {
      effects := effects + [Nav(GoBack)];
    }
  }
}
