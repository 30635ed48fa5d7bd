/** Navigation requests, recorded as values instead of being performed. */
module Navigation {
  import opened ContactCard

  /** The stack routes the core navigates to; the pay route carries the
      contact as its parameter. */
  datatype Route = PayRoute(contact: Contact) | ContactsRoute | ScanRoute

  datatype NavAction = Navigate(route: Route) | GoBack

  /** The `onPay` callback both list screens give their cards. */
  function PayCallback(contact: Contact): (a: NavAction)
    ensures a.Navigate? && a.route.PayRoute? && a.route.contact == contact
  {
    Navigate(PayRoute(contact))
  }
}
