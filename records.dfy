/** The client-side entities: the session user and stored account (auth.ts, AuthPage.tsx),
    the theft report (TheftReportForm.tsx) and the listed item (ItemCard.tsx). */
module Records {
  import opened Common

  /** `{ name, email, phone }`: what the session slot holds; it has no password. */
  datatype User = User(name: string, email: string, phone: string)

  /** An entry of the `lostfound_users` map, keyed by its email. The password is plaintext. */
  datatype Account = Account(name: string, email: string, phone: string, password: string, createdAt: string)

  const UnderInvestigation := "Under Investigation"
  const Resolved := "Resolved"
  const Closed := "Closed"

  /** A theft report. `id` and `createdAt` are optional in the source's interface; `suspectName`
      is read with `?.` and may be missing from a stored report; `updatedAt` is added by the
      server's update handler. */
  datatype TheftReport = TheftReport(
    id: Option<string>,
    itemName: string,
    description: string,
    date: string,
    location: string,
    reporterName: string,
    reporterContact: string,
    suspectName: Option<string>,
    suspectDescription: string,
    suspectLastSeen: string,
    status: string,
    createdAt: Option<string>,
    updatedAt: Option<string>)

  datatype ItemType = Lost | Found

  /** A listed item as the server returns it: the submitted form, `status`, `reportedBy`,
      and the server's `id` and `createdAt`. */
  datatype Item = Item(
    id: string,
    itemType: ItemType,
    title: string,
    description: string,
    category: string,
    location: string,
    date: string,
    contact: string,
    imageUrl: string,
    status: string,
    reportedBy: string,
    createdAt: string)
}
