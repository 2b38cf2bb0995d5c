/** Where a Ticket handed in directly comes from (src/adhoc_ticket.rs). */
module AdHocSources {
  import opened Options

  datatype AdHocSource = FreeText(text: string) | File(path: string) | Stdin

  datatype AdHocInput = AdHocInput(source: AdHocSource, id: Option<string>)
}
