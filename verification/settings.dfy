/** The deadlines of the request and report forms, in days. */
module Settings {

  /** A request without air tickets must be filed this many days before the
      outbound trip. */
  const PrazoSemPassagensDias: int := 10

  /** A request with air tickets must be filed this many days before the
      outbound trip. */
  const PrazoComPassagensDias: int := 30

  /** The travel report is due this many days after the return. */
  const PrazoRelatorioDias: int := 5
}
