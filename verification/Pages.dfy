/** What identifies a live wiki page: its type and its slug, as the table's unique index has it. */
module Pages {
  datatype Key = Key(pageType: string, slug: string)

  /** The values of the database's enum. */
  const PAGE_TYPES :=
    ["entity", "concept", "source", "index", "log", "contradiction", "schema", "comparison", "overview"]
}
