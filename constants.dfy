/** The state keys and limits the modelled code imports from `agents/constants`.
    That package is not part of this model: the names are the source's and the
    values are stand-ins. Only one result depends on them:
    `DataSearchAgent.ExtractionLoopAsWritten` shows a stalled extraction loop
    for any output key other than `COLUMN_NAMES_STATES`, so the loop stalls as
    written only if `BGA_COLUMN_NAMES_STATES` and `COLUMN_NAMES_STATES` have
    different values, as they do here. */
module Constants {
  /** Session-state key of the artifact ledger. */
  const ARTIFACT_STATES: string := "artifact_states"

  /** Session-state key the column-name reviewer reads. */
  const COLUMN_NAMES_STATES: string := "column_names"

  /** Session-state key the column-name extractor is declared to write. */
  const BGA_COLUMN_NAMES_STATES: string := "bga_column_names"

  /** Session-state key of the retrieved SQL reference documents (the prompt
      template placeholder `column_names_reference_docs`). */
  const COLUMN_NAMES_REF_DOCS_STATES: string := "column_names_reference_docs"
}
