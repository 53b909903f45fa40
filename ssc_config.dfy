/** The module's fixed identifiers (modules/ssc-config.js). */
module SscConfig {

  /** The module id, which is also the scope of every flag the module writes. */
  const NAME: string := "swade-shape-changer"
  const TITLE: string := "SWADE Shape Changer"
  const SHORT_TITLE: string := "SSC"

  /** Flag keys. */
  const FLAG_SHAPES: string := "shapes"
  const FLAG_ORIGINAL_TOKEN: string := "originalToken"
  const FLAG_IS_CHANGE_SOURCE: string := "isChangeSource"

  /** Change types offered by the dialog. */
  const CHANGE_TYPE_BASE: string := "base"
  const CHANGE_TYPE_POLYMORPH: string := "polymorph"
}
