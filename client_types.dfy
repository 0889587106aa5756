/** The client's data model (client/src/lib/types.ts). */
module ClientTypes {
  import opened Wrappers

  /** A sub-theme checkbox (the source's `label` is `caption`, `label` being a Dafny keyword); `custom` is absent on the built-in ones. */
  datatype SubThematic = SubThematic(id: string, caption: string, checked: bool, custom: Option<bool>)

  /** A theme checkbox with its sub-themes, in display order. */
  datatype Thematic = Thematic(
    id: string,
    caption: string,
    checked: bool,
    custom: Option<bool>,
    subthemes: seq<SubThematic>)
}
