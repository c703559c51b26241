/** The part of a DOM change event the form handlers read. */
module Events {
  import opened Json

  /**
   * `e.target` of a change event: the control's `name`, `value`, `type`
   * (`""` when the event is synthesised without one, as the toggle does),
   * `checked` and the selected `files`.
   */
  datatype ChangeEvent = ChangeEvent(name: string, value: Value, inputType: string, checked: bool, files: seq<FileRef>)
}
