/** The presentational vocabulary the pages share: badge colours and
    notifications. */
module Ui {
  /** The colour families the pages' badges use. */
  datatype BadgeColour = Green | Blue | Purple | Red | Yellow | Gray

  /** A notification: title, text, and whether it is shown as an error. */
  datatype Toast = Toast(title: string, description: string, destructive: bool)
}
