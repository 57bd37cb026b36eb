/** Toast notifications, kept as recorded events rather than rendered. */
module Toasts {

  /** A toast as the pages raise it: a title, a description, and whether it uses the "destructive" variant. */
  datatype Toast = Toast(title: string, description: string, destructive: bool)
}
