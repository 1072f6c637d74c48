/** What the pages show the user besides navigation: toast notifications. */
module Ui {

  /** A toast with its title and description; `destructive` is the error styling. */
  datatype Toast = Toast(title: string, description: string, destructive: bool)
}
