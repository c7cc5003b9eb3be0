/** What a button press does besides changing page state: an `alert(...)` and a `navigate(...)`. */
module Navigation {
  import opened Wrappers

  datatype Effect = Effect(alert: Option<string>, route: Option<string>)
}
