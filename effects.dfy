/** The observable effects of the site's click handlers, in the order a handler
    performs them: an analytics `buttonClick`, a router navigation, a call of
    the component's `onClose` callback. */
module Effects {
  import opened Wrappers

  datatype Effect =
    | ButtonClick(buttonName: string, location: Option<string>)
    | Navigate(to: string)
    | Close
}
