/** Values shared by the screens and the launch check: optional values, what a
    backend call resolves to, and the effects a screen has on the world outside
    its own state (alerts, navigation, storage, native calls, callbacks). */
module Common {

  datatype Option<T> = None | Some(value: T)

  /** What an awaited backend call gives back: its data, an error object with a
      message, or a rejected promise (an exception the handler's `catch` sees). */
  datatype Reply<T> = Ok(data: T) | Err(message: string) | Threw

  /** A multi-factor authentication factor as the backend lists it. */
  datatype Factor = Factor(id: string)

  /** The reply of `listFactors`: the TOTP factors of the signed-in user. */
  datatype FactorList = FactorList(totp: seq<Factor>)

  /** Effects outside a screen's state, in the order the handlers cause them. */
  datatype Effect =
    | ShowAlert(title: string, message: string)
    | Navigate(route: string)
    | SetHideOverlay(hidden: bool)
    | StoreItem(key: string, value: string)
    | Invoke(callback: string)

  const HomeRoute := "/home"
}
