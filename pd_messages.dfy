/** The outbound side of the Pure Data binding (LibPD), seen as an append-only
    log: every send call the scripts make adds one entry, and nothing is ever
    removed. Delivery and the binding's return codes are not modelled. */
module PdMessages {

  /** One outbound message to a named Pure Data receiver.
      - `Float` is `LibPD.SendFloat(receiver, value)`;
      - `Symbol` is `LibPD.SendMessage(receiver, symbol)` with an empty
        argument list, as ChangeTerrain.cs uses it. */
  datatype Message =
    | Float(receiver: string, value: real)
    | Symbol(receiver: string, symbol: string)
}
