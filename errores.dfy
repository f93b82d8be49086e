/** Failure values of the inventory manager.

    The Python code signals every rule violation by raising `ValueError`;
    the message tells the violations apart. Each distinct message becomes
    one constructor of `Error`, and each raising operation returns a
    `Result` (or an `Option<Error>` when it has no value to return). */
module Errores {

  datatype Option<+T> = None | Some(value: T)

  datatype Result<+T> = Ok(value: T) | Err(error: Error)

  datatype Error =
    | NombreVacio                        // the name is empty or only whitespace
    | PrecioNegativo                     // a price below zero
    | CantidadNegativa                   // a quantity below zero
    | IdDuplicado(id: int)               // the repository already holds this id
    | ProductoNoExiste(id: int)          // no product is stored under this id
    | StockInsuficiente(disponible: int) // a sale larger than the stock on hand
}
