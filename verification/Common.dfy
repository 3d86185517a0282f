/** Value types shared by the models of the services. */
module Common {

  datatype Option<+T> = None | Some(value: T)

  /** The source's `Result`; an `Err` always stands for a rolled-back transaction. */
  datatype Result<+T, +E> = Ok(value: T) | Err(error: E)

  /** Money is an integer number of ten-thousandths, the scale of NUMERIC(19, 4). */
  const UNIT: int := 10_000

  const SUPPORTED_CURRENCIES: set<string> := {"USD", "KRW", "EUR", "GBP", "JPY"}
}
