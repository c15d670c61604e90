/** The subclass data of an account, shared by both revisions: the overdraft
    limit of a checking account (`ContaCorrente`), or the minimum balance and
    the minimum deposit of an investment account (`ContaInvestimento`). */
module RegrasConta {

  datatype Regras =
    | RegrasCorrente(limite: real)
    | RegrasInvestimento(montanteMinimo: real, depositoMinimo: real)

  /** The lowest balance a withdrawal may leave. */
  function Piso(regras: Regras): real {
    match regras
    case RegrasCorrente(limite) => -limite
    case RegrasInvestimento(montanteMinimo, _) => montanteMinimo
  }
}
