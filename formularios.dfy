/** What the screens of both revisions read from their text fields and what
    their handlers end in, in place of the dialogs they show. */
module Formularios {

  /** The five fields of the customer form. */
  datatype Ficha = Ficha(nome: string, sobrenome: string, rg: string, cpf: string, endereco: string)

  /** The five amount fields of the account linking screen. */
  datatype CamposConta = CamposConta(
    correnteDepositoInicial: string, correnteLimite: string,
    investimentoMontanteMinimo: string, investimentoDepositoMinimo: string,
    investimentoDepositoInicial: string)

  /** How `salvarCliente` ends. */
  datatype Cadastro<C> = FormularioInvalido | CpfDuplicado | Salvo(cliente: C)

  /** How `excluirCliente` ends. */
  datatype Exclusao = NaoEncontrado | Cancelada | Excluido | ErroAoExcluir

  /** How `vincularConta` ends. */
  datatype Vinculo<A> =
    | SemCliente
    | JaPossuiConta
    | FormatoInvalido
    | DepositoInicialRecusado
    | TipoDesconhecido
    | Vinculada(conta: A)

  /** How a withdrawal or a deposit on the operations screen ends. */
  datatype Operacao = SemConta | ValorInvalido | Recusada | Realizada
}
