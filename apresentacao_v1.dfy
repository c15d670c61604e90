/** The handler logic of the screens of the earlier revision
    (`banco/apresentacao`), without any Swing: the texts the user typed are
    parameters, the messages shown become result values, and the confirmation
    dialog is a boolean input. Texts reach the registries and `parseDouble`
    as typed, without cleaning. */
module ApresentacaoV1 {
  import opened Opcional
  import opened Texto
  import opened Numeracao
  import opened RegrasConta
  import opened Formularios
  import opened ModeloV1
  import opened NegocioV1

  // ---------------------------------------------------------------------
  // Customer screen (TelaClientes)

  /** `getClienteDoFormulario`: first name, surname and CPF are required; RG
      and address may be empty; the CPF is kept as typed. */
  function ClienteDoFormulario(f: Ficha): (r: Option<Ficha>)
    ensures r.None? <==> f.nome == [] || f.sobrenome == [] || f.cpf == []
    ensures r.Some? ==> r.value == f
  {
    if f.nome == [] || f.sobrenome == [] || f.cpf == [] then None else Some(f)
  }

  class TelaClientes {
    const gerenciadorClientes: GerenciadorClientes
    const gerenciadorContas: GerenciadorContas

    constructor (gerenciadorClientes: GerenciadorClientes, gerenciadorContas: GerenciadorContas)
      ensures this.gerenciadorClientes == gerenciadorClientes
      ensures this.gerenciadorContas == gerenciadorContas
    {
      this.gerenciadorClientes := gerenciadorClientes;
      this.gerenciadorContas := gerenciadorContas;
    }

    /** `salvarCliente`: a valid form whose CPF, as typed, is not registered yet
        becomes a new customer at the end of the list; nothing else is added. */
    method SalvarCliente(f: Ficha) returns (r: Cadastro<Cliente>)
      modifies gerenciadorClientes`clientes
      ensures ClienteDoFormulario(f).None? ==> r == FormularioInvalido
      ensures ClienteDoFormulario(f).Some? && f.cpf in old(CpfsDe(gerenciadorClientes.clientes))
              ==> r == CpfDuplicado
      ensures ClienteDoFormulario(f).Some? && f.cpf !in old(CpfsDe(gerenciadorClientes.clientes))
              ==> r.Salvo?
      ensures !r.Salvo? ==> gerenciadorClientes.clientes == old(gerenciadorClientes.clientes)
      ensures r.Salvo? ==>
                ClienteDoFormulario(f).Some?
                && fresh(r.cliente)
                && gerenciadorClientes.clientes == old(gerenciadorClientes.clientes) + [r.cliente]
                && r.cliente.nome == f.nome && r.cliente.sobrenome == f.sobrenome
                && r.cliente.rg == f.rg && r.cliente.cpf == f.cpf
                && r.cliente.endereco == f.endereco
      ensures old(CpfsUnicos(gerenciadorClientes.clientes)) ==> CpfsUnicos(gerenciadorClientes.clientes)
      ensures old(DonosCadastrados(gerenciadorContas.contas, gerenciadorClientes.clientes))
              ==> DonosCadastrados(gerenciadorContas.contas, gerenciadorClientes.clientes)
    {
      var dados := ClienteDoFormulario(f);
      if dados.None? {
        return FormularioInvalido;
      }
      var d := dados.value;
      var novo := new Cliente(d.nome, d.sobrenome, d.rg, d.cpf, d.endereco);
      var existente := gerenciadorClientes.BuscarPorCpf(novo.cpf);
      if existente != null {
        return CpfDuplicado;
      }
      if CpfsUnicos(gerenciadorClientes.clientes) {
        AdicionaPreservaCpfsUnicos(gerenciadorClientes.clientes, novo);
      }
      assert CpfsDe(gerenciadorClientes.clientes + [novo]) == CpfsDe(gerenciadorClientes.clientes) + {novo.cpf};
      gerenciadorClientes.Adicionar(novo);
      r := Salvo(novo);
    }

    /** `atualizarCliente`: the customer is looked up by the CPF shown in the
        table, as it is; with a customer found and a valid form, first name,
        surname, RG and address of that object are overwritten, and its CPF stays. */
    method AtualizarCliente(cpfNaCelula: string, f: Ficha) returns (atualizado: bool)
      modifies PrimeiroClientePorCpf(gerenciadorClientes.clientes, cpfNaCelula)
      ensures var alvo := old(PrimeiroClientePorCpf(gerenciadorClientes.clientes, cpfNaCelula));
              (atualizado <==> alvo != null && ClienteDoFormulario(f).Some?)
              && (alvo != null ==> alvo.cpf == old(alvo.cpf))
              && (atualizado ==> alvo.nome == f.nome && alvo.sobrenome == f.sobrenome
                                 && alvo.rg == f.rg && alvo.endereco == f.endereco)
              && (!atualizado && alvo != null ==>
                    alvo.nome == old(alvo.nome) && alvo.sobrenome == old(alvo.sobrenome)
                    && alvo.rg == old(alvo.rg) && alvo.endereco == old(alvo.endereco))
      ensures old(CpfsUnicos(gerenciadorClientes.clientes)) ==> CpfsUnicos(gerenciadorClientes.clientes)
    {
      var alvo := gerenciadorClientes.BuscarPorCpf(cpfNaCelula);
      var dados := ClienteDoFormulario(f);
      if dados.None? || alvo == null {
        return false;
      }
      alvo.SetNome(dados.value.nome);
      alvo.SetSobrenome(dados.value.sobrenome);
      alvo.SetRg(dados.value.rg);
      alvo.SetEndereco(dados.value.endereco);
      atualizado := true;
    }

    /** `excluirCliente`: the CPF shown in the table is looked up as it is; on
        confirmation the customer's accounts are removed first, then the customer.
        What this keeps of the registry invariants follows from
        `SemContasDePreservaUmaConta`, `RemovePrimeiroUnico` and `ExclusaoPreservaDonos`. */
    method ExcluirCliente(cpfNaCelula: string, confirmado: bool) returns (r: Exclusao)
      modifies gerenciadorContas`contas, gerenciadorClientes`clientes
      ensures var cliente := old(PrimeiroClientePorCpf(gerenciadorClientes.clientes, cpfNaCelula));
              if cliente == null || !confirmado then
                r == (if cliente == null then NaoEncontrado else Cancelada)
                && gerenciadorContas.contas == old(gerenciadorContas.contas)
                && gerenciadorClientes.clientes == old(gerenciadorClientes.clientes)
              else
                r == Excluido
                && gerenciadorContas.contas == SemContasDe(old(gerenciadorContas.contas), cliente)
                && gerenciadorClientes.clientes == RemovePrimeiro(old(gerenciadorClientes.clientes), cliente)
      ensures r == Excluido ==> forall a :: a in gerenciadorContas.contas ==> a.dono.cpf != cpfNaCelula
    {
      var cliente := gerenciadorClientes.BuscarPorCpf(cpfNaCelula);
      if cliente == null {
        return NaoEncontrado;
      }
      if !confirmado {
        return Cancelada;
      }
      gerenciadorContas.ExcluirContasDoCliente(cliente);
      var ok := gerenciadorClientes.Excluir(cliente);
      r := if ok then Excluido else ErroAoExcluir;
    }

    /** `buscarClientes`: shows the customers matching `termo`, even when there
        are none; the empty term shows every customer. */
    method BuscarClientes(termo: string) returns (exibidos: seq<Cliente>)
      ensures exibidos == Filtra(gerenciadorClientes.clientes, termo)
      ensures termo == [] ==> exibidos == gerenciadorClientes.clientes
    {
      exibidos := gerenciadorClientes.Buscar(termo);
      if termo == [] {
        FiltraVazio(gerenciadorClientes.clientes);
      }
    }
  }

  // ---------------------------------------------------------------------
  // Account linking screen (TelaVincularConta)

  class TelaVincularConta {
    const gerenciadorClientes: GerenciadorClientes
    const gerenciadorContas: GerenciadorContas

    constructor (gerenciadorClientes: GerenciadorClientes, gerenciadorContas: GerenciadorContas)
      ensures this.gerenciadorClientes == gerenciadorClientes
      ensures this.gerenciadorContas == gerenciadorContas
    {
      this.gerenciadorClientes := gerenciadorClientes;
      this.gerenciadorContas := gerenciadorContas;
    }

    /** `vincularConta`: refuses without a selected customer or when the customer
        already has an account; otherwise the field texts of the chosen kind go
        to `parse` as typed, and any parse failure adds nothing. A checking
        account is always added; an investment account is added unless its
        positive initial deposit was refused. */
    method VincularConta(contador: GeradorNumeros, selecionado: Cliente?, tipoConta: string,
                         campos: CamposConta, parse: string -> Option<real>) returns (r: Vinculo<Conta>)
      requires contador.Valid()
      modifies gerenciadorContas`contas, contador
      ensures contador.Valid()
      ensures if r.Vinculada? || r == DepositoInicialRecusado
              then contador.proximo == old(contador.proximo) + 1
                   && contador.emitidos == old(contador.emitidos) + [old(contador.proximo)]
              else contador.proximo == old(contador.proximo) && contador.emitidos == old(contador.emitidos)
      ensures selecionado == null ==> r == SemCliente
      ensures selecionado != null && PrimeiraContaPorCpf(old(gerenciadorContas.contas), selecionado.cpf) != null
              ==> r == JaPossuiConta
      ensures !r.Vinculada? ==> gerenciadorContas.contas == old(gerenciadorContas.contas)
      ensures r.Vinculada? ==>
                selecionado != null && fresh(r.conta) && r.conta.dono == selecionado
                && r.conta.numero == old(contador.proximo)
                && gerenciadorContas.contas == old(gerenciadorContas.contas) + [r.conta]
      ensures selecionado != null && PrimeiraContaPorCpf(old(gerenciadorContas.contas), selecionado.cpf) == null
              && tipoConta == "Conta Corrente" ==>
                var dep := parse(campos.correnteDepositoInicial);
                var limite := parse(campos.correnteLimite);
                if dep.Some? && limite.Some? then
                  r.Vinculada? && r.conta.regras == RegrasCorrente(limite.value)
                  && r.conta.saldo == (if dep.value > 0.0 then dep.value else 0.0)
                else r == FormatoInvalido
      ensures selecionado != null && PrimeiraContaPorCpf(old(gerenciadorContas.contas), selecionado.cpf) == null
              && tipoConta == "Conta Investimento" ==>
                var montante := parse(campos.investimentoMontanteMinimo);
                var depMinimo := parse(campos.investimentoDepositoMinimo);
                var dep := parse(campos.investimentoDepositoInicial);
                if montante.Some? && depMinimo.Some? && dep.Some? then
                  if dep.value > 0.0 && dep.value < depMinimo.value then r == DepositoInicialRecusado
                  else
                    r.Vinculada? && r.conta.regras == RegrasInvestimento(montante.value, depMinimo.value)
                    && r.conta.saldo == (if dep.value > 0.0 then dep.value else 0.0)
                else r == FormatoInvalido
      ensures (selecionado != null && PrimeiraContaPorCpf(old(gerenciadorContas.contas), selecionado.cpf) == null
               && tipoConta != "Conta Corrente" && tipoConta != "Conta Investimento") ==> r == TipoDesconhecido
    {
      if selecionado == null {
        return SemCliente;
      }
      var existente := gerenciadorContas.BuscarContaPorCpfCliente(selecionado.cpf);
      if existente != null {
        return JaPossuiConta;
      }
      if tipoConta == "Conta Corrente" {
        var dep := parse(campos.correnteDepositoInicial);
        if dep.None? {
          return FormatoInvalido;
        }
        var limite := parse(campos.correnteLimite);
        if limite.None? {
          return FormatoInvalido;
        }
        var nova := new Conta.Corrente(contador, selecionado, dep.value, limite.value);
        Vincula(nova);
        r := Vinculada(nova);
      } else if tipoConta == "Conta Investimento" {
        var montante := parse(campos.investimentoMontanteMinimo);
        if montante.None? {
          return FormatoInvalido;
        }
        var depMinimo := parse(campos.investimentoDepositoMinimo);
        if depMinimo.None? {
          return FormatoInvalido;
        }
        var dep := parse(campos.investimentoDepositoInicial);
        if dep.None? {
          return FormatoInvalido;
        }
        var nova := new Conta.Investimento(contador, selecionado, dep.value, montante.value, depMinimo.value);
        if nova.saldo == 0.0 && dep.value > 0.0 {
          r := DepositoInicialRecusado;
        } else {
          Vincula(nova);
          r := Vinculada(nova);
        }
      } else {
        r := TipoDesconhecido;
      }
    }

    /** Adds an account whose owner has none yet, keeping the registry invariants. */
    method Vincula(nova: Conta)
      requires PrimeiraContaPorCpf(gerenciadorContas.contas, nova.dono.cpf) == null
      modifies gerenciadorContas`contas
      ensures gerenciadorContas.contas == old(gerenciadorContas.contas) + [nova]
      ensures old(UmaContaPorCpf(gerenciadorContas.contas)) ==> UmaContaPorCpf(gerenciadorContas.contas)
      ensures nova.dono.cpf in CpfsDe(gerenciadorClientes.clientes)
              && old(DonosCadastrados(gerenciadorContas.contas, gerenciadorClientes.clientes))
              ==> DonosCadastrados(gerenciadorContas.contas, gerenciadorClientes.clientes)
    {
      if UmaContaPorCpf(gerenciadorContas.contas) {
        AdicionaPreservaUmaConta(gerenciadorContas.contas, nova);
      }
      gerenciadorContas.Adicionar(nova);
    }
  }

  // ---------------------------------------------------------------------
  // Operations screen (TelaOperacoes)

  /** `getValorOperacao`: commas become points; an empty field is an error
      (`None`); otherwise the text goes to `parse`. */
  function ValorOperacao(texto: string, parse: string -> Option<real>): (r: Option<real>)
    ensures texto == [] ==> r == None
    ensures texto != [] ==> r == parse(TrocaCaractere(texto, ',', '.'))
  {
    var trocado := TrocaCaractere(texto, ',', '.');
    if trocado == [] then None else parse(trocado)
  }

  /** The text `getValorOperacao` parses has no comma left, one point for every
      comma or point typed, and the same length as the field. */
  lemma TextoDaOperacao(texto: string)
    ensures var t := TrocaCaractere(texto, ',', '.');
            ',' !in t && |t| == |texto|
            && Ocorrencias(t, '.') == Ocorrencias(texto, ',') + Ocorrencias(texto, '.')
  {
    TrocaCaractereConta(texto, ',', '.');
  }

  class TelaOperacoes {
    const gerenciadorContas: GerenciadorContas
    var contaAtual: Conta?
    /** Whether the operation buttons are enabled. */
    var operacoesHabilitadas: bool

    /** Operations start disabled, with no account selected. */
    constructor (gerenciadorContas: GerenciadorContas)
      ensures this.gerenciadorContas == gerenciadorContas
      ensures contaAtual == null && !operacoesHabilitadas
    {
      this.gerenciadorContas := gerenciadorContas;
      contaAtual := null;
      operacoesHabilitadas := false;
    }

    /** `buscarConta`: the current account becomes the account found for the
        text as typed, possibly none, and the operations are enabled exactly
        when there is one. */
    method BuscarConta(texto: string)
      modifies this`contaAtual, this`operacoesHabilitadas
      ensures contaAtual == PrimeiraContaPorCpf(gerenciadorContas.contas, texto)
      ensures operacoesHabilitadas <==> contaAtual != null
    {
      contaAtual := gerenciadorContas.BuscarContaPorCpfCliente(texto);
      operacoesHabilitadas := contaAtual != null;
    }

    /** `realizarSaque`: nothing without a current account; an amount that does
        not parse changes nothing; otherwise the account's own `saca`. */
    method RealizarSaque(texto: string, parse: string -> Option<real>) returns (r: Operacao)
      modifies contaAtual
      ensures contaAtual == null ==> r == SemConta
      ensures contaAtual != null ==>
                var valor := ValorOperacao(texto, parse);
                if valor.None? then r == ValorInvalido && contaAtual.saldo == old(contaAtual.saldo)
                else if valor.value > 0.0 && old(contaAtual.saldo) - valor.value >= Piso(contaAtual.regras) then
                  r == Realizada && contaAtual.saldo == old(contaAtual.saldo) - valor.value
                else r == Recusada && contaAtual.saldo == old(contaAtual.saldo)
    {
      if contaAtual == null {
        return SemConta;
      }
      var valor := ValorOperacao(texto, parse);
      if valor.None? {
        return ValorInvalido;
      }
      var ok := gerenciadorContas.Sacar(contaAtual, valor.value);
      r := if ok then Realizada else Recusada;
    }

    /** `realizarDeposito`: nothing without a current account; an amount that does
        not parse changes nothing; otherwise the account's own `deposita`. */
    method RealizarDeposito(texto: string, parse: string -> Option<real>) returns (r: Operacao)
      modifies contaAtual
      ensures contaAtual == null ==> r == SemConta
      ensures contaAtual != null ==>
                var valor := ValorOperacao(texto, parse);
                if valor.None? then r == ValorInvalido && contaAtual.saldo == old(contaAtual.saldo)
                else if valor.value > 0.0
                        && (contaAtual.regras.RegrasInvestimento? ==> valor.value >= contaAtual.regras.depositoMinimo) then
                  r == Realizada && contaAtual.saldo == old(contaAtual.saldo) + valor.value
                else r == Recusada && contaAtual.saldo == old(contaAtual.saldo)
    {
      if contaAtual == null {
        return SemConta;
      }
      var valor := ValorOperacao(texto, parse);
      if valor.None? {
        return ValorInvalido;
      }
      var ok := gerenciadorContas.Depositar(contaAtual, valor.value);
      r := if ok then Realizada else Recusada;
    }

    /** `remunerarConta`: nothing without a current account; otherwise the
        account's own `remunera`. */
    method RemunerarConta() returns (remunerada: bool)
      modifies contaAtual
      ensures remunerada <==> contaAtual != null
      ensures contaAtual != null ==>
                contaAtual.saldo == old(contaAtual.saldo)
                                    * (if contaAtual.regras.RegrasCorrente? then 1.01 else 1.02)
    {
      if contaAtual == null {
        return false;
      }
      gerenciadorContas.Remunerar(contaAtual);
      remunerada := true;
    }
  }
}
