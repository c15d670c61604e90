/** The handler logic of the screens of the later revision
    (`SistemaBanco/src/banco/apresentacao`), without any Swing: the texts the
    user typed are parameters, the messages shown become result values, and
    the confirmation dialog is a boolean input. */
module ApresentacaoV2 {
  import opened Opcional
  import Ordenacao
  import opened Texto
  import opened Numeracao
  import opened ModeloV2
  import opened NegocioV2
  import opened RegrasConta
  import opened Formularios

  // ---------------------------------------------------------------------
  // Customer screen (TelaClientes)

  /** `getClienteDoFormulario`: the CPF keeps only its digits, and every field,
      the cleaned CPF included, must be non-empty. */
  function ClienteDoFormulario(f: Ficha): (r: Option<Ficha>)
    ensures r.None? <==> f.nome == [] || f.sobrenome == [] || f.rg == []
                         || SoDigitos(f.cpf) == [] || f.endereco == []
    ensures r.Some? ==> r.value.cpf == SoDigitos(f.cpf) && SoTemDigitos(r.value.cpf)
    ensures r.Some? ==> r.value.(cpf := f.cpf) == f
  {
    var cpfLimpo := SoDigitos(f.cpf);
    if f.nome == [] || f.sobrenome == [] || f.rg == [] || cpfLimpo == [] || f.endereco == [] then None
    else Some(f.(cpf := cpfLimpo))
  }

  /** A form that passed validation passes it again unchanged. */
  lemma ClienteDoFormularioIdempotente(f: Ficha)
    requires ClienteDoFormulario(f).Some?
    ensures ClienteDoFormulario(ClienteDoFormulario(f).value) == ClienteDoFormulario(f)
  {
    SoDigitosDeDigitos(SoDigitos(f.cpf));
  }

  class TelaClientes {
    const gerenciadorClientes: GerenciadorClientes
    const gerenciadorContas: GerenciadorContas

    constructor (gerenciadorClientes: GerenciadorClientes, gerenciadorContas: GerenciadorContas)
      ensures this.gerenciadorClientes == gerenciadorClientes
      ensures this.gerenciadorContas == gerenciadorContas
    {
      this.gerenciadorClientes := gerenciadorClientes;
      this.gerenciadorContas := gerenciadorContas;
    }

    /** `salvarCliente`: a valid form whose cleaned CPF is not registered yet
        becomes a new customer at the end of the list; nothing else is added. */
    method SalvarCliente(f: Ficha) returns (r: Cadastro<Cliente>)
      modifies gerenciadorClientes`clientes
      ensures ClienteDoFormulario(f).None? ==> r == FormularioInvalido
      ensures ClienteDoFormulario(f).Some? && SoDigitos(f.cpf) in CpfsDe(old(gerenciadorClientes.clientes))
              ==> r == CpfDuplicado
      ensures ClienteDoFormulario(f).Some? && SoDigitos(f.cpf) !in CpfsDe(old(gerenciadorClientes.clientes))
              ==> r.Salvo?
      ensures !r.Salvo? ==> gerenciadorClientes.clientes == old(gerenciadorClientes.clientes)
      ensures r.Salvo? ==>
                ClienteDoFormulario(f).Some?
                && fresh(r.cliente)
                && gerenciadorClientes.clientes == old(gerenciadorClientes.clientes) + [r.cliente]
                && r.cliente.nome == f.nome && r.cliente.sobrenome == f.sobrenome
                && r.cliente.rg == f.rg && r.cliente.cpf == SoDigitos(f.cpf)
                && r.cliente.endereco == f.endereco
      ensures old(CpfsUnicos(gerenciadorClientes.clientes)) ==> CpfsUnicos(gerenciadorClientes.clientes)
      ensures old(DonosCadastrados(gerenciadorContas.contas, gerenciadorClientes.clientes))
              ==> DonosCadastrados(gerenciadorContas.contas, gerenciadorClientes.clientes)
    {
      var dados := ClienteDoFormulario(f);
      if dados.None? {
        return FormularioInvalido;
      }
      var d := dados.value;
      var novo := new Cliente(d.nome, d.sobrenome, d.rg, d.cpf, d.endereco);
      var existente := gerenciadorClientes.BuscarPorCpf(novo.cpf);
      if existente != null {
        return CpfDuplicado;
      }
      if CpfsUnicos(gerenciadorClientes.clientes) {
        AdicionaPreservaCpfsUnicos(gerenciadorClientes.clientes, novo);
      }
      assert CpfsDe(gerenciadorClientes.clientes + [novo]) == CpfsDe(gerenciadorClientes.clientes) + {novo.cpf};
      gerenciadorClientes.Adicionar(novo);
      r := Salvo(novo);
    }

    /** `atualizarCliente`: with a customer selected and a valid form, overwrites
        first name, surname, RG and address of that same object; the CPF stays. */
    method AtualizarCliente(selecionado: Cliente?, f: Ficha) returns (atualizado: bool)
      modifies selecionado
      ensures atualizado <==> selecionado != null && ClienteDoFormulario(f).Some?
      ensures atualizado ==> selecionado.nome == f.nome && selecionado.sobrenome == f.sobrenome
                             && selecionado.rg == f.rg && selecionado.endereco == f.endereco
      ensures !atualizado && selecionado != null ==>
                selecionado.nome == old(selecionado.nome) && selecionado.sobrenome == old(selecionado.sobrenome)
                && selecionado.rg == old(selecionado.rg) && selecionado.endereco == old(selecionado.endereco)
    {
      if selecionado == null {
        return false;
      }
      var dados := ClienteDoFormulario(f);
      if dados.None? {
        return false;
      }
      selecionado.SetNome(dados.value.nome);
      selecionado.SetSobrenome(dados.value.sobrenome);
      selecionado.SetRg(dados.value.rg);
      selecionado.SetEndereco(dados.value.endereco);
      atualizado := true;
    }

    /** `excluirCliente`: the CPF shown in the table is cleaned and looked up;
        on confirmation the customer's accounts are removed first, then the customer. */
    method ExcluirCliente(cpfNaCelula: string, confirmado: bool) returns (r: Exclusao)
      modifies gerenciadorContas`contas, gerenciadorClientes`clientes
      ensures var cliente := PrimeiroClientePorCpf(old(gerenciadorClientes.clientes), SoDigitos(cpfNaCelula));
              if cliente == null || !confirmado then
                r == (if cliente == null then NaoEncontrado else Cancelada)
                && gerenciadorContas.contas == old(gerenciadorContas.contas)
                && gerenciadorClientes.clientes == old(gerenciadorClientes.clientes)
              else
                r == Excluido
                && gerenciadorContas.contas == SemContasDe(old(gerenciadorContas.contas), cliente)
                && gerenciadorClientes.clientes == RemovePrimeiro(old(gerenciadorClientes.clientes), cliente)
      ensures r == Excluido && old(CpfsUnicos(gerenciadorClientes.clientes)) ==>
                SoDigitos(cpfNaCelula) !in CpfsDe(gerenciadorClientes.clientes)
                && forall a :: a in gerenciadorContas.contas ==> a.dono.cpf != SoDigitos(cpfNaCelula)
      ensures old(CpfsUnicos(gerenciadorClientes.clientes)) ==> CpfsUnicos(gerenciadorClientes.clientes)
      ensures old(UmaContaPorCpf(gerenciadorContas.contas)) ==> UmaContaPorCpf(gerenciadorContas.contas)
      ensures old(DonosCadastrados(gerenciadorContas.contas, gerenciadorClientes.clientes))
              ==> DonosCadastrados(gerenciadorContas.contas, gerenciadorClientes.clientes)
    {
      var cpfLimpo := SoDigitos(cpfNaCelula);
      var cliente := gerenciadorClientes.BuscarPorCpf(cpfLimpo);
      if cliente == null {
        return NaoEncontrado;
      }
      if !confirmado {
        return Cancelada;
      }
      if CpfsUnicos(gerenciadorClientes.clientes) {
        RemovePrimeiroUnico(gerenciadorClientes.clientes, cliente);
      }
      if UmaContaPorCpf(gerenciadorContas.contas) {
        SemContasDePreservaUmaConta(gerenciadorContas.contas, cliente);
      }
      if DonosCadastrados(gerenciadorContas.contas, gerenciadorClientes.clientes) {
        ExclusaoPreservaDonos(gerenciadorContas.contas, gerenciadorClientes.clientes, cliente);
      }
      gerenciadorContas.ExcluirContasDoCliente(cliente);
      var ok := gerenciadorClientes.Excluir(cliente);
      r := if ok then Excluido else ErroAoExcluir;
    }

    /** `buscarClientes`: shows the customers matching `termo`; when a non-empty
        term matches nothing, the term is cleared and the whole list is shown.
        Returns the list on display and the text left in the search field. */
    method BuscarClientes(termo: string) returns (exibidos: seq<Cliente>, termoFinal: string)
      ensures var resultados := Filtra(gerenciadorClientes.clientes, termo);
              if resultados == [] && termo != [] then
                exibidos == gerenciadorClientes.clientes && termoFinal == []
              else
                exibidos == resultados && termoFinal == termo
      ensures exibidos == [] ==> gerenciadorClientes.clientes == []
    {
      var resultados := gerenciadorClientes.Buscar(termo);
      exibidos, termoFinal := resultados, termo;
      if resultados == [] && termo != [] {
        termoFinal := [];
        exibidos := gerenciadorClientes.clientes;
      }
      if termo == [] {
        FiltraVazio(gerenciadorClientes.clientes);
      }
    }
  }

  // ---------------------------------------------------------------------
  // Account linking screen (TelaVincularConta)

  /** The text left by `getDoubleFromFormattedField` for `parseDouble`: the dots
      (thousands separators) are dropped, the commas become decimal points, and
      everything but digits and points is dropped. The digits survive in order,
      and there are as many points as the input had commas. */
  function LimpaCampoFormatado(texto: string): (r: string)
    ensures forall i :: 0 <= i < |r| ==> DigitoOuPonto(r[i])
    ensures SoDigitos(r) == SoDigitos(texto)
    ensures Ocorrencias(r, '.') == Ocorrencias(texto, ',')
  {
    var semMilhar := RemoveCaractere(texto, '.');
    var formatado := TrocaCaractere(semMilhar, ',', '.');
    RemoveCaractereConta(texto, '.', ',');
    TrocaCaractereConta(semMilhar, ',', '.');
    SoDigitosEPontos(formatado)
  }

  /** What one character of a formatted field becomes: a dot disappears, a comma
      becomes a point, a digit stays, anything else disappears. */
  function CaractereDoCampo(c: char): string {
    if c == ',' then "." else if EhDigito(c) then [c] else []
  }

  /** The three passes of the cleaning act on each character on its own, in order. */
  lemma {:induction false} LimpaCampoPorCaractere(texto: string)
    ensures LimpaCampoFormatado(texto) == PorCaractere(texto, CaractereDoCampo)
  {
    if texto != [] {
      var h := if texto[0] == '.' then [] else [texto[0]];
      var u := RemoveCaractere(texto[1..], '.');
      assert RemoveCaractere(texto, '.') == h + u;
      LimpaCampoConcatena(h, u);
      LimpaCampoCabeca(texto[0]);
      LimpaCampoPorCaractere(texto[1..]);
    }
  }

  /** The last two passes distribute over concatenation. */
  lemma LimpaCampoConcatena(h: string, u: string)
    ensures SoDigitosEPontos(TrocaCaractere(h + u, ',', '.'))
            == SoDigitosEPontos(TrocaCaractere(h, ',', '.')) + SoDigitosEPontos(TrocaCaractere(u, ',', '.'))
  {
    TrocaCaractereConcatena(h, u, ',', '.');
    SoDigitosEPontosConcatena(TrocaCaractere(h, ',', '.'), TrocaCaractere(u, ',', '.'));
  }

  /** The three passes on a single character. */
  lemma LimpaCampoCabeca(c: char)
    ensures SoDigitosEPontos(TrocaCaractere(if c == '.' then [] else [c], ',', '.')) == CaractereDoCampo(c)
  {
    if c != '.' {
      assert TrocaCaractere([c], ',', '.') == [if c == ',' then '.' else c];
    }
  }

  /** `getDoubleFromFormattedField`: a blank field and a field with nothing left
      after cleaning are 0.0; otherwise the cleaned text is parsed, and `None`
      stands for the `NumberFormatException` of `parse`. */
  function ValorDoCampo(texto: string, parse: string -> Option<real>): (r: Option<real>)
    ensures EmBranco(texto) || LimpaCampoFormatado(texto) == [] ==> r == Some(0.0)
    ensures !EmBranco(texto) && LimpaCampoFormatado(texto) != [] ==> r == parse(LimpaCampoFormatado(texto))
  {
    if EmBranco(texto) then Some(0.0)
    else
      var limpo := LimpaCampoFormatado(texto);
      if limpo == [] then Some(0.0) else parse(limpo)
  }

  class TelaVincularConta {
    const gerenciadorClientes: GerenciadorClientes
    const gerenciadorContas: GerenciadorContas

    constructor (gerenciadorClientes: GerenciadorClientes, gerenciadorContas: GerenciadorContas)
      ensures this.gerenciadorClientes == gerenciadorClientes
      ensures this.gerenciadorContas == gerenciadorContas
    {
      this.gerenciadorClientes := gerenciadorClientes;
      this.gerenciadorContas := gerenciadorContas;
    }

    /** `vincularConta`: refuses without a selected customer or when the customer
        already has an account; otherwise parses the fields of the chosen kind
        and opens the account. A checking account is always added; an investment
        account is added unless its positive initial deposit was refused. */
    method VincularConta(contador: GeradorNumeros, selecionado: Cliente?, tipoConta: string,
                         campos: CamposConta, parse: string -> Option<real>) returns (r: Vinculo<Conta>)
      requires contador.Valid()
      modifies gerenciadorContas`contas, contador
      ensures contador.Valid()
      ensures if r.Vinculada? || r == DepositoInicialRecusado
              then contador.proximo == old(contador.proximo) + 1
                   && contador.emitidos == old(contador.emitidos) + [old(contador.proximo)]
              else contador.proximo == old(contador.proximo) && contador.emitidos == old(contador.emitidos)
      ensures selecionado == null ==> r == SemCliente
      ensures selecionado != null && PrimeiraContaPorCpf(old(gerenciadorContas.contas), selecionado.cpf) != null
              ==> r == JaPossuiConta
      ensures !r.Vinculada? ==> gerenciadorContas.contas == old(gerenciadorContas.contas)
      ensures r.Vinculada? ==>
                selecionado != null && fresh(r.conta) && r.conta.dono == selecionado
                && r.conta.numero == old(contador.proximo)
                && gerenciadorContas.contas == old(gerenciadorContas.contas) + [r.conta]
      ensures selecionado != null && PrimeiraContaPorCpf(old(gerenciadorContas.contas), selecionado.cpf) == null
              && tipoConta == "Conta Corrente" ==>
                var dep := ValorDoCampo(campos.correnteDepositoInicial, parse);
                var limite := ValorDoCampo(campos.correnteLimite, parse);
                if dep.Some? && limite.Some? then
                  r.Vinculada? && r.conta.saldo == dep.value && r.conta.regras == RegrasCorrente(limite.value)
                else r == FormatoInvalido
      ensures selecionado != null && PrimeiraContaPorCpf(old(gerenciadorContas.contas), selecionado.cpf) == null
              && tipoConta == "Conta Investimento" ==>
                var montante := ValorDoCampo(campos.investimentoMontanteMinimo, parse);
                var depMinimo := ValorDoCampo(campos.investimentoDepositoMinimo, parse);
                var dep := ValorDoCampo(campos.investimentoDepositoInicial, parse);
                if montante.Some? && depMinimo.Some? && dep.Some? then
                  if dep.value > 0.0 && dep.value < depMinimo.value then r == DepositoInicialRecusado
                  else
                    r.Vinculada? && r.conta.regras == RegrasInvestimento(montante.value, depMinimo.value)
                    && r.conta.saldo == (if dep.value > 0.0 then dep.value else 0.0)
                else r == FormatoInvalido
      ensures (selecionado != null && PrimeiraContaPorCpf(old(gerenciadorContas.contas), selecionado.cpf) == null
               && tipoConta != "Conta Corrente" && tipoConta != "Conta Investimento") ==> r == TipoDesconhecido
      ensures old(UmaContaPorCpf(gerenciadorContas.contas)) ==> UmaContaPorCpf(gerenciadorContas.contas)
      ensures selecionado != null && selecionado.cpf in CpfsDe(gerenciadorClientes.clientes)
              && old(DonosCadastrados(gerenciadorContas.contas, gerenciadorClientes.clientes))
              ==> DonosCadastrados(gerenciadorContas.contas, gerenciadorClientes.clientes)
    {
      if selecionado == null {
        return SemCliente;
      }
      var existente := gerenciadorContas.BuscarContaPorCpfCliente(selecionado.cpf);
      if existente != null {
        return JaPossuiConta;
      }
      if tipoConta == "Conta Corrente" {
        var dep := ValorDoCampo(campos.correnteDepositoInicial, parse);
        if dep.None? {
          return FormatoInvalido;
        }
        var limite := ValorDoCampo(campos.correnteLimite, parse);
        if limite.None? {
          return FormatoInvalido;
        }
        var nova := new Conta.Corrente(contador, selecionado, dep.value, limite.value);
        Vincula(nova);
        r := Vinculada(nova);
      } else if tipoConta == "Conta Investimento" {
        var montante := ValorDoCampo(campos.investimentoMontanteMinimo, parse);
        if montante.None? {
          return FormatoInvalido;
        }
        var depMinimo := ValorDoCampo(campos.investimentoDepositoMinimo, parse);
        if depMinimo.None? {
          return FormatoInvalido;
        }
        var dep := ValorDoCampo(campos.investimentoDepositoInicial, parse);
        if dep.None? {
          return FormatoInvalido;
        }
        var nova := new Conta.Investimento(contador, selecionado, dep.value, montante.value, depMinimo.value);
        if nova.saldo == 0.0 && dep.value > 0.0 {
          r := DepositoInicialRecusado;
        } else {
          Vincula(nova);
          r := Vinculada(nova);
        }
      } else {
        r := TipoDesconhecido;
      }
    }

    /** Adds an account whose owner has none yet, keeping the registry invariants. */
    method Vincula(nova: Conta)
      requires PrimeiraContaPorCpf(gerenciadorContas.contas, nova.dono.cpf) == null
      modifies gerenciadorContas`contas
      ensures gerenciadorContas.contas == old(gerenciadorContas.contas) + [nova]
      ensures old(UmaContaPorCpf(gerenciadorContas.contas)) ==> UmaContaPorCpf(gerenciadorContas.contas)
      ensures nova.dono.cpf in CpfsDe(gerenciadorClientes.clientes)
              && old(DonosCadastrados(gerenciadorContas.contas, gerenciadorClientes.clientes))
              ==> DonosCadastrados(gerenciadorContas.contas, gerenciadorClientes.clientes)
    {
      if UmaContaPorCpf(gerenciadorContas.contas) {
        AdicionaPreservaUmaConta(gerenciadorContas.contas, nova);
      }
      gerenciadorContas.Adicionar(nova);
    }
  }

  // ---------------------------------------------------------------------
  // Operations screen (TelaOperacoes)

  /** The text `getValorOperacao` hands to `parseDouble`: commas become points,
      then everything but digits and points is dropped. */
  function TextoDoValor(texto: string): (r: string)
    ensures forall i :: 0 <= i < |r| ==> DigitoOuPonto(r[i])
    ensures SoDigitos(r) == SoDigitos(texto)
    ensures Ocorrencias(r, '.') == Ocorrencias(texto, ',') + Ocorrencias(texto, '.')
  {
    var trocado := TrocaCaractere(texto, ',', '.');
    TrocaCaractereConta(texto, ',', '.');
    SoDigitosEPontos(trocado)
  }

  /** What one character of an amount becomes: a comma or a point becomes a
      point, a digit stays, anything else disappears. */
  function CaractereDoValor(c: char): string {
    if c == ',' || c == '.' then "." else if EhDigito(c) then [c] else []
  }

  /** The two passes of `getValorOperacao` act on each character on its own, in order. */
  lemma {:induction false} TextoDoValorPorCaractere(texto: string)
    ensures TextoDoValor(texto) == PorCaractere(texto, CaractereDoValor)
  {
    if texto != [] {
      var h := [texto[0]];
      var t := texto[1..];
      assert texto == h + t;
      TrocaCaractereConcatena(h, t, ',', '.');
      SoDigitosEPontosConcatena(TrocaCaractere(h, ',', '.'), TrocaCaractere(t, ',', '.'));
      TextoDoValorPorCaractere(t);
    }
  }

  /** `getValorOperacao`: a blank field is an error (`None`); a field with nothing
      left after cleaning is 0.0; otherwise the cleaned text is parsed. */
  function ValorOperacao(texto: string, parse: string -> Option<real>): (r: Option<real>)
    ensures EmBranco(texto) ==> r == None
    ensures !EmBranco(texto) && TextoDoValor(texto) == [] ==> r == Some(0.0)
    ensures !EmBranco(texto) && TextoDoValor(texto) != [] ==> r == parse(TextoDoValor(texto))
  {
    if EmBranco(texto) then None
    else
      var limpo := TextoDoValor(texto);
      if limpo == [] then Some(0.0) else parse(limpo)
  }

  predicate Minuscula(c: char) {
    'a' <= c <= 'z'
  }

  predicate Maiuscula(c: char) {
    'A' <= c <= 'Z'
  }

  /** `replaceAll("(?<=[a-z])(?=[A-Z])", " ")`: a space between every lower-case
      ASCII letter and an upper-case ASCII letter right after it. */
  function EspacaPalavras(s: string): (r: string)
    ensures |r| >= |s|
    ensures s != [] ==> r != [] && r[0] == s[0]
  {
    if |s| < 2 then s
    else [s[0]] + (if Minuscula(s[0]) && Maiuscula(s[1]) then " " else "") + EspacaPalavras(s[1..])
  }

  /** The inserted spaces are the only change: removing all spaces gives back
      a text that had none. */
  lemma {:induction false} EspacaPalavrasSoInsereEspacos(s: string)
    requires ' ' !in s
    ensures RemoveCaractere(EspacaPalavras(s), ' ') == s
  {
    if |s| >= 2 {
      var e := if Minuscula(s[0]) && Maiuscula(s[1]) then " " else "";
      var t := EspacaPalavras(s[1..]);
      EspacaPalavrasSoInsereEspacos(s[1..]);
      RemoveCaractereConcatena([s[0]] + e, t, ' ');
      RemoveCaractereConcatena([s[0]], e, ' ');
      assert s == [s[0]] + s[1..];
    } else if |s| == 1 {
      assert RemoveCaractere(s, ' ') == [s[0]] + RemoveCaractere(s[1..], ' ');
    }
  }

  lemma {:induction false} RemoveCaractereConcatena(a: string, b: string, c: char)
    ensures RemoveCaractere(a + b, c) == RemoveCaractere(a, c) + RemoveCaractere(b, c)
  {
    if a == [] {
      assert a + b == b;
    } else {
      assert (a + b)[0] == a[0] && (a + b)[1..] == a[1..] + b;
      RemoveCaractereConcatena(a[1..], b, c);
    }
  }

  /** `getClass().getSimpleName()` of an account. */
  function NomeDaClasse(regras: Regras): (r: string)
    ensures r == "ContaCorrente" <==> regras.RegrasCorrente?
    ensures r == "ContaInvestimento" <==> regras.RegrasInvestimento?
  {
    match regras
    case RegrasCorrente(_) => "ContaCorrente"
    case RegrasInvestimento(_, _) => "ContaInvestimento"
  }

  /** Spacing a concatenation spaces each part, plus one space at the seam
      when a lower-case letter meets an upper-case one there. */
  lemma {:induction false} EspacaPalavrasConcatena(a: string, b: string)
    requires a != [] && b != []
    ensures EspacaPalavras(a + b)
         == EspacaPalavras(a) + (if Minuscula(a[|a| - 1]) && Maiuscula(b[0]) then " " else "") + EspacaPalavras(b)
  {
    var ab := a + b;
    if |a| == 1 {
      assert ab[0] == a[0] && ab[1..] == b;
    } else {
      assert ab[0] == a[0] && ab[1] == a[1] && ab[1..] == a[1..] + b;
      EspacaPalavrasConcatena(a[1..], b);
      var sep := if Minuscula(a[0]) && Maiuscula(a[1]) then " " else "";
      var fim := if Minuscula(a[|a| - 1]) && Maiuscula(b[0]) then " " else "";
      assert a[1..][|a[1..]| - 1] == a[|a| - 1];
      Ordenacao.ConcatenaAssocia([a[0]] + sep, EspacaPalavras(a[1..]) + fim, EspacaPalavras(b));
      Ordenacao.ConcatenaAssocia([a[0]] + sep, EspacaPalavras(a[1..]), fim);
    }
  }

  /** A text with no lower-case letter followed by an upper-case one is left as it is. */
  lemma {:induction false} EspacaPalavrasSemEmendas(s: string)
    requires forall i :: 0 <= i < |s| - 1 ==> !(Minuscula(s[i]) && Maiuscula(s[i + 1]))
    ensures EspacaPalavras(s) == s
  {
    if |s| >= 2 {
      assert !(Minuscula(s[0]) && Maiuscula(s[1]));
      forall i | 0 <= i < |s[1..]| - 1
        ensures !(Minuscula(s[1..][i]) && Maiuscula(s[1..][i + 1]))
      {
        assert s[1..][i] == s[i + 1] && s[1..][i + 1] == s[i + 2];
      }
      EspacaPalavrasSemEmendas(s[1..]);
      assert s == [s[0]] + s[1..];
    }
  }

  /** Two words without inner seams, the first ending in a lower-case letter and
      the second starting with an upper-case one, get exactly one space between them. */
  lemma EspacaDuasPalavras(a: string, b: string)
    requires a != [] && b != [] && Minuscula(a[|a| - 1]) && Maiuscula(b[0])
    requires forall i :: 0 <= i < |a| - 1 ==> !(Minuscula(a[i]) && Maiuscula(a[i + 1]))
    requires forall i :: 0 <= i < |b| - 1 ==> !(Minuscula(b[i]) && Maiuscula(b[i + 1]))
    ensures EspacaPalavras(a + b) == a + " " + b
  {
    EspacaPalavrasSemEmendas(a);
    EspacaPalavrasSemEmendas(b);
    EspacaPalavrasConcatena(a, b);
  }

  /** The display name of a checking account, as `remunerarConta` shows it. */
  lemma NomeExibidoCorrente()
    ensures EspacaPalavras("ContaCorrente") == "Conta Corrente"
  {
    EspacaDuasPalavras("Conta", "Corrente");
    assert "Conta" + "Corrente" == "ContaCorrente";
    assert "Conta" + " " + "Corrente" == "Conta Corrente";
  }

  /** The display name of an investment account, as `remunerarConta` shows it. */
  lemma NomeExibidoInvestimento()
    ensures EspacaPalavras("ContaInvestimento") == "Conta Investimento"
  {
    EspacaDuasPalavras("Conta", "Investimento");
    assert "Conta" + "Investimento" == "ContaInvestimento";
    assert "Conta" + " " + "Investimento" == "Conta Investimento";
  }

  /** What `remunerarConta` reports: the formatted class name, the number and
      the balances before and after. */
  datatype Remuneracao = Remuneracao(tipo: string, numero: int, saldoAnterior: real, saldoNovo: real)

  class TelaOperacoes {
    const gerenciadorContas: GerenciadorContas
    const gerenciadorClientes: GerenciadorClientes
    var contaAtual: Conta?
    /** Whether the operation buttons are enabled. */
    var operacoesHabilitadas: bool

    /** Operations start disabled, with no account selected. */
    constructor (gerenciadorContas: GerenciadorContas, gerenciadorClientes: GerenciadorClientes)
      ensures this.gerenciadorContas == gerenciadorContas
      ensures this.gerenciadorClientes == gerenciadorClientes
      ensures contaAtual == null && !operacoesHabilitadas
    {
      this.gerenciadorContas := gerenciadorContas;
      this.gerenciadorClientes := gerenciadorClientes;
      contaAtual := null;
      operacoesHabilitadas := false;
    }

    /** `buscarConta`: a cleaned CPF shorter than 11 digits, or one no customer
        has, disables the operations and keeps the current account; otherwise the
        current account becomes the customer's account, and the operations are
        enabled exactly when there is one. */
    method BuscarConta(texto: string)
      modifies this`contaAtual, this`operacoesHabilitadas
      ensures var cpf := SoDigitos(texto);
              if |cpf| < 11 || PrimeiroClientePorCpf(gerenciadorClientes.clientes, cpf) == null then
                contaAtual == old(contaAtual) && !operacoesHabilitadas
              else
                contaAtual == PrimeiraContaPorCpf(gerenciadorContas.contas, cpf)
                && (operacoesHabilitadas <==> contaAtual != null)
    {
      var cpfLimpo := SoDigitos(texto);
      if |cpfLimpo| < 11 {
        operacoesHabilitadas := false;
        return;
      }
      var cliente := gerenciadorClientes.BuscarPorCpf(cpfLimpo);
      if cliente == null {
        operacoesHabilitadas := false;
        return;
      }
      contaAtual := gerenciadorContas.BuscarContaPorCpfCliente(cpfLimpo);
      operacoesHabilitadas := contaAtual != null;
    }

    /** `realizarSaque`: nothing without a current account; an amount that does
        not parse changes nothing; otherwise the account's own `saca`. */
    method RealizarSaque(texto: string, parse: string -> Option<real>) returns (r: Operacao)
      modifies contaAtual
      ensures contaAtual == null ==> r == SemConta
      ensures contaAtual != null ==>
                var valor := ValorOperacao(texto, parse);
                if valor.None? then r == ValorInvalido && contaAtual.saldo == old(contaAtual.saldo)
                else if valor.value > 0.0 && old(contaAtual.saldo) - valor.value >= Piso(contaAtual.regras) then
                  r == Realizada && contaAtual.saldo == old(contaAtual.saldo) - valor.value
                else r == Recusada && contaAtual.saldo == old(contaAtual.saldo)
    {
      if contaAtual == null {
        return SemConta;
      }
      var valor := ValorOperacao(texto, parse);
      if valor.None? {
        return ValorInvalido;
      }
      var ok := gerenciadorContas.Sacar(contaAtual, valor.value);
      r := if ok then Realizada else Recusada;
    }

    /** `realizarDeposito`: nothing without a current account; an amount that does
        not parse changes nothing; otherwise the account's own `deposita`. */
    method RealizarDeposito(texto: string, parse: string -> Option<real>) returns (r: Operacao)
      modifies contaAtual
      ensures contaAtual == null ==> r == SemConta
      ensures contaAtual != null ==>
                var valor := ValorOperacao(texto, parse);
                if valor.None? then r == ValorInvalido && contaAtual.saldo == old(contaAtual.saldo)
                else if valor.value > 0.0
                        && (contaAtual.regras.RegrasInvestimento? ==> valor.value >= contaAtual.regras.depositoMinimo) then
                  r == Realizada && contaAtual.saldo == old(contaAtual.saldo) + valor.value
                else r == Recusada && contaAtual.saldo == old(contaAtual.saldo)
    {
      if contaAtual == null {
        return SemConta;
      }
      var valor := ValorOperacao(texto, parse);
      if valor.None? {
        return ValorInvalido;
      }
      var ok := gerenciadorContas.Depositar(contaAtual, valor.value);
      r := if ok then Realizada else Recusada;
    }

    /** `remunerarConta`: nothing without a current account; otherwise the
        account's own `remunera`, reported with the spaced class name. */
    method RemunerarConta() returns (r: Option<Remuneracao>)
      modifies contaAtual
      ensures contaAtual == null ==> r == None
      ensures contaAtual != null ==>
                r == Some(Remuneracao(EspacaPalavras(NomeDaClasse(contaAtual.regras)), contaAtual.numero,
                                      old(contaAtual.saldo), contaAtual.saldo))
                && contaAtual.saldo == old(contaAtual.saldo)
                                       * (if contaAtual.regras.RegrasCorrente? then 1.01 else 1.02)
    {
      if contaAtual == null {
        return None;
      }
      var saldoAntes := contaAtual.saldo;
      gerenciadorContas.Remunerar(contaAtual);
      var tipo := EspacaPalavras(NomeDaClasse(contaAtual.regras));
      r := Some(Remuneracao(tipo, contaAtual.numero, saldoAntes, contaAtual.saldo));
    }
  }
}
