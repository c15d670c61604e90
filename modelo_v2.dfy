/** The domain model of the later revision (`SistemaBanco/src/banco/modelo`):
    customers and the two kinds of account. */
module ModeloV2 {
  import opened Texto
  import opened Numeracao
  import opened RegrasConta

  /** The display shape `ddd.ddd.ddd-dd` of a CPF. */
  predicate PadraoCpf(r: string) {
    |r| == 14
    && forall i :: 0 <= i < 14 ==>
         if i == 3 || i == 7 then r[i] == '.'
         else if i == 11 then r[i] == '-'
         else EhDigito(r[i])
  }

  /** `Cliente.formatarCpfParaExibicao`: an 11-character CPF is cut into
      groups of 3, 3, 3 and 2 characters joined by '.', '.' and '-';
      any other text is returned as it is. */
  function FormataCpf(s: string): (r: string)
    ensures |s| != 11 ==> r == s
    ensures |s| == 11 ==> |r| == 14
    ensures |s| == 11 && SoTemDigitos(s) ==> PadraoCpf(r)
  {
    if |s| != 11 then s
    else s[0..3] + "." + s[3..6] + "." + s[6..9] + "-" + s[9..11]
  }

  /** Cleaning the display form of a CPF of 11 digits gives the CPF back. */
  lemma FormataCpfRecupera(s: string)
    requires |s| == 11 && SoTemDigitos(s)
    ensures SoDigitos(FormataCpf(s)) == s
  {
    var a, b, c, d := s[0..3], s[3..6], s[6..9], s[9..11];
    assert s == a + b + c + d;
    SoDigitosDeDigitos(a);
    SoDigitosDeDigitos(b);
    SoDigitosDeDigitos(c);
    SoDigitosDeDigitos(d);
    SoDigitosConcatena(a + "." + b + "." + c + "-", d);
    SoDigitosConcatena(a + "." + b + "." + c, "-");
    SoDigitosConcatena(a + "." + b + ".", c);
    SoDigitosConcatena(a + "." + b, ".");
    SoDigitosConcatena(a + ".", b);
    SoDigitosConcatena(a, ".");
  }

  /** A customer. The CPF is fixed at construction; the other fields have setters. */
  class Cliente {
    var nome: string
    var sobrenome: string
    var rg: string
    const cpf: string
    var endereco: string

    constructor (nome: string, sobrenome: string, rg: string, cpf: string, endereco: string)
      ensures this.nome == nome && this.sobrenome == sobrenome && this.rg == rg
      ensures this.cpf == cpf && this.endereco == endereco
    {
      this.nome := nome;
      this.sobrenome := sobrenome;
      this.rg := rg;
      this.cpf := cpf;
      this.endereco := endereco;
    }

    method SetNome(nome: string)
      modifies this`nome
      ensures this.nome == nome
    {
      this.nome := nome;
    }

    method SetSobrenome(sobrenome: string)
      modifies this`sobrenome
      ensures this.sobrenome == sobrenome
    {
      this.sobrenome := sobrenome;
    }

    method SetRg(rg: string)
      modifies this`rg
      ensures this.rg == rg
    {
      this.rg := rg;
    }

    method SetEndereco(endereco: string)
      modifies this`endereco
      ensures this.endereco == endereco
    {
      this.endereco := endereco;
    }

    /** `equals`: the same object, or another customer with the same CPF. */
    function Equals(outro: Cliente?): (r: bool)
      ensures r <==> outro != null && outro.cpf == cpf
    {
      outro == this || (outro != null && cpf == outro.cpf)
    }

    /** `compareTo`: the natural order compares first names only. */
    function CompareTo(outro: Cliente): (r: int)
      reads this, outro
      ensures r == 0 <==> nome == outro.nome
      ensures r == -Compara(outro.nome, nome)
    {
      ComparaZero(nome, outro.nome);
      ComparaAntissimetrica(nome, outro.nome);
      Compara(nome, outro.nome)
    }

    /** `toString`: the name, the surname and, in parentheses, the CPF in its display form. */
    function ToString(): (r: string)
      reads this
      ensures |r| == |nome| + |sobrenome| + |FormataCpf(cpf)| + 9
      ensures r[..|nome| + 1] == nome + " "
      ensures |cpf| == 11 && SoTemDigitos(cpf) ==> SoDigitos(r[|r| - 15..|r| - 1]) == cpf
    {
      var f := FormataCpf(cpf);
      var r := nome + " " + sobrenome + " (CPF: " + f + ")";
      assert r[..|nome| + 1] == nome + " ";
      if |cpf| == 11 && SoTemDigitos(cpf) then
        assert r[|r| - 15..|r| - 1] == f;
        FormataCpfRecupera(cpf);
        r
      else r
    }
  }

  /** An account. Owner, number and subclass data have no setters. */
  class Conta {
    const dono: Cliente
    const numero: int
    const regras: Regras
    var saldo: real

    /** `new ContaCorrente(dono, depositoInicial, limite)`: the initial deposit
        becomes the balance as it is, without any check. */
    constructor Corrente(contador: GeradorNumeros, dono: Cliente, depositoInicial: real, limite: real)
      requires contador.Valid()
      modifies contador
      ensures contador.Valid() && contador.emitidos == old(contador.emitidos) + [numero]
      ensures numero == old(contador.proximo)
      ensures this.dono == dono && regras == RegrasCorrente(limite)
      ensures saldo == depositoInicial
    {
      this.dono := dono;
      var n := contador.Emite();
      numero := n;
      regras := RegrasCorrente(limite);
      saldo := depositoInicial;
    }

    /** `new ContaInvestimento(dono, depositoInicial, montanteMinimo, depositoMinimo)`:
        the account opens empty and a positive initial deposit goes through `Deposita`. */
    constructor Investimento(contador: GeradorNumeros, dono: Cliente, depositoInicial: real,
                             montanteMinimo: real, depositoMinimo: real)
      requires contador.Valid()
      modifies contador
      ensures contador.Valid() && contador.emitidos == old(contador.emitidos) + [numero]
      ensures numero == old(contador.proximo)
      ensures this.dono == dono && regras == RegrasInvestimento(montanteMinimo, depositoMinimo)
      ensures saldo == if depositoInicial > 0.0 && depositoInicial >= depositoMinimo
                       then depositoInicial else 0.0
    {
      this.dono := dono;
      var n := contador.Emite();
      numero := n;
      regras := RegrasInvestimento(montanteMinimo, depositoMinimo);
      saldo := 0.0;
      new;
      if depositoInicial > 0.0 {
        var aceito := Deposita(depositoInicial);
      }
    }

    /** `Conta.deposita`: a positive amount is added. */
    method DepositaBase(valor: real) returns (ok: bool)
      modifies this`saldo
      ensures ok <==> valor > 0.0
      ensures saldo == if ok then old(saldo) + valor else old(saldo)
    {
      if valor > 0.0 {
        saldo := saldo + valor;
        ok := true;
      } else {
        ok := false;
      }
    }

    /** `Conta.saca`: only checks that the amount is positive. */
    method SacaBase(valor: real) returns (ok: bool)
      ensures ok <==> valor > 0.0
    {
      ok := valor > 0.0;
    }

    /** `deposita` as dispatched: a checking account takes any positive amount;
        an investment account also demands at least the minimum deposit. */
    method Deposita(valor: real) returns (ok: bool)
      modifies this`saldo
      ensures ok <==> valor > 0.0 && (regras.RegrasInvestimento? ==> valor >= regras.depositoMinimo)
      ensures saldo == if ok then old(saldo) + valor else old(saldo)
    {
      match regras
      case RegrasCorrente(_) =>
        ok := DepositaBase(valor);
      case RegrasInvestimento(_, depositoMinimo) =>
        if valor >= depositoMinimo {
          ok := DepositaBase(valor);
        } else {
          ok := false;
        }
    }

    /** `saca` as dispatched: a positive amount is taken when the balance left is
        at least the floor (minus the limit, or the minimum balance), inclusive. */
    method Saca(valor: real) returns (ok: bool)
      modifies this`saldo
      ensures ok <==> valor > 0.0 && old(saldo) - valor >= Piso(regras)
      ensures saldo == if ok then old(saldo) - valor else old(saldo)
      ensures ok ==> saldo >= Piso(regras)
    {
      ok := SacaBase(valor);
      if !ok {
        return;
      }
      match regras
      case RegrasCorrente(limite) =>
        var novoSaldo := saldo - valor;
        if novoSaldo >= -limite {
          saldo := novoSaldo;
          ok := true;
        } else {
          ok := false;
        }
      case RegrasInvestimento(montanteMinimo, _) =>
        if saldo - valor >= montanteMinimo {
          saldo := saldo - valor;
          ok := true;
        } else {
          ok := false;
        }
    }

    /** `remunera`: 1% on a checking account, 2% on an investment account,
        whatever the sign of the balance. */
    method Remunera()
      modifies this`saldo
      ensures regras.RegrasCorrente? ==> saldo == old(saldo) * 1.01
      ensures regras.RegrasInvestimento? ==> saldo == old(saldo) * 1.02
    {
      match regras
      case RegrasCorrente(_) =>
        saldo := saldo * 1.01;
      case RegrasInvestimento(_, _) =>
        saldo := saldo * 1.02;
    }
  }
}
