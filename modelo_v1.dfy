/** The domain model of the earlier revision (`banco/modelo`): customers and
    the two kinds of account. Unlike the later revision, the CPF has a setter,
    and the account constructors pass the initial deposit through `deposita`. */
module ModeloV1 {
  import opened Texto
  import opened Numeracao
  import opened RegrasConta

  /** A customer. Every field, the CPF included, has a setter. */
  class Cliente {
    var nome: string
    var sobrenome: string
    var rg: string
    var cpf: string
    var endereco: string

    constructor (nome: string, sobrenome: string, rg: string, cpf: string, endereco: string)
      ensures this.nome == nome && this.sobrenome == sobrenome && this.rg == rg
      ensures this.cpf == cpf && this.endereco == endereco
    {
      this.nome := nome;
      this.sobrenome := sobrenome;
      this.rg := rg;
      this.cpf := cpf;
      this.endereco := endereco;
    }

    method SetNome(nome: string)
      modifies this`nome
      ensures this.nome == nome
    {
      this.nome := nome;
    }

    method SetSobrenome(sobrenome: string)
      modifies this`sobrenome
      ensures this.sobrenome == sobrenome
    {
      this.sobrenome := sobrenome;
    }

    method SetRg(rg: string)
      modifies this`rg
      ensures this.rg == rg
    {
      this.rg := rg;
    }

    /** `setCpf`: the identity of the customer changes with it. */
    method SetCpf(cpf: string)
      modifies this`cpf
      ensures this.cpf == cpf
    {
      this.cpf := cpf;
    }

    method SetEndereco(endereco: string)
      modifies this`endereco
      ensures this.endereco == endereco
    {
      this.endereco := endereco;
    }

    /** `equals`: the same object, or another customer with the same CPF. */
    function Equals(outro: Cliente?): (r: bool)
      reads this, outro
      ensures r <==> outro != null && outro.cpf == cpf
    {
      outro == this || (outro != null && cpf == outro.cpf)
    }

    /** `compareTo`: the natural order compares first names only. */
    function CompareTo(outro: Cliente): (r: int)
      reads this, outro
      ensures r == 0 <==> nome == outro.nome
      ensures r == -Compara(outro.nome, nome)
    {
      ComparaZero(nome, outro.nome);
      ComparaAntissimetrica(nome, outro.nome);
      Compara(nome, outro.nome)
    }

    /** `toString`: the name, the surname and, in parentheses, the CPF as stored. */
    function ToString(): (r: string)
      reads this
      ensures |r| == |nome| + |sobrenome| + |cpf| + 9
      ensures r[..|nome| + 1] == nome + " "
      ensures r[|r| - |cpf| - 1..|r| - 1] == cpf && r[|r| - 1] == ')'
    {
      var r := nome + " " + sobrenome + " (CPF: " + cpf + ")";
      assert r[..|nome| + 1] == nome + " ";
      assert r[|r| - |cpf| - 1..|r| - 1] == cpf;
      r
    }
  }

  /** An account. Owner and number have no setters; the subclass data is
      assigned once the superclass constructor has run. */
  class Conta {
    const dono: Cliente
    const numero: int
    var regras: Regras
    var saldo: real

    /** `new ContaCorrente(dono, depositoInicial, limite)`: the balance starts at 0
        and the initial deposit goes through `deposita`, so only a positive one
        is kept; the limit is stored afterwards. */
    constructor Corrente(contador: GeradorNumeros, dono: Cliente, depositoInicial: real, limite: real)
      requires contador.Valid()
      modifies contador
      ensures contador.Valid() && contador.emitidos == old(contador.emitidos) + [numero]
      ensures numero == old(contador.proximo)
      ensures this.dono == dono && regras == RegrasCorrente(limite)
      ensures saldo == if depositoInicial > 0.0 then depositoInicial else 0.0
    {
      this.dono := dono;
      var n := contador.Emite();
      numero := n;
      saldo := 0.0;
      // the limit still holds Java's default while the superclass constructor runs
      regras := RegrasCorrente(0.0);
      new;
      var aceito := Deposita(depositoInicial);
      regras := RegrasCorrente(limite);
    }

    /** `new ContaInvestimento(dono, depositoInicial, montanteMinimo, depositoMinimo)`:
        the superclass constructor deposits 0 while both minimums are still 0,
        which is refused and changes nothing; then the minimums are stored and a
        positive initial deposit goes through `deposita`. */
    constructor Investimento(contador: GeradorNumeros, dono: Cliente, depositoInicial: real,
                             montanteMinimo: real, depositoMinimo: real)
      requires contador.Valid()
      modifies contador
      ensures contador.Valid() && contador.emitidos == old(contador.emitidos) + [numero]
      ensures numero == old(contador.proximo)
      ensures this.dono == dono && regras == RegrasInvestimento(montanteMinimo, depositoMinimo)
      ensures saldo == if depositoInicial > 0.0 && depositoInicial >= depositoMinimo
                       then depositoInicial else 0.0
    {
      this.dono := dono;
      var n := contador.Emite();
      numero := n;
      saldo := 0.0;
      regras := RegrasInvestimento(0.0, 0.0);
      new;
      var inicial := Deposita(0.0);
      assert !inicial && saldo == 0.0;
      regras := RegrasInvestimento(montanteMinimo, depositoMinimo);
      if depositoInicial > 0.0 {
        var aceito := Deposita(depositoInicial);
      }
    }

    /** `Conta.deposita`: a positive amount is added. */
    method DepositaBase(valor: real) returns (ok: bool)
      modifies this`saldo
      ensures ok <==> valor > 0.0
      ensures saldo == if ok then old(saldo) + valor else old(saldo)
    {
      if valor > 0.0 {
        saldo := saldo + valor;
        ok := true;
      } else {
        ok := false;
      }
    }

    /** `Conta.saca`: only checks that the amount is positive. */
    method SacaBase(valor: real) returns (ok: bool)
      ensures ok <==> valor > 0.0
    {
      ok := valor > 0.0;
    }

    /** `deposita` as dispatched: a checking account takes any positive amount;
        an investment account also demands at least the minimum deposit. */
    method Deposita(valor: real) returns (ok: bool)
      modifies this`saldo
      ensures ok <==> valor > 0.0 && (regras.RegrasInvestimento? ==> valor >= regras.depositoMinimo)
      ensures saldo == if ok then old(saldo) + valor else old(saldo)
    {
      match regras
      case RegrasCorrente(_) =>
        ok := DepositaBase(valor);
      case RegrasInvestimento(_, depositoMinimo) =>
        if valor >= depositoMinimo {
          ok := DepositaBase(valor);
        } else {
          ok := false;
        }
    }

    /** `saca` as dispatched: a positive amount is taken when the balance left is
        at least the floor (minus the limit, or the minimum balance), inclusive. */
    method Saca(valor: real) returns (ok: bool)
      modifies this`saldo
      ensures ok <==> valor > 0.0 && old(saldo) - valor >= Piso(regras)
      ensures saldo == if ok then old(saldo) - valor else old(saldo)
      ensures ok ==> saldo >= Piso(regras)
    {
      ok := SacaBase(valor);
      if !ok {
        return;
      }
      match regras
      case RegrasCorrente(limite) =>
        if saldo - valor >= -limite {
          saldo := saldo - valor;
          ok := true;
        } else {
          ok := false;
        }
      case RegrasInvestimento(montanteMinimo, _) =>
        if saldo - valor >= montanteMinimo {
          saldo := saldo - valor;
          ok := true;
        } else {
          ok := false;
        }
    }

    /** `remunera`: 1% on a checking account, 2% on an investment account,
        whatever the sign of the balance. */
    method Remunera()
      modifies this`saldo
      ensures regras.RegrasCorrente? ==> saldo == old(saldo) * 1.01
      ensures regras.RegrasInvestimento? ==> saldo == old(saldo) * 1.02
    {
      match regras
      case RegrasCorrente(_) =>
        saldo := saldo * 1.01;
      case RegrasInvestimento(_, _) =>
        saldo := saldo * 1.02;
    }
  }
}
