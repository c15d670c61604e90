/** The registries of the later revision (`SistemaBanco/src/banco/negocio`):
    list-backed sets of accounts and of customers. Owner and CPF are fixed
    at construction in this revision, so every fact about owners and CPFs
    below is independent of the heap. */
module NegocioV2 {
  import opened Texto
  import opened Ordenacao
  import opened Numeracao
  import opened ModeloV2
  import opened RegrasConta

  // ---------------------------------------------------------------------
  // Accounts

  /** The first account in `contas` whose owner has CPF `cpf`, or null. */
  function PrimeiraContaPorCpf(contas: seq<Conta>, cpf: string): (r: Conta?)
    ensures r != null ==> r in contas && r.dono.cpf == cpf
    ensures r == null <==> forall a :: a in contas ==> a.dono.cpf != cpf
  {
    if contas == [] then null
    else if contas[0].dono.cpf == cpf then contas[0]
    else PrimeiraContaPorCpf(contas[1..], cpf)
  }

  /** An account owned by `cpf` with no such account before it is the one found. */
  lemma {:induction false} PrimeiraContaPorCpfEhPrimeira(contas: seq<Conta>, cpf: string, i: int)
    requires 0 <= i < |contas| && contas[i].dono.cpf == cpf
    requires forall j :: 0 <= j < i ==> contas[j].dono.cpf != cpf
    ensures PrimeiraContaPorCpf(contas, cpf) == contas[i]
  {
    if i > 0 {
      assert contas[1..][i - 1] == contas[i];
      PrimeiraContaPorCpfEhPrimeira(contas[1..], cpf, i - 1);
    }
  }

  /** The accounts of `contas` whose owner is not equal to `cliente`, in order. */
  function SemContasDe(contas: seq<Conta>, cliente: Cliente): (r: seq<Conta>)
    ensures forall a :: a in r ==> a in contas && a.dono.cpf != cliente.cpf
    ensures forall a :: a in contas && a.dono.cpf != cliente.cpf ==> a in r
    ensures |r| <= |contas|
  {
    if contas == [] then []
    else (if contas[0].dono.Equals(cliente) then [] else [contas[0]]) + SemContasDe(contas[1..], cliente)
  }

  /** Filtering by owner distributes over concatenation: every kept account
      keeps its place relative to the others. */
  lemma {:induction false} SemContasDeConcatena(a: seq<Conta>, b: seq<Conta>, cliente: Cliente)
    ensures SemContasDe(a + b, cliente) == SemContasDe(a, cliente) + SemContasDe(b, cliente)
  {
    if a == [] {
      assert a + b == b;
    } else {
      assert (a + b)[0] == a[0] && (a + b)[1..] == a[1..] + b;
      SemContasDeConcatena(a[1..], b, cliente);
    }
  }

  /** `List.removeAll`: drops every element found in `remover` (by identity,
      since accounts do not redefine `equals`). */
  function RemoveTodos(s: seq<Conta>, remover: seq<Conta>): (r: seq<Conta>)
    ensures forall a :: a in r ==> a in s && a !in remover
    ensures forall a :: a in s && a !in remover ==> a in r
  {
    if s == [] then []
    else (if s[0] in remover then [] else [s[0]]) + RemoveTodos(s[1..], remover)
  }

  /** Removing exactly the accounts owned by `cliente` is the filter by owner. */
  lemma {:induction false} RemoveTodosDoDono(s: seq<Conta>, remover: seq<Conta>, cliente: Cliente)
    requires forall a :: a in s ==> (a in remover <==> a.dono.Equals(cliente))
    ensures RemoveTodos(s, remover) == SemContasDe(s, cliente)
  {
    if s != [] {
      RemoveTodosDoDono(s[1..], remover, cliente);
    }
  }

  /** At most one account per owner CPF. */
  predicate UmaContaPorCpf(contas: seq<Conta>) {
    forall i, j :: 0 <= i < j < |contas| ==> contas[i].dono.cpf != contas[j].dono.cpf
  }

  lemma UmaContaPorCpfCauda(contas: seq<Conta>)
    requires contas != [] && UmaContaPorCpf(contas)
    ensures UmaContaPorCpf(contas[1..])
    ensures forall a :: a in contas[1..] ==> a.dono.cpf != contas[0].dono.cpf
  {
    forall i, j | 0 <= i < j < |contas[1..]|
      ensures contas[1..][i].dono.cpf != contas[1..][j].dono.cpf
    {
      assert contas[1..][i] == contas[i + 1] && contas[1..][j] == contas[j + 1];
    }
  }

  lemma UmaContaPorCpfComCabeca(a: Conta, contas: seq<Conta>)
    requires UmaContaPorCpf(contas)
    requires forall b :: b in contas ==> b.dono.cpf != a.dono.cpf
    ensures UmaContaPorCpf([a] + contas)
  {
    forall i, j | 0 <= i < j < |[a] + contas|
      ensures ([a] + contas)[i].dono.cpf != ([a] + contas)[j].dono.cpf
    {
      assert ([a] + contas)[j] == contas[j - 1];
      if i > 0 {
        assert ([a] + contas)[i] == contas[i - 1];
      }
    }
  }

  /** Appending an account for a CPF that has none keeps one account per CPF. */
  lemma AdicionaPreservaUmaConta(contas: seq<Conta>, a: Conta)
    requires UmaContaPorCpf(contas)
    requires PrimeiraContaPorCpf(contas, a.dono.cpf) == null
    ensures UmaContaPorCpf(contas + [a])
  {
    forall i, j | 0 <= i < j < |contas + [a]|
      ensures (contas + [a])[i].dono.cpf != (contas + [a])[j].dono.cpf
    {
      assert (contas + [a])[i] == contas[i];
      if j < |contas| {
        assert (contas + [a])[j] == contas[j];
      } else {
        assert contas[i] in contas;
      }
    }
  }

  /** Removing the accounts of a customer keeps one account per CPF. */
  lemma {:induction false} SemContasDePreservaUmaConta(contas: seq<Conta>, cliente: Cliente)
    requires UmaContaPorCpf(contas)
    ensures UmaContaPorCpf(SemContasDe(contas, cliente))
  {
    if contas != [] {
      UmaContaPorCpfCauda(contas);
      SemContasDePreservaUmaConta(contas[1..], cliente);
      if !contas[0].dono.Equals(cliente) {
        UmaContaPorCpfComCabeca(contas[0], SemContasDe(contas[1..], cliente));
      }
    }
  }

  // ---------------------------------------------------------------------
  // Customers

  /** The first customer in `clientes` with CPF `cpf`, or null. */
  function PrimeiroClientePorCpf(clientes: seq<Cliente>, cpf: string): (r: Cliente?)
    ensures r != null ==> r in clientes && r.cpf == cpf
    ensures r == null <==> cpf !in CpfsDe(clientes)
  {
    if clientes == [] then null
    else if clientes[0].cpf == cpf then clientes[0]
    else PrimeiroClientePorCpf(clientes[1..], cpf)
  }

  /** A customer with CPF `cpf` and no such customer before it is the one found. */
  lemma {:induction false} PrimeiroClientePorCpfEhPrimeiro(clientes: seq<Cliente>, cpf: string, i: int)
    requires 0 <= i < |clientes| && clientes[i].cpf == cpf
    requires forall j :: 0 <= j < i ==> clientes[j].cpf != cpf
    ensures PrimeiroClientePorCpf(clientes, cpf) == clientes[i]
  {
    if i > 0 {
      assert clientes[1..][i - 1] == clientes[i];
      PrimeiroClientePorCpfEhPrimeiro(clientes[1..], cpf, i - 1);
    }
  }

  /** The CPFs of the registered customers. */
  function CpfsDe(clientes: seq<Cliente>): set<string> {
    set c | c in clientes :: c.cpf
  }

  /** No two registered customers share a CPF. */
  predicate CpfsUnicos(clientes: seq<Cliente>) {
    forall i, j :: 0 <= i < j < |clientes| ==> clientes[i].cpf != clientes[j].cpf
  }

  lemma CpfsUnicosCauda(clientes: seq<Cliente>)
    requires clientes != [] && CpfsUnicos(clientes)
    ensures CpfsUnicos(clientes[1..])
    ensures clientes[0].cpf !in CpfsDe(clientes[1..])
  {
    forall i, j | 0 <= i < j < |clientes[1..]|
      ensures clientes[1..][i].cpf != clientes[1..][j].cpf
    {
      assert clientes[1..][i] == clientes[i + 1] && clientes[1..][j] == clientes[j + 1];
    }
  }

  lemma CpfsUnicosComCabeca(c: Cliente, clientes: seq<Cliente>)
    requires CpfsUnicos(clientes)
    requires c.cpf !in CpfsDe(clientes)
    ensures CpfsUnicos([c] + clientes)
  {
    forall i, j | 0 <= i < j < |[c] + clientes|
      ensures ([c] + clientes)[i].cpf != ([c] + clientes)[j].cpf
    {
      assert ([c] + clientes)[j] == clientes[j - 1];
      if i > 0 {
        assert ([c] + clientes)[i] == clientes[i - 1];
      }
    }
  }

  /** Appending a customer whose CPF is not registered keeps CPFs unique. */
  lemma AdicionaPreservaCpfsUnicos(clientes: seq<Cliente>, c: Cliente)
    requires CpfsUnicos(clientes)
    requires PrimeiroClientePorCpf(clientes, c.cpf) == null
    ensures CpfsUnicos(clientes + [c])
    ensures CpfsDe(clientes + [c]) == CpfsDe(clientes) + {c.cpf}
  {
    forall i, j | 0 <= i < j < |clientes + [c]|
      ensures (clientes + [c])[i].cpf != (clientes + [c])[j].cpf
    {
      assert (clientes + [c])[i] == clientes[i];
      if j < |clientes| {
        assert (clientes + [c])[j] == clientes[j];
      } else {
        assert clientes[i] in clientes;
      }
    }
  }

  /** `List.remove(cliente)`: drops the first element equal to `cliente`, if any. */
  function RemovePrimeiro(clientes: seq<Cliente>, cliente: Cliente): (r: seq<Cliente>)
    ensures cliente.cpf !in CpfsDe(clientes) ==> r == clientes
    ensures cliente.cpf in CpfsDe(clientes) ==> |r| == |clientes| - 1
    ensures forall c :: c in r ==> c in clientes
  {
    if clientes == [] then []
    else if cliente.Equals(clientes[0]) then clientes[1..]
    else
      assert CpfsDe(clientes) == {clientes[0].cpf} + CpfsDe(clientes[1..]);
      [clientes[0]] + RemovePrimeiro(clientes[1..], cliente)
  }

  /** `List.remove` drops exactly the first customer whose CPF matches, and
      keeps the others in their order. */
  lemma {:induction false} RemovePrimeiroEhPrimeiro(clientes: seq<Cliente>, cliente: Cliente, i: int)
    requires 0 <= i < |clientes| && clientes[i].cpf == cliente.cpf
    requires forall j :: 0 <= j < i ==> clientes[j].cpf != cliente.cpf
    ensures RemovePrimeiro(clientes, cliente) == clientes[..i] + clientes[i + 1..]
  {
    if i > 0 {
      assert clientes[1..][i - 1] == clientes[i];
      RemovePrimeiroEhPrimeiro(clientes[1..], cliente, i - 1);
      assert clientes[..i] == [clientes[0]] + clientes[1..][..i - 1];
      assert clientes[i + 1..] == clientes[1..][i..];
    }
  }

  /** With unique CPFs, removing a customer removes its CPF from the registry,
      keeps every other CPF, and keeps CPFs unique. */
  lemma {:induction false} RemovePrimeiroUnico(clientes: seq<Cliente>, cliente: Cliente)
    requires CpfsUnicos(clientes)
    ensures CpfsUnicos(RemovePrimeiro(clientes, cliente))
    ensures CpfsDe(RemovePrimeiro(clientes, cliente)) == CpfsDe(clientes) - {cliente.cpf}
  {
    if clientes != [] {
      CpfsUnicosCauda(clientes);
      assert CpfsDe(clientes) == {clientes[0].cpf} + CpfsDe(clientes[1..]);
      if !cliente.Equals(clientes[0]) {
        var t := RemovePrimeiro(clientes[1..], cliente);
        RemovePrimeiroUnico(clientes[1..], cliente);
        CpfsUnicosComCabeca(clientes[0], t);
        assert CpfsDe([clientes[0]] + t) == {clientes[0].cpf} + CpfsDe(t);
      }
    }
  }

  /** Removing one customer keeps every CPF other than its own. */
  lemma {:induction false} RemovePrimeiroMantemOutrosCpfs(clientes: seq<Cliente>, cliente: Cliente)
    ensures CpfsDe(clientes) - {cliente.cpf} <= CpfsDe(RemovePrimeiro(clientes, cliente))
  {
    if clientes != [] {
      assert CpfsDe(clientes) == {clientes[0].cpf} + CpfsDe(clientes[1..]);
      if !cliente.Equals(clientes[0]) {
        var t := RemovePrimeiro(clientes[1..], cliente);
        RemovePrimeiroMantemOutrosCpfs(clientes[1..], cliente);
        assert CpfsDe([clientes[0]] + t) == {clientes[0].cpf} + CpfsDe(t);
      }
    }
  }

  /** Every account belongs to a registered customer, by CPF. */
  predicate DonosCadastrados(contas: seq<Conta>, clientes: seq<Cliente>) {
    forall a :: a in contas ==> a.dono.cpf in CpfsDe(clientes)
  }

  /** Deleting a customer's accounts and then the customer leaves no account
      without a registered owner. */
  lemma ExclusaoPreservaDonos(contas: seq<Conta>, clientes: seq<Cliente>, cliente: Cliente)
    requires DonosCadastrados(contas, clientes)
    ensures DonosCadastrados(SemContasDe(contas, cliente), RemovePrimeiro(clientes, cliente))
  {
    RemovePrimeiroMantemOutrosCpfs(clientes, cliente);
  }

  /** The search `buscar(termo)` matches a customer: the lower-cased first name
      or surname contains the lower-cased term, or the RG or the CPF contains the term. */
  predicate Corresponde(c: Cliente, termo: string)
    reads c
  {
    Contem(Minusculas(c.nome), Minusculas(termo))
    || Contem(Minusculas(c.sobrenome), Minusculas(termo))
    || Contem(c.rg, termo)
    || Contem(c.cpf, termo)
  }

  /** The empty term matches every customer, and a match needs the term to fit
      in one of the four fields. */
  lemma CorrespondeTermo(c: Cliente, termo: string)
    ensures termo == [] ==> Corresponde(c, termo)
    ensures Corresponde(c, termo) ==>
              |termo| <= |c.nome| || |termo| <= |c.sobrenome| || |termo| <= |c.rg| || |termo| <= |c.cpf|
  {
  }

  /** The customers of `clientes` that match `termo`, in list order. */
  function Filtra(clientes: seq<Cliente>, termo: string): (r: seq<Cliente>)
    reads clientes
    ensures forall c :: c in r ==> c in clientes && Corresponde(c, termo)
    ensures forall c :: c in clientes && Corresponde(c, termo) ==> c in r
    ensures |r| <= |clientes|
  {
    if clientes == [] then []
    else Filtra(clientes[..|clientes| - 1], termo)
         + (if Corresponde(clientes[|clientes| - 1], termo) then [clientes[|clientes| - 1]] else [])
  }

  /** The search distributes over concatenation: the matches keep their list order. */
  lemma {:induction false} FiltraConcatena(a: seq<Cliente>, b: seq<Cliente>, termo: string)
    ensures Filtra(a + b, termo) == Filtra(a, termo) + Filtra(b, termo)
  {
    if b == [] {
      assert a + b == a;
    } else {
      var p := b[..|b| - 1];
      assert (a + b)[..|a + b| - 1] == a + p;
      assert (a + b)[|a + b| - 1] == b[|b| - 1];
      FiltraConcatena(a, p, termo);
    }
  }

  /** The empty term matches every customer. */
  lemma {:induction false} FiltraVazio(clientes: seq<Cliente>)
    ensures Filtra(clientes, "") == clientes
  {
    if clientes != [] {
      var p := clientes[..|clientes| - 1];
      FiltraVazio(p);
      assert "" <= clientes[|clientes| - 1].rg;
      assert clientes == p + [clientes[|clientes| - 1]];
    }
  }

  /** What the balance ordering of `ordenar` reads: how `campo` is understood. */
  datatype Criterio = PorNome | PorSobrenome | PorSaldo | SemCriterio

  /** `campo.equalsIgnoreCase(...)` against "nome", "sobrenome" and "salário", in that order. */
  function CriterioDe(campo: string): (r: Criterio)
    ensures r == PorNome <==> IgualIgnorandoCaixa(campo, "nome")
    ensures r == PorSobrenome <==> IgualIgnorandoCaixa(campo, "sobrenome")
    ensures r == PorSaldo <==> IgualIgnorandoCaixa(campo, "salário")
  {
    if IgualIgnorandoCaixa(campo, "nome") then PorNome
    else if IgualIgnorandoCaixa(campo, "sobrenome") then PorSobrenome
    else if IgualIgnorandoCaixa(campo, "salário") then PorSaldo
    else SemCriterio
  }

  // ---------------------------------------------------------------------
  // The registries

  class GerenciadorContas {
    var contas: seq<Conta>

    constructor ()
      ensures contas == []
    {
      contas := [];
    }

    /** `inicializarContasDeTeste`: empties the list, then opens a checking account
        (deposit 1000, limit 500) for the customer with CPF 11111111111 and an
        investment account (deposit 5000, minimum balance 1000, minimum deposit 100)
        for the customer with CPF 22222222222, each only when that customer exists. */
    method InicializarContasDeTeste(contador: GeradorNumeros, gerenciadorClientes: GerenciadorClientes)
      requires contador.Valid()
      modifies this, contador
      ensures contador.Valid()
      ensures forall i :: 0 <= i < |contas| ==> contas[i].numero == old(contador.proximo) + i
      ensures contador.proximo == old(contador.proximo) + |contas|
      ensures |contador.emitidos| == old(|contador.emitidos|) + |contas|
              && contador.emitidos[..old(|contador.emitidos|)] == old(contador.emitidos)
      ensures var amanda := PrimeiroClientePorCpf(old(gerenciadorClientes.clientes), "11111111111");
              var eduardo := PrimeiroClientePorCpf(old(gerenciadorClientes.clientes), "22222222222");
              |contas| == (if amanda != null then 1 else 0) + (if eduardo != null then 1 else 0)
              && (amanda != null ==> contas[0].dono == amanda && contas[0].regras == RegrasCorrente(500.0)
                                     && contas[0].saldo == 1000.0)
              && (eduardo != null ==> contas[|contas| - 1].dono == eduardo
                                      && contas[|contas| - 1].regras == RegrasInvestimento(1000.0, 100.0)
                                      && contas[|contas| - 1].saldo == 5000.0)
      ensures forall a :: a in contas ==> fresh(a)
    {
      contas := [];
      var amanda := gerenciadorClientes.BuscarPorCpf("11111111111");
      var eduardo := gerenciadorClientes.BuscarPorCpf("22222222222");
      if amanda != null {
        var conta := new Conta.Corrente(contador, amanda, 1000.0, 500.0);
        contas := contas + [conta];
      }
      if eduardo != null {
        var conta := new Conta.Investimento(contador, eduardo, 5000.0, 1000.0, 100.0);
        contas := contas + [conta];
      }
    }

    /** `adicionar`: appends, with no uniqueness check. */
    method Adicionar(conta: Conta)
      modifies this`contas
      ensures contas == old(contas) + [conta]
    {
      contas := contas + [conta];
    }

    /** `excluirContasDoCliente`: collects the accounts whose owner equals
        `cliente`, then removes them all; every other account stays, in order. */
    method ExcluirContasDoCliente(cliente: Cliente)
      modifies this`contas
      ensures contas == SemContasDe(old(contas), cliente)
    {
      var paraRemover: seq<Conta> := [];
      var i := 0;
      while i < |contas|
        invariant 0 <= i <= |contas|
        invariant forall a :: a in paraRemover <==> a in contas[..i] && a.dono.Equals(cliente)
      {
        assert contas[..i + 1] == contas[..i] + [contas[i]];
        if contas[i].dono.Equals(cliente) {
          paraRemover := paraRemover + [contas[i]];
        }
        i := i + 1;
      }
      assert contas[..i] == contas;
      RemoveTodosDoDono(contas, paraRemover, cliente);
      contas := RemoveTodos(contas, paraRemover);
    }

    /** `buscarContaPorCpfCliente`: the first account whose owner has that CPF, or null. */
    method BuscarContaPorCpfCliente(cpf: string) returns (r: Conta?)
      ensures r == PrimeiraContaPorCpf(contas, cpf)
    {
      var i := 0;
      while i < |contas|
        invariant 0 <= i <= |contas|
        invariant PrimeiraContaPorCpf(contas[i..], cpf) == PrimeiraContaPorCpf(contas, cpf)
      {
        if contas[i].dono.cpf == cpf {
          return contas[i];
        }
        assert contas[i..][1..] == contas[i + 1..];
        i := i + 1;
      }
      return null;
    }

    /** `sacar`: the account's own `saca`. */
    method Sacar(conta: Conta, valor: real) returns (ok: bool)
      modifies conta`saldo
      ensures ok <==> valor > 0.0 && old(conta.saldo) - valor >= Piso(conta.regras)
      ensures conta.saldo == if ok then old(conta.saldo) - valor else old(conta.saldo)
    {
      ok := conta.Saca(valor);
    }

    /** `depositar`: the account's own `deposita`. */
    method Depositar(conta: Conta, valor: real) returns (ok: bool)
      modifies conta`saldo
      ensures ok <==> valor > 0.0
                      && (conta.regras.RegrasInvestimento? ==> valor >= conta.regras.depositoMinimo)
      ensures conta.saldo == if ok then old(conta.saldo) + valor else old(conta.saldo)
    {
      ok := conta.Deposita(valor);
    }

    /** `remunerar`: the account's own `remunera`. */
    method Remunerar(conta: Conta)
      modifies conta`saldo
      ensures conta.regras.RegrasCorrente? ==> conta.saldo == old(conta.saldo) * 1.01
      ensures conta.regras.RegrasInvestimento? ==> conta.saldo == old(conta.saldo) * 1.02
    {
      conta.Remunera();
    }
  }

  class GerenciadorClientes {
    var clientes: seq<Cliente>
    const gerenciadorContas: GerenciadorContas

    /** Seeds three customers, with CPFs 11111111111, 22222222222 and 33333333333. */
    constructor (gerenciadorContas: GerenciadorContas)
      ensures this.gerenciadorContas == gerenciadorContas
      ensures |clientes| == 3 && forall c :: c in clientes ==> fresh(c)
      ensures clientes[0].nome == "Amanda" && clientes[0].sobrenome == "Cristine "
              && clientes[0].rg == "1234567" && clientes[0].cpf == "11111111111"
              && clientes[0].endereco == "Rua A"
      ensures clientes[1].nome == "Eduardo" && clientes[1].sobrenome == "Almeida"
              && clientes[1].rg == "7654321" && clientes[1].cpf == "22222222222"
              && clientes[1].endereco == "Rua B"
      ensures clientes[2].nome == "Guilherme" && clientes[2].sobrenome == "Gemniczak"
              && clientes[2].rg == "9876543" && clientes[2].cpf == "33333333333"
              && clientes[2].endereco == "Rua C"
      ensures CpfsUnicos(clientes)
    {
      this.gerenciadorContas := gerenciadorContas;
      var amanda := new Cliente("Amanda", "Cristine ", "1234567", "11111111111", "Rua A");
      var eduardo := new Cliente("Eduardo", "Almeida", "7654321", "22222222222", "Rua B");
      var guilherme := new Cliente("Guilherme", "Gemniczak", "9876543", "33333333333", "Rua C");
      clientes := [amanda, eduardo, guilherme];
    }

    /** `adicionar`: appends, with no duplicate check. */
    method Adicionar(cliente: Cliente)
      modifies this`clientes
      ensures clientes == old(clientes) + [cliente]
    {
      clientes := clientes + [cliente];
    }

    /** `excluir`: removes the first customer with the same CPF and reports
        whether there was one. */
    method Excluir(cliente: Cliente) returns (ok: bool)
      modifies this`clientes
      ensures ok <==> cliente.cpf in CpfsDe(old(clientes))
      ensures clientes == RemovePrimeiro(old(clientes), cliente)
    {
      ok := PrimeiroClientePorCpf(clientes, cliente.cpf) != null;
      clientes := RemovePrimeiro(clientes, cliente);
    }

    /** `buscarPorCpf`: the first customer with exactly that CPF, or null. */
    method BuscarPorCpf(cpf: string) returns (r: Cliente?)
      ensures r == PrimeiroClientePorCpf(clientes, cpf)
    {
      var i := 0;
      while i < |clientes|
        invariant 0 <= i <= |clientes|
        invariant PrimeiroClientePorCpf(clientes[i..], cpf) == PrimeiroClientePorCpf(clientes, cpf)
      {
        if clientes[i].cpf == cpf {
          return clientes[i];
        }
        assert clientes[i..][1..] == clientes[i + 1..];
        i := i + 1;
      }
      return null;
    }

    /** `buscar`: the customers matching `termo`, in list order. */
    method Buscar(termo: string) returns (r: seq<Cliente>)
      ensures r == Filtra(clientes, termo)
    {
      r := [];
      var i := 0;
      while i < |clientes|
        invariant 0 <= i <= |clientes|
        invariant r == Filtra(clientes[..i], termo)
      {
        assert clientes[..i + 1][..i] == clientes[..i];
        if Corresponde(clientes[i], termo) {
          r := r + [clientes[i]];
        }
        i := i + 1;
      }
      assert clientes[..i] == clientes;
    }

    /** The key `ordenar` sorts a customer by: the first name, the surname, or
        the balance of the customer's first account (0 without one). */
    function ChaveDe(c: Cliente, criterio: Criterio): Chave
      reads c, gerenciadorContas, gerenciadorContas.contas
    {
      match criterio
      case PorNome => Crescente(c.nome)
      case PorSobrenome => Crescente(c.sobrenome)
      case PorSaldo =>
        var conta := PrimeiraContaPorCpf(gerenciadorContas.contas, c.cpf);
        Decrescente(if conta != null then conta.saldo else 0.0)
      case SemCriterio => Crescente([])
    }

    /** The keys of the elements of `lista`, read once before sorting. */
    function Instantaneo(lista: seq<Cliente>, criterio: Criterio): (r: Cliente -> Chave)
      reads lista, gerenciadorContas, gerenciadorContas.contas
      ensures forall c :: c in lista ==> r(c) == ChaveDe(c, criterio)
    {
      var chaves := map c | c in lista :: ChaveDe(c, criterio);
      c => if c in chaves then chaves[c] else Crescente([])
    }

    /** The key order is the order of the comparators `ordenar` hands to
        `Collections.sort`: `compareTo` on first names, `compareTo` on surnames,
        and `Double.compare(saldo2, saldo1)` on the balances `buscarContaPorCpfCliente`
        finds (0 without an account); without a criterion all keys are equivalent. */
    lemma ChaveDeSegueComparador(a: Cliente, b: Cliente, criterio: Criterio)
      ensures criterio == PorNome ==>
                (Antes(ChaveDe(a, criterio), ChaveDe(b, criterio)) <==> a.CompareTo(b) <= 0)
      ensures criterio == PorSobrenome ==>
                (Antes(ChaveDe(a, criterio), ChaveDe(b, criterio)) <==> Compara(a.sobrenome, b.sobrenome) <= 0)
      ensures criterio == PorSaldo ==>
                var contaA := PrimeiraContaPorCpf(gerenciadorContas.contas, a.cpf);
                var contaB := PrimeiraContaPorCpf(gerenciadorContas.contas, b.cpf);
                var saldo1 := if contaA != null then contaA.saldo else 0.0;
                var saldo2 := if contaB != null then contaB.saldo else 0.0;
                (Antes(ChaveDe(a, criterio), ChaveDe(b, criterio)) <==> saldo2 <= saldo1)
      ensures criterio == SemCriterio ==> Equivalentes(ChaveDe(a, criterio), ChaveDe(b, criterio))
    {
    }

    /** `ordenar`: a sorted copy of `lista`, which itself is not changed: by
        first name or surname ascending, or by balance descending; any other
        `campo` gives an unchanged copy. The sort is stable. */
    method Ordenar(campo: string, lista: seq<Cliente>) returns (r: seq<Cliente>)
      ensures CriterioDe(campo) == SemCriterio ==> r == lista
      ensures CriterioDe(campo) != SemCriterio ==> r == Ordena(lista, Instantaneo(lista, CriterioDe(campo)))
      ensures multiset(r) == multiset(lista)
      ensures CriterioDe(campo) != SemCriterio ==>
                forall i, j :: 0 <= i < j < |r| ==>
                  Antes(ChaveDe(r[i], CriterioDe(campo)), ChaveDe(r[j], CriterioDe(campo)))
      ensures forall k :: Classe(r, Instantaneo(lista, CriterioDe(campo)), k)
                          == Classe(lista, Instantaneo(lista, CriterioDe(campo)), k)
    {
      var criterio := CriterioDe(campo);
      var chave := Instantaneo(lista, criterio);
      if criterio == SemCriterio {
        r := lista;
      } else {
        r := Ordena(lista, chave);
        forall i | 0 <= i < |r|
          ensures chave(r[i]) == ChaveDe(r[i], criterio)
        {
          assert r[i] in multiset(lista);
        }
        forall k
          ensures Classe(r, chave, k) == Classe(lista, chave, k)
        {
          OrdenaEstavel(lista, chave, k);
        }
      }
    }
  }
}
