# Sistema Bancário: a verified model of its domain and handler logic

The system is a small desktop banking application. A bank clerk registers
customers (`Cliente`: first name, surname, RG, CPF, address). The clerk links
exactly one account to each customer. The account is either a checking
account (`ContaCorrente`, with an overdraft limit) or an investment account
(`ContaInvestimento`, with a minimum balance and a minimum deposit). The
clerk then withdraws, deposits and pays interest on that account. Two list-backed
registries hold the data: `GerenciadorClientes` and `GerenciadorContas`.
Three screens hold the business rules:

- `TelaClientes`: register, update, delete and search customers.
- `TelaVincularConta`: link an account.
- `TelaOperacoes`: operate on an account.

The repository holds the program twice, and both revisions are modelled:

- **Later revision** (`SistemaBanco/src/banco/...`), modules `ModeloV2`, `NegocioV2` and
  `ApresentacaoV2`:
  - CPFs are stored as 11 digits, and the CPF of a customer cannot change.
  - A checking account takes its initial deposit unchecked.
  - Customers can also be sorted by balance.
- **Earlier revision** (`banco/...`), modules `ModeloV1`, `NegocioV1` and `ApresentacaoV1`:
  - CPFs are stored as typed, and `setCpf` exists.
  - Every account constructor passes its initial deposit through `deposita`.
  - The texts typed into the screens reach the registries uncleaned.

Shared modules:

- `RegrasConta`: the datatype `Regras`, the subclass data of an account (the limit, or the
  two minimums), and `Piso`, the lowest balance a withdrawal may leave.
- `Numeracao`: the account-number counter `PROXIMO_NUMERO`, as explicit state. One
  `GeradorNumeros` is passed to every account constructor.
- `Texto`: the string operations the program relies on: `replaceAll("[^0-9]", "")`,
  `replace`, `contains`, `toLowerCase`, `equalsIgnoreCase` and `String.compareTo`.
- `Ordenacao`: a stable sort by key, the reference for `Collections.sort`.
- `Formularios`: the form fields the handlers read, and the outcomes they end in.
- `Opcional`: `Option`.

The account hierarchy is one class `Conta`:

- `Corrente` and `Investimento` are its two named constructors.
- `regras` holds the subclass data.
- The dispatched methods `Deposita`, `Saca` and `Remunera` match on `regras`.
- `DepositaBase` and `SacaBase` are the superclass versions.

The handlers of the screens become methods over the registries:

- What the user typed is a parameter.
- The message a dialog would show becomes a result value (`Cadastro`, `Exclusao`, `Vinculo`,
  `Operacao`).
- The delete confirmation is a boolean.
- `Double.parseDouble` is an abstract parameter `parse: string -> Option<real>`.
- Money is `real`, so the interest factors 1.01 and 1.02 are exact.

Three cross-structure invariants are stated as predicates, and lemmas show which operations
preserve them:

- `CpfsUnicos`: no two customers share a CPF.
- `UmaContaPorCpf`: at most one account per CPF.
- `DonosCadastrados`: every account's owner is registered.

In the later revision the screen methods carry that preservation in their own contracts.

## Model

| member | source | states |
|---|---|---|
| `Numeracao.GeradorNumeros.constructor` | SistemaBanco/src/banco/modelo/Conta.java:11 | the counter starts at 1000 with nothing handed out |
| `Numeracao.GeradorNumeros.Emite` | SistemaBanco/src/banco/modelo/Conta.java:24 | hands out the current number and steps past it; the numbers handed out are 1000, 1001, … in order, and each new one is larger than every earlier one |
| `Texto.SoDigitos` | SistemaBanco/src/banco/apresentacao/TelaClientes.java:234 | the result has only digits and is no longer than the input |
| `Texto.SoDigitosConcatena` | SistemaBanco/src/banco/apresentacao/TelaClientes.java:306 | cleaning distributes over concatenation |
| `Texto.SoDigitosDeDigitos` | SistemaBanco/src/banco/apresentacao/TelaClientes.java:306 | cleaning a digit string leaves it unchanged (cleaning is idempotent) |
| `Texto.SoDigitosPorCaractere` | SistemaBanco/src/banco/apresentacao/TelaClientes.java:234 | cleaning acts on each character on its own, in input order: a digit stays, anything else vanishes |
| `Texto.OcorrenciasConcatena` | SistemaBanco/src/banco/apresentacao/TelaVincularConta.java:200-206 | occurrence counts add up over concatenation |
| `Texto.RemoveCaractere` | SistemaBanco/src/banco/apresentacao/TelaVincularConta.java:200 | `replace(".", "")`: the character is gone, the length drops by exactly its occurrences, and the digits are kept unless the character is a digit |
| `Texto.TrocaCaractere` | SistemaBanco/src/banco/apresentacao/TelaVincularConta.java:203 | `replace(',', '.')`: same length, each position replaced exactly when it held the old character |
| `Texto.RemoveCaractereConta` | SistemaBanco/src/banco/apresentacao/TelaVincularConta.java:200 | after removal the character occurs 0 times, and every other character as many times as before |
| `Texto.TrocaCaractereConta` | SistemaBanco/src/banco/apresentacao/TelaOperacoes.java:212 | after replacing a by b, b occurs as often as a and b did together, and the digits are unchanged |
| `Texto.SoDigitosEPontos` | SistemaBanco/src/banco/apresentacao/TelaOperacoes.java:212 | `replaceAll("[^0-9.]", "")`: only digits and points remain, every digit and point survives, and the result is no longer than the input |
| `Texto.RecortaInicio` | SistemaBanco/src/banco/apresentacao/TelaOperacoes.java:207 | the leading half of `trim`: a suffix of the input, everything dropped is at most U+0020, and what is left is empty or starts above U+0020 |
| `Texto.RecortaFim` | SistemaBanco/src/banco/apresentacao/TelaOperacoes.java:207 | the trailing half of `trim`: a prefix of the input, everything dropped is at most U+0020, and what is left is empty or ends above U+0020 |
| `Texto.EmBrancoRecorta` | SistemaBanco/src/banco/apresentacao/TelaVincularConta.java:195 | `trim().isEmpty()` holds exactly when every character is at most U+0020, which is how the blank test `EmBranco` is stated |
| `Texto.Contem` | SistemaBanco/src/banco/negocio/GerenciadorClientes.java:82-85 | `contains`: true exactly when the term occurs in the text at some position |
| `Texto.Minusculas` | SistemaBanco/src/banco/negocio/GerenciadorClientes.java:78 | `toLowerCase`: same length, lower-cased character by character |
| `Texto.IgualIgnorandoCaixa` | SistemaBanco/src/banco/negocio/GerenciadorClientes.java:102-110 | `equalsIgnoreCase`: the same length, and equal at every position once lower-cased |
| `Texto.ComparaZero` | SistemaBanco/src/banco/modelo/Cliente.java:51 | `String.compareTo` is 0 exactly for equal strings |
| `Texto.ComparaAntissimetrica` | SistemaBanco/src/banco/modelo/Cliente.java:51 | swapping the arguments of `compareTo` negates the result |
| `Texto.ComparaTransitiva` | SistemaBanco/src/banco/modelo/Cliente.java:51 | `compareTo` is transitive, so the natural order is a total preorder |
| `Texto.ComparaPrefixo` | SistemaBanco/src/banco/modelo/Cliente.java:51 | when one string is a prefix of the other, `compareTo` is the difference of the lengths |
| `Texto.ComparaPrimeiraDiferenca` | SistemaBanco/src/banco/modelo/Cliente.java:51 | otherwise `compareTo` is the difference of the characters at the first position where they differ |
| `Ordenacao.AntesTotal` | SistemaBanco/src/banco/negocio/GerenciadorClientes.java:104-123 | any two sort keys are comparable |
| `Ordenacao.AntesTransitivo` | SistemaBanco/src/banco/negocio/GerenciadorClientes.java:104-123 | the key order is transitive |
| `Ordenacao.OrdenadaCauda` | SistemaBanco/src/banco/negocio/GerenciadorClientes.java:104-123 | the tail of a sorted list is sorted |
| `Ordenacao.Insere` | SistemaBanco/src/banco/negocio/GerenciadorClientes.java:104-123 | inserting adds exactly that element to the multiset |
| `Ordenacao.InsereOrdenada` | SistemaBanco/src/banco/negocio/GerenciadorClientes.java:104-123 | inserting into a sorted list keeps it sorted |
| `Ordenacao.Ordena` | SistemaBanco/src/banco/negocio/GerenciadorClientes.java:104-123 | `Collections.sort`: the result is a permutation of the input and is sorted by the key |
| `Ordenacao.Classe` | SistemaBanco/src/banco/negocio/GerenciadorClientes.java:104-123 | the elements with key equivalent to k, in order (for stability) |
| `Ordenacao.ClasseConcatena` | SistemaBanco/src/banco/negocio/GerenciadorClientes.java:104-123 | an equivalence class of a concatenation is the concatenation of the classes |
| `Ordenacao.ClasseVaziaDepois` | SistemaBanco/src/banco/negocio/GerenciadorClientes.java:104-123 | in a sorted list whose elements all sort strictly after a key, that key's class is empty |
| `Ordenacao.InsereClasseNaFrente` | SistemaBanco/src/banco/negocio/GerenciadorClientes.java:104-123 | in a sorted list whose head sorts strictly after `x`, putting `x` in front appends it to its own class and changes no other class |
| `Ordenacao.InsereClasseDepois` | SistemaBanco/src/banco/negocio/GerenciadorClientes.java:104-123 | when the head may come before `x`, the effect of insertion on the classes is that of insertion into the tail |
| `Ordenacao.InsereClasse` | SistemaBanco/src/banco/negocio/GerenciadorClientes.java:104-123 | insertion appends the new element at the end of its class and leaves the other classes alone |
| `Ordenacao.OrdenaEstavel` | SistemaBanco/src/banco/negocio/GerenciadorClientes.java:104-123 | the sort is stable: every class of equivalent keys keeps its input order |
| `ModeloV2.FormataCpf` | SistemaBanco/src/banco/modelo/Cliente.java:83-92 | a text whose length is not 11 is returned unchanged; 11 characters give 14; 11 digits give the pattern `ddd.ddd.ddd-dd` |
| `ModeloV2.FormataCpfRecupera` | SistemaBanco/src/banco/modelo/Cliente.java:88-91 | stripping non-digits from the display form of an 11-digit CPF gives the CPF back, the round trip the customer screen relies on |
| `ModeloV2.Cliente.constructor` | SistemaBanco/src/banco/modelo/Cliente.java:22-28 | every field holds its argument |
| `ModeloV2.Cliente.SetNome` | SistemaBanco/src/banco/modelo/Cliente.java:37 | changes the first name and nothing else |
| `ModeloV2.Cliente.SetSobrenome` | SistemaBanco/src/banco/modelo/Cliente.java:38 | changes the surname and nothing else |
| `ModeloV2.Cliente.SetRg` | SistemaBanco/src/banco/modelo/Cliente.java:39 | changes the RG and nothing else |
| `ModeloV2.Cliente.SetEndereco` | SistemaBanco/src/banco/modelo/Cliente.java:41 | changes the address and nothing else; the CPF is a `const`, so no method changes it |
| `ModeloV2.Cliente.Equals` | SistemaBanco/src/banco/modelo/Cliente.java:71-76 | two customers are equal exactly when the other is non-null and the CPFs agree, whatever the other fields |
| `ModeloV2.Cliente.CompareTo` | SistemaBanco/src/banco/modelo/Cliente.java:50-52 | 0 exactly when the first names agree, and antisymmetric; only the first names matter |
| `ModeloV2.Cliente.ToString` | SistemaBanco/src/banco/modelo/Cliente.java:60-63 | starts with the first name and a space, has the expected length, and the CPF can be read back from the parenthesised display form |
| `ModeloV2.Conta.Corrente` | SistemaBanco/src/banco/modelo/ContaCorrente.java:18-21 | takes the next number, fixes owner and limit, and the balance is the initial deposit unchecked (negative too) |
| `ModeloV2.Conta.Investimento` | SistemaBanco/src/banco/modelo/ContaInvestimento.java:20-29 | takes the next number, fixes owner and minimums, and the balance is the initial deposit when it is positive and at least the minimum deposit, otherwise 0 |
| `ModeloV2.Conta.DepositaBase` | SistemaBanco/src/banco/modelo/Conta.java:44-53 | true exactly for a positive amount, which is added; otherwise the balance is unchanged |
| `ModeloV2.Conta.SacaBase` | SistemaBanco/src/banco/modelo/Conta.java:63-72 | true exactly for a positive amount; the balance is never touched |
| `ModeloV2.Conta.Deposita` | SistemaBanco/src/banco/modelo/ContaInvestimento.java:50-59 | succeeds exactly for a positive amount that, for an investment account, is at least the minimum deposit; adds it, or leaves the balance unchanged |
| `ModeloV2.Conta.Saca` | SistemaBanco/src/banco/modelo/ContaCorrente.java:38-55 | succeeds exactly for a positive amount leaving at least the floor (inclusive); subtracts exactly the amount, or leaves the balance unchanged; after success the balance respects the floor |
| `ModeloV2.Conta.Remunera` | SistemaBanco/src/banco/modelo/ContaInvestimento.java:89-91 | multiplies the balance by 1.01 (checking) or 1.02 (investment), whatever its sign |
| `ModeloV1.Cliente.constructor` | banco/modelo/Cliente.java:10-16 | every field holds its argument |
| `ModeloV1.Cliente.SetNome` | banco/modelo/Cliente.java:26 | changes the first name and nothing else |
| `ModeloV1.Cliente.SetSobrenome` | banco/modelo/Cliente.java:27 | changes the surname and nothing else |
| `ModeloV1.Cliente.SetRg` | banco/modelo/Cliente.java:28 | changes the RG and nothing else |
| `ModeloV1.Cliente.SetCpf` | banco/modelo/Cliente.java:29 | changes the CPF, and with it the customer's identity, and nothing else |
| `ModeloV1.Cliente.SetEndereco` | banco/modelo/Cliente.java:30 | changes the address and nothing else |
| `ModeloV1.Cliente.Equals` | banco/modelo/Cliente.java:44-49 | equal exactly when the other is non-null and the CPFs agree |
| `ModeloV1.Cliente.CompareTo` | banco/modelo/Cliente.java:33-35 | 0 exactly when the first names agree, and antisymmetric |
| `ModeloV1.Cliente.ToString` | banco/modelo/Cliente.java:38-40 | starts with the first name and a space, and ends with the CPF as stored and `)` |
| `ModeloV1.Conta.Corrente` | banco/modelo/ContaCorrente.java:8-11 | takes the next number; the initial deposit goes through `deposita`, so the balance is the deposit when positive, else 0; the limit is stored afterwards |
| `ModeloV1.Conta.Investimento` | banco/modelo/ContaInvestimento.java:9-17 | takes the next number; the superclass's `deposita(0)` is refused and changes nothing; the balance ends as the deposit when positive and at least the minimum deposit, else 0 |
| `ModeloV1.Conta.DepositaBase` | banco/modelo/Conta.java:29-37 | true exactly for a positive amount, which is added; otherwise the balance is unchanged |
| `ModeloV1.Conta.SacaBase` | banco/modelo/Conta.java:40-47 | true exactly for a positive amount; the balance is never touched |
| `ModeloV1.Conta.Deposita` | banco/modelo/ContaInvestimento.java:23-30 | succeeds exactly for a positive amount that, for an investment account, is at least the minimum deposit; adds it, or leaves the balance unchanged |
| `ModeloV1.Conta.Saca` | banco/modelo/ContaCorrente.java:18-30 | succeeds exactly for a positive amount leaving at least the floor (inclusive); subtracts exactly that amount, or leaves the balance unchanged; after success the balance respects the floor |
| `ModeloV1.Conta.Remunera` | banco/modelo/ContaInvestimento.java:48-51 | multiplies the balance by 1.01 (checking) or 1.02 (investment) |
| `NegocioV2.PrimeiraContaPorCpf` | SistemaBanco/src/banco/negocio/GerenciadorContas.java:85-92 | a found account is in the list with that owner CPF; null exactly when no account has that owner CPF |
| `NegocioV2.PrimeiraContaPorCpfEhPrimeira` | SistemaBanco/src/banco/negocio/GerenciadorContas.java:85-92 | the account found is the first match: any match with none before it is the result |
| `NegocioV2.SemContasDe` | SistemaBanco/src/banco/negocio/GerenciadorContas.java:66-78 | keeps exactly the accounts whose owner has another CPF, never more than there were |
| `NegocioV2.RemoveTodos` | SistemaBanco/src/banco/negocio/GerenciadorContas.java:77 | `removeAll`: keeps exactly the elements not in the removal list |
| `NegocioV2.RemoveTodosDoDono` | SistemaBanco/src/banco/negocio/GerenciadorContas.java:66-78 | removing the accounts collected for a customer is the filter by owner (whose order `SemContasDeConcatena` fixes) |
| `NegocioV2.SemContasDeConcatena` | SistemaBanco/src/banco/negocio/GerenciadorContas.java:66-78 | the filter by owner distributes over concatenation, so the kept accounts stay in their relative order |
| `NegocioV2.AdicionaPreservaUmaConta` | SistemaBanco/src/banco/apresentacao/TelaVincularConta.java:229-243 | appending an account for a CPF with none keeps one account per CPF |
| `NegocioV2.SemContasDePreservaUmaConta` | SistemaBanco/src/banco/negocio/GerenciadorContas.java:66-78 | removing a customer's accounts keeps one account per CPF |
| `NegocioV2.PrimeiroClientePorCpf` | SistemaBanco/src/banco/negocio/GerenciadorClientes.java:62-69 | a found customer is in the list with that CPF; null exactly when the CPF is not registered |
| `NegocioV2.PrimeiroClientePorCpfEhPrimeiro` | SistemaBanco/src/banco/negocio/GerenciadorClientes.java:62-69 | the customer found is the first match |
| `NegocioV2.AdicionaPreservaCpfsUnicos` | SistemaBanco/src/banco/apresentacao/TelaClientes.java:258-263 | appending a customer whose CPF is not registered keeps CPFs unique and adds exactly that CPF |
| `NegocioV2.RemovePrimeiro` | SistemaBanco/src/banco/negocio/GerenciadorClientes.java:53-55 | `List.remove`: an unregistered CPF leaves the list as it is; otherwise exactly one customer goes and nobody new appears |
| `NegocioV2.RemovePrimeiroUnico` | SistemaBanco/src/banco/negocio/GerenciadorClientes.java:53-55 | with unique CPFs, removal keeps them unique and removes exactly that CPF |
| `NegocioV2.RemovePrimeiroMantemOutrosCpfs` | SistemaBanco/src/banco/negocio/GerenciadorClientes.java:53-55 | removal keeps every other CPF |
| `NegocioV2.RemovePrimeiroEhPrimeiro` | SistemaBanco/src/banco/negocio/GerenciadorClientes.java:53-55 | when position `i` holds the first customer with that CPF, removal cuts out exactly position `i` |
| `NegocioV2.ExclusaoPreservaDonos` | SistemaBanco/src/banco/apresentacao/TelaClientes.java:319-324 | deleting a customer's accounts and then the customer leaves no account without a registered owner |
| `NegocioV2.CorrespondeTermo` | SistemaBanco/src/banco/negocio/GerenciadorClientes.java:80-88 | the four `contains` tests of `buscar`; the empty term matches every customer, and any match needs the term to fit in one of the four fields |
| `NegocioV2.Filtra` | SistemaBanco/src/banco/negocio/GerenciadorClientes.java:76-91 | exactly the matching customers (name or surname contains the term ignoring case, or RG or CPF contains it); `FiltraConcatena` fixes their order |
| `NegocioV2.FiltraVazio` | SistemaBanco/src/banco/negocio/GerenciadorClientes.java:82-85 | the empty term matches everybody |
| `NegocioV2.FiltraConcatena` | SistemaBanco/src/banco/negocio/GerenciadorClientes.java:76-91 | the search distributes over concatenation, so the matches stay in list order |
| `NegocioV2.GerenciadorContas.constructor` | SistemaBanco/src/banco/negocio/GerenciadorContas.java:20-22 | starts empty |
| `NegocioV2.GerenciadorContas.InicializarContasDeTeste` | SistemaBanco/src/banco/negocio/GerenciadorContas.java:29-44 | empties the list, then a checking account (1000, limit 500) for CPF 11111111111 and an investment account (5000, 1000, 100) for CPF 22222222222, each only when that customer exists, in that order; the accounts take the next counter numbers in that order, and the counter steps once per account |
| `NegocioV2.GerenciadorContas.Adicionar` | SistemaBanco/src/banco/negocio/GerenciadorContas.java:58-60 | appends exactly one account, no uniqueness check |
| `NegocioV2.GerenciadorContas.ExcluirContasDoCliente` | SistemaBanco/src/banco/negocio/GerenciadorContas.java:66-78 | the list becomes the filter by owner: no account of that customer remains, every other one stays; their relative order is the one `SemContasDeConcatena` proves for the filter |
| `NegocioV2.GerenciadorContas.BuscarContaPorCpfCliente` | SistemaBanco/src/banco/negocio/GerenciadorContas.java:85-92 | returns the first account whose owner has that CPF, or null |
| `NegocioV2.GerenciadorContas.Sacar` | SistemaBanco/src/banco/negocio/GerenciadorContas.java:100-102 | the result and effect of the account's own `saca` |
| `NegocioV2.GerenciadorContas.Depositar` | SistemaBanco/src/banco/negocio/GerenciadorContas.java:110-112 | the result and effect of the account's own `deposita` |
| `NegocioV2.GerenciadorContas.Remunerar` | SistemaBanco/src/banco/negocio/GerenciadorContas.java:118-120 | the effect of the account's own `remunera` |
| `NegocioV2.GerenciadorClientes.constructor` | SistemaBanco/src/banco/negocio/GerenciadorClientes.java:22-30 | three fresh customers (Amanda, Eduardo, Guilherme) with CPFs 11111111111, 22222222222, 33333333333 in that order; CPFs unique |
| `NegocioV2.GerenciadorClientes.Adicionar` | SistemaBanco/src/banco/negocio/GerenciadorClientes.java:44-46 | appends, no duplicate check |
| `NegocioV2.GerenciadorClientes.Excluir` | SistemaBanco/src/banco/negocio/GerenciadorClientes.java:53-55 | true exactly when the CPF was registered; the list becomes `RemovePrimeiro` of the old one (exactly one customer with that CPF goes, or the list stays; `RemovePrimeiroEhPrimeiro` shows it is the first) |
| `NegocioV2.GerenciadorClientes.BuscarPorCpf` | SistemaBanco/src/banco/negocio/GerenciadorClientes.java:62-69 | the first customer with exactly that CPF, or null |
| `NegocioV2.GerenciadorClientes.Buscar` | SistemaBanco/src/banco/negocio/GerenciadorClientes.java:76-91 | exactly the matching customers, as `Filtra` of the list (whose order `FiltraConcatena` fixes) |
| `NegocioV2.CriterioDe` | SistemaBanco/src/banco/negocio/GerenciadorClientes.java:102-110 | the criterion is by first name, by surname or by balance exactly when `campo` equals "nome", "sobrenome" or "salário" ignoring case, and none otherwise |
| `NegocioV2.GerenciadorClientes.Instantaneo` | SistemaBanco/src/banco/negocio/GerenciadorClientes.java:112-122 | every customer of the list gets the key `ChaveDe` gives it at the moment the sort starts |
| `NegocioV2.GerenciadorClientes.ChaveDeSegueComparador` | SistemaBanco/src/banco/negocio/GerenciadorClientes.java:102-123 | the key order of `ChaveDe` is each comparator's order: `Cliente.compareTo` for "nome", `compareTo` on surnames, and `Double.compare(saldo2, saldo1)` on the first-account balances (0 without an account) for "salário" |
| `NegocioV2.GerenciadorClientes.Ordenar` | SistemaBanco/src/banco/negocio/GerenciadorClientes.java:99-126 | a permutation of the input, which is unchanged; "nome"/"sobrenome" ascending and "salário" by first-account balance descending (0 without one), stably; any other field an unchanged copy |
| `NegocioV1.PrimeiraContaPorCpf` | banco/negocio/GerenciadorContas.java:56-63 | a found account is in the list with that owner CPF; null exactly when no account has it |
| `NegocioV1.PrimeiraContaPorCpfEhPrimeira` | banco/negocio/GerenciadorContas.java:56-63 | the account found is the first match |
| `NegocioV1.SemContasDe` | banco/negocio/GerenciadorContas.java:44-53 | keeps exactly the accounts whose owner has another CPF |
| `NegocioV1.RemoveTodos` | banco/negocio/GerenciadorContas.java:52 | `removeAll`: keeps exactly the elements not in the removal list |
| `NegocioV1.RemoveTodosDoDono` | banco/negocio/GerenciadorContas.java:44-53 | removing the collected accounts is the filter by owner (whose order `SemContasDeConcatena` fixes) |
| `NegocioV1.SemContasDeConcatena` | banco/negocio/GerenciadorContas.java:44-53 | the filter by owner distributes over concatenation, so the kept accounts stay in their relative order |
| `NegocioV1.AdicionaPreservaUmaConta` | banco/apresentacao/TelaVincularConta.java:136-147 | appending an account for a CPF with none keeps one account per CPF |
| `NegocioV1.SemContasDePreservaUmaConta` | banco/negocio/GerenciadorContas.java:44-53 | removing a customer's accounts keeps one account per CPF |
| `NegocioV1.PrimeiroClientePorCpf` | banco/negocio/GerenciadorClientes.java:39-46 | a found customer is in the list with that CPF; null exactly when it is not registered |
| `NegocioV1.PrimeiroClientePorCpfEhPrimeiro` | banco/negocio/GerenciadorClientes.java:39-46 | the customer found is the first match |
| `NegocioV1.AdicionaPreservaCpfsUnicos` | banco/apresentacao/TelaClientes.java:198-203 | appending an unregistered CPF keeps CPFs unique and adds exactly that CPF |
| `NegocioV1.RemovePrimeiro` | banco/negocio/GerenciadorClientes.java:32-34 | an unregistered CPF leaves the list; otherwise exactly one customer goes and nobody new appears |
| `NegocioV1.RemovePrimeiroUnico` | banco/negocio/GerenciadorClientes.java:32-34 | with unique CPFs, removal keeps them unique and removes exactly that CPF |
| `NegocioV1.RemovePrimeiroMantemOutrosCpfs` | banco/negocio/GerenciadorClientes.java:32-34 | removal keeps every other CPF |
| `NegocioV1.RemovePrimeiroEhPrimeiro` | banco/negocio/GerenciadorClientes.java:32-34 | when position `i` holds the first customer with that CPF, removal cuts out exactly position `i` |
| `NegocioV1.ExclusaoPreservaDonos` | banco/apresentacao/TelaClientes.java:249-252 | deleting the accounts, then the customer, leaves no account without a registered owner |
| `NegocioV1.CorrespondeTermo` | banco/negocio/GerenciadorClientes.java:56-59 | the four `contains` tests of `buscar`; the empty term matches every customer, and any match needs the term to fit in one of the four fields |
| `NegocioV1.Filtra` | banco/negocio/GerenciadorClientes.java:51-65 | exactly the matching customers, as `Filtra` of the list (whose order `FiltraConcatena` fixes) |
| `NegocioV1.FiltraVazio` | banco/negocio/GerenciadorClientes.java:56-59 | the empty term matches everybody |
| `NegocioV1.FiltraConcatena` | banco/negocio/GerenciadorClientes.java:51-65 | the search distributes over concatenation, so the matches stay in list order |
| `NegocioV1.GerenciadorContas.constructor` | banco/negocio/GerenciadorContas.java:17-32 | a checking account (1000, limit 500) for "111.111.111-11" and an investment account (5000, 1000, 100) for "222.222.222-22", each only when that customer exists, in that order; the accounts take the next counter numbers in that order, and the counter steps once per account |
| `NegocioV1.GerenciadorContas.Adicionar` | banco/negocio/GerenciadorContas.java:39-41 | appends exactly one account |
| `NegocioV1.GerenciadorContas.ExcluirContasDoCliente` | banco/negocio/GerenciadorContas.java:44-53 | the list becomes the filter by owner: no account of that customer remains, every other one stays; their relative order is the one `SemContasDeConcatena` proves for the filter |
| `NegocioV1.GerenciadorContas.BuscarContaPorCpfCliente` | banco/negocio/GerenciadorContas.java:56-63 | the first account with that owner CPF, or null |
| `NegocioV1.GerenciadorContas.Sacar` | banco/negocio/GerenciadorContas.java:66-68 | the account's own `saca` |
| `NegocioV1.GerenciadorContas.Depositar` | banco/negocio/GerenciadorContas.java:70-72 | the account's own `deposita` |
| `NegocioV1.GerenciadorContas.Remunerar` | banco/negocio/GerenciadorContas.java:74-76 | the account's own `remunera` |
| `NegocioV1.GerenciadorClientes.constructor` | banco/negocio/GerenciadorClientes.java:16-22 | three fresh customers (Ana, Bruno, Carlos) with CPFs "111.111.111-11", "222.222.222-22", "333.333.333-33"; CPFs unique |
| `NegocioV1.GerenciadorClientes.Adicionar` | banco/negocio/GerenciadorClientes.java:28-30 | appends, no duplicate check |
| `NegocioV1.GerenciadorClientes.Excluir` | banco/negocio/GerenciadorClientes.java:32-34 | true exactly when the CPF was registered; the list becomes `RemovePrimeiro` of the old one (exactly one customer with that CPF goes, or the list stays; `RemovePrimeiroEhPrimeiro` shows it is the first) |
| `NegocioV1.GerenciadorClientes.BuscarPorCpf` | banco/negocio/GerenciadorClientes.java:39-46 | the first customer with exactly that CPF, or null |
| `NegocioV1.GerenciadorClientes.Buscar` | banco/negocio/GerenciadorClientes.java:51-65 | exactly the matching customers, as `Filtra` of the list (whose order `FiltraConcatena` fixes) |
| `NegocioV1.CriterioDe` | banco/negocio/GerenciadorClientes.java:73-76 | the criterion is by first name or by surname exactly when `campo` equals "nome" or "sobrenome" ignoring case, and none otherwise |
| `NegocioV1.GerenciadorClientes.Instantaneo` | banco/negocio/GerenciadorClientes.java:73-79 | every customer of the list gets the key `ChaveDe` gives it at the moment the sort starts |
| `NegocioV1.GerenciadorClientes.ChaveDeSegueComparador` | banco/negocio/GerenciadorClientes.java:73-79 | the key order of `ChaveDe` is each comparator's order: `Cliente.compareTo` for "nome" and `compareTo` on surnames for "sobrenome" |
| `NegocioV1.GerenciadorClientes.Ordenar` | banco/negocio/GerenciadorClientes.java:70-81 | a permutation of the input, which is unchanged; "nome"/"sobrenome" ascending, stably; any other field an unchanged copy |
| `ApresentacaoV2.ClienteDoFormulario` | SistemaBanco/src/banco/apresentacao/TelaClientes.java:228-248 | rejected exactly when a field or the cleaned CPF is empty; otherwise the same fields with the CPF reduced to its digits |
| `ApresentacaoV2.ClienteDoFormularioIdempotente` | SistemaBanco/src/banco/apresentacao/TelaClientes.java:233-247 | a validated form validates again to itself |
| `ApresentacaoV2.TelaClientes.constructor` | SistemaBanco/src/banco/apresentacao/TelaClientes.java:49-51 | holds the two registries |
| `ApresentacaoV2.TelaClientes.SalvarCliente` | SistemaBanco/src/banco/apresentacao/TelaClientes.java:253-267 | invalid form or registered CPF: nothing added; a valid form whose cleaned CPF is unregistered is always saved, as one new customer with the cleaned CPF at the end; CPF uniqueness and registered owners preserved |
| `ApresentacaoV2.TelaClientes.AtualizarCliente` | SistemaBanco/src/banco/apresentacao/TelaClientes.java:272-293 | with a selection and a valid form, overwrites name, surname, RG and address of that object; otherwise nothing changes; the CPF never does |
| `ApresentacaoV2.TelaClientes.ExcluirCliente` | SistemaBanco/src/banco/apresentacao/TelaClientes.java:298-332 | looks up the cleaned CPF; not found or not confirmed changes nothing; confirmed removes the customer's accounts, then the customer, leaving neither; all three invariants preserved |
| `ApresentacaoV2.TelaClientes.BuscarClientes` | SistemaBanco/src/banco/apresentacao/TelaClientes.java:338-349 | shows the matches; a non-empty term with none resets to the full list and clears the term |
| `ApresentacaoV2.LimpaCampoFormatado` | SistemaBanco/src/banco/apresentacao/TelaVincularConta.java:200-206 | only digits and points remain, the digits are those of the input in order, and there is one point per comma typed |
| `ApresentacaoV2.LimpaCampoPorCaractere` | SistemaBanco/src/banco/apresentacao/TelaVincularConta.java:200-206 | the three passes act on each character on its own, in input order: a dot vanishes, a comma becomes a point, a digit stays, anything else vanishes |
| `ApresentacaoV2.ValorDoCampo` | SistemaBanco/src/banco/apresentacao/TelaVincularConta.java:192-214 | blank, or empty after cleaning, is 0.0; otherwise the parse of the cleaned text |
| `ApresentacaoV2.TelaVincularConta.constructor` | SistemaBanco/src/banco/apresentacao/TelaVincularConta.java:48-50 | holds the two registries |
| `ApresentacaoV2.TelaVincularConta.VincularConta` | SistemaBanco/src/banco/apresentacao/TelaVincularConta.java:217-277 | refuses without a customer or when the customer has an account; a parsed checking account is always added; an investment account is added unless its positive deposit was refused; a parse failure or unknown kind adds nothing; the counter steps exactly when an account object is built (an added account or a refused investment deposit) and is otherwise untouched; one account per CPF and registered owners preserved |
| `ApresentacaoV2.TelaVincularConta.Vincula` | SistemaBanco/src/banco/apresentacao/TelaVincularConta.java:243 | appends one account for an owner without one, keeping one account per CPF and registered owners |
| `ApresentacaoV2.TextoDoValor` | SistemaBanco/src/banco/apresentacao/TelaOperacoes.java:212 | only digits and points remain, the digits are those of the input, and one point per comma or point typed |
| `ApresentacaoV2.TextoDoValorPorCaractere` | SistemaBanco/src/banco/apresentacao/TelaOperacoes.java:212 | the two passes act on each character on its own, in input order: a comma or point becomes a point, a digit stays, anything else vanishes |
| `ApresentacaoV2.ValorOperacao` | SistemaBanco/src/banco/apresentacao/TelaOperacoes.java:204-220 | blank is an error; empty after cleaning is 0.0; otherwise the parse of the cleaned text |
| `ApresentacaoV2.EspacaPalavras` | SistemaBanco/src/banco/apresentacao/TelaOperacoes.java:294 | never shorter than the input and keeps the first character |
| `ApresentacaoV2.NomeDaClasse` | SistemaBanco/src/banco/apresentacao/TelaOperacoes.java:293 | `getSimpleName`: "ContaCorrente" exactly for a checking account, "ContaInvestimento" exactly for an investment account |
| `ApresentacaoV2.EspacaPalavrasSoInsereEspacos` | SistemaBanco/src/banco/apresentacao/TelaOperacoes.java:294 | only spaces are inserted: removing them from the result of a space-free text gives the text back |
| `ApresentacaoV2.EspacaPalavrasConcatena` | SistemaBanco/src/banco/apresentacao/TelaOperacoes.java:294 | spacing a concatenation spaces each part, plus one space where a lower-case letter meets an upper-case one |
| `ApresentacaoV2.EspacaPalavrasSemEmendas` | SistemaBanco/src/banco/apresentacao/TelaOperacoes.java:294 | a text without a lower-then-upper seam is unchanged |
| `ApresentacaoV2.EspacaDuasPalavras` | SistemaBanco/src/banco/apresentacao/TelaOperacoes.java:294 | two seamless words joined at a lower-then-upper seam get exactly one space |
| `ApresentacaoV2.NomeExibidoCorrente` | SistemaBanco/src/banco/apresentacao/TelaOperacoes.java:293-294 | "ContaCorrente" is shown as "Conta Corrente" |
| `ApresentacaoV2.NomeExibidoInvestimento` | SistemaBanco/src/banco/apresentacao/TelaOperacoes.java:293-294 | "ContaInvestimento" is shown as "Conta Investimento" |
| `ApresentacaoV2.TelaOperacoes.constructor` | SistemaBanco/src/banco/apresentacao/TelaOperacoes.java:42-51 | operations start disabled, with no current account |
| `ApresentacaoV2.TelaOperacoes.BuscarConta` | SistemaBanco/src/banco/apresentacao/TelaOperacoes.java:162-197 | fewer than 11 digits, or an unknown customer, disables and keeps the current account; otherwise the current account is the lookup result and operations are enabled exactly when there is one |
| `ApresentacaoV2.TelaOperacoes.RealizarSaque` | SistemaBanco/src/banco/apresentacao/TelaOperacoes.java:225-245 | nothing without an account; an invalid amount changes nothing; otherwise the account's `saca`, reported |
| `ApresentacaoV2.TelaOperacoes.RealizarDeposito` | SistemaBanco/src/banco/apresentacao/TelaOperacoes.java:250-267 | nothing without an account; an invalid amount changes nothing; otherwise the account's `deposita`, reported |
| `ApresentacaoV2.TelaOperacoes.RemunerarConta` | SistemaBanco/src/banco/apresentacao/TelaOperacoes.java:282-305 | nothing without an account; otherwise the interest is paid and reported with the spaced class name, the number and the balances before and after |
| `ApresentacaoV1.ClienteDoFormulario` | banco/apresentacao/TelaClientes.java:179-192 | rejected exactly when first name, surname or CPF is empty (RG and address may be); otherwise the form unchanged |
| `ApresentacaoV1.TelaClientes.constructor` | banco/apresentacao/TelaClientes.java:29-31 | holds the two registries |
| `ApresentacaoV1.TelaClientes.SalvarCliente` | banco/apresentacao/TelaClientes.java:194-207 | invalid form or registered CPF as typed: nothing added; a valid form whose CPF is unregistered is always saved, as one new customer at the end; CPF uniqueness and registered owners preserved |
| `ApresentacaoV1.TelaClientes.AtualizarCliente` | banco/apresentacao/TelaClientes.java:209-233 | the customer found by the CPF cell gets name, surname, RG and address from a valid form; its CPF never changes; CPF uniqueness preserved |
| `ApresentacaoV1.TelaClientes.ExcluirCliente` | banco/apresentacao/TelaClientes.java:235-260 | not found or not confirmed changes nothing; confirmed removes the customer's accounts, then the customer; no account with that CPF remains |
| `ApresentacaoV1.TelaClientes.BuscarClientes` | banco/apresentacao/TelaClientes.java:263-270 | shows the matches as they are, even none; the empty term shows everybody |
| `ApresentacaoV1.TelaVincularConta.constructor` | banco/apresentacao/TelaVincularConta.java:33-35 | holds the two registries |
| `ApresentacaoV1.TelaVincularConta.VincularConta` | banco/apresentacao/TelaVincularConta.java:126-169 | refuses without a customer or when the customer has an account; texts parsed as typed; a checking account is always added (balance the positive deposit, else 0); an investment account unless its positive deposit was refused; any parse failure adds nothing; the counter steps exactly when an account object is built (an added account or a refused investment deposit) and is otherwise untouched |
| `ApresentacaoV1.TelaVincularConta.Vincula` | banco/apresentacao/TelaVincularConta.java:147 | appends one account for an owner without one, keeping one account per CPF and registered owners |
| `ApresentacaoV1.ValorOperacao` | banco/apresentacao/TelaOperacoes.java:113-119 | an empty field is an error; otherwise the parse of the text with commas turned into points |
| `ApresentacaoV1.TextoDaOperacao` | banco/apresentacao/TelaOperacoes.java:114 | the text parsed has no comma, the same length, and one point per comma or point typed |
| `ApresentacaoV1.TelaOperacoes.constructor` | banco/apresentacao/TelaOperacoes.java:22-29 | operations start disabled, with no current account |
| `ApresentacaoV1.TelaOperacoes.BuscarConta` | banco/apresentacao/TelaOperacoes.java:100-111 | the current account always becomes the lookup of the raw text; operations are enabled exactly when it found one |
| `ApresentacaoV1.TelaOperacoes.RealizarSaque` | banco/apresentacao/TelaOperacoes.java:122-134 | nothing without an account; an invalid amount changes nothing; otherwise the account's `saca`, reported |
| `ApresentacaoV1.TelaOperacoes.RealizarDeposito` | banco/apresentacao/TelaOperacoes.java:137-149 | nothing without an account; an invalid amount changes nothing; otherwise the account's `deposita`, reported |
| `ApresentacaoV1.TelaOperacoes.RemunerarConta` | banco/apresentacao/TelaOperacoes.java:160-165 | nothing without an account; otherwise the interest is paid |

## Left out

- Swing: layout, widgets, table models, the mask and number formatters, `TelaPrincipal` and its
  event-thread start-up are not part of this model. The handlers take the texts the widgets would
  hold as parameters.
- Dialogs are left out. A dialog inside a domain method only shows a message, so it is left out
  with no loss of behaviour. A handler's message becomes its result value, and the delete
  confirmation is a boolean input.
- `ModeloTabelaCliente` and the CPF formatting it does through `MaskFormatter` are not part of
  this model. The later revision's delete handler takes the table cell's text and cleans it, and
  `FormataCpfRecupera` states the round trip that cleaning relies on.
- `ContaI` only declares signatures. A trait is not used: one class `Conta` matches on its
  `regras`.
- Money is `real`: IEEE-754 rounding, NaN, infinities and `Double.compare` on -0.0 are not
  modelled.
- `Double.parseDouble` is an abstract partial function `parse`, and its `NumberFormatException`
  is `None`.
- `String.format("%.2f")` and the account `toString` methods are left out, because they are
  display formatting.
- Null strings are not modelled: texts from widgets are never null.
- The length-14 cut at the end of the later CPF field is a formatter concern and is not modelled.
- `Texto.Minusculas` lower-cases only the Latin-1 range, and `Texto.IgualIgnorandoCaixa` compares
  those lower-case forms: full Unicode case mapping and `equalsIgnoreCase`'s upper-case pass are
  not modelled.
- `Texto.Compara` compares Unicode scalar values, where Java compares UTF-16 code units. Both
  agree on the Basic Multilingual Plane.
- `Numeracao.GeradorNumeros.Emite`: the static `int` counter can wrap around after 2^31 - 1000
  accounts; numbers are unbounded integers here.
- `listarTodos`/`listarTodas`, `carregarTabela`, `limparFormulario`, `exibirClienteSelecionado`,
  `carregarClientes` and `verSaldo` only copy data into widgets and are left out.
- `ordenarClientes` only passes the combo box text and the displayed list to `ordenar`, which is
  modelled as `Ordenar`.
- The "no row selected" early returns of the customer screen belong to the table widget. In the
  later revision the selected customer is a `Cliente?` parameter; in both revisions the deletion
  handlers take the CPF text of the selected row.
- `ApresentacaoV1.TelaClientes.ExcluirCliente` does not state in its own contract that it
  preserves CPF uniqueness, one account per CPF and registered owners. Its ensures gives the new
  lists as `SemContasDe` and `RemovePrimeiro` of the old ones, and the preservation follows from
  the lemmas `RemovePrimeiroUnico`, `SemContasDePreservaUmaConta` and `ExclusaoPreservaDonos`
  about those functions.
- `ApresentacaoV1.TelaVincularConta.VincularConta` does not state invariant preservation in its
  own contract either. It adds at most one account through `Vincula`, whose contract keeps one
  account per CPF and registered owners.
- `Numeracao.GeradorNumeros` is one explicit counter object passed to every constructor. That
  all accounts of the program share the same counter is a property of how the model is used, not
  of a static field.
- `NegocioV2.GerenciadorClientes.Ordenar`: for "salário" the source's comparator looks the
  balances up during the sort. The model reads them once before sorting, which is the same
  because sorting changes no balance.
