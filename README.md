# Sistema bancário: a Dafny model of `Banco`

This project models the in-memory bank of `classes/banco.py`: the user
registry (`usuarios`), the account registry (`contas`), and deposits and
withdrawals on an account chosen by its number. Each Python method that
reads from the console becomes a Dafny operation that takes what was typed
as parameters. Each printed message becomes a returned `Resultado`. The
returned value is `Ok` or `Erro(f)`, where `f` names the message.

Layout, one module per file:

- `wrappers.dfy` (`Wrappers`): `Option`, standing in for Python's value-or-`None`.
- `usuario.dfy` (`Usuarios`): `Usuario` is a value with name, birth date,
  CPF and address, since the source never changes a user after creating it.
- `conta.dfy` (`Contas`): `Conta` is a class. Its branch, number and owner are
  `const`. Its `saldo`, `extrato` and `numeroSaques` are `var`, because the bank
  updates them in place. The statement is a sequence of `Deposito(v)` and
  `Saque(v)` lines instead of formatted text.
- `cpf.dfy` (`Cpf`): the CPF format check, both as written and as intended (see Findings).
- `regras.dfy` (`Regras`): the limits (`LIMITE_SAQUES` = 3, `LIMITE_SAQUE_VALOR` = 500,
  branch "0001"), `validar_valor`, the three withdrawal guards, and the
  effect of a deposit and of a withdrawal on an account's state.
- `banco.dfy` (`Banco`): the class `Banco`, holding `usuarios: seq<Usuario>` and
  `contas: seq<Conta>`. Its object invariant `Valid()` says:
  - CPFs are well formed and unique.
  - Accounts are numbered exactly 1..n in creation order.
  - Every account is in branch "0001" and belongs to a registered user.
  - Every account's balance is never negative.
  - Every account has at most 3 withdrawals.
  - Every account's balance and withdrawal counter agree with its statement.

  Every operation keeps `Valid()`.
- `cenarios.dfy` (`Cenarios`): client sessions that derive the expected outcomes
  from the contracts alone. They cover a duplicate CPF, an unknown user, an
  unknown account number, invalid amounts, deposit 100 then withdraw 30 giving
  70 with both lines in order, an over-balance and over-ceiling withdrawal
  reporting the balance error, 600 from 1000 reporting the ceiling, and the
  fourth withdrawal reporting the count cap.

Amounts are `real`. `validar_valor` receives what `float()` made of the text:
`Some(x)`, or `None` when `float()` raised.

## Model

| member | source | states |
|---|---|---|
| `Cpf.CpfValidoCasaPadrao` | classes/banco.py:35 | every CPF the intended check accepts, the check as written accepts too |
| `Cpf.CorrecaoSoAfetaNaoAscii` | classes/banco.py:35 | on printable-ASCII text the check as written and the intended check agree, both ways |
| `Cpf.MesmoNumeroDuasGrafias` | classes/banco.py:35-41 | as written, "12345678901" and the same digits in Arabic-Indic script both pass the format check, are different strings and denote the same CPF number; only the first is eleven ASCII digits |
| `Cpf.CpfValidoDeterminadoPeloNumero` | classes/banco.py:35-41 | two CPFs accepted by the intended check that denote the same number are the same string, so the string comparison of the duplicate check compares CPFs |
| `Contas.ExtratoComMaisUm` | classes/banco.py:90-91 | appending a statement line moves the statement's balance by exactly that line's amount (plus for a deposit, minus for a withdrawal) and its withdrawal count by one only for a withdrawal |
| `Contas.Conta.constructor` | classes/banco.py:65 | a new account has the given branch, number and owner, balance 0, an empty statement and no withdrawals |
| `Regras.ValidarValor` | classes/banco.py:141-151 | yields an amount exactly when the parsed number exists and is strictly positive, and then it is that number; a parse failure and a non-positive number give the same None |
| `Regras.Depositado` | classes/banco.py:88-94 | succeeds exactly when the amount is valid; then the balance rises by the amount, one deposit line is appended and the counter is kept; on failure it reports an invalid amount and the state is unchanged; it keeps an account consistent |
| `Regras.Sacado` | classes/banco.py:100-118 | an invalid amount is reported as such, otherwise exactly the first failing guard is reported; every failure leaves the state unchanged; success lowers the balance by the amount, appends one withdrawal line and increments the counter; it keeps an account consistent (balance never negative, at most 3 withdrawals) |
| `Regras.GuardasEmOrdem` | classes/banco.py:102-111 | insufficient balance is reported exactly when the amount exceeds the balance; the ceiling exactly when the balance suffices and the amount exceeds 500; the count cap exactly when both pass and 3 withdrawals were made; success exactly when none fails |
| `Regras.AplicarOperacoesPreservaConsistencia` | classes/banco.py:84-118 | over any sequence of deposits and withdrawals on an account, the statement only grows and the balance stays non-negative, the counter at most 3, and both agree with the statement |
| `Banco.FiltrarUsuario` | classes/banco.py:50-54 | returns None exactly when no user has the CPF, otherwise the user at the first index whose CPF matches |
| `Banco.Banco.constructor` | classes/banco.py:10-12 | a new bank has no users and no accounts and satisfies the invariant |
| `Banco.Banco.CriarUsuario` | classes/banco.py:30-48 | a malformed CPF is refused first, then a CPF already registered; each refusal leaves the users unchanged; otherwise exactly one user with the given data is appended; accounts never change and CPFs stay unique |
| `Banco.Banco.CriarConta` | classes/banco.py:56-69 | an unknown CPF reports user-not-found and leaves the accounts unchanged; otherwise one fresh account numbered previous count + 1, in branch "0001", owned by the first user with that CPF, with balance 0, empty statement and no withdrawals is appended after the old ones; users never change |
| `Banco.Banco.SelecionarConta` | classes/banco.py:129-138 | returns null exactly when no account has the number, otherwise the first account with it; in a valid bank it finds one exactly for 1 <= number <= n, and it is account number-1 in creation order |
| `Banco.Banco.Depositar` | classes/banco.py:84-94 | the result and the account's new state are those of `Depositado` on its old state; no other account and neither registry changes; the bank invariant is kept |
| `Banco.Banco.Sacar` | classes/banco.py:96-118 | the result and the account's new state are those of `Sacado` on its old state; no other account and neither registry changes; the bank invariant is kept |
| `Banco.Banco.AcaoDepositar` | classes/banco.py:172-178 | an unknown account number reports account-not-found and changes nothing; otherwise the selected account moves as `Depositado` says and every other account is unchanged |
| `Banco.Banco.AcaoSacar` | classes/banco.py:180-186 | an unknown account number reports account-not-found and changes nothing; otherwise the selected account moves as `Sacado` says and every other account is unchanged |

## Left out

- Console I/O: `menu`, the `input()` prompts and every `print` are not modelled. Typed values are parameters and messages are `Resultado` values.
- `listar_contas`, `exibir_extrato` and `acao_extrato` only format and print registry contents, so they are not modelled. Neither is the `:.2f` rendering of statement lines.
- `executar`, `sair` and `acao_invalida` are not modelled. They are the interactive dispatch loop, process exit and the unknown-command message. `Regras.AplicarOperacoes` covers only the effect of a sequence of deposits and withdrawals on one account.
- `float()` parsing in `validar_valor` and float arithmetic on `saldo` are not modelled. Amounts are exact reals, so rounding is absent. The special floats are absent too: `float("inf")` passes the `> 0` test in the source and `float("nan")` fails it.
- The crash of `int(input())` on non-numeric text in `selecionar_conta` is not modelled. The account number is an `int` parameter.
- `classes/usuario.py` and `classes/conta.py` are not part of this model. `Usuario` and `Conta` carry only the fields `banco.py` uses. The `Conta` constructor's defaults (balance 0, empty statement, no withdrawals) come from how the bank uses accounts. The truthiness tests `if self.filtrar_usuario(cpf)` and `if conta:` are read as "is not None".
- `Cpf.DigitoUnicode` models Python's `\d` with three blocks of Unicode decimal digits: ASCII, Arabic-Indic and Extended Arabic-Indic. Python accepts every character of category Nd.

## Findings

| source | as written | input that shows it | evidently intended | confidence | as-written member | corrected member |
|---|---|---|---|---|---|---|
| classes/banco.py:35 | `re.match(r"^\d{11}$", cpf)` on a `str` accepts any Unicode decimal digit, and `$` also lets a final newline through | "١٢٣٤٥٦٧٨٩٠١" (Arabic-Indic digits) is accepted. It differs from "12345678901", so the same CPF number can be registered twice | a CPF is exactly eleven ASCII digits, and a registered number appears once | high; not executed | `Cpf.MesmoNumeroDuasGrafias` | `Cpf.CpfValidoDeterminadoPeloNumero` |

The bank model uses the intended check, `Cpf.CpfValido`, in `Banco.Banco.CriarUsuario` and in `Banco.Banco.Valid`.
The trailing-newline case cannot come from `input()`, which strips the newline. The non-ASCII digits can.
