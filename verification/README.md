# SOLID banking examples: a Dafny model of the decision logic

The repository pairs a "violation" and a "solution" of each SOLID principle
over a toy banking domain, written in C#. This project models the pure
decision logic of those examples and proves how each pair differs:

- **Account hierarchy (LSP).** Deposit validation, the `PodeSacar`/`Sacar`
  withdrawal guard of the three account variants, and the
  `ProcessadorTransacao` that only withdraws after the guard passes
  (`LspSolution`). The contrast is the hierarchy whose savings account refuses
  withdrawals before the 30th of the month (`LspViolation`).
- **Discounts (OCP).** One class per customer tier with a fixed rate, plus
  `CalcularValorFinal` (`OcpSolution`), against the string switch that knows
  only three tiers (`OcpViolation`).
- **Payment dispatch (DIP).** A processor that resolves a payment method by
  the first case-insensitive name match in an injected list (`DipSolution`),
  against a processor with a built-in lower-case switch that raises on unknown
  names (`DipViolation`).
- **Capability composition (ISP).** Four account classes, each composing only
  the small interfaces it needs (`IspSolution`), against two classes forced to
  implement the whole fat interface with always-failing stubs (`IspViolation`).
  The ten operations and the four interfaces are declared once, in
  `BankInterfaces`.

Accounts are immutable values and every operation is a pure function. A C#
exception becomes `Err` (module `Outcomes`). A call that does nothing returns
the account unchanged: a refused `ProcessarSaque` is `Saque(c, false)`, and
the ISP investment, loan and savings actions keep the balance. A payment
lookup that finds nothing is `None`. A refused withdrawal carries no account,
so the caller keeps the unchanged balance.
A C# `decimal` is an exact `real`. `string.ToLower()` is an ASCII fold
(module `Text`).

Three facts about the code are worth stating up front:

- The withdrawal guard in the LSP solution is `valor <= Saldo` only, so a
  negative withdrawal passes and raises the balance
  (`LspSolution.NegativeWithdrawalRaisesBalance`).
- The payment processor has no registration operation, no duplicate-name
  check and no unknown-name error. Of two entries with the same name the
  earlier one wins, and an unknown name does nothing.
- The ISP accounts check nothing, so their balance can go negative.

## Model

| member | source | states |
|---|---|---|
| LspSolution.Depositar | SOLID/LSP/Solution/AccountSolution.cs:16-22 | A non-positive amount is rejected with the argument error. A positive amount raises the balance by exactly that amount. Number and variant are kept. |
| LspSolution.PodeSacar | SOLID/LSP/Solution/AccountSolution.cs:32-74 | In all three overrides the guard holds exactly when the amount is at most the balance. The variant plays no part. |
| LspSolution.Sacar | SOLID/LSP/Solution/AccountSolution.cs:37-82 | Fails with insufficient funds exactly when the amount exceeds the balance. Otherwise it subtracts the amount, and the new balance is never negative. Number and variant are kept. |
| LspSolution.ProcessarSaque | SOLID/LSP/Solution/AccountSolution.cs:88-101 | Never raises. It withdraws exactly when the guard holds, with the same result as `Sacar`. Otherwise the account is returned untouched. |
| LspSolution.ProcessarDeposito | SOLID/LSP/Solution/AccountSolution.cs:103-108 | Propagates `Depositar`'s rejection of non-positive amounts. |
| LspSolution.Substitutability | SOLID/LSP/Solution/AccountSolution.cs:29-101 | Any two variants with the same balance agree on the guard, on whether `Sacar` succeeds, on the resulting balance, and on the processor's outcome. |
| LspSolution.NegativeWithdrawalRaisesBalance | SOLID/LSP/Solution/AccountSolution.cs:32-43 | From a non-negative balance, a negative amount passes the guard, and the withdrawal raises the balance. |
| LspSolution.ExecutarKeepsBalanceNonNegative | SOLID/LSP/Solution/AccountSolution.cs:86-108 | Starting from a non-negative balance, any sequence of processor requests that completes leaves a non-negative balance. |
| LspSolution.ExecutarKeepsIdentity | SOLID/LSP/Solution/AccountSolution.cs:12-108 | No sequence of processor requests changes the account's number or its variant. |
| LspSolution.ExecutarSubstitutable | SOLID/LSP/Solution/AccountSolution.cs:86-108 | Accounts of any variants that start with the same balance give the same outcome, final balance and error over any request sequence. |
| LspSolution.Scenario | SOLID/LSP/Solution/AccountSolution.cs:16-43 | From a balance of 1000: withdrawing 500 leaves 500. Then 600 is refused and the balance stays 500. A deposit of -10 is rejected. |
| LspViolation.BaseSacar | SOLID/LSP/Violation/AccountViolation.cs:19-25 | The base class's withdrawal fails exactly when the amount exceeds the balance. Otherwise it subtracts the amount. |
| LspViolation.Depositar | SOLID/LSP/Violation/AccountViolation.cs:27-30 | Adds any amount with no validation, negative amounts included. |
| LspViolation.Sacar | SOLID/LSP/Violation/AccountViolation.cs:37-61 | The current account behaves exactly as the base class. The savings account refuses every amount before day 30 and behaves as the base class from day 30 on. |
| LspViolation.ProcessarSaque | SOLID/LSP/Violation/AccountViolation.cs:67-73 | Calls `Sacar` unchecked, so it fails exactly when `Sacar` fails, with `Sacar`'s own error (the calendar refusal included). On success it subtracts the amount and keeps the number and variant. |
| LspViolation.ProcessarSaqueNotSubstitutable | SOLID/LSP/Violation/AccountViolation.cs:51-73 | A current and a savings account with the same balance, before day 30, with an amount the balance covers: the processor carries out the first withdrawal and hands the savings account's calendar refusal to its caller for the second. |
| LspViolation.PoupancaAcceptsStrictlyFewer | SOLID/LSP/Violation/AccountViolation.cs:51-61 | Every withdrawal the savings account accepts, the base class accepts with the same result. Before day 30 the savings account refuses amounts the base class accepts (a strengthened precondition). |
| LspViolation.CorrenteIsSubstitutable | SOLID/LSP/Violation/AccountViolation.cs:37-43 | The current account's withdrawal equals the base class's on every day. |
| LspViolation.NegativeDepositAccepted | SOLID/LSP/Violation/AccountViolation.cs:27-30 | A negative deposit lowers the balance. The contract-keeping hierarchy rejects the same deposit. |
| LspViolation.BaseAgreesWithSolution | SOLID/LSP/Violation/AccountViolation.cs:19-25 | The base withdrawal here and the contract-keeping `Sacar` accept the same withdrawals and leave the same balance. |
| OcpSolution.Taxa | SOLID/OCP/Solution/DiscountCalculatorSolution.cs:16-53 | The tier rates are 2% (Regular), 5% (Premium), 10% (VIP) and 15% (Empresarial). |
| OcpSolution.CalcularDesconto | SOLID/OCP/Solution/DiscountCalculatorSolution.cs:16-53 | Each tier's discount is the amount times that tier's fixed rate. For a non-negative amount it lies between 0 and 15% of the amount. |
| OcpSolution.CalcularValorFinal | SOLID/OCP/Solution/DiscountCalculatorSolution.cs:59-63 | The final value plus the discount equals the amount. For a non-negative amount the final value lies between 85% of the amount and the amount. |
| OcpSolution.DiscountsOrdered | SOLID/OCP/Solution/DiscountCalculatorSolution.cs:18-52 | For a non-negative amount: Regular ≤ Premium ≤ VIP ≤ Empresarial. |
| OcpSolution.DiscountsAtThousand | SOLID/OCP/Solution/DiscountCalculatorSolution.cs:18-63 | At 1000 the discounts are 20, 50, 100 and 150. The Empresarial final value is 850. |
| OcpSolution.DiscountLinear | SOLID/OCP/Solution/DiscountCalculatorSolution.cs:16-53 | The discount is linear in the amount: the discount on a sum is the sum of the discounts, and scaling the amount scales the discount. |
| OcpViolation.CalcularDesconto | SOLID/OCP/Violation/DiscountCalculatorViolation.cs:12-33 | Total. "Regular", "Premium" and "VIP" give the same discount as the matching tier class. Any other string gives 0. |
| OcpViolation.EmpresarialAndLowerCaseGetNothing | SOLID/OCP/Violation/DiscountCalculatorViolation.cs:15-32 | "Empresarial", "vip" and "regular" give 0, because matching is case-sensitive. For a positive amount the switch gives less than the Empresarial class. |
| OcpViolation.SwitchAgreesOnSharedTiers | SOLID/OCP/Violation/DiscountCalculatorViolation.cs:17-32 | Over all four tier classes: the switch knows a tier's name exactly when it is not Empresarial. On known tiers it agrees with the class. On the unknown one it gives 0. |
| DipSolution.ObterNome | SOLID/DIP/Solution/PaymentProcessorSolution.cs:25-68 | The four methods are named "PayPal", "PicPay", "Cartão de Crédito" and "PIX". |
| DipSolution.Nomes | SOLID/DIP/Solution/PaymentProcessorSolution.cs:86-87 | The name seen at each position of the list is the name of the method stored there. |
| DipSolution.Criar | SOLID/DIP/Solution/PaymentProcessorSolution.cs:78-81 | A null list becomes the empty list. Any other list is kept exactly, duplicates included. |
| DipSolution.Encontrar | SOLID/DIP/Solution/PaymentProcessorSolution.cs:86-87 | Over any list of names: returns the first position whose name matches case-insensitively, with no earlier match. Returns nothing exactly when no position matches. |
| DipSolution.ProcessarPagamento | SOLID/DIP/Solution/PaymentProcessorSolution.cs:83-98 | Invokes the first method in list order whose name matches up to case, with the amount unchanged. Invokes nothing exactly when no name matches. |
| DipSolution.ListarMetodosDisponiveis | SOLID/DIP/Solution/PaymentProcessorSolution.cs:100-107 | Lists exactly the methods' names, in list order. This is the same name list that the lookup reads (`Nomes`). |
| DipSolution.CriarProcessador | SOLID/DIP/Solution/PaymentProcessorSolution.cs:113-125 | The composition root registers four distinct methods, named "PayPal", "PicPay", "Cartão de Crédito" and "PIX", in that order. |
| DipSolution.EncontrarIgnoresCase | SOLID/DIP/Solution/PaymentProcessorSolution.cs:86-87 | Two requested names equal up to case resolve to the same position. |
| DipSolution.ProcessarIgnoresCase | SOLID/DIP/Solution/PaymentProcessorSolution.cs:83-98 | Two requested names equal up to case produce the same invocation. |
| DipSolution.LoweredNameResolvesAlike | SOLID/DIP/Solution/PaymentProcessorSolution.cs:86-87 | Asking with the lower-cased name gives the same invocation as asking with the name itself. |
| DipSolution.EarlierDuplicateWins | SOLID/DIP/Solution/PaymentProcessorSolution.cs:78-92 | With two entries answering to the same name, something is invoked, and it is never the later entry. |
| DipSolution.AppendKeepsResolution | SOLID/DIP/Solution/PaymentProcessorSolution.cs:86-87 | Appending a name to any list of names never changes the position a name already resolved to. |
| DipSolution.AddingMethodKeepsPayments | SOLID/DIP/Solution/PaymentProcessorSolution.cs:83-98 | Appending a method to the injected list never changes the invocation for a name that was already served. |
| DipSolution.RegisteredNamesLowered | SOLID/DIP/Solution/PaymentProcessorSolution.cs:25-68 | The lower-case forms of the four names are "paypal", "picpay", "pix" and "cartão de crédito". |
| DipSolution.ComposedLookups | SOLID/DIP/Solution/PaymentProcessorSolution.cs:113-125 | With the composition root's list: "pix" invokes PIX at position 3, "paypal" PayPal at 0, "picpay" PicPay at 1, and "cartao" invokes nothing. |
| DipViolation.ProcessarPagamento | SOLID/DIP/Violation/PaymentProcessorViolation.cs:56-73 | Succeeds exactly when the lower-cased name is "paypal", "picpay" or "cartao". It then invokes the matching backend, exactly one, with the amount unchanged. Any other name raises the argument error. |
| DipViolation.PixAlwaysRejected | SOLID/DIP/Violation/PaymentProcessorViolation.cs:48-71 | PIX, in any spelling, is always rejected. |
| DipViolation.SwitchLookups | SOLID/DIP/Violation/PaymentProcessorViolation.cs:59-71 | "pix" raises. "cartao", "paypal" and "picpay" charge the card, PayPal and PicPay backends. |
| DipViolation.DiffersFromInjectedList | SOLID/DIP/Violation/PaymentProcessorViolation.cs:59-71 | Against the injected list: "pix" is served there but raises here; "cartao" is served here but finds nothing there; "paypal" and "picpay" are served by both. |
| DipViolation.UnknownNameErrorVersusNoOp | SOLID/DIP/Violation/PaymentProcessorViolation.cs:70-71 | A name neither processor knows raises here, and invokes nothing in the injected design. |
| Text.ToLower | SOLID/DIP/Solution/PaymentProcessorSolution.cs:86-87 | Keeps the length, folds each ASCII capital to lower case, and leaves every other character as it is, so no ASCII capital remains. The same fold serves `metodo.ToLower()` at PaymentProcessorViolation.cs line 59. |
| Text.ToLowerIdempotent | SOLID/DIP/Solution/PaymentProcessorSolution.cs:86-87 | Lower-casing twice is lower-casing once. |
| BankInterfaces.Interface | SOLID/ISP/Solution/BankOperationsSolution.cs:10-37 | Each operation belongs to exactly one small interface: deposit, withdraw and balance query to the basic one; two investments and the yield to investing; loan request and limit to lending; savings yield and anniversary to savings. |
| IspSolution.Capacidades | SOLID/ISP/Solution/BankOperationsSolution.cs:40-108 | `ContaCorrente` has Basic and Lending, `ContaPoupanca` Basic and Savings, `ContaInvestimento` Basic and Investing, and `ContaCompleta` all four. Every class has the basic interface, and only `ContaCompleta` has four. |
| IspSolution.Depositar | SOLID/ISP/Solution/BankOperationsSolution.cs:45 | Unchecked: the balance grows by exactly the amount, whatever its sign. |
| IspSolution.Sacar | SOLID/ISP/Solution/BankOperationsSolution.cs:46 | Unchecked: the balance shrinks by exactly the amount, and goes negative when the amount exceeds it. |
| IspSolution.ConsultarRendimento | SOLID/ISP/Solution/BankOperationsSolution.cs:100 | The yield is a tenth of the balance. It is callable only on the two investing classes. |
| IspSolution.ConsultarLimiteEmprestimo | SOLID/ISP/Solution/BankOperationsSolution.cs:54-124 | The loan limit is 10000 for `ContaCorrente` and 50000 for `ContaCompleta`. It is callable only on those two classes. |
| IspSolution.Executar | SOLID/ISP/Solution/BankOperationsSolution.cs:40-128 | Only operations of an implemented interface can be called. Investment, loan and savings actions never change the balance. The balance query returns the balance unchanged. Exactly the three queries (balance, yield, loan limit) return a value; the `void` operations and the anniversary date return none. |
| IspSolution.DepositThenWithdrawRestores | SOLID/ISP/Solution/BankOperationsSolution.cs:45-46 | A deposit followed by a withdrawal of the same amount restores the account, and so does the reverse order. |
| IspSolution.BasicOperationsUniform | SOLID/ISP/Solution/BankOperationsSolution.cs:40-117 | Every class offers the basic operations, with the same answer for the same balance. |
| IspSolution.SaldoAposIsMovimento | SOLID/ISP/Solution/BankOperationsSolution.cs:40-128 | After any run of permitted calls, the balance is the starting balance plus the deposits minus the withdrawals. |
| IspViolation.Stubs | SOLID/ISP/Violation/BankOperationsViolation.cs:48-113 | Each class has stubs in exactly two interface groups: investment always, and savings (current account) or loans (savings account). Basic operations are never stubs. |
| IspViolation.Executar | SOLID/ISP/Violation/BankOperationsViolation.cs:35-114 | All ten operations can be called on both classes. The stubs always raise. The implemented operations never change the balance except deposit and withdraw, which are unchecked. The current account's loan limit is 10000. A successful call returns a value exactly for the three queries. |
| IspViolation.StubsAreMissingCapabilities | SOLID/ISP/Violation/BankOperationsViolation.cs:35-114 | An operation raises exactly when the segregated class of the same name lacks its interface. Otherwise it answers exactly as the segregated class does. |

## Left out

- Console output is not modelled. A successful payment is the returned
  `Pagamento`/`Cobranca` value. `ProcessarSaque` reports "performed or
  refused" as a flag instead of printing.
- The clock is not read. The LSP violation takes the day of the month as a
  parameter `dia` in 1..31. `ConsultarAniversarioPoupanca` returns
  `DateTime.Now.AddMonths(1)`; its date is not modelled, and the operation
  answers with no value and an unchanged balance.
- `decimal` range, 28-digit precision and rounding are not modelled. Amounts
  are exact reals.
- Case folding is ASCII only. Culture-sensitive and Unicode lower-casing is
  not modelled; accented names such as "Cartão de Crédito" keep their accented
  letters.
- The discount tiers are the four classes of the source. `CalcularValorFinal`
  accepts any subclass of `CalculadoraDesconto` in C#; the model, and with it
  the 85%–100% bound and the tier ordering, covers only those four tiers.
- `null` handling: only the constructor's `null` list is modelled. A `null`
  method name or a `null` entry in the list (a `NullReferenceException` in C#)
  is not modelled.
- The payment method list holds the four methods of the source. Other
  implementations of `IProcessadorPagamento` are not modelled as methods.
  The lookup (`Encontrar`) and its lemmas work on any list of names, so they
  cover every implementation's `ObterNome`.
- Objects and mutation are not modelled: accounts and the payment method
  list are values. A raised exception leaves the caller holding the unchanged
  account. The C# constructor keeps the caller's list by reference, so a caller
  that later adds or removes methods changes what the processor resolves. The
  model copies the list and does not show this aliasing.
- `SOLID/SRP/Solution/AccountManagerSolution.cs` and
  `SOLID/SRP/Violation/AccountManagerViolation.cs` are not part of this model.
  Their email, repository and report methods are empty; their `+=`/`-=` is the
  same arithmetic as the ISP accounts.
- `Program.cs` is a console demo driver and is not part of this model.
