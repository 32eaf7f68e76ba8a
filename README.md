# Lojas DAORA — a verified model of the store's screens

Lojas DAORA is a React front end for a small shop with three roles.

- **Cashier.** Opens and closes the register, takes withdrawals (*sangria*) and sells from a cart. Payment is Pix, cash, card or store credit (*crediário*).
- **Store admin.** Watches revenue and overdue credit instalments, manages the product list, and writes promotion texts.
- **Super admin.** Manages users and the messaging connections.

There is no back end. A shared in-memory store (`DataContext`) holds the products, customers, sales, credit payments and the register. Every page keeps its own state and updates it in event handlers.

This project restates that behaviour in Dafny and proves properties of it. The model follows the source's own structure:

- The store, the login context and every stateful page are classes. Each handler is a method with a `modifies` clause, and its `ensures` gives the whole new state.
- The computations the handlers rely on are functions with lemmas beside them. These cover cart updates, totals, filters, the sale verdict, credit instalments, text generation and status counts.

| module | file | models |
|---|---|---|
| `Seqs` | seqs.dfy | `filter`, `findIndex`, `includes`-toggle, `slice`, `reverse` as used by the pages |
| `Text` | text.dfy | `toLowerCase`, `includes`, `trim`, `toFixed(2)`, `join`, number-to-text |
| `DataContext` | data_context.dfy | the shared store (`DataProvider`) |
| `AuthContext` | auth_context.dfy | the login stub (`AuthProvider`) |
| `Cart` | cart.dfy | the cart shared by both point-of-sale screens |
| `PdvPage` | pdv_page.dfy | `PDVPage`: sale with credit check, register buttons |
| `VendasPdv` | vendas_pdv.dfy | `Caixa/VendasPDV`: the second sale screen with its own register |
| `VendasPage` | vendas_page.dfy | `Caixa/VendasPage`: stock-limited cart and crediário instalments |
| `CaixaDashboard` | caixa_dashboard.dfy | `Caixa/CaixaDashboard`: register panel |
| `SalesSummary` | sales_summary.dfy | `CaixaDashboard` (summary): count, revenue, average ticket, recent sales |
| `AdminDashboard` | admin_dashboard.dfy | `AdminDashboard`: revenue, overdue count, credit table |
| `ProdutosPage` | produtos_page.dfy | `Admin/ProdutosPage`: categories, search, delete |
| `AdminMarketingPage` | admin_marketing_page.dfy | `Admin/MarketingPage`: selection, generated text, send |
| `MarketingPage` | marketing_page.dfy | `MarketingPage`: selection, discount, generated text, send |
| `SuperAdminDashboard` | super_admin_dashboard.dfy | `SuperAdmin/SuperAdminDashboard`: users |
| `ConexoesPage` | conexoes_page.dfy | `SuperAdmin/ConexoesPage`: connections, reconnect, status styles |

Money is modelled as `real`, so sums are exact. Events that arrive from outside are parameters of the methods:

- a text field parsed as a number is an `Option<real>`, with `None` for NaN;
- a `confirm()` answer is a `bool`;
- a generated sale id, customer id or date is a value passed in.

A `setTimeout` continuation becomes a second method. It receives the state that the first step's closure captured.

## Model

| member | source | states |
|---|---|---|
| Seqs.Toggle | src/pages/Admin/MarketingPage.tsx:51-57 | an id is in the new selection exactly when it was not in the old one; other ids are kept and none are added |
| Seqs.ToggleTwice | src/pages/MarketingPage.tsx:12-18 | toggling an unselected id on and off gives back the original selection |
| Seqs.ToggleNoDup | src/pages/MarketingPage.tsx:12-18 | toggling never creates a duplicate id in the selection |
| Seqs.FindIndex | src/pages/PDVPage.tsx:90 | `findIndex` gives the first element that satisfies the test, or none when no element does |
| Seqs.Filter | src/pages/AdminDashboard.tsx:34 | `filter` keeps exactly the elements that satisfy the test and is no longer than its input |
| Seqs.FilterComplement | src/pages/AdminDashboard.tsx:34 | filtering by a test and by its negation splits the list, so the two lengths sum to the whole |
| Seqs.LastN | src/pages/CaixaDashboard.tsx:109 | `slice(-n)` gives the last min(n, length) elements, in order |
| Seqs.ReverseAt | src/pages/CaixaDashboard.tsx:109 | `reverse` puts element length-1-k at position k |
| Seqs.ExcludeKey | src/pages/Admin/ProdutosPage.tsx:61-66 | deleting by id removes every record with that id and keeps the others in order; the product list and the user list both delete this way |
| Seqs.ExcludeKeyAbsent | src/pages/SuperAdmin/SuperAdminDashboard.tsx:67-72 | deleting an id that no record has changes nothing |
| Seqs.SubseqSnoc | src/pages/Admin/ProdutosPage.tsx:53 | appending the same element to a sequence and to a subsequence of it keeps the subsequence |
| Seqs.Dedupe | src/pages/Admin/ProdutosPage.tsx:53 | `Array.from(new Set(...))` keeps each element once and nothing else, as a subsequence of the input, so input order is kept |
| Text.TrimEmptyIffBlank | src/pages/Admin/MarketingPage.tsx:97 | `trim()` is empty exactly when the text is all JavaScript whitespace |
| Text.Lower | src/pages/Admin/ProdutosPage.tsx:56 | `toLowerCase` maps character by character and keeps the length |
| Text.NatToStringRoundTrip | src/pages/PDVPage.tsx:105 | a number printed as decimal text reads back as the same number |
| Text.NatToStringInjective | src/pages/PDVPage.tsx:105 | distinct numbers print as distinct texts |
| Text.ToFixed2 | src/pages/Admin/MarketingPage.tsx:71 | a price printed with two decimals is non-empty and holds no line break |
| Text.JoinSeparators | src/pages/Admin/MarketingPage.tsx:72 | joining n parts that contain no newline with "\n" gives exactly n-1 newlines |
| DataContext.RevenueAppend | src/pages/CaixaDashboard.tsx:9 | revenue of two sale lists together is the sum of their revenues |
| DataContext.RevenueNonNegative | src/pages/AdminDashboard.tsx:32 | sales with non-negative totals give non-negative revenue |
| DataContext.DataStore.constructor | src/contexts/DataContext.tsx:118-128 | no sales, and the register starts closed with both amounts 0 |
| DataContext.DataStore.AddSale | src/contexts/DataContext.tsx:130-143 | the sale is appended with its new id and date; the register's current amount grows by the sale total, so revenue minus cash held is unchanged |
| DataContext.DataStore.AddCustomer | src/contexts/DataContext.tsx:145-151 | the customer is appended with its new id, and nothing else changes |
| DataContext.DataStore.AddCreditPayment | src/contexts/DataContext.tsx:153-159 | the payment is appended with its new id, and nothing else changes |
| DataContext.DataStore.OpenCash | src/contexts/DataContext.tsx:161-167 | the register opens with opening and current amount both equal to the amount |
| DataContext.DataStore.CloseCash | src/contexts/DataContext.tsx:169-175 | the register closes and both amounts become 0 |
| DataContext.DataStore.MakeCashWithdrawal | src/contexts/DataContext.tsx:177-182 | the current amount drops by the amount; the open flag and opening amount are unchanged |
| AuthContext.UserFor | src/contexts/AuthContext.tsx:24-31 | each role logs in as a fixed user of that role with id "1", "2" or "3" |
| AuthContext.UserIdsDistinct | src/contexts/AuthContext.tsx:24-31 | different roles give different user ids |
| AuthContext.Auth.constructor | src/contexts/AuthContext.tsx:22 | no user, so not authenticated |
| AuthContext.Auth.Login | src/contexts/AuthContext.tsx:24-31 | the user becomes the role's fixed user and is authenticated |
| AuthContext.Auth.Logout | src/contexts/AuthContext.tsx:33-35 | the user is cleared and is not authenticated |
| Cart.AddToCart | src/pages/PDVPage.tsx:32-50 | a product already in the cart gains one unit and nothing else changes; a new product is appended with quantity 1 |
| Cart.AddToCartValid | src/pages/PDVPage.tsx:32-50 | adding keeps product ids unique and quantities positive |
| Cart.TotalAddToCart | src/pages/PDVPage.tsx:62 | adding raises the total by the unit price of the line that grew, or by the new product's price |
| Cart.UpdateQuantity | src/pages/PDVPage.tsx:52-60 | a quantity of 0 or less removes the product and keeps the other lines in order; a positive quantity sets that line only |
| Cart.UpdateQuantityValid | src/pages/PDVPage.tsx:52-60 | updating keeps product ids unique and quantities positive |
| Cart.TotalUpdateQuantity | src/pages/PDVPage.tsx:62 | updating a line changes the total by exactly that line's change in subtotal |
| Cart.UpdateAbsent | src/pages/PDVPage.tsx:52-60 | updating a product that is not in the cart leaves the cart as it was |
| Cart.TotalAppend | src/pages/PDVPage.tsx:62 | the total of two carts together is the sum of their totals |
| Cart.TotalNonNegative | src/pages/PDVPage.tsx:62 | non-negative prices and quantities give a non-negative total |
| PdvPage.Verdict | src/pages/PDVPage.tsx:71-113 | the outcome of a sale in guard order, each as an if-and-only-if: register closed, empty cart, crediário without a name, over the first phone match's limit, sold without a customer, sold to an existing customer within the limit, sold to a new customer |
| PdvPage.CashierId | src/pages/PDVPage.tsx:118 | the logged-in user's id when present and non-empty, otherwise "1"; never empty |
| PdvPage.CustomerRef | src/pages/PDVPage.tsx:105 | no customer outside crediário, the matched customer's id, and for a new customer the customer count read before the addition, as text |
| PdvPage.NewCustomerRefNamesNoCustomer | src/pages/PDVPage.tsx:98-106 | when customer ids contain a hyphen, as UUIDs do, the id written for a new crediário customer matches no customer, including the one just added |
| PdvPage.Page.constructor | src/pages/PDVPage.tsx:23-28 | empty cart, cash selected, empty customer form |
| PdvPage.Page.AddToCart | src/pages/PDVPage.tsx:32-50 | the cart becomes the added-to cart, stays valid, and its total rises by the unit price |
| PdvPage.Page.UpdateQuantity | src/pages/PDVPage.tsx:52-60 | the cart becomes the updated cart and stays valid |
| PdvPage.Page.SetPaymentMethod | src/pages/PDVPage.tsx:64-69 | only the payment method changes |
| PdvPage.Page.SetCustomerData | src/pages/PDVPage.tsx:28 | only the customer form changes |
| PdvPage.Page.HandleSale | src/pages/PDVPage.tsx:71-125 | the result is `Verdict` of the old state. A refusal changes nothing. A sale appends one record with the cart total, the lines and the cashier, adds the total to the register, and clears the cart and form. Only a new crediário customer is added, with limit 1000 and the total as debt |
| PdvPage.Page.HandleOpenCash | src/pages/PDVPage.tsx:127-137 | opens the register exactly when the amount is a number of at least 0 |
| PdvPage.Page.HandleCloseCash | src/pages/PDVPage.tsx:139-142 | closes the register and zeroes it, touching nothing else |
| PdvPage.Page.HandleWithdrawal | src/pages/PDVPage.tsx:144-158 | withdraws exactly when 0 < amount ≤ cash held, so the register never goes negative |
| VendasPage.CatalogoIsValid | src/pages/Caixa/VendasPage.tsx:30-63 | the fixed catalogue has unique ids and no negative stock |
| VendasPage.Adicionar | src/pages/Caixa/VendasPage.tsx:72-87 | a new product is appended with quantity 1. A product in the cart gains one unit unless its stock is reached, which is refused (`None`) |
| VendasPage.Remover | src/pages/Caixa/VendasPage.tsx:89-91 | removes every line of that product and keeps the others in order |
| VendasPage.Alterar | src/pages/Caixa/VendasPage.tsx:93-110 | a quantity of 0 or less removes the line. A quantity above the catalogue stock is refused. Otherwise only that line's quantity is set |
| VendasPage.AdicionarValido | src/pages/Caixa/VendasPage.tsx:72-87 | adding keeps ids unique and every quantity between 1 and its stock |
| VendasPage.RemoverValido | src/pages/Caixa/VendasPage.tsx:89-91 | removing keeps the cart valid |
| VendasPage.AlterarValido | src/pages/Caixa/VendasPage.tsx:93-110 | changing a quantity keeps the cart valid |
| VendasPage.CalcularTotalAdicionar | src/pages/Caixa/VendasPage.tsx:112-114 | an accepted addition raises the total by exactly the product's price |
| VendasPage.CalcularTotalIsCartTotal | src/pages/Caixa/VendasPage.tsx:112-114 | this page's total equals the shared cart total of the same lines |
| VendasPage.AdicionarAgrees | src/pages/Caixa/VendasPage.tsx:72-87 | an accepted addition acts on the lines as the shared cart's add does |
| VendasPage.AlterarAgrees | src/pages/Caixa/VendasPage.tsx:93-110 | an accepted change acts on the lines as the shared cart's update does |
| VendasPage.DecidirCrediario | src/pages/Caixa/VendasPage.tsx:138-157 | incomplete client data is refused, and so is a financed part above the client's limit. When approved, down payment plus instalment × count equals the total |
| VendasPage.Pagina.constructor | src/pages/Caixa/VendasPage.tsx:30-70 | the catalogue, an empty cart, no payment method, an empty client, 1 instalment, no down payment |
| VendasPage.Pagina.AdicionarAoCarrinho | src/pages/Caixa/VendasPage.tsx:72-87 | accepted exactly when `Adicionar` accepts; the cart stays valid and the total rises by the price |
| VendasPage.Pagina.RemoverDoCarrinho | src/pages/Caixa/VendasPage.tsx:89-91 | the cart becomes `Remover` of the old cart |
| VendasPage.Pagina.AlterarQuantidade | src/pages/Caixa/VendasPage.tsx:93-110 | accepted exactly when `Alterar` accepts; a refusal leaves the cart as it was |
| VendasPage.Pagina.SetFormaPagamento | src/pages/Caixa/VendasPage.tsx:66 | only the payment method changes |
| VendasPage.Pagina.SetCliente | src/pages/Caixa/VendasPage.tsx:68 | only the client changes |
| VendasPage.Pagina.SetParcelas | src/pages/Caixa/VendasPage.tsx:375-380 | the instalment count becomes one of the offered options |
| VendasPage.Pagina.SetValorEntrada | src/pages/Caixa/VendasPage.tsx:364 | only the down payment changes |
| VendasPage.Pagina.FinalizarVenda | src/pages/Caixa/VendasPage.tsx:116-136 | empty cart, then no payment method, are refused; crediário opens the client form; otherwise the sale completes with the cart total and resets cart and method |
| VendasPage.Pagina.FinalizarCrediario | src/pages/Caixa/VendasPage.tsx:138-166 | the result is `DecidirCrediario` of the old state; approval clears the cart, client and form, and a refusal keeps them |
| VendasPdv.Screen.constructor | src/pages/Caixa/VendasPDV.tsx:37-45 | empty cart, Pix selected, register closed with both amounts 0 |
| VendasPdv.Screen.AddToCart | src/pages/Caixa/VendasPDV.tsx:47-59 | the cart becomes the shared cart's add, stays valid, and its total rises by the unit price |
| VendasPdv.Screen.UpdateQuantity | src/pages/Caixa/VendasPDV.tsx:61-71 | the cart becomes the shared cart's update and stays valid |
| VendasPdv.Screen.SetPaymentMethod | src/pages/Caixa/VendasPDV.tsx:38 | only the payment method changes |
| VendasPdv.Screen.FinalizeSale | src/pages/Caixa/VendasPDV.tsx:75-99 | closed register, then empty cart, are refused; crediário opens the client form; otherwise the cart total goes into the register and the cart empties |
| VendasPdv.Screen.HandleCaixaAction | src/pages/Caixa/VendasPDV.tsx:101-134 | opening needs an amount; closing always zeroes; a withdrawal needs an amount no larger than the cash held, so the register stays non-negative; the dialog closes |
| VendasPdv.Screen.ApproveCreditSale | src/pages/Caixa/VendasPDV.tsx:406-414 | the cart total goes into the register, the cart empties and the form closes, with no check |
| CaixaDashboard.Panel.constructor | src/pages/Caixa/CaixaDashboard.tsx:10-16 | closed register, empty fields, no dialog |
| CaixaDashboard.Panel.SetValorAbertura | src/pages/Caixa/CaixaDashboard.tsx:11 | only the opening amount text changes |
| CaixaDashboard.Panel.SetSangria | src/pages/Caixa/CaixaDashboard.tsx:15-16 | only the withdrawal amount and reason change |
| CaixaDashboard.Panel.HandleAbrirCaixa | src/pages/Caixa/CaixaDashboard.tsx:18-26 | opens and closes the dialog exactly when an amount was typed |
| CaixaDashboard.Panel.HandleFecharCaixa | src/pages/Caixa/CaixaDashboard.tsx:28-32 | the register is closed and its dialog hidden |
| CaixaDashboard.Panel.HandleSangria | src/pages/Caixa/CaixaDashboard.tsx:34-43 | accepted exactly when amount and reason are both filled; acceptance clears them and hides the dialog |
| SalesSummary.AverageTicket | src/pages/CaixaDashboard.tsx:10 | 0 with no sales, otherwise average × count equals revenue |
| SalesSummary.AverageTicketBounds | src/pages/CaixaDashboard.tsx:10 | with non-negative totals the average lies between 0 and the revenue |
| SalesSummary.RecentSales | src/pages/CaixaDashboard.tsx:109 | at most the last five sales |
| SalesSummary.RecentSalesNewestFirst | src/pages/CaixaDashboard.tsx:109 | position k of the recent list is the k-th newest sale |
| AdminDashboard.CountVencido | src/pages/AdminDashboard.tsx:34 | counting overdue records one by one gives at most the number of payments, and 0 exactly when none is overdue |
| AdminDashboard.FilterCountsVencido | src/pages/AdminDashboard.tsx:34 | the list of overdue payments is exactly as long as the record-by-record count of overdue payments |
| AdminDashboard.OverduePayments | src/pages/AdminDashboard.tsx:34 | the number of overdue payments, as `CountVencido` counts them; so at most the number of payments, and 0 exactly when none is overdue |
| AdminDashboard.OverduePartition | src/pages/AdminDashboard.tsx:34 | overdue plus not-overdue payments make up all payments |
| AdminDashboard.Row | src/pages/AdminDashboard.tsx:145-152 | future value is total minus paid; overdue value is that only for overdue payments; the name is the first customer with the payment's id when that name is non-empty, and "Cliente não encontrado" when no customer has the id or the name is empty |
| AdminDashboard.PaymentRows | src/pages/AdminDashboard.tsx:144 | the first eight payments, each turned into its row |
| ProdutosPage.Categorias | src/pages/Admin/ProdutosPage.tsx:53 | each category of the products appears exactly once and nothing else does, as a subsequence of the products' categories in list order |
| ProdutosPage.ProdutosFiltrados | src/pages/Admin/ProdutosPage.tsx:55-59 | keeps, in order, exactly the products whose lower-cased name contains the lower-cased search and whose category matches a non-empty filter |
| ProdutosPage.SemFiltroMostraTudo | src/pages/Admin/ProdutosPage.tsx:55-59 | an empty search and no category show every product |
| ProdutosPage.Page.constructor | src/pages/Admin/ProdutosPage.tsx:18-49 | the three initial products, no search, no category filter |
| ProdutosPage.Page.SetBusca | src/pages/Admin/ProdutosPage.tsx:49 | only the search changes |
| ProdutosPage.Page.SetFiltroCategoria | src/pages/Admin/ProdutosPage.tsx:48 | only the category filter changes |
| ProdutosPage.Page.ExcluirProduto | src/pages/Admin/ProdutosPage.tsx:61-66 | when confirmed, the list becomes `ExcludeKey` of the old list by product id; otherwise it is unchanged |
| AdminMarketingPage.Escolhidos | src/pages/Admin/MarketingPage.tsx:69-70 | the selected products, in catalogue order |
| AdminMarketingPage.UmaLinhaPorProduto | src/pages/Admin/MarketingPage.tsx:69-72 | the product text has one line per selected product |
| AdminMarketingPage.OrdemDoCatalogo | src/pages/Admin/MarketingPage.tsx:69-72 | the text depends only on which products are selected, not on the order they were clicked |
| AdminMarketingPage.TextoGeradoEnviavel | src/pages/Admin/MarketingPage.tsx:74-89 | the generated text is never blank, so it can always be sent |
| AdminMarketingPage.Page.constructor | src/pages/Admin/MarketingPage.tsx:47-49 | nothing selected, no text, not generating |
| AdminMarketingPage.Page.ToggleProduto | src/pages/Admin/MarketingPage.tsx:51-57 | the selection becomes its toggle and stays free of duplicates |
| AdminMarketingPage.Page.SetTexto | src/pages/Admin/MarketingPage.tsx:48 | only the text changes |
| AdminMarketingPage.Page.GerarTextoComIA | src/pages/Admin/MarketingPage.tsx:59-68 | refused with nothing selected; otherwise generation starts and the selection is captured for the deferred step |
| AdminMarketingPage.Page.ConcluirGeracao | src/pages/Admin/MarketingPage.tsx:68-93 | the text becomes the template over the captured selection, is not blank, and generation ends |
| AdminMarketingPage.Page.EnviarPromocao | src/pages/Admin/MarketingPage.tsx:96-101 | sending goes ahead exactly when the trimmed text is non-empty |
| AdminMarketingPage.Page.ConcluirEnvio | src/pages/Admin/MarketingPage.tsx:102-107 | after sending, the selection and the text are cleared |
| MarketingPage.SelectedProducts | src/pages/MarketingPage.tsx:21 | the selected products, in catalogue order |
| MarketingPage.DiscountText | src/pages/MarketingPage.tsx:28 | empty exactly when no discount was typed; otherwise " com d% de desconto" |
| MarketingPage.AiTextIgnoresSelectionOrder | src/pages/MarketingPage.tsx:20-40 | the text depends only on which products are selected |
| MarketingPage.AiTextSendable | src/pages/MarketingPage.tsx:30-40 | the generated text is never blank |
| MarketingPage.Page.constructor | src/pages/MarketingPage.tsx:8-10 | nothing selected, no text, no discount |
| MarketingPage.Page.ToggleProductSelection | src/pages/MarketingPage.tsx:12-18 | the selection becomes its toggle and stays free of duplicates |
| MarketingPage.Page.SetDiscount | src/pages/MarketingPage.tsx:10 | only the discount changes |
| MarketingPage.Page.SetPromotionText | src/pages/MarketingPage.tsx:9 | only the text changes |
| MarketingPage.Page.GenerateAIText | src/pages/MarketingPage.tsx:20-44 | refused exactly when no catalogue product is selected; otherwise the text becomes the template and is not blank |
| MarketingPage.Page.SendPromotion | src/pages/MarketingPage.tsx:46-55 | sends exactly when the trimmed text is non-empty, then clears text, selection and discount |
| SuperAdminDashboard.Flip | src/pages/SuperAdmin/SuperAdminDashboard.tsx:61 | the status always changes |
| SuperAdminDashboard.ToggleStatus | src/pages/SuperAdmin/SuperAdminDashboard.tsx:58-65 | exactly the users with that id flip status, and every other user is unchanged |
| SuperAdminDashboard.ToggleStatusTwice | src/pages/SuperAdmin/SuperAdminDashboard.tsx:58-65 | toggling twice restores the list |
| SuperAdminDashboard.Dashboard.constructor | src/pages/SuperAdmin/SuperAdminDashboard.tsx:20-56 | the four initial users, no dialog, nobody being edited |
| SuperAdminDashboard.Dashboard.ToggleStatusOf | src/pages/SuperAdmin/SuperAdminDashboard.tsx:58-65 | the list becomes `ToggleStatus` of the old list |
| SuperAdminDashboard.Dashboard.ExcluirUsuario | src/pages/SuperAdmin/SuperAdminDashboard.tsx:67-72 | when confirmed, the list becomes `ExcludeKey` of the old list by user id; otherwise it is unchanged |
| SuperAdminDashboard.Dashboard.EditarUsuario | src/pages/SuperAdmin/SuperAdminDashboard.tsx:74-77 | opens the dialog on that user, list unchanged |
| SuperAdminDashboard.Dashboard.NovoUsuario | src/pages/SuperAdmin/SuperAdminDashboard.tsx:79-82 | opens an empty dialog, list unchanged |
| SuperAdminDashboard.Dashboard.SalvarModal | src/pages/SuperAdmin/SuperAdminDashboard.tsx:305-309 | reports an update exactly when a user was being edited; only closes the dialog, the list is unchanged |
| ConexoesPage.StatusStylesDistinct | src/pages/SuperAdmin/ConexoesPage.tsx:70-86 | every status has its own colour (never the grey fallback) and its own icon |
| ConexoesPage.MarkConnecting | src/pages/SuperAdmin/ConexoesPage.tsx:53-57 | exactly the connections with that id become "connecting" |
| ConexoesPage.MarkConnected | src/pages/SuperAdmin/ConexoesPage.tsx:60-66 | exactly the connections with that id become connected with activity "agora" |
| ConexoesPage.ReconnectCycle | src/pages/SuperAdmin/ConexoesPage.tsx:52-68 | while connecting, the reconnect button is hidden; afterwards the connection is connected |
| ConexoesPage.OverlappingReconnectsLoseFirst | src/pages/SuperAdmin/ConexoesPage.tsx:52-68 | when a second reconnect starts before the first completes, the second completion restores the first connection to "connecting" from its stale snapshot |
| ConexoesPage.StatusCountsPartition | src/pages/SuperAdmin/ConexoesPage.tsx:111-113 | connected, disconnected and connecting counts sum to the total |
| ConexoesPage.ConnectedPlusDisconnected | src/pages/SuperAdmin/ConexoesPage.tsx:111-113 | the two shown counts add to at most the total, with equality exactly when nothing is connecting |
| ConexoesPage.Page.constructor | src/pages/SuperAdmin/ConexoesPage.tsx:17-45 | the three initial connections and no dialog |
| ConexoesPage.Page.GerarQRCode | src/pages/SuperAdmin/ConexoesPage.tsx:47-50 | opens the QR dialog on that connection |
| ConexoesPage.Page.Reconectar | src/pages/SuperAdmin/ConexoesPage.tsx:52-57 | marks the connection connecting and returns the list its deferred step captured |
| ConexoesPage.Page.ConcluirReconexao | src/pages/SuperAdmin/ConexoesPage.tsx:59-67 | the list becomes the captured list with that connection connected |

## Left out

- Random data from `faker`, in `generateProducts`, `generateCustomers` and `generateCreditPayments`, is left out. The store's initial products, customers and payments are constructor parameters, and `VendasPDV`'s generated catalogue is any `Product`.
- `verificarLimite` in `Caixa/VendasPage` is left out. It returns a random boolean and nothing calls it.
- Generated ids (`faker.string.uuid`) and `new Date()` are method parameters.
- Toast messages, icons, CSS classes and layout are not modelled. So are modal open/close flags that no handler reads, such as `PDVPage`'s customer, cash and withdrawal dialogs and `ProdutosPage`'s edit dialog.
- `editarProduto` and `novoProduto` in `Admin/ProdutosPage` are left out. They only open a dialog whose save button does nothing.
- `PdvPage.Page.SetPaymentMethod` does not open the customer dialog for crediário, because that flag is cosmetic.
- Money is `real`, not IEEE-754 doubles, so rounding in sums and divisions is not modelled.
- `Text.ToFixed2` prints a two-decimal approximation of the price. Its digits are not proved equal to JavaScript's `toFixed(2)`; only the properties the text relies on are proved (non-empty, no line break).
- `Text.Lower` folds ASCII and Latin-1 capitals only, not the full Unicode `toLowerCase`.
- `parseFloat` and `Number` on typed text are not modelled. Their result is an `Option<real>` parameter, with `None` for NaN.
- `confirm()` dialogs are a `bool` parameter.
- `setTimeout` delays and React's batching of state updates are not modelled. Each deferred continuation is a separate method that receives the closure's captured state.
- `VendasPdv.Screen.HandleCaixaAction` reads the amount from a DOM attribute (`data-valor`). The model takes it as the `valor` parameter.
- Product categories and images in `VendasPDV` are not modelled, since no handler reads them.
- Routing (`App`, `Layout`), `LoginPage`, `RelatoriosPage`, the mock data module and the static placeholder pages are not part of this model.
- `PdvPage.CustomerRef` models the customer id written on a new customer's sale as the code writes it: the customer count as text. `NewCustomerRefNamesNoCustomer` shows that this matches no customer.
- Seqs.Dedupe: the function keeps each value at its first occurrence, but its contract proves only a duplicate-free subsequence of the input. When a value repeats, that contract would also allow a later occurrence, so the exact order of the category dropdown is not proved.
