# Delivery shop — verified model of the cart, the validators and the server write gates

This project models the logic of a small delivery shop written in Next.js with Prisma and Zod:

- the client shopping cart (`useCart`), an ordered list of items kept in the browser's local
  storage under `delivery_cart`;
- the Zod schemas that validate orders, order items, products, categories, banners, login and
  sign-up, and the helper that turns Zod issues into one message;
- the request middleware that decides which paths need a session;
- the admin panel's server actions for orders, products and categories;
- the public `POST /api/pedidos` and `POST /api/categorias` handlers.

The Dafny modules follow the repository's files:

| module | file |
|---|---|
| `Js` | JavaScript built-ins: `length` in UTF-16 units, `trim`, `\s`, `toLowerCase`, `join`, `includes`, truthiness |
| `Zod` | issues, paths, `safeParse` results, and the library validators kept abstract |
| `PedidosSchemas`, `CategoriasSchemas`, `ProdutosSchemas`, `BannersSchemas`, `AuthSchema` | the schema files |
| `ValidationUtils` | `lib/validation-utils.ts` |
| `Middleware` | `middleware.ts` |
| `Server` | the database as tables of records, `FormData.get`, reply shapes |
| `PedidosActions`, `ProdutosActions`, `CategoriasActions` | the `actions.ts` files |
| `PedidosRoute`, `CategoriasRoute` | the two API routes |
| `Cart` | `hooks/cart/use-cart.ts` |

Each schema is a function from the input to the exact list of issues Zod reports, in Zod's
order and with the application's messages. Each schema comes with a lemma giving the plain
acceptance rule it is equal to.

The cart keeps the hook's state (`items`, `isLoading`) in a `Cart` class. A `LocalStorage`
object holds the stored entries. Each operation's new list is given by a pure function on lists.

Each server action is a method over a `Table` object, a map from id to record. The
database's answer to every write is an input to the method: the id it assigns, or the fault
it throws.

Semantics that the model fixes:

- Zod version 3 behaviour is assumed:
  - string and number checks do not stop at the first failure;
  - an object reports its keys in declaration order;
  - a union picks the first option that accepts; otherwise the first option that failed only
    on non-fatal checks (a length or a range, not a type) reports its issues; otherwise it
    reports "Invalid input". A type failure aborts its option, and so does a coercion to NaN;
  - `.refine` on an object is skipped when a field fails its type check. The sign-up
    schema's fields are all strings, so there it runs even after a length or format failure.
- `FormData.get` gives `null` for a missing entry.
- Lengths are JavaScript lengths: a character outside the Basic Multilingual Plane counts
  twice.

## Model

| member | source | states |
|---|---|---|
| Js.LengthCountsSurrogates | app/painel/pedidos/schemas.ts:6-8 | `Length`: the JavaScript length is the number of characters plus one for each character outside the Basic Multilingual Plane, which JavaScript stores as a surrogate pair |
| Js.LeadingSpaces | app/painel/produtos/actions.ts:28 | counts exactly the whitespace that opens the string: all counted characters are whitespace and the next one is not |
| Js.TrailingStart | app/painel/produtos/actions.ts:28 | the closing run of whitespace starts there: everything after is whitespace and the character before is not |
| Js.TrimIsSlice | app/painel/produtos/actions.ts:28 | `Trim`: `trim` keeps a contiguous slice of the input, cuts only whitespace on both sides, and the result neither starts nor ends with whitespace |
| Js.TrimIdempotent | app/painel/produtos/actions.ts:28 | `Trim`: trimming twice is trimming once |
| Js.TrimEmptyIff | app/painel/produtos/actions.ts:29 | `Trim`: a string trims to "" exactly when it is all whitespace |
| Js.LowerChar | app/api/categorias/route.ts:25 | declared capitals move to their lower-case letter, everything else is kept; the result is never a capital; whitespace stays whitespace and nothing else becomes whitespace |
| Js.ToLowerIdempotent | app/api/categorias/route.ts:25 | `ToLower`: lower-casing twice is lower-casing once |
| Js.IncludesOccurs | app/painel/categorias/actions.ts:28 | `Includes`: `includes` holds only when the part occurs at some position |
| Js.IncludesAt | app/painel/categorias/actions.ts:28 | `Includes`: `includes` holds whenever the part occurs at some position |
| Js.JoinLength | lib/validation-utils.ts:9 | `Join`: a join holds every part plus one separator between each pair of neighbours |
| Js.JoinStartsWithFirst | lib/validation-utils.ts:5 | `Join`: with two or more parts the join starts with the first part and a separator |
| Js.NatToStringValue | lib/validation-utils.ts:5 | `NatToString`: the decimal digits an array index renders as read back as that index |
| Zod.Check | app/painel/pedidos/schemas.ts:6-9 | a check reports nothing when it passes and exactly its own message when it fails |
| Zod.NamePatternLength | app/painel/pedidos/schemas.ts:9 | strings the name pattern accepts have a JavaScript length equal to their character count |
| PedidosSchemas.NomeMessagesEmptyIff | app/painel/pedidos/schemas.ts:4-9 | `NomeMessages`: the customer name passes exactly when it has 3 to 100 characters, each an ASCII letter, a character in U+00C0-U+00FF or whitespace |
| PedidosSchemas.NomeEmptyMessages | app/painel/pedidos/schemas.ts:6-9 | `NomeMessages`: the empty name reports the required message first, then the minimum and the pattern messages |
| PedidosSchemas.EnderecoMessagesEmptyIff | app/painel/pedidos/schemas.ts:10-13 | `EnderecoMessages`: the address passes exactly when its length is 5 to 200 |
| PedidosSchemas.TelefoneLength | app/painel/pedidos/schemas.ts:14-16 | `TelefoneMessages`: an accepted telephone has 14 or 15 characters |
| PedidosSchemas.TelefoneAccepts | app/painel/pedidos/schemas.ts:16 | `TelefoneMessages`: every `(DD)`, whitespace, 4 or 5 digits, `-`, 4 digits string is accepted |
| PedidosSchemas.TelefoneDecomposes | app/painel/pedidos/schemas.ts:16 | `TelefoneMessages`: every accepted telephone splits into exactly that shape, with nothing before or after |
| PedidosSchemas.PedidoIssuesEmptyIff | app/painel/pedidos/schemas.ts:3-17 | `PedidoIssues`: the order header passes exactly when name, address and telephone all pass |
| PedidosSchemas.QuantidadeMessagesEmptyIff | app/painel/pedidos/schemas.ts:23-28 | `QuantidadeMessages`: a quantity passes exactly when it is a whole number from 1 to 9999 |
| PedidosSchemas.ItemsIssuesEmptyIff | app/painel/pedidos/schemas.ts:19-29 | `ItemsIssues`: an item list has no issues exactly when every item has a UUID product id and a valid quantity |
| PedidosSchemas.ItemsIssuesContain | app/painel/pedidos/schemas.ts:35 | `ItemsIssues`: each issue of item k is reported for the list with the index k prefixed to its path |
| PedidosSchemas.PedidoComProdutosEmptyIff | app/painel/pedidos/schemas.ts:34-36 | `PedidoComProdutosIssues`: an order with products passes exactly when the header passes, the list is non-empty and every item passes |
| CategoriasSchemas.CategoriaParse | app/painel/categorias/schemas.ts:3-10 | a failed parse always carries at least one issue |
| CategoriasSchemas.CategoriaParseIff | app/painel/categorias/schemas.ts:4-9 | a category name is accepted exactly when it is a string of 3 to 50 name-pattern characters, and is then returned unchanged |
| CategoriasSchemas.EmptyNomeIssues | app/painel/categorias/schemas.ts:6-9 | the empty name fails with the required, minimum and pattern messages, in that order |
| CategoriasSchemas.BlankNomeAccepted | app/painel/categorias/schemas.ts:7-9 | a name of 3 to 50 whitespace characters is accepted |
| ProdutosSchemas.ProdutoParse | app/painel/produtos/schemas.ts:3-19 | a failed parse always carries at least one issue |
| ProdutosSchemas.ProdutoParseIff | app/painel/produtos/schemas.ts:3-19 | a product is accepted exactly when the name has 3 to 100 characters, the description is absent or at most 500 characters, the price is a positive number or a string coercing to one, and the category id is a non-empty UUID; the fields are returned untrimmed, and the price returned is the number given or the value the text coerces to |
| ProdutosSchemas.NullDescricaoRejected | app/painel/produtos/schemas.ts:9-13 | a `null` description fails the union, and with a valid name that is the first issue |
| ProdutosSchemas.NaNPrecoRejected | app/painel/produtos/schemas.ts:14-17 | a NaN price fails the union with "Invalid input" |
| BannersSchemas.BannerParse | app/painel/banners/schemas.ts:3-10 | a failed parse always carries at least one issue |
| BannersSchemas.BannerParseIff | app/painel/banners/schemas.ts:3-10 | a banner is accepted exactly when the title has at least 3 characters, the image is a URL, the link is absent or a URL and the order is absent or a whole number (so never NaN, null or a non-number); `ativo` defaults to true and `ordem` to 0 |
| BannersSchemas.NaNOrdemRejected | app/painel/banners/schemas.ts:9 | a NaN order, which an empty or non-numeric order field becomes, fails with "Expected number, received nan" at `ordem` |
| BannersSchemas.EmptyLinkChecked | app/painel/banners/schemas.ts:7 | an empty link is present, so it is checked as a URL |
| AuthSchema.LoginIssuesEmptyIff | lib/auth-schema.ts:3-10 | `LoginIssues`: login passes exactly when the email is valid and the password has at least 6 characters |
| AuthSchema.SignupIssuesEmptyIff | lib/auth-schema.ts:12-31 | `SignupIssues`: sign-up passes exactly when the name has 3 to 100 characters, the email is valid, the password has 6 to 100 characters and the confirmation equals it |
| AuthSchema.SignupMismatch | lib/auth-schema.ts:28-31 | `SignupIssues`: differing passwords give "As senhas não coincidem" at `confirmPassword`, as the last issue |
| ValidationUtils.PathTextEmptyIff | lib/validation-utils.ts:5-6 | the joined path is empty exactly for the empty path and a single empty key |
| ValidationUtils.RenderRootIssue | lib/validation-utils.ts:6 | `RenderIssue`: an issue with an empty path renders as its message alone |
| ValidationUtils.RenderKeyIssue | lib/validation-utils.ts:5-6 | `RenderIssue`: an issue at a key renders as `key: message` |
| ValidationUtils.RenderItemIssue | lib/validation-utils.ts:5-6 | `RenderIssue`: an issue inside an array item renders as `index.key: message` |
| ValidationUtils.FormatSmall | lib/validation-utils.ts:3-10 | `FormatarErrosZod`: no issues give "", one issue gives its rendering |
| ValidationUtils.FormatAppend | lib/validation-utils.ts:9 | `FormatarErrosZod`: each further issue appends `; ` and its rendering, keeping the input order |
| ValidationUtils.RepliesWellFormed | lib/validation-utils.ts:12-24 | `ErroValidacao` and `SucessoValidacao`: both reply builders give a reply that succeeds exactly when it has no error, a failure has no data, the two never coincide, and the page reads back the failure's message and truthy success data |
| Middleware.PublicRouteIff | middleware.ts:5-14 | `IsPublicRoute`: a public page is one of the five paths or lies below one of them, so every path starting with `//` is public |
| Middleware.PublicApiIff | middleware.ts:6-19 | `IsPublicApi`: a public API path is any path with one of the three prefixes, with no `/` needed after it |
| Middleware.RedirectIff | middleware.ts:8-45 | `Decide`: the only redirect is for a non-public path starting with `/painel` without a session or with a failed lookup |
| Middleware.PublicPassesAnySession | middleware.ts:12-19 | `Decide`: public paths pass whatever the session is |
| Middleware.PainelGuarded | middleware.ts:22-42 | `Decide`: every path starting with `/painel` passes only with a session |
| Middleware.DoubleSlashPublic | middleware.ts:12-14 | `Decide`: a path starting with `//` passes unchecked |
| Middleware.OrderApiUnguarded | middleware.ts:44 | `Decide`: the order API path passes unchecked |
| Server.Table.Create | app/painel/pedidos/actions.ts:35-54 | given a fresh id from the database, a create adds exactly one row, the record under that id, or throws and changes nothing |
| Server.Table.Update | app/painel/pedidos/actions.ts:100-120 | an update of a missing record throws; otherwise it applies the change to that record only, or throws and changes nothing |
| Server.Table.UpdateMany | app/painel/pedidos/actions.ts:96-98 | a filtered write touches at most the matching record, and no match is no error |
| Server.Table.Delete | app/painel/pedidos/actions.ts:133-135 | a delete of a missing record throws; otherwise it removes exactly that record, or throws and changes nothing |
| Server.FirstMessage | app/painel/produtos/actions.ts:22 | the error is the first issue's message when there is one and it is non-empty, and otherwise the generic "Erro na validação dos dados"; never empty |
| PedidosActions.PedidoGate | app/painel/pedidos/actions.ts:16-33 | a bad header gives its formatted issues; then an empty list gives "Selecione pelo menos um produto"; then failing items give their formatted issues with the item index in each path; the gate passes exactly when the order-with-products schema has no issues |
| PedidosActions.ToLinesExact | app/painel/pedidos/actions.ts:41-44 | validated items become stored lines with the same product ids and quantities, in order |
| PedidosActions.CriarPedido | app/painel/pedidos/actions.ts:9-63 | a failed check returns it and writes nothing; otherwise the header and the given lines are stored; a throw returns its message or the fixed one |
| PedidosActions.EditarPedido | app/painel/pedidos/actions.ts:65-129 | an empty id is refused first; then the checks; then the lines are deleted and the order updated with the new lines; if the update fails the old lines are already gone |
| PedidosActions.ExcluirPedido | app/painel/pedidos/actions.ts:131-143 | the order is removed, or "Erro ao excluir pedido" is returned and nothing changes |
| ProdutosActions.StoredDescricao | app/painel/produtos/actions.ts:29 | the stored description is the trimmed text, and `null` exactly when absent or all whitespace |
| ProdutosActions.FormPreco | app/painel/produtos/actions.ts:10-17 | `ProdutoFromForm`: the price handed to the schema is the number `parseFloat` reads from the `preco` entry, or NaN when there is none or it does not parse; never text |
| ProdutosActions.FormParsed | app/painel/produtos/actions.ts:7-30 | `ProdutoFromForm` then `ProdutoParse`: an accepted form yields its own name, description and category untouched and the positive price `parseFloat` read from its `preco` entry |
| ProdutosActions.ProdutoGate | app/painel/produtos/actions.ts:7-32 | the form passes exactly when the product schema accepts it; the record then has the trimmed name, the normalised description, the price `parseFloat` read from the form (positive) and the given category; a refusal carries the first issue's message, or the generic one |
| ProdutosActions.CriarProduto | app/painel/produtos/actions.ts:7-41 | invalid input returns the first issue and writes nothing; otherwise the normalised record is created, or "Erro ao criar produto" |
| ProdutosActions.EditarProduto | app/painel/produtos/actions.ts:43-78 | invalid input writes nothing; otherwise the record is replaced, or "Erro ao editar produto" |
| ProdutosActions.ExcluirProduto | app/painel/produtos/actions.ts:80-92 | the product is removed, or "Erro ao excluir produto" |
| ProdutosActions.ValidatedBeforeTrim | app/painel/produtos/actions.ts:14-28 | the name "  ab" passes the 3-character minimum and is stored as "ab" |
| ProdutosActions.MissingDescricaoRejected | app/painel/produtos/actions.ts:9-19 | `ProdutoFromForm`: a form with no description entry is refused with "Invalid input" |
| CategoriasActions.CategoriaGate | app/painel/categorias/actions.ts:8-20 | the form passes exactly when the name is accepted, and the stored name is the trimmed name; a refusal carries the first issue's message, or the generic one |
| CategoriasActions.CriarCategoria | app/painel/categorias/actions.ts:7-33 | invalid input writes nothing; otherwise the trimmed name is created, or the mapped error is returned |
| CategoriasActions.EditarCategoria | app/painel/categorias/actions.ts:35-62 | invalid input writes nothing; otherwise only the name is replaced, or the mapped error is returned |
| CategoriasActions.ExcluirCategoria | app/painel/categorias/actions.ts:64-76 | the category is removed, or "Erro ao excluir categoria" |
| CategoriasActions.UniqueViolationMapped | app/painel/categorias/actions.ts:28-29 | `StoreErrorMessage`: a message containing the uniqueness marker anywhere maps to the duplicate-name message |
| CategoriasActions.DuplicateNeedsMarker | app/painel/categorias/actions.ts:26-31 | `StoreErrorMessage`: the duplicate-name message comes only from a thrown error whose message contains "Unique constraint failed" at some position; every other failure gives the action's fixed message |
| CategoriasActions.BlankNameStoredEmpty | app/painel/categorias/actions.ts:11-20 | a name of whitespace alone passes validation and is stored as "" |
| CategoriasActions.MissingNomeRejected | app/painel/categorias/actions.ts:8-14 | a form without a name is refused by the type check |
| CategoriasRoute.CollapseSpaces | app/api/categorias/route.ts:25 | replacing whitespace runs leaves no whitespace, never lengthens, keeps lower-case text lower-case, and is the identity on text without whitespace |
| CategoriasRoute.CollapsePrefix | app/api/categorias/route.ts:25 | text without whitespace is copied through unchanged ahead of whatever follows it |
| CategoriasRoute.CollapseRun | app/api/categorias/route.ts:25 | one maximal whitespace run of any length, between text without whitespace and text that does not start with whitespace, becomes exactly one `-` |
| CategoriasRoute.SlugifyShape | app/api/categorias/route.ts:25 | `Slugify`: a derived slug has no whitespace and no capital |
| CategoriasRoute.SlugifyIdempotent | app/api/categorias/route.ts:25 | `Slugify`: deriving a slug from a derived slug returns it unchanged |
| CategoriasRoute.SlugifyFixed | app/api/categorias/route.ts:25 | `Slugify`: lower-case text without whitespace is its own slug |
| CategoriasRoute.NonEmptySlug | app/api/categorias/route.ts:25 | `Slugify`: a non-empty name gives a non-empty slug |
| CategoriasRoute.NewCategoria | app/api/categorias/route.ts:22-29 | a record is built exactly when the body has a name |
| CategoriasRoute.NewCategoriaFields | app/api/categorias/route.ts:22-29 | `NewCategoria`: the record keeps name and photo, uses a non-empty slug as sent or derives one, and uses a non-empty colour or `#3B82F6` |
| CategoriasRoute.Post | app/api/categorias/route.ts:17-36 | a parsed body with a name is created and answered with 201; a bad body, a missing name or a failed write answers 500 and writes nothing |
| PedidosRoute.ItemLines | app/api/pedidos/route.ts:24-27 | items map to lines with the same product ids and quantities, same length and order |
| PedidosRoute.ItemLinesAppend | app/api/pedidos/route.ts:24-27 | mapping a concatenation maps each part |
| PedidosRoute.Post | app/api/pedidos/route.ts:4-42 | a missing or empty name, email, telephone or item list answers 400 and writes nothing; otherwise the order is created and answered with 201, or 500 |
| PedidosRoute.NewOrderFields | app/api/pedidos/route.ts:17-29 | `NewOrder`: the order keeps the sent customer data, defaults the address to "Não informado" and has one line per item |
| PedidosRoute.QuantitiesUnchecked | app/api/pedidos/route.ts:9-27 | zero or negative quantities and a telephone of any shape are stored as sent |
| Cart.Bump | hooks/cart/use-cart.ts:44-48 | the items of the product get the quantity added; every other item is unchanged; length and order are kept |
| Cart.Assign | hooks/cart/use-cart.ts:67-71 | the items of the product get the new quantity; every other item is unchanged; length and order are kept |
| Cart.RemoveFrom | hooks/cart/use-cart.ts:56-58 | the result holds exactly the items of other products, never the product, and is the input when the product is absent |
| Cart.AddNewAppends | hooks/cart/use-cart.ts:51 | `AddTo`: a new product is appended with the given quantity and earlier items are unchanged |
| Cart.AddExistingBumps | hooks/cart/use-cart.ts:41-49 | `AddTo`: a present product is bumped in place: same length and order, other items unchanged |
| Cart.QuantityOfAppend | hooks/cart/use-cart.ts:80-83 | `CartTotal`, `ItemCount` and `QuantityOf`: appending an item adds its quantity to the count, its price times quantity to the total, and its quantity to its product |
| Cart.LastSplit | hooks/cart/use-cart.ts:41 | a product occurs in a list exactly when it occurs before the last item or is the last item; with unique ids the last item's product occurs nowhere else |
| Cart.BumpUnique | hooks/cart/use-cart.ts:44-48 | with one item per product, bumping adds the quantity once to the item count and to that product's quantity |
| Cart.AddToQuantity | hooks/cart/use-cart.ts:39-53 | `AddTo`: `addItem` keeps one item per product and adds the quantity to that product and to the item count |
| Cart.AddToContains | hooks/cart/use-cart.ts:39-53 | `AddTo`: after `addItem` the cart holds exactly the products it held before and the added one |
| Cart.AddAllQuantity | hooks/cart/use-cart.ts:39-53 | `AddTo`, repeated: after any run of `addItem` calls, ids stay unique, each product's quantity grows by the sum of the quantities added for it, and a product is in the cart exactly when it was before or some call added it |
| Cart.RemoveCount | hooks/cart/use-cart.ts:56-58 | `RemoveFrom` with `ItemCount`: removing a product takes its whole quantity out of the item count |
| Cart.RemoveFromAppend | hooks/cart/use-cart.ts:56-58 | removing from a concatenation removes from each part and keeps the survivors in their order |
| Cart.RemoveKeepsUnique | hooks/cart/use-cart.ts:56-58 | `removeItem` keeps one item per product |
| Cart.SetQuantityEffect | hooks/cart/use-cart.ts:61-72 | `SetQuantity`: a quantity of zero or less is `removeItem`; otherwise the product's quantity is set, no item is added or removed and other items are unchanged |
| Cart.SetQuantityKeepsUnique | hooks/cart/use-cart.ts:61-72 | `SetQuantity`: `updateQuantity` keeps one item per product, whatever the quantity |
| Cart.EmptyCartTotals | hooks/cart/use-cart.ts:80-83 | `CartTotal` and `ItemCount`: an empty cart has total 0 and item count 0 |
| Cart.SaveThenLoad | hooks/cart/use-cart.ts:22-34 | `Loaded`: a saved list reads back as the same list |
| Cart.Cart.constructor | hooks/cart/use-cart.ts:14-15 | the cart starts empty and loading |
| Cart.Cart.Persist | hooks/cart/use-cart.ts:32-36 | the whole list is written under `delivery_cart`, only once loading is over |
| Cart.Cart.Load | hooks/cart/use-cart.ts:18-36 | the load effect sets the loaded list, ends loading and writes the list back |
| Cart.Cart.AddItem | hooks/cart/use-cart.ts:39-53 | the list becomes `AddTo` of the old one, and it is saved when not loading |
| Cart.Cart.RemoveItem | hooks/cart/use-cart.ts:56-58 | the list becomes `RemoveFrom` of the old one, and it is saved when not loading |
| Cart.Cart.UpdateQuantity | hooks/cart/use-cart.ts:61-72 | the list becomes `SetQuantity` of the old one, and it is saved when not loading |
| Cart.Cart.ClearCart | hooks/cart/use-cart.ts:75-77 | the list becomes empty, so total and item count are 0, and it is saved when not loading |

## Left out

- React rendering, the forms and dialogs and the cart context provider: they hold no logic beyond what the actions and schemas cover.
- The public checkout page, which lies outside the modelled core. It validates with its own `checkoutSchema` (name of at least 3 characters, email, a telephone of 10 or 11 digits, address of at least 5 characters), refuses an empty cart, posts to `/api/pedidos` and clears the cart only after a successful answer. Only the endpoint it posts to and the cart operations it calls are modelled.
- Prisma itself: the ids it assigns, its constraints, `include`, ordering and `revalidatePath`. Each write receives the database's answer as an input instead.
- The `GET` handlers of `/api/categorias` and `/api/pedidos`, which are plain queries.
- The banner actions and the banner and product API routes, which pass data straight to the database.
- The regular expressions behind Zod's email, UUID and URL checks, `z.coerce.number()` and `parseFloat`. They are abstract parameters, and every property holds whatever they decide.
- `toLowerCase` covers ASCII and the Latin-1 capitals U+00C0-U+00DE only. The rest of Unicode case mapping is not modelled.
- The better-auth session fetch: its outcome (present, absent, failed) is an input to `Middleware.Decide`. The middleware's `matcher` configuration is not modelled either.
- Concurrent requests: each action is one sequential step.
- JSON values that are not strings where the routes expect strings, non-array `itens`, and stored cart text that parses to something other than a list of items.
- Floating point:
  - cart prices are integer cents and quantities are integers;
  - the product price is an exact rational or NaN;
  - order-item quantities in the admin schema are exact rationals, without NaN;
  - the banner order is any JavaScript value, NaN included;
  - infinities are not modelled.
- Cart.Cart.Load: a precondition says loading is still under way. This stands for the effect's empty dependency list, which runs it once per mount.
- CategoriasRoute.Post: a body without `nome` answers 500 and writes nothing, whether or not a slug is given. Without a slug, deriving it throws. With a slug, the database refuses the missing required column; the database schema is not part of this model.
- PedidosActions.EditarPedido: the `typeof id !== 'string'` test is not modelled, since ids are strings here.
- PedidosSchemas.QuantidadeMessages: a NaN quantity, which `z.number()` rejects with its type message, is not modelled; quantities are rationals.
- PedidosRoute.Post: fractional or missing item quantities, which the database refuses with an error answered as 500, are not modelled; quantities are integers here.
- Server.Table.Create: the precondition that an assigned id is fresh stands for the database generating new ids; a colliding id is not modelled.
