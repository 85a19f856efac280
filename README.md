# Invoice UI core in Dafny

A model of the two pieces of sequential logic in a small Next.js invoicing
application:

- **The invoice card** (`app/components/InvoiceComponents.tsx`). `calculateTotal`
  folds over the invoice's line items, adding `quantity * unitPrice`, with a
  missing quantity or price read as 0. This gives the pre-tax total (HT). It then
  adds VAT at `vatRate` percent. `getStatusBadge` maps a status number to one of
  five badges, or to a default "Indéfinis" badge for any other number. Both are
  pure and are modelled in module `InvoiceComponents` as functions over an
  `Invoice` value, with lemmas. Amounts are exact `real`s.
- **The home page** (`app/page.tsx`). It holds the invoice list and the
  "new invoice" dialog. Three state fields change step by step:
  - `invoiceName`, set from the text input;
  - `isNameValid`, set by an effect to `invoiceName.length <= 60`;
  - `invoices`, replaced when a fetch returns data.

  The create button is disabled when the name is invalid or empty. The name's
  length is JavaScript's `length`, a count of UTF-16 code units, so a character
  outside the Basic Multilingual Plane (an emoji, say) counts twice. Creating
  calls the store only when an e-mail is present. After the call returns, the
  handler refreshes the list and clears the name. Module `HomePage` models the
  rule and the enabling condition as predicates. The state is a class, `Home`,
  whose methods are the page's handlers. The user's e-mail and the results of
  the two store calls are parameters of those methods.

  The create handler waits for the store (`await`) before it clears the name.
  The model therefore splits it in two: `HandleCreateInvoice` issues the call,
  and `CreateInvoiceResumed` runs when the call settles. Other handlers can run
  in between. During the wait the button stays enabled, so a second click
  issues a second create with the same name. Text typed during the wait is
  wiped when the first create returns.

  The detail page computes the totals that the PDF view displays. The PDF view
  shows its VAT row only when `vatActive` is set
  (`app/components/InvoicePDF.tsx:145`).

Files: `wrappers.dfy` (the `Option` type), `invoice_components.dfy`,
`home_page.dfy`.

## Model

| member | source | states |
|---|---|---|
| `InvoiceComponents.Quantity` | app/components/InvoiceComponents.tsx:62 | `line.quantity ?? 0`: the quantity when present, 0 when missing. |
| `InvoiceComponents.UnitPrice` | app/components/InvoiceComponents.tsx:63 | `line.unitPrice ?? 0`: the unit price when present, 0 when missing. |
| `InvoiceComponents.LineAmount` | app/components/InvoiceComponents.tsx:62-65 | A line adds quantity × unitPrice when both are present. It adds 0 when either is missing. |
| `InvoiceComponents.Fold` | app/components/InvoiceComponents.tsx:61-66 | The `reduce` from accumulator `acc` returns `acc` plus the sum of the line amounts. A missing quantity or price counts as 0. |
| `InvoiceComponents.TotalHT` | app/components/InvoiceComponents.tsx:61-66 | totalHT is the sum over the lines of quantity × unitPrice. It is 0 for an empty line list. |
| `InvoiceComponents.CalculateTotal` | app/components/InvoiceComponents.tsx:60-69 | The card total is totalHT × (1 + vatRate/100), whatever `vatActive` is. It is 0 for no lines and equals totalHT when vatRate is 0. |
| `InvoiceComponents.SumAppend` | app/components/InvoiceComponents.tsx:61-66 | The total of two concatenated line lists is the sum of their totals. |
| `InvoiceComponents.TotalHTAppendLine` | app/components/InvoiceComponents.tsx:61-66 | Appending one line raises totalHT by exactly that line's (quantity ?? 0) × (unitPrice ?? 0). If either value is missing, totalHT does not change. |
| `InvoiceComponents.SumPermutation` | app/components/InvoiceComponents.tsx:61-66 | Two line lists that are permutations of each other have the same total. |
| `InvoiceComponents.TotalReorderInvariant` | app/components/InvoiceComponents.tsx:60-69 | Reordering an invoice's lines does not change the card total. |
| `InvoiceComponents.TotalIgnoresVatActive` | app/components/InvoiceComponents.tsx:67-68 | Flipping `vatActive` does not change the card total. |
| `InvoiceComponents.SumNonNegative` | app/components/InvoiceComponents.tsx:61-66 | If no quantity or price is negative, totalHT is at least 0. |
| `InvoiceComponents.TotalBounds` | app/components/InvoiceComponents.tsx:60-69 | If quantities, prices and the rate are non-negative, then 0 ≤ totalHT ≤ total. |
| `InvoiceComponents.WorkedExample` | app/components/InvoiceComponents.tsx:60-69 | Lines (2, 1000) and (1, 500) at 18 % give totalHT 2500 and total 2950. |
| `InvoiceComponents.DetailTotals` | app/components/InvoicePDF.tsx:136-162 | The totals the detail page computes and the PDF view displays: HT is the line sum and TTC = HT + VAT. When `vatActive` is off, VAT is 0 and TTC = HT. The computation is at lines 39-44 of the detail page, `app/invoice/[invoiceId]/page.tsx`. |
| `InvoiceComponents.CardTotalDisagreesWhenVatOff` | app/components/InvoiceComponents.tsx:67-68 | With VAT switched off, one line 1 × 100 at 18 % shows 118 on the card and 100 as TTC on the detail page. |
| `InvoiceComponents.CardTotal` | app/components/InvoiceComponents.tsx:60-69 | The corrected card total equals the detail page's TTC. It matches `CalculateTotal` when VAT is on and equals totalHT when VAT is off. |
| `InvoiceComponents.StatusBadge` | app/components/InvoiceComponents.tsx:11-55 | Any number outside 1..5 gets the plain "Indéfinis" badge with the XCircle icon. Statuses 1..5 get other labels. The XCircle icon is used exactly for statuses other than 1, 2 and 3. |
| `InvoiceComponents.StatusOfLabel` | app/components/InvoiceComponents.tsx:11-55 | The inverse of the label mapping. It reads a badge label back to its status, and only statuses 1..5 come back. |
| `InvoiceComponents.StatusLabelRoundTrip` | app/components/InvoiceComponents.tsx:11-55 | For statuses 1..5, the badge label reads back as that same status. Any other number gets the "Indéfinis" label, which reads back as no status. |
| `InvoiceComponents.StatusLabelsDistinct` | app/components/InvoiceComponents.tsx:11-55 | Distinct statuses in 1..5 show distinct labels (brouillon, En attente, Payée, Annulée, Impayée). |
| `HomePage.Utf16Length` | app/page.tsx:37 | `invoiceName.length` counts UTF-16 code units: at least the number of characters and at most twice it, and 0 only for the empty string. |
| `HomePage.NameValid` | app/page.tsx:37 | `length <= 60`. A valid name has at most 60 characters, and any name of at most 30 characters is valid. |
| `HomePage.CreateEnabled` | app/page.tsx:109 | The create button is enabled iff `isNameValid` holds and the name is not empty (`length === 0` iff the name is ""). |
| `HomePage.EmailPresent` | app/page.tsx:42 | `if (email)` is JavaScript truthiness. An absent e-mail and the empty string are both false. |
| `HomePage.CreateEnabledIff` | app/page.tsx:107-109 | Once the validity effect has run, the create button is enabled iff the name has 1 to 60 UTF-16 code units. |
| `HomePage.CreateEnabledBoundaries` | app/page.tsx:109 | 60 ASCII characters enable create, but 61 and 0 do not. 30 emoji (60 code units) enable create, but 31 emoji (62) do not. |
| `HomePage.Home.constructor` | app/page.tsx:14-17 | Initial state: empty name, name valid, empty invoice list. |
| `HomePage.Home.CreateButtonEnabled` | app/page.tsx:109 | An enabled button has a non-empty name. Once the validity effect has run, the button is enabled iff the name has 1 to 60 UTF-16 code units. |
| `HomePage.Home.OnNameChange` | app/page.tsx:103-104 | Typing sets `invoiceName`. `isNameValid` and the list are unchanged until the effect runs. |
| `HomePage.Home.NameValidityEffect` | app/page.tsx:36-38 | After the effect, `isNameValid` holds iff the name has at most 60 UTF-16 code units. Nothing else changes. |
| `HomePage.Home.FetchInvoices` | app/page.tsx:19-28 | The list is replaced only when the store returns data. On no data or an error it is unchanged. The name fields are untouched. |
| `HomePage.Home.HandleCreateInvoice` | app/page.tsx:40-46 | The handler up to its `await`. The create call, with the current name, is issued iff an e-mail is present (neither absent nor ""). If it is issued, the page is unchanged while the call is awaited. Without an e-mail nothing is awaited: the name becomes "" at once and the button is disabled. |
| `HomePage.Home.CreateInvoiceResumed` | app/page.tsx:43-59 | When an awaited create settles, it leaves the awaited set. If the call threw, the name and list are unchanged. Otherwise the name becomes "", wiping any text typed during the wait, and the button is disabled. The list is unchanged until the fetch's answer arrives. |
| `HomePage.Home.ClickCreate` | app/page.tsx:107-110 | A click on a disabled button changes nothing and calls nothing. A click on an enabled button starts the handler. Once the validity effect has run, any name sent to the store has 1 to 60 UTF-16 code units. |
| `HomePage.CreateDialogScenario` | app/page.tsx:99-113 | Scenario: 61 characters leave the button disabled and 60 enable it. Creating with an e-mail sends that name. Once the create returns the button is disabled, and after the fetch the list shows what the store returned. |
| `HomePage.DoubleClickScenario` | app/page.tsx:40-46 | Scenario: two clicks while the first create is awaited issue the same create call twice. Text typed during the wait is "" once the first create returns. |

## Left out

- PDF export (`html2canvas`, `jsPDF`), confetti, the modal's `showModal`/`close`, `console.error` logging and all JSX layout other than each badge's label, colour and icon. These are rendering and side effects.
- `formatDate`. It depends on `Date` and the `fr-FR` locale.
- `toFixed(2)` display rounding and JavaScript floating point. Amounts, quantities and rates are exact `real`s.
- Status numbers are `int`. The source sends every other number, including non-integers and `NaN`, to the default badge; the model cannot represent non-integer statuses.
- The identity provider (`useUser`) and the store's server actions `createEmptyInvoice` and `getInvoicesByEmail`, whose sources are not part of this model. The e-mail and each call's outcome are method parameters. The model does not say what the store holds afterwards, such as whether a fetch returns a newly created invoice.
- React scheduling. Each awaited answer is its own step: `CreateInvoiceResumed` for the create call and `FetchInvoices` for a fetch. The fetch that `handleCreateInvoice` starts, and the one the e-mail effect starts, are not tracked as pending: any `FetchInvoices` call stands for one of them arriving. `isNameValid` updates in its own step (`NameValidityEffect`), so states where it is out of date are represented. React's batching of state updates within one step is not modelled.
- `DetailTotals`: the detail page's `reduce` reads `quantity` and `unitPrice` without `?? 0` (JavaScript would give `NaN` for a missing value). The model reads missing values as 0 there too, so the comparison with the card is about VAT only.
- Saving, deleting and dirty-state comparison on the detail page. They are not part of the card or the home page.

## Findings

| source | as written | input that shows it | evidently intended | confidence | as-written member | corrected member |
|---|---|---|---|---|---|---|
| app/components/InvoiceComponents.tsx:67 | The card always adds `totalHT * vatRate/100` and never reads `vatActive` | `vatActive` false, `vatRate` 18, one line 1 × 100: the card shows 118 and the detail page's TTC is 100 | Add VAT only when `vatActive` is set, as the detail page does (app/invoice/[invoiceId]/page.tsx:43) | medium, not executed | `InvoiceComponents.CardTotalDisagreesWhenVatOff` (about `InvoiceComponents.CalculateTotal`) | `InvoiceComponents.CardTotal` |
