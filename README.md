# Supply manager front end: delivery draft editor and report query

This project models the two pieces of sequential logic in the browser client
of a small supply-chain administration tool:

- **The delivery draft editor** (`src/Deliveries.jsx`). A modal form composes a
  new delivery or edits an existing one. The form holds a supplier, a date and
  an ordered list of line items (product, quantity). An "item being added" is
  appended to the list, entries are removed by position, and submitting sends
  either a create or an update. Module `Deliveries` holds the class
  `DeliveryEditor`. Its fields are the component state (`formData`,
  `currentItem`, `editingDelivery`, `showModal`), and each event handler is one
  of its methods. The list transforms are pure functions: `Appended` for the
  spread-append, `RemovedAt` for the filter by index. `SubmitRequest` gives the
  create-or-update choice.
- **The report query** (`src/Reports.jsx`). Module `Reports` holds the class
  `ReportScreen` with the fields `reportParams` and `reportData`. Each form
  setter is one of its methods. The pure function `BuildParams` maps the form to
  the query parameters sent to the backend.

Form values are modelled as the strings the form controls produce. A value is
"present" when JavaScript treats it as truthy, which for a string means
non-empty (`Deliveries.Present`). The add guard checks truthiness only, so a
quantity of "0" or "-3" is accepted. A line item for a product that is already
in the list is appended as a separate entry. An index that is out of range or
negative makes removal a silent no-op.

The backend is not modelled. Its answer enters only as a parameter: a boolean
`succeeded` for a delivery submit, and `Option<seq<ReportRow>>` for a report
request, where `None` is a failed request.

The design document for this system describes validations that the client
code does not perform. It says adding an item rejects a quantity that is not
positive, and removing at an invalid index fails. The model follows the code:
it has neither check. The validation the document places in a commit service
(missing fields, price resolution) is not in these files either.

## Model

| member | source | states |
|---|---|---|
| `Deliveries.Appended` | src/Deliveries.jsx:119 | the new list is one longer, keeps every earlier entry unchanged at its position, and ends with the added item |
| `Deliveries.FilterOutPositionIsSplice` | src/Deliveries.jsx:127 | filtering out one position removes exactly the element at that position when it is in range and keeps the rest in order; any other position leaves the list unchanged |
| `Deliveries.RemovedAt` | src/Deliveries.jsx:126-128 | an index in `[0, length)` yields the list without that element, one shorter; a negative or too-large index yields the list unchanged |
| `Deliveries.AppendNeverMerges` | src/Deliveries.jsx:117-120 | after adding, the number of entries for the added product is one more than before, even when that product is already listed; the count for every other product is unchanged |
| `Deliveries.RemoveUndoesAppend` | src/Deliveries.jsx:115-128 | removing the entry at the old length after an add gives back the original list |
| `Deliveries.SubmitRequest` | src/Deliveries.jsx:91-97 | the request is an update exactly when a delivery is being edited, and it is addressed to that delivery's id; otherwise it is a create; either way it carries the current form |
| `Deliveries.DeliveryEditor.constructor` | src/Deliveries.jsx:11-24 | the editor starts with an empty form, an empty current item, no delivery being edited and the modal hidden |
| `Deliveries.DeliveryEditor.OpenAddModal` | src/Deliveries.jsx:60-69 | clears the editing marker, resets the form and the current item to empty, and shows the modal |
| `Deliveries.DeliveryEditor.OpenEditModal` | src/Deliveries.jsx:72-81 | records the delivery being edited; copies its supplier, date and item list verbatim, with an empty list when the delivery has none; clears the current item; shows the modal |
| `Deliveries.DeliveryEditor.CloseModal` | src/Deliveries.jsx:84-86 | hides the modal and leaves the form, the current item and the editing marker as they were |
| `Deliveries.DeliveryEditor.SetSupplierId` | src/Deliveries.jsx:191 | replaces the supplier and keeps the date and the item list |
| `Deliveries.DeliveryEditor.SetDate` | src/Deliveries.jsx:208 | replaces the date and keeps the supplier and the item list |
| `Deliveries.DeliveryEditor.SetProductId` | src/Deliveries.jsx:219 | replaces the product of the current item and keeps its quantity |
| `Deliveries.DeliveryEditor.SetQuantity` | src/Deliveries.jsx:235 | replaces the quantity of the current item and keeps its product |
| `Deliveries.DeliveryEditor.AddDeliveryItem` | src/Deliveries.jsx:115-123 | when product and quantity are both non-empty, the current item is appended as the last entry and then cleared; otherwise the form and the current item are unchanged; the supplier and date never change |
| `Deliveries.DeliveryEditor.RemoveDeliveryItem` | src/Deliveries.jsx:126-129 | the item list becomes its filter by position, as `RemovedAt` describes; the supplier and date never change |
| `Deliveries.DeliveryEditor.Submit` | src/Deliveries.jsx:88-103 | the request is the create-or-update choice applied to the current form; only success hides the modal; failure changes no state |
| `Deliveries.AddSameProductTwice` | src/Deliveries.jsx:114-123 | through the editor's handlers, adding the same product twice gives two separate entries in order of addition |
| `Deliveries.EditAndSave` | src/Deliveries.jsx:72-97 | through the editor's handlers, opening a delivery for edit and saving it sends an update to its id carrying its supplier, date and items |
| `Reports.BuildParams` | src/Reports.jsx:42-50 | supplier, start date and end date are copied unchanged; the product filter is present exactly when the form's product is non-empty, and then equals it; the "all products" choice (the empty option value of line 105) gives no product filter |
| `Reports.FormOfBuildParams` | src/Reports.jsx:42-50 | the form can be read back from the parameters built from it, so no two forms send the same query |
| `Reports.BuildParamsOfFormOf` | src/Reports.jsx:42-50 | every parameter object whose product filter is absent or non-empty is what its own form builds |
| `Reports.ReportScreen.constructor` | src/Reports.jsx:8-14 | the form starts with all four fields empty and the result list starts empty |
| `Reports.ReportScreen.SetSupplierId` | src/Reports.jsx:67 | replaces the supplier and keeps the other three fields |
| `Reports.ReportScreen.SetStartDate` | src/Reports.jsx:84 | replaces the start date and keeps the other three fields |
| `Reports.ReportScreen.SetEndDate` | src/Reports.jsx:94 | replaces the end date and keeps the other three fields |
| `Reports.ReportScreen.SetProductId` | src/Reports.jsx:103 | replaces the product and keeps the other three fields |
| `Reports.ReportScreen.GenerateReport` | src/Reports.jsx:39-56 | requires supplier, start date and end date to be non-empty, as the `required` controls of lines 68, 85 and 95 make the browser demand; the query is the one `BuildParams` builds; on success the rows are replaced wholesale by the response; on failure they keep their previous value |
| `Reports.AllProductsDropsFilter` | src/Reports.jsx:100-105 | through the screen's setters, choosing "all products" after a specific product sends a query without a product filter, with supplier and dates unchanged |

## Left out

- HTTP calls and their loading effects are not modelled. This covers the list fetches in `useEffect`, the re-fetch after a successful submit, delete, and the `api.js` client (src/Deliveries.jsx:26-57, 99, 105-112; src/Reports.jsx:16-37, 51). They are I/O against a backend that is not part of this model. The backend's answer enters only as a success/failure parameter or an optional list of rows.
- Price resolution, line costs, `totalCost`, the non-overlap rule on price windows, and report row flattening are computed by the backend. The client only displays them (src/Deliveries.jsx:154, src/Reports.jsx:134-143). `ReportRow` therefore holds each column as its display text.
- Line items loaded from the backend can carry fields besides product and quantity, such as `productName` (src/Deliveries.jsx:249). `Item` holds only product and quantity. The extra fields are passed through verbatim in the source and never inspected.
- Values that the backend sends as numbers are modelled as strings, such as a loaded delivery's `supplierId`. The delivery id is modelled as an integer. The code only copies these values, so their type does not affect any branch.
- JSX rendering, the modal and button components, routing (src/App.jsx), and the Products, Suppliers and price screens are not modelled. They are display code or plain CRUD forms.
- A late asynchronous response can overwrite newer state. The source does not guard against this. The model treats each handler as one atomic step.
