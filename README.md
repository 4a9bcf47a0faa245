# Price display panel — a Dafny model

This project models the logic of a supermarket price-display system. It has two generations.

**Django generation** (`painel/`):
- Records for products, video templates and paired TVs.
- The device API. A TV pairs with a short access code, then polls a snapshot of its configuration, its price table and a playlist of product videos and advertisements.
- A visual editor that saves template layouts.
- An Excel-import form.
- The TV client (`tv_app.js`): pairing, polling with change detection, and an 18-per-page, two-column price carousel.

**Flask generation** (`app.py`, `static/js/`):
- A product table with unique codes, administered through form posts.
- A panel route that lists the displayed products by name.
- Its browser carousel (`painel.js`), with a configurable page size.
- The admin page script (`admin.js`): a live filter, and table edits driven by the server's replies.

Modules follow the source files:

| module | file | source |
|---|---|---|
| `Models` | models.dfy | painel/models.py |
| `Forms` | forms.dfy | painel/forms.py |
| `Api` | views_api.dfy | painel/views_api.py |
| `Editor` | editor.dfy | painel/views_editor.py |
| `FlaskApp` | flask_app.dfy | app.py |
| `TvApp` | tv_app.dfy | painel/static/js/tv_app.js |
| `LegacyPanel` | legacy_panel.dfy | static/js/painel.js |
| `AdminPage` | admin_page.dfy | static/js/admin.js |

Shared modules:
- `Wrappers`: `Option`, `Result`.
- `Strings`: trimming, case mapping, substring and suffix tests, decimal text.
- `Sorting`: filtering, and a stable insertion sort by an arbitrary order.
- `Paging`: `ceil(N/P)`, page windows, page-index wrap, the two-column split.

## How state is modelled

Code that changes state is modelled as classes whose methods state the whole new state:
- `TvApp.Tv`: the TV client's module-level variables.
- `LegacyPanel.Panel`: the Flask carousel.
- `AdminPage.Page`: the admin table.
- `FlaskApp.Store`: the two Flask tables.
- `Editor.TemplateStore`: the video templates.

Timers and replies are parameters or method calls:
- A poll's reply is `Tv.Load`.
- The next-page timer is `Tv.Step`.
- The rotation interval is `Panel.ProximaPagina`.
- A server reply is an argument of the handler that receives it.

`TvApp.Tv.Valid`, through `TvApp.Displayed`, states that a rendered page is always the view of a page index below `ceil(N/18)`. It also states that a next page is pending only when there is more than one page.

## Behaviour where the code differs from its documentation

- `delete_produto` looks the row up inside its `try/except Exception`. An unknown key therefore comes back as a failed delete (500), not as 404. `FlaskApp.Store.DeleteProduto` states this. `update_produto` looks up outside its `try` and does give 404.
- `salvar_layout` assigns `None` to a title or price coordinate whose key is missing. The column is NOT NULL, so the save fails and nothing is stored (500).
- `estilos_css` and `elementos_extras` are not columns of the template model shown, so they are never stored. `Editor.Layout` carries them on the object only.
- The product serializer emits no `ordem`, and the template model has no `duracao`. In practice every product entry of the playlist therefore has order 0 and duration 15. Both are modelled as optional fields with those defaults.
- `painel.js` takes the page size straight from the configuration, which accepts any integer:
  - with a page size of 0 and some products, the page count is Infinity and every page shown is empty;
  - with a negative page size, the no-products message is shown whatever the products.

  `LegacyPanel.ZeroPageSizeShowsEmptyPages` and `LegacyPanel.NegativePageSizeShowsNoProducts` state these two cases.
- `tv_app.js` shows only the price-table carousel. The display mode `modo_exibicao` exists only as a server-side field.

## Model

| member | source | states |
|---|---|---|
| Models.ValidarPorcentagem | painel/models.py:6-8 | accepts exactly the values in [0, 100], both bounds included; otherwise rejects with the percentage message |
| Models.DefaultCoordinates | painel/models.py:34-48 | every default coordinate of a new template passes the percentage validator |
| Models.ParseMode | painel/models.py:96-100 | a stored display mode is valid exactly when it is TABELA, VIDEO or MISTO |
| Models.ModeCodeRoundTrip | painel/models.py:96-100 | each mode's code reads back as that mode, each valid code names exactly one mode, and the default is TABELA |
| Models.ProdutoStr | painel/models.py:82-83 | the text is the code, then " - ", then the description, and each part can be cut back out |
| Models.Pow16 | painel/models.py:104-105 | powers of 16 used for the width of hexadecimal text are positive |
| Models.Hex | painel/models.py:104-105 | a number written with exactly w hexadecimal digits |
| Models.HexRoundTrip | painel/models.py:104-105 | w hexadecimal digits keep every number below 16^w without loss |
| Models.Pow16Add | painel/models.py:104-105 | 16^(a+b) = 16^a · 16^b, used to show that 32 digits hold a 128-bit UUID |
| Models.UuidStr | painel/models.py:104-105 | the UUID text is 36 characters, with hyphens at 8, 13, 18 and 23; the other characters are the 32 hexadecimal digits in order |
| Models.DispositivoStr | painel/models.py:104-105 | the device text is the name, " (", the first eight hexadecimal digits of the UUID, ")" |
| Models.UuidStrDetermines | painel/models.py:104-105 | two UUIDs with the same text are equal |
| Forms.CleanArquivoExcel | painel/forms.py:6-10 | accepted exactly when the name ends with ".xlsx"; the accepted file is returned unchanged; a rejection carries the Excel message |
| Forms.UpperCaseSuffixRejected | painel/forms.py:8 | the check is case-sensitive: a ".XLSX" name is refused |
| Api.LookupCode | painel/views_api.py:18-24 | the only device holding the code answers with its uuid and name, and a pairing always comes from such a device; "Código inválido" exactly when no device has the code; the ambiguous outcome exactly when two devices hold it |
| Api.ParearDispositivo | painel/views_api.py:13-24 | the lookup runs on the stripped, upper-cased code (absent meaning empty), with the outcomes above |
| Api.NormalizeCode | painel/views_api.py:16 | the looked-up code is no longer than the input, has no whitespace at either end and no lower-case ASCII letter |
| Api.NormalizeTrimmed | painel/views_api.py:16 | normalising an already trimmed code gives the same code as normalising the raw text |
| Api.NormalizeLowered | painel/views_api.py:16 | normalising the lower-cased text gives the same code as normalising the raw text |
| Api.PairingIgnoresCaseAndSpaces | painel/views_api.py:16 | neither surrounding whitespace nor lower-casing the typed code changes the pairing outcome |
| Api.SerializarPropaganda | painel/views_api.py:27-33 | the advertisement view carries its url, description and duration |
| Api.TableProducts | painel/views_api.py:53-56 | a product is on the table exactly when it is displayable and, if the device has a non-empty family set, in one of those families |
| Api.ProductItems | painel/views_api.py:67-84 | every product entry comes from a product with a template, with order defaulting to 0 and duration to the template's or 15; every product with a template has its entry |
| Api.ProductItemsInOrder | painel/views_api.py:67-84 | exactly one entry per product with a template, in product order |
| Api.AdItems | painel/views_api.py:87-95 | every advertisement entry comes from an active advertisement, and every active one has its entry |
| Api.AdItemsInOrder | painel/views_api.py:87-95 | exactly one entry per active advertisement, in device order |
| Api.AdEntryAgreesWithSerializer | painel/views_api.py:88-95 | a playlist advertisement entry agrees with the advertisement serializer on url, description and duration |
| Api.DadosPainel | painel/views_api.py:37-103 | unknown uuid gives 404; otherwise the config, the table products unmodified, and a playlist that is a permutation of product entries ++ active-advertisement entries, non-decreasing in order, with each order's items in insertion order (products before advertisements) |
| Editor.FromImage | painel/views_editor.py:46-48 | an image coordinate missing from imagem_config keeps its current value |
| Editor.PatchLayout | painel/views_editor.py:38-54 | the save goes through exactly when every title and price coordinate converts, imagem_config is a dictionary and each image coordinate it carries converts; title and price coordinates come from the payload (a missing one fails the save); image coordinates come from imagem_config or are kept; style attributes default to {} and []; name, video, colours and sizes are untouched; a non-dictionary imagem_config fails |
| Editor.PatchLayoutIdempotent | painel/views_editor.py:38-54 | saving the same layout twice stores what saving it once does |
| Editor.TemplateStore.SalvarLayout | painel/views_editor.py:33-57 | non-POST gives 400 and no change; unknown template 404; an unparsable, non-object or refused body 500 with no change; a well-formed object body is saved with 200; otherwise only that template is replaced by the patched one |
| Editor.SampleProduct | painel/views_editor.py:13-24 | a real product exactly when one uses the template, and then the first such; otherwise the stand-in "NOME DO PRODUTO (MODELO)" at price 0 without image |
| Editor.EditorVisual | painel/views_editor.py:9-29 | unknown template gives exactly 404; otherwise that template with the sample SampleProduct chooses: the first product using it, or the stand-in |
| FlaskApp.ReplaceComma | app.py:52 | same length, no comma left, each comma replaced by a point and every other character kept |
| FlaskApp.ReplaceCommaIdempotent | app.py:52 | the replacement is idempotent and leaves comma-free text alone |
| FlaskApp.NewId | app.py:59-61 | a new row's key exceeds every existing key |
| FlaskApp.IndexOf | app.py:103 | finds the row with the key, or reports that none has it |
| FlaskApp.RemovePreservesTable | app.py:120-122 | deleting a row keeps keys increasing and codes unique, and shifts only the rows after it |
| FlaskApp.NameLeTotal | app.py:96 | any two names are ordered one way or the other |
| FlaskApp.ByNomeTotal | app.py:96 | ordering rows by name is total, as the sort requires |
| FlaskApp.PanelListing | app.py:131-140 | the panel lists exactly the displayed rows, each once, in name order, each as name, price and offer flag |
| FlaskApp.Store.Admin | app.py:44-98 | add: no price raises; duplicate code 400; bad price 400; missing code or name 500; all with no change; otherwise exactly one row appended with the next key, on the panel and not on offer, 201. Config: bad count flashes the error; no config row raises; otherwise stores it and flashes success. Anything else lists all rows by name. Codes stay unique and keys increasing |
| FlaskApp.Store.UpdateProduto | app.py:101-114 | unknown key gives 404; missing name or price, or a bad price, gives 500 with no change; otherwise the row takes the name and price, and each flag becomes whether its field was posted |
| FlaskApp.Store.DeleteProduto | app.py:117-126 | unknown key gives 500 with no change; otherwise exactly that row is removed |
| FlaskApp.Store.Painel | app.py:129-144 | the listing is the displayed rows by name, projected, with the configured page size; no config row raises |
| TvApp.CodeToSend | painel/static/js/tv_app.js:36-42 | no request exactly when the trimmed code is shorter than 2 UTF-16 code units; otherwise the trimmed code is sent |
| Strings.Utf16Length | painel/static/js/tv_app.js:39 | JavaScript's `length` lies between the number of characters and twice it, and equals it exactly when every character is in the Basic Multilingual Plane |
| TvApp.ErrorDetail | painel/static/js/tv_app.js:59-65 | the non-empty erro field, else the JSON text of the body, else (body not JSON) the status text |
| TvApp.PairingErrorMessage | painel/static/js/tv_app.js:57-67 | the message is "Erro ", the status digits, ": ", the detail |
| TvApp.StatusReadBack | painel/static/js/tv_app.js:67 | the status can be read back from the message's digits, which end at the first colon |
| TvApp.PageViewFacts | painel/static/js/tv_app.js:152-220 | a page below ceil(N/18) shows exactly produtos[18p .. min(N, 18p+18)), at most 9 per column, left filled first, offer mark iff on offer, marquee iff name longer than 22 UTF-16 code units |
| TvApp.Tv.constructor | painel/static/js/tv_app.js:13-32 | a stored identity starts the app and its polling; none or an empty one shows the pairing screen |
| TvApp.Tv.Pair | painel/static/js/tv_app.js:35-82 | a short code alerts "Digite o código." and sends nothing; an OK reply stores the uuid and starts the app; otherwise the failure alert with the thrown or composed message, with nothing stored |
| TvApp.Tv.ReceivePairing | painel/static/js/tv_app.js:44-80 | an OK reply stores the uuid in storage and in memory and starts the app with its polling; a thrown error or a non-OK reply raises "FALHA NO PAREAMENTO:" with the message and stores nothing |
| TvApp.Tv.Alert | painel/static/js/tv_app.js:40 | an alert appends its message and changes nothing else, keeping the client invariant |
| TvApp.Tv.Load | painel/static/js/tv_app.js:102-134 | a failed poll changes nothing; a non-empty title is applied even when products are unchanged; the snapshot replaces the cache, resets to page 0 and renders exactly when its products differ (always when nothing is cached) |
| TvApp.Tv.Render | painel/static/js/tv_app.js:137-198 | no products: the waiting message and nothing scheduled; otherwise the page index wraps to 0 past the last page, that page's view is shown, and a next page is scheduled exactly when there is more than one page |
| TvApp.Tv.Step | painel/static/js/tv_app.js:191-194 | with unchanged data the page advances to the next one, wrapping after the last, and is rendered |
| LegacyPanel.TotalPages | static/js/painel.js:12 | ceil(N/P) for P > 0; Infinity for P = 0 with products and NaN without; at most 0 (the ceiling of N/P) for P < 0 |
| LegacyPanel.ColumnSize | static/js/painel.js:9 | the least integer at least P/2 |
| LegacyPanel.PageViewFacts | static/js/painel.js:21-75 | page p shows exactly the items [pP, min(N, pP+P)) in order, the first ceil(P/2) in the left column, offer class iff on offer |
| LegacyPanel.ZeroPageSizeShowsEmptyPages | static/js/painel.js:87-91 | with page size 0 and products the carousel starts and rotates, and every page is empty |
| LegacyPanel.NegativePageSizeShowsNoProducts | static/js/painel.js:87-95 | with a negative page size the no-products message is shown whatever the products |
| LegacyPanel.Next | static/js/painel.js:77-84 | the next index wraps to 0 at the page count, and just counts up when the count is Infinity |
| LegacyPanel.Panel.constructor | static/js/painel.js:86-95 | page 0 is loaded when the count is positive, with rotation only when it exceeds 1; otherwise the no-products message |
| LegacyPanel.Panel.CarregarPagina | static/js/painel.js:21-75 | the content becomes the page's view; index and rotation unchanged |
| LegacyPanel.Panel.ProximaPagina | static/js/painel.js:77-84 | the index moves to the next page, wrapping, and that page is shown; the panel invariant is kept |
| AdminPage.AlertStyle | static/js/admin.js:43-44 | "success" maps to the success style and "Sucesso!"; any other category to danger and "Erro!" |
| AdminPage.Filtered | static/js/admin.js:8-27 | the same rows in the same order, only visibility changed, each visible exactly when it matches both terms |
| AdminPage.KeyShape | static/js/admin.js:9-19 | the compared text is no longer than the field, has no whitespace at either end and no upper-case ASCII letter |
| AdminPage.VisibleIff | static/js/admin.js:9-25 | visible exactly when the lower-cased, trimmed code and name contain the respective lower-cased, trimmed term at some position |
| AdminPage.FilterIdempotent | static/js/admin.js:13-26 | re-applying the filter with the same terms changes nothing |
| AdminPage.BlankTermsShowAll | static/js/admin.js:18-21 | with both terms empty or blank every row is visible |
| AdminPage.Page.ToastFor | static/js/admin.js:38-44 | no toast without a container; otherwise one toast in the category's style with the message |
| AdminPage.Page.ShowAjaxAlert | static/js/admin.js:38-72 | appends the category's toast, if there is a container, and changes nothing else |
| AdminPage.Page.AplicarFiltros | static/js/admin.js:8-27 | the table becomes its filtered version |
| AdminPage.Page.SubmitAdd | static/js/admin.js:109-130 | success prepends exactly one visible row for the new product and resets the form to the values it was loaded with; a refusal or an unreachable server inserts nothing; each outcome shows its toast |
| AdminPage.Page.SubmitUpdate | static/js/admin.js:135-157 | only a toast reports the outcome; the table is unchanged |
| AdminPage.Page.ClickDelete | static/js/admin.js:159-186 | the table shrinks exactly when the user confirms and the server reports success, and then by exactly the clicked row |
| Strings.SkipSpaces | painel/static/js/tv_app.js:36 | the position of the first non-whitespace character from a given index, with only whitespace skipped |
| Strings.SkipSpacesBack | painel/static/js/tv_app.js:36 | the end of a range once only its trailing whitespace is dropped |
| Strings.Trim | painel/static/js/tv_app.js:36 | the result is a middle slice of the text with only whitespace cut away on both sides, and has whitespace at neither end |
| Strings.TrimIdempotent | painel/views_api.py:16 | trimming twice is trimming once |
| Strings.TrimLower | static/js/admin.js:9-19 | trimming and lower-casing can be done in either order |
| Strings.UpperLower | painel/views_api.py:16 | upper-casing forgets an earlier lower-casing |
| Strings.Lower | static/js/admin.js:9-10 | same length, each character lower-cased |
| Strings.Upper | painel/views_api.py:16 | same length, each character upper-cased |
| Strings.ContainsIff | static/js/admin.js:18-19 | the recursive substring test holds exactly when the term occurs at some position |
| Strings.ContainsEmpty | static/js/admin.js:18-19 | every text contains the empty term |
| Strings.EndsWithIff | painel/forms.py:8 | the suffix test holds exactly when the text is some stem followed by the suffix |
| Strings.NatToString | painel/static/js/tv_app.js:67 | the decimal text of a status is a non-empty digit string without a leading zero |
| Strings.NatToStringRoundTrip | painel/static/js/tv_app.js:67 | parsing a number's decimal text gives the number back |
| Sorting.Filter | painel/views_api.py:53-56 | a filter keeps at most the input's elements, and every one it keeps satisfies the predicate |
| Sorting.FilterMember | painel/views_api.py:53-56 | an element survives the filter exactly when it is in the input and satisfies the predicate |
| Sorting.FilterAppend | painel/views_api.py:97-99 | filtering distributes over concatenation |
| Sorting.InsertBy | painel/views_api.py:99 | inserting adds exactly the element |
| Sorting.SortBy | painel/views_api.py:99 | the sort is a permutation of its input |
| Sorting.InsertBySorted | painel/views_api.py:99 | inserting into a sorted list keeps it sorted |
| Sorting.SortBySorted | painel/views_api.py:97-99 | for a total order the result is sorted |
| Sorting.InsertByStable | painel/views_api.py:98-99 | insertion keeps items the order cannot tell apart in their original order |
| Sorting.SortByStable | painel/views_api.py:98-99 | the sort is stable: items with equal keys keep their input order |
| Paging.CeilDiv | painel/static/js/tv_app.js:152 | the least r with N ≤ r·P; zero exactly when N is zero |
| Paging.PageStartInRange | painel/static/js/tv_app.js:152-162 | every page index below the count starts inside the list |
| Paging.Window | painel/static/js/tv_app.js:160-162 | a page window holds at most the page size |
| Paging.NextPage | painel/static/js/tv_app.js:155-157 | the next index is always below the page count |
| Paging.AdvanceSplit | static/js/painel.js:77-84 | advancing a+b times is advancing a then b times |
| Paging.AdvanceBeforeWrap | static/js/painel.js:77-84 | before the last page each advance moves to the next page |
| Paging.AdvanceInRange | static/js/painel.js:77-84 | from a valid page the index stays valid however often it advances |
| Paging.FullCycleReturns | static/js/painel.js:77-84 | after as many advances as there are pages the carousel is back on its starting page |
| Paging.PagesArePrefix | painel/static/js/tv_app.js:152-162 | the first k pages laid end to end are the first min(kP, N) items |
| Paging.PagesCover | painel/static/js/tv_app.js:152-162 | the ceil(N/P) pages together show every item exactly once, in order |
| Paging.SplitColumns | painel/static/js/tv_app.js:171-180 | items below the split index go left and the rest right, in order; the left column holds at most that many |

## Left out

- Strings.Trim: only the ASCII whitespace both languages share is removed; JavaScript's `trim()` and Python's `strip()` also remove other Unicode spaces, and `strip()` also removes the separators U+001C to U+001F, which `trim()` keeps.
- Strings.Lower: only ASCII letters are mapped; `toLowerCase()` also maps accented letters.
- Strings.Upper: only ASCII letters are mapped; Python's `upper()` also maps accented letters and can lengthen a text ('ß' becomes "SS"), which the same-length contract does not allow.
- TvApp.Tv.Load: the change test compares product sequences structurally; the code compares their `JSON.stringify` texts, which agree for values that came from the same JSON encoder. Each product carries its nested template with every column, layout included, so a change to the layout alone counts as a change in both.
- TvApp.Tv.Step: each render drops any earlier page timer, so the overlapping render chains that a data change starts beside a pending timer are not modelled.
- The 500 ms fade and the 10 s and 60 s timers: a render happens at once, and the timers are method calls.
- Currency formatting (`toLocaleString`, `"%.2f"`) is presentation and is left out.
- Parsing prices and counts (`float`, `int`) is a parameter, a partial function supplied by the caller.
- Django's integer conversion of assigned coordinate values is the parameter `toInt` of `Editor.PatchLayout`.
- The ORM, serializers, SQLAlchemy sessions and the HTML templates: queries become filters over in-memory sequences in the order the query returns. The product's serialized form is a record.
- `codigo_acesso`, `familias`, `exibir_propagandas` and `titulo_exibicao` are taken as device fields. The device model shown does not declare them.
- TvApp.ErrorDetail: a failed pairing reply whose body is JSON `null` has no `ErrorBody` variant; in the code `errData.erro` then throws and the status text is shown. The API always answers with an object.
- The add form's edits by the user between load and submit are not modelled; `AdminPage.Page.addForm` records only the reset.
- A pairing body whose `codigo` is not a string, which makes `.strip()` raise, is not modelled.
- The exception text after "Erro ao salvar: ", "Erro ao atualizar: " and "Erro ao deletar: " is not modelled; replies carry the prefix only.
- FlaskApp.Store.Admin, FlaskApp.Store.Painel: rows with equal names are listed in key order (the stable sort in `PanelRows` keeps it for the panel); SQLite does not promise an order among them.
- The template model's validators: `save()` does not run them, so a layout may store coordinates outside [0, 100], and so may the model.
- DOM building, HTML, CSS classes and the toasts' removal after they hide are left out. The toast list only grows.
- `alert` becomes the alert list, `confirm` a parameter, `localStorage` the `stored` field.
- Authentication, CSRF and the Flask `index` redirect carry no logic.
- The application start-up that creates the first configuration row is the `FlaskApp.Store` constructor's argument.
- painel/serializers.py, painel/admin.py, painel/urls.py and painel/views.py are declarative configuration. They are not part of this model.
