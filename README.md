# Freight quotation front end: a Dafny model of its client-side logic

This project models the browser-side logic of a freight-quotation web
application written in React and TypeScript. Customers sign up, ask for
freight quotes between two Indian pincodes and compare the quotes. They also
enter the tariffs of their own contracted transporters ("vendors"). This
project models what the pages compute and how their state changes in
response to events. Rendering, routing and the server are outside the model.

Each page becomes its own module. A page whose handlers update React state
becomes a `class`: the state variables are its fields and each handler is a
`method` with a `modifies` clause. Calculations that only compute values
become functions, each with lemmas stating the property it promises.

| module | source | what it holds |
|---|---|---|
| `JsText` | (JavaScript built-ins) | `trim`, `parseInt(_, 10)`, `String(n)`, `split`/`join`, `indexOf`, `endsWith` and the `\d` / `\s` character classes, written as functions with their laws |
| `AddVendors` | `src/pages/AddVendor.tsx` | the vendor entry record, pincode formatting, the edit handlers of the vendor list (functions from list to list), the save loop and its payloads, and the page state (`VendorEditor`) |
| `AddPrices` | `src/pages/AddPrices.tsx` | the rate record, the zone matrix and its resizing, the zone-to-zone rate map, and the page state (`PriceConfig`) |
| `AddTransporter` | `src/pages/AddTransporter.tsx` | the upload form of a transporter (`TransporterUpload`) |
| `VendorTable` | `src/components/VendorTable.tsx` | the stable price sort of the quotes, the masking of locked quotes, the per-row expand map |
| `CalculatorPage` | `src/pages/CalculatorPage.tsx` | input validation and the quote request (`Calculator`) |
| `LandingPage` | `src/pages/LandingPage.tsx` | the demo distance, delivery estimate and cost (`DemoCalculator`) |
| `SignUpPage` | `src/pages/SignUpPage.tsx` | the contact-number limit, the pincode acceptance rule, the OTP request (`SignUpForm`) |
| `ProfilePage` | `src/pages/Profile.tsx` | the field labels of the password form, its checks and outcome messages (`PasswordForm`) |
| `ContactUsPage` | `src/pages/ContactUsPage.tsx` | the e-mail pattern, validation, the two mail links (`ContactForm`) |

**Asynchronous handlers.** Each is split at its `await`. The first method
(`HandleSendOtp`, `CalculateQuotes`, ...) runs up to the request and returns
the request body. The second (`SettleSendOtp`, `SettleQuotes`, ...) takes the
server's outcome as a parameter and applies the rest.

**Save loop.** `handleSaveAll` performs one request per vendor. Nothing on
the page changes between those requests, so it is split once:
`BeginSaveAll` runs up to the first request, and `FinishSaveAll` takes the
sequence of server answers and runs the loop over them to the end.

**Inputs the model does not compute.** Values the browser supplies are
parameters. These are the picked file, the signed-in customer and
`encodeURIComponent`. Float parsing is also a parameter: an `Option<real>`,
with `None` standing for NaN.

## Model

| member | source | states |
|---|---|---|
| JsText.TrimStart | src/pages/SignUpPage.tsx:56 | the result is a suffix of the text; everything dropped is white space; the result does not start with white space |
| JsText.TrimEnd | src/pages/SignUpPage.tsx:56 | the result is a prefix; everything dropped is white space; the result does not end with white space |
| JsText.Trim | src/pages/SignUpPage.tsx:56 | (function) `trim` is `trimStart` followed by the end half; its laws are `TrimStart`, `TrimEnd`, `TrimIdempotent`, `TrimKeepsCharacters` and `BlankIffAllSpace` |
| JsText.BlankIffAllSpace | src/pages/ContactUsPage.tsx:65 | `!s.trim()` holds exactly when every character of `s` is white space |
| JsText.TrimIdempotent | src/pages/SignUpPage.tsx:56 | trimming twice is trimming once |
| JsText.TrimKeepsCharacters | src/pages/AddVendor.tsx:428 | trimming introduces no character that was not in the text |
| JsText.TrimOfBlankPadded | src/pages/SignUpPage.tsx:56 | a blank on each side does not change what `trim` returns |
| JsText.Digits | src/pages/AddVendor.tsx:85 | `replace(/\D/g, '')` keeps only digits and never grows the text |
| JsText.DigitsOfConcat | src/pages/AddVendor.tsx:85 | removing non-digits distributes over concatenation |
| JsText.DigitsOfDigits | src/pages/AddVendor.tsx:85 | a text of digits is unchanged by removing non-digits |
| JsText.DigitsOfNonDigit | src/pages/AddVendor.tsx:85 | a non-digit is removed; with the two laws above this fixes `Digits` on every text |
| JsText.IndexOf | src/pages/AddPrices.tsx:104-105 | `indexOf` is -1 or a position of the list |
| JsText.IndexOfFirst | src/pages/AddPrices.tsx:104-105 | `indexOf` is -1 exactly when the element is absent; otherwise it is the first position holding it |
| JsText.Join | src/pages/AddVendor.tsx:87 | (function) `parts.join(sep)`: the pieces with `sep` between consecutive ones; its laws are `JoinSplit` and `SplitJoin` |
| JsText.Split | src/pages/AddVendor.tsx:428 | (function) `s.split(sep)` for a one-character separator: the maximal pieces between separators; its laws are `SplitNonEmpty`, `SplitPiecesLackSeparator`, `JoinSplit` and `SplitJoin` |
| JsText.SplitNonEmpty | src/pages/AddVendor.tsx:428 | `split` always returns at least one piece |
| JsText.SplitPiecesLackSeparator | src/pages/AddVendor.tsx:428 | no piece of `split` contains the separator |
| JsText.JoinSplit | src/pages/AddVendor.tsx:428 | joining the pieces of a split with the same separator gives back the text |
| JsText.SplitJoin | src/pages/ContactUsPage.tsx:78 | splitting a join of separator-free pieces gives back the pieces |
| JsText.EndsWith | src/pages/AddTransporter.tsx:33 | (predicate) `s.endsWith(suffix)`: the last \|suffix\| characters are the suffix |
| JsText.IsSixDigits | src/pages/CalculatorPage.tsx:108 | (predicate) `/^\d{6}$/`: exactly six ASCII digits |
| JsText.NatToString | src/pages/SignUpPage.tsx:61 | `String(n)` of a natural number is a non-empty digit string that starts with 0 only for 0 |
| JsText.IntToString | src/pages/SignUpPage.tsx:61 | `String(n)` is never empty |
| JsText.DecimalValueOfNatToString | src/pages/SignUpPage.tsx:61 | reading back the decimal rendering of `n` gives `n` |
| JsText.NatToStringOfDecimalValue | src/pages/SignUpPage.tsx:61 | a digit string without a leading zero is the rendering of its own value |
| JsText.NatToStringOfDecimalValueShorter | src/pages/SignUpPage.tsx:61 | the rendering of a digit string's value is never longer than the string |
| JsText.LeadingZeroShortens | src/pages/SignUpPage.tsx:61 | a digit string of two or more characters with a leading zero renders back strictly shorter |
| JsText.DigitPrefix | src/pages/SignUpPage.tsx:57 | the longest run of digits at the start of the text |
| JsText.ParseInt | src/pages/SignUpPage.tsx:57 | `parseInt(s, 10)` is a number exactly when, after leading white space and one sign, a digit follows |
| JsText.ParseIntOfIntToString | src/pages/SignUpPage.tsx:57-61 | `parseInt(String(n))` is `n` for every integer |
| JsText.ParseIntOfDigits | src/pages/LandingPage.tsx:51-52 | `parseInt` of a non-empty digit string is its decimal value |
| AddVendors.BlankMapsComplete | src/pages/AddVendor.tsx:229-255 | the blank entry has every text field and every charge, all empty |
| AddVendors.InitialVendorState | src/pages/AddVendor.tsx:229-258 | the initial entry is well formed, all fields empty, one inactive zone and the 1 x 1 matrix `[['']]` |
| AddVendors.RemoveAt | src/pages/AddVendor.tsx:298 | `filter((_, i) => i !== k)` drops position k only, keeps the order, and changes nothing for k out of range |
| AddVendors.Chunks | src/pages/AddVendor.tsx:86 | `match(/.{1,6}/g) \|\| []` cuts the digits into pieces of 1 to 6 whose concatenation is the input, all but the last of length 6 |
| AddVendors.WithoutCommasOfConcat | src/pages/AddVendor.tsx:84-88 | removing commas distributes over concatenation |
| AddVendors.WithoutCommasOfDigits | src/pages/AddVendor.tsx:84-88 | a digit string has no comma to remove |
| AddVendors.JoinOfDigitPieces | src/pages/AddVendor.tsx:87 | a comma join of digit pieces holds only digits and commas, and removing the commas gives the concatenation |
| AddVendors.ChunksAreDigits | src/pages/AddVendor.tsx:86 | the pieces of a digit string are digit strings |
| AddVendors.FormatPincodes | src/pages/AddVendor.tsx:84-88 | the formatted text holds only digits and commas; without its commas it is the digits of the input; it is empty exactly when the input has no digit |
| AddVendors.JoinNonEmpty | src/pages/AddVendor.tsx:87 | joining a list whose first piece is non-empty gives a non-empty text |
| AddVendors.FormatPincodesIdempotent | src/pages/AddVendor.tsx:84-88 | formatting an already formatted list changes nothing |
| AddVendors.FormatPincodesPieces | src/pages/AddVendor.tsx:84-88 | the comma pieces of the formatted text are the six-digit chunks of the input's digits |
| AddVendors.NextCoverage | src/pages/AddVendor.tsx:382-384 | one click always changes the coverage |
| AddVendors.CoverageCycle | src/pages/AddVendor.tsx:382-384 | two clicks never restore the coverage, three always do |
| AddVendors.ToggledZone | src/pages/AddVendor.tsx:376-389 | a click advances the coverage and clears the pincodes when leaving 'partial'; the name is kept |
| AddVendors.EditedZone | src/pages/AddVendor.tsx:352-367 | a name edit only renames; a pincode edit stores the text and turns the zone 'partial' exactly when the text is not blank |
| AddVendors.PromotedZone | src/pages/AddVendor.tsx:391-403 | a touched 'none' zone becomes 'all' when the new rate is not blank; otherwise the coverage is unchanged |
| AddVendors.WithField | src/pages/AddVendor.tsx:301-309 | only the named text field changes and well-formedness is kept |
| AddVendors.WithChargePart | src/pages/AddVendor.tsx:311-326 | only the named part of the named charge changes; the other part and every other charge are kept |
| AddVendors.WithZoneAdded | src/pages/AddVendor.tsx:329-338 | one empty zone at the end, a new '' column on every row and a new all-'' last row; old cells are kept; a square matrix stays square |
| AddVendors.WithZoneRemoved | src/pages/AddVendor.tsx:340-350 | zone k, row k and column k go; every other row is the old row without column k; a square matrix stays square |
| AddVendors.WithZoneEdited | src/pages/AddVendor.tsx:352-367 | only zone k is edited; the other zones and the matrix are unchanged |
| AddVendors.WithCoverageToggled | src/pages/AddVendor.tsx:376-389 | only zone k is toggled; the other zones and the matrix are unchanged |
| AddVendors.WithPrice | src/pages/AddVendor.tsx:391-403 | exactly the cell (row, col) changes, and only the zones `row` and `col` may turn from 'none' to 'all' |
| AddVendors.AddVendor | src/pages/AddVendor.tsx:293-295 | the old list followed by one initial entry; the list stays well formed |
| AddVendors.RemoveVendor | src/pages/AddVendor.tsx:297-299 | the entry at idx is removed and the others keep their order |
| AddVendors.Replace | src/pages/AddVendor.tsx:306-308 | the entry at vidx is replaced and no other entry changes |
| AddVendors.UpdateField | src/pages/AddVendor.tsx:301-309 | only entry vidx changes, by `WithField` |
| AddVendors.UpdateChargeField | src/pages/AddVendor.tsx:311-326 | only entry vidx changes, by `WithChargePart`; the list stays well formed |
| AddVendors.AddZone | src/pages/AddVendor.tsx:329-338 | only entry vidx changes, by `WithZoneAdded` |
| AddVendors.RemoveZone | src/pages/AddVendor.tsx:340-350 | only entry vidx changes, by `WithZoneRemoved` |
| AddVendors.UpdateZoneField | src/pages/AddVendor.tsx:352-367 | only entry vidx changes, by `WithZoneEdited` |
| AddVendors.ToggleCoverageCycle | src/pages/AddVendor.tsx:376-389 | only entry vidx changes, by `WithCoverageToggled` |
| AddVendors.HandlePriceChange | src/pages/AddVendor.tsx:391-403 | only entry vidx changes, by `WithPrice` |
| AddVendors.HandleZonePincodesChange | src/pages/AddVendor.tsx:369-374 | only zone zidx of entry vidx changes: its name is kept, its pincodes become the formatted text, and it turns 'partial' exactly when the typed text held a digit; the other zones, the matrix and the other entries are unchanged |
| AddVendors.FormattedBlankIffNoDigit | src/pages/AddVendor.tsx:84-88 | the formatted text is blank exactly when the typed text has no digit |
| AddVendors.ThreeTogglesRestoreCoverage | src/pages/AddVendor.tsx:376-389 | three clicks on a zone header restore its coverage; the other zones, the other entries and the matrix are untouched |
| AddVendors.PriceChangeTouchesOneCell | src/pages/AddVendor.tsx:391-403 | in a square matrix a cell edit changes that one cell and keeps the matrix square |
| AddVendors.RemoveZoneKeepsCells | src/pages/AddVendor.tsx:340-350 | removing a zone keeps every other cell at the shifted row and column |
| AddVendors.TrueIndicesFrom | src/pages/AddVendor.tsx:432-434 | the listed indices are increasing and each one holds `true` |
| AddVendors.TrueIndicesFromComplete | src/pages/AddVendor.tsx:432-434 | every index holding `true` is listed |
| AddVendors.ActivityFlags | src/pages/AddVendor.tsx:433 | flag k holds exactly when zone k is not 'none' and has a non-blank name |
| AddVendors.ActiveIndices | src/pages/AddVendor.tsx:432-434 | the listed zones are active and in increasing order |
| AddVendors.ActiveIndicesExact | src/pages/AddVendor.tsx:432-434 | an index is listed exactly when its zone is active |
| AddVendors.Submatrix | src/pages/AddVendor.tsx:436-438 | a k x k matrix whose cell (a, b) is the old cell at rows idx[a] and idx[b], with '0' for a missing or empty cell |
| AddVendors.ActivePrices | src/pages/AddVendor.tsx:436-438 | (function) the sub-matrix of the active zones; its cells are stated by `Submatrix` and `Projection` |
| AddVendors.ActivePricesOfSquare | src/pages/AddVendor.tsx:436-438 | for a square matrix only empty cells become '0' |
| AddVendors.PincodeList | src/pages/AddVendor.tsx:428 | the pincode list has no empty item and no item holding a comma |
| AddVendors.NonEmptyTrimmed | src/pages/AddVendor.tsx:428 | `map(trim).filter(Boolean)` keeps no empty item, adds no comma and never grows the list |
| AddVendors.PriceChart | src/pages/AddVendor.tsx:424-430 | one chart zone per active zone in matrix order, with the pincode list only for 'partial' zones |
| AddVendors.Projection | src/pages/AddVendor.tsx:424-474 | the payload carries the customer id, the entry's fields and charges, the chart of its active zones and the k x k matrix over them, whose cell (a, b) is the entry's cell at the a-th and b-th active zone, '0' when missing or empty |
| AddVendors.Sendable | src/pages/AddVendor.tsx:418 | (predicate) a vendor is sent exactly when neither its name nor its code is blank; its role in the loop is stated by `SaveRunAccounts` |
| AddVendors.SkipMessage | src/pages/AddVendor.tsx:420 | the skip error names the vendor, or 'Unnamed' for an empty name, and gives the missing name or code as the reason |
| AddVendors.RefusalMessage | src/pages/AddVendor.tsx:482 | a refusal reports the server's non-empty message, otherwise 'Failed to save' with the vendor's name; never empty |
| AddVendors.SaveStep | src/pages/AddVendor.tsx:418-484 | (function) one turn of the loop: skip with its message, or send the projection and count the answer; its counts are stated by `SaveStepCounts` |
| AddVendors.SaveRun | src/pages/AddVendor.tsx:417-485 | (function) the summary of the loop over the whole list; stated by `SaveRunAccounts` and `SaveRunSends`, and computed by `RunSaveLoop` |
| AddVendors.SaveStepCounts | src/pages/AddVendor.tsx:417-484 | one turn counts one vendor, adds an error exactly with a failure, sends exactly a complete vendor and succeeds only when it sends |
| AddVendors.SaveRunSnoc | src/pages/AddVendor.tsx:417-485 | the run over one more vendor is one more turn of the loop |
| AddVendors.SaveRunAccounts | src/pages/AddVendor.tsx:415-485 | success + failed is the number of vendors; each failure has one error text; exactly the vendors with name and code are sent; every skipped or refused vendor counts as failed |
| AddVendors.SendList | src/pages/AddVendor.tsx:418-474 | one request per vendor with a name and a code |
| AddVendors.SaveRunSends | src/pages/AddVendor.tsx:417-478 | the requests are the projections of the sendable vendors in list order, whatever the server answers |
| AddVendors.RunSaveLoop | src/pages/AddVendor.tsx:415-485 | the loop computes the summary the specification function defines |
| AddVendors.ErrorBanner | src/pages/AddVendor.tsx:488-490 | the error banner shows the number of failures in decimal after its lead and ends with every error text joined by '. ' |
| AddVendors.SuccessBanner | src/pages/AddVendor.tsx:491-493 | the success banner shows the number of saved vendors in decimal after its lead |
| AddVendors.VendorEditor.constructor | src/pages/AddVendor.tsx:281-285 | the page opens with one initial vendor, the box unchecked and no banner |
| AddVendors.VendorEditor.BeginSaveAll | src/pages/AddVendor.tsx:405-413 | nothing happens unless the box is checked and no save runs; otherwise both banners are cleared, saving starts, and the current list is the one the loop walks |
| AddVendors.VendorEditor.FinishSaveAll | src/pages/AddVendor.tsx:415-493 | the sent requests, the error banner (set only with failures) and the success banner (set only with successes) follow the save run of the list, and saving ends; without a signed-in customer and with a vendor to send, nothing is sent and the page stays saving |
| AddVendors.VendorEditor.SetAgree | src/pages/AddVendor.tsx:621 | the checkbox sets `agree` and nothing else |
| AddVendors.VendorEditor.UpdateVendors | src/pages/AddVendor.tsx:287-289 | the list becomes the handler's result and stays well formed |
| AddPrices.InitialPriceRateComplete | src/pages/AddPrices.tsx:36-48 | every rate starts at 0 except the divisor at 1, and every variable/fixed pair at 0/0 |
| AddPrices.StoredRate | src/pages/AddPrices.tsx:90-96 | `parseFloat(value) \|\| 0`: NaN is stored as 0 |
| AddPrices.WithRate | src/pages/AddPrices.tsx:90-96 | exactly the targeted scalar or the targeted part of one section changes |
| AddPrices.ZeroMatrix | src/pages/AddPrices.tsx:73 | an n x n matrix of zeros |
| AddPrices.Resized | src/pages/AddPrices.tsx:86-88 | an n x n matrix that keeps every old cell inside it and is 0 elsewhere |
| AddPrices.ResizedSpecialCases | src/pages/AddPrices.tsx:86-88 | resizing nothing gives the zero matrix; resizing to the current size changes nothing |
| AddPrices.SetCell | src/pages/AddPrices.tsx:98-100 | exactly cell (i, j) takes the new value; the shape is kept |
| AddPrices.LastIndexOf | src/pages/AddPrices.tsx:119-120 | -1 exactly for an absent label; otherwise the last position holding it |
| AddPrices.ZoneRateMap | src/pages/AddPrices.tsx:116-121 | the rate map has exactly the labels as keys, and each row exactly the labels, holding the cell at the last occurrences of the two labels, 0 when missing |
| AddPrices.ZoneRateMapOfDistinctLabels | src/pages/AddPrices.tsx:119-120 | with distinct labels, `zr[labels[i]][labels[j]]` is cell (i, j) of the matrix |
| AddPrices.LastIndexOfSnoc | src/pages/AddPrices.tsx:119-120 | a later label with the same name overrides an earlier one |
| AddPrices.RowRatesSnoc | src/pages/AddPrices.tsx:119-120 | the row built up to column j+1 adds column j to the row up to j |
| AddPrices.PartialZoneRateMapSnoc | src/pages/AddPrices.tsx:119-120 | the map built up to row i+1 adds row i to the map up to i |
| AddPrices.BuildZoneRates | src/pages/AddPrices.tsx:119-120 | the loop builds exactly the nested rate map, later duplicate labels overriding earlier ones |
| AddPrices.PriceConfig.constructor | src/pages/AddPrices.tsx:33-54 | the page opens with no name, no labels, the initial rates, a closed panel and no error |
| AddPrices.PriceConfig.LoadSaved | src/pages/AddPrices.tsx:58-80 | a saved non-empty name is taken; saved labels are installed with an all-zero matrix of their size; nothing else changes |
| AddPrices.PriceConfig.HandleRateChange | src/pages/AddPrices.tsx:90-96 | only the targeted rate changes, to the parsed value or 0 |
| AddPrices.PriceConfig.HandleCellChange | src/pages/AddPrices.tsx:98-100 | only cell (i, j) of the matrix changes |
| AddPrices.PriceConfig.SetManualFrom | src/pages/AddPrices.tsx:102-109 | only the origin choice of the manual panel changes |
| AddPrices.PriceConfig.SetManualTo | src/pages/AddPrices.tsx:102-109 | only the destination choice of the manual panel changes |
| AddPrices.PriceConfig.SetManualPrice | src/pages/AddPrices.tsx:102-109 | only the unit price changes, to the parsed value or 0 |
| AddPrices.PriceConfig.HandleAddUnitPrice | src/pages/AddPrices.tsx:102-109 | when both labels are listed, the cell of their first occurrences takes the price and the price resets to 0; otherwise nothing changes |
| AddPrices.PriceConfig.HandleToggleManual | src/pages/AddPrices.tsx:111-114 | the panel flips; opening it without labels installs the default zones and an all-zero matrix |
| AddPrices.PriceConfig.HandleSubmit | src/pages/AddPrices.tsx:116-123 | a blank name sets its error and sends nothing; otherwise the request carries the name, the rates and the nested rate map, and saving starts |
| AddPrices.PriceConfig.SettleSubmit | src/pages/AddPrices.tsx:123-125 | saving stops; a failure shows the server's message or 'Save failed' |
| AddTransporter.ParsedCount | src/pages/AddTransporter.tsx:20-24 | `parseInt(value) \|\| 0`: an unparsable count is 0 |
| AddTransporter.ParsedCountOfRendering | src/pages/AddTransporter.tsx:20-24 | a rendered natural number is read back as itself |
| AddTransporter.EmptyNames | src/pages/AddTransporter.tsx:23 | `Array(n).fill('')` has n empty names |
| AddTransporter.OutcomeAlert | src/pages/AddTransporter.tsx:62-72 | an alert is shown exactly unless the upload was accepted |
| AddTransporter.TransporterUpload.constructor | src/pages/AddTransporter.tsx:8-12 | the form opens empty, with no file and no upload running |
| AddTransporter.TransporterUpload.HandleTransporterChange | src/pages/AddTransporter.tsx:16-18 | only the name changes |
| AddTransporter.TransporterUpload.HandleZoneCountChange | src/pages/AddTransporter.tsx:20-24 | the count is the parsed number and the zone names become that many empty names |
| AddTransporter.TransporterUpload.HandleZoneNameChange | src/pages/AddTransporter.tsx:26-30 | only the name at `index` changes |
| AddTransporter.TransporterUpload.HandleFileSelect | src/pages/AddTransporter.tsx:32-40 | a `.xlsx` file is kept; another file clears the sheet and shows the prompt; an empty file list keeps the earlier sheet and shows nothing; the other fields are unchanged |
| AddTransporter.TransporterUpload.HandleUpload | src/pages/AddTransporter.tsx:42-60 | without a file or a name only the prompt shows; otherwise uploading starts and the request carries the name, the zones and the file |
| AddTransporter.TransporterUpload.SettleUpload | src/pages/AddTransporter.tsx:62-74 | uploading stops and the outcome decides the alert |
| AddTransporter.UploadDisabled | src/pages/AddTransporter.tsx:172 | (predicate) the button is disabled while uploading, without a sheet, or without a name; related to the handler's guard by `ButtonMatchesGuard` |
| AddTransporter.ButtonMatchesGuard | src/pages/AddTransporter.tsx:172 | an enabled button implies the handler's guard passes; with a file and a name the button is disabled exactly during an upload |
| VendorTable.Insert | src/components/VendorTable.tsx:68 | one insertion step of the sort adds one element |
| VendorTable.InsertPermutes | src/components/VendorTable.tsx:68 | inserting adds the quote and nothing else |
| VendorTable.InsertSorted | src/components/VendorTable.tsx:68 | inserting into a sorted list keeps it sorted |
| VendorTable.SortByPrice | src/components/VendorTable.tsx:68 | the result is sorted by price and a permutation of the input |
| VendorTable.AtPriceOfConcat | src/components/VendorTable.tsx:68 | selecting the quotes of one price distributes over concatenation |
| VendorTable.AtPriceOfInsert | src/components/VendorTable.tsx:68 | an inserted quote lands in front of the quotes of its own price |
| VendorTable.SortByPriceStable | src/components/VendorTable.tsx:68 | quotes of equal price keep their input order (the sort is stable) |
| VendorTable.Rows | src/components/VendorTable.tsx:68 | (function) `[...(data \|\| []), ...(hiddendata \|\| [])].sort(byPrice)`; its order and contents are stated by `RowsOrder` |
| VendorTable.RowsOrder | src/components/VendorTable.tsx:68 | the rows are sorted, hold exactly the open and the locked quotes, and among equal prices the open quotes come first in their own order |
| VendorTable.IsHidden | src/components/VendorTable.tsx:69 | (predicate) a quote is locked exactly when it has no transporter name; what a locked row shows is stated by `RenderRow` |
| VendorTable.Days | src/components/VendorTable.tsx:87 | the days are floor(time) + 2, and NaN exactly for a NaN time |
| VendorTable.RenderRow | src/components/VendorTable.tsx:74-120 | a locked quote shows masks and 'Buy Now'; an open one its name, days and the toggle; the weight is masked only when absent; the detail row shows exactly when expanded and open |
| VendorTable.IsExpanded | src/components/VendorTable.tsx:70 | (function) `expandedRows[index]` as a condition: a missing entry is collapsed; used by `ToggleRow` and `RenderTable` |
| VendorTable.ToggleRow | src/components/VendorTable.tsx:48-50 | row i flips and every other entry is kept |
| VendorTable.ToggleRowTwice | src/components/VendorTable.tsx:48-50 | toggling a row twice displays every row as before |
| VendorTable.RenderTable | src/components/VendorTable.tsx:68-70 | one view per quote, row i rendered from sorted row i and its expand flag |
| CalculatorPage.Missing | src/pages/CalculatorPage.tsx:114 | (predicate) `!n` for a measurement: undefined, NaN or 0 |
| CalculatorPage.InputError | src/pages/CalculatorPage.tsx:108-117 | no error exactly when both pincodes are six digits and every measurement is present; a pincode error takes precedence |
| CalculatorPage.AcceptedShipmentIsNumeric | src/pages/CalculatorPage.tsx:114-117 | accepted inputs are six-digit pincodes and non-zero numbers |
| CalculatorPage.TotalQuantity | src/pages/CalculatorPage.tsx:187 | the read-only total is shown exactly when neither number is missing (undefined, NaN or 0), and then it is their product |
| CalculatorPage.Calculator.constructor | src/pages/CalculatorPage.tsx:90-102 | the page opens with no inputs, no result and no error |
| CalculatorPage.Calculator.CalculateQuotes | src/pages/CalculatorPage.tsx:106-130 | a failed check sets its error and sends nothing; otherwise calculation starts and the request carries the route and the six measurements; the inputs are unchanged |
| CalculatorPage.Calculator.SettleQuotes | src/pages/CalculatorPage.tsx:132-140 | calculation stops; an answer installs both lists; a failure sets the error and keeps the lists |
| CalculatorPage.Calculator.ResultsShown | src/pages/CalculatorPage.tsx:228 | (predicate) the results section shows exactly when one of the two quote lists is present |
| LandingPage.Ceil | src/pages/LandingPage.tsx:54 | `Math.ceil`: the least integer not below x |
| LandingPage.Distance | src/pages/LandingPage.tsx:53 | the demo distance is never negative |
| LandingPage.Eta | src/pages/LandingPage.tsx:54 | the estimate is at least one day |
| LandingPage.EtaSymmetric | src/pages/LandingPage.tsx:53-54 | the estimate does not depend on the direction of travel |
| LandingPage.EtaIsLeastCover | src/pages/LandingPage.tsx:53-54 | the estimate is the least k >= 1 with \|from - to\| <= 50000 k |
| LandingPage.Cost | src/pages/LandingPage.tsx:55 | the demo cost is not negative for a non-negative weight, and it is 0 exactly for equal pincodes or a zero weight |
| LandingPage.DayWord | src/pages/LandingPage.tsx:355 | the estimate is followed by 'day' exactly when it is 1, and by 'days' otherwise |
| LandingPage.EtaOfPincodes | src/pages/LandingPage.tsx:41-54 | for six-digit pincodes the estimate lies between 1 and 20 days |
| LandingPage.SixDigitBound | src/pages/LandingPage.tsx:41 | a six-digit pincode is at most 999999 |
| LandingPage.DigitsBound | src/pages/LandingPage.tsx:51-52 | n digits are worth less than 10^n |
| LandingPage.DemoCalculator.constructor | src/pages/LandingPage.tsx:28-35 | the demo opens hidden, empty and without a result |
| LandingPage.DemoCalculator.RunDemoCalc | src/pages/LandingPage.tsx:37-60 | bad pincodes, then a weight that is NaN or not positive, set their error and keep the last result; otherwise the distance, estimate and cost of the parsed pincodes are shown |
| LandingPage.DemoCalculator.ResultShown | src/pages/LandingPage.tsx:349 | (predicate) the result lines show once distance, estimate and cost are all set; `RunDemoCalc` turns them on when it succeeds and leaves them as they were otherwise |
| SignUpPage.Truncate10 | src/pages/SignUpPage.tsx:40 | `substring(0, 10)` is the prefix of the input of length min(its length, 10) |
| SignUpPage.Truncate10Idempotent | src/pages/SignUpPage.tsx:36-42 | truncating the stored number again changes nothing |
| SignUpPage.PincodeAccepted | src/pages/SignUpPage.tsx:56-62 | (predicate) the check of `handleSendOtp`: the trimmed pincode is not empty, parses, and renders back to its own length; its meaning is stated by `PincodeRule` |
| SignUpPage.PincodeRule | src/pages/SignUpPage.tsx:56-62 | a pincode is accepted exactly when its trimmed text is a canonical integer: optional '-', digits, no leading zero except '0' itself, no '-0' |
| SignUpPage.CanonicalIsAccepted | src/pages/SignUpPage.tsx:56-62 | a canonical integer parses and its rendering has the text's length |
| SignUpPage.AcceptedIsCanonical | src/pages/SignUpPage.tsx:56-62 | a text that parses to a number of the same rendered length is canonical |
| SignUpPage.TrimOfUnpadded | src/pages/SignUpPage.tsx:56 | a text without white space at its ends is its own trim |
| SignUpPage.SixDigitPincodeAccepted | src/pages/SignUpPage.tsx:56-62 | six digits without a leading zero are accepted |
| SignUpPage.PaddedPincodeAccepted | src/pages/SignUpPage.tsx:56-62 | surrounding blanks do not matter |
| SignUpPage.LeadingZeroPincodeRefused | src/pages/SignUpPage.tsx:56-62 | digits with a leading zero (two or more of them) are refused |
| SignUpPage.NonDigitPincodeRefused | src/pages/SignUpPage.tsx:56-62 | a non-digit anywhere (other than a leading '-') makes the pincode refused |
| SignUpPage.SignUpForm.constructor | src/pages/SignUpPage.tsx:10-29 | the form opens empty, before the OTP step, not loading |
| SignUpPage.SignUpForm.ShowsVerifyStep | src/pages/SignUpPage.tsx:321 | (predicate) the verify step replaces the send button once the codes were sent; `HandleSendOtp` keeps it and `SettleSendOtp` opens it on success |
| SignUpPage.SignUpForm.HandleContactNumberChange | src/pages/SignUpPage.tsx:36-42 | the number becomes the truncated text and nothing else changes |
| SignUpPage.SignUpForm.Request | src/pages/SignUpPage.tsx:80-93 | (function) the request body: each form field under its request key and the parsed pincode |
| SignUpPage.SignUpForm.HandleSendOtp | src/pages/SignUpPage.tsx:44-93 | mismatching passwords, then a refused pincode, then a blank contact number set their error and toast and stop loading; otherwise the request carries the fields and the parsed pincode and loading continues |
| SignUpPage.SignUpForm.SettleSendOtp | src/pages/SignUpPage.tsx:94-100 | loading stops; success moves to the OTP step; a failure toasts the server's message or 'Failed to send OTP'; every form field and the error are unchanged |
| ProfilePage.ToUpperAscii | src/pages/Profile.tsx:185 | a lower-case letter becomes its capital; every other character is kept |
| ProfilePage.CapitalizeFirst | src/pages/Profile.tsx:185 | `replace(/^./, toUpperCase)`: the first character becomes its capital unless it is a line terminator, which `.` does not match; the rest is kept |
| ProfilePage.WithoutSpacesOfConcat | src/pages/Profile.tsx:185 | removing spaces distributes over concatenation |
| ProfilePage.SpaceCapitals | src/pages/Profile.tsx:185 | `replace(/([A-Z])/g, ' $1')` adds one character per capital |
| ProfilePage.SpaceCapitalsUnspaced | src/pages/Profile.tsx:185 | removing the inserted spaces gives back a space-free text |
| ProfilePage.SpaceCapitalsSpaceBefore | src/pages/Profile.tsx:185 | every capital of the result has a space just before it |
| ProfilePage.SpaceCapitalsOfConcat | src/pages/Profile.tsx:185 | the insertion distributes over concatenation |
| ProfilePage.SpaceCapitalsOfNoCapitals | src/pages/Profile.tsx:185 | a text without capitals is unchanged |
| ProfilePage.FieldLabel | src/pages/Profile.tsx:185 | the label has one character more per capital of the field name; a name starting with a lower-case letter gets that letter capitalised and the rest spaced |
| ProfilePage.CamelCaseLabel | src/pages/Profile.tsx:185 | a two-word camel-case name becomes the capitalised two-word label |
| ProfilePage.CamelCaseSpaced | src/pages/Profile.tsx:185 | a space goes in front of the single capital |
| ProfilePage.CapitalizeFirstOfLower | src/pages/Profile.tsx:185 | a leading lower-case letter is capitalised and the rest kept |
| ProfilePage.CurrentPasswordLabel | src/pages/Profile.tsx:178-185 | 'currentPassword' is labelled 'Current Password' |
| ProfilePage.NewPasswordLabel | src/pages/Profile.tsx:178-185 | 'newPassword' is labelled 'New Password' |
| ProfilePage.ConfirmPasswordLabel | src/pages/Profile.tsx:178-185 | 'confirmPassword' is labelled 'Confirm Password' |
| ProfilePage.OrElse | src/pages/Profile.tsx:76 | `a \|\| b` on an optional text: a missing or empty text falls back |
| ProfilePage.PasswordError | src/pages/Profile.tsx:42-61 | no error exactly when the passwords agree, the new one has 8 or more characters and an address is known; the checks apply in that order |
| ProfilePage.AcceptedPasswordIsConfirmed | src/pages/Profile.tsx:42-61 | an accepted new password equals its confirmation and has at least 8 characters |
| ProfilePage.OutcomeMessage | src/pages/Profile.tsx:76-96 | success exactly for an accepted change, and each failure kind yields its fall-back chain of messages |
| ProfilePage.PasswordForm.constructor | src/pages/Profile.tsx:14-22 | the form opens empty with no message |
| ProfilePage.PasswordForm.HandlePasswordInputChange | src/pages/Profile.tsx:30-33 | only the named field changes |
| ProfilePage.PasswordForm.HandlePasswordSubmit | src/pages/Profile.tsx:35-68 | a failed check shows its error and stops saving; otherwise saving starts and the request carries the address, the current and the new password; the message box shows exactly when a check failed |
| ProfilePage.PasswordForm.SettlePasswordChange | src/pages/Profile.tsx:70-99 | saving stops, the outcome's message and kind are shown, and the fields are cleared only after a success |
| ProfilePage.PasswordForm.MessageShown | src/pages/Profile.tsx:200 | (predicate) the message box shows for a non-empty message; a failed check shows it, a sent request hides it, and every outcome except a thrown error with an empty message shows it |
| ContactUsPage.EmailAccepted | src/pages/ContactUsPage.tsx:69 | (predicate) `/\S+@\S+\.\S+/.test`: some stretch of the text is a non-space run, an '@', a non-space run, a '.' and a non-space run; its simplest form is stated by `EmailAcceptedIffShape` |
| ContactUsPage.EmailAcceptedIffShape | src/pages/ContactUsPage.tsx:69 | the unanchored `\S+@\S+\.\S+` accepts exactly the texts with a non-space before an '@' and, after it, a non-space run up to a '.' followed by a non-space |
| ContactUsPage.AcceptedHasShape | src/pages/ContactUsPage.tsx:69 | a match gives the smallest form |
| ContactUsPage.ShapeIsAccepted | src/pages/ContactUsPage.tsx:69 | the smallest form is a match |
| ContactUsPage.PlainAddressAccepted | src/pages/ContactUsPage.tsx:69 | an ordinary address is accepted |
| ContactUsPage.SurroundedAddressAccepted | src/pages/ContactUsPage.tsx:69 | text around an address does not stop it matching |
| ContactUsPage.AddressWithoutDotRefused | src/pages/ContactUsPage.tsx:69 | an address without a '.' after the '@' is refused |
| ContactUsPage.SpacedAddressRefused | src/pages/ContactUsPage.tsx:69 | a blank before the '@' breaks the address |
| ContactUsPage.ValidationError | src/pages/ContactUsPage.tsx:63-74 | no error exactly when no field is blank and the address matches; a blank field gives the blank error first |
| ContactUsPage.EmailErrorMeansBadAddress | src/pages/ContactUsPage.tsx:63-74 | the address error appears exactly when every field is filled but the address does not match |
| ContactUsPage.MailBody | src/pages/ContactUsPage.tsx:78 | the body is the name line, the address line, an empty line and the message |
| ContactUsPage.MailBodyLines | src/pages/ContactUsPage.tsx:78 | without line breaks in the fields, the body splits back into its four lines |
| ContactUsPage.ComposeLink | src/pages/ContactUsPage.tsx:76-90 | a compose link starts with its lead, continues with the encoded subject and ends with `&body=` and the encoded body |
| ContactUsPage.MailtoLink | src/pages/ContactUsPage.tsx:76-82 | the mailto link is the compose link with the recipient's `mailto:` lead |
| ContactUsPage.GmailLink | src/pages/ContactUsPage.tsx:84-90 | the Gmail link is the compose link with Gmail's compose page for the recipient as lead, so it ends with the same encoded body |
| ContactUsPage.ContactForm.constructor | src/pages/ContactUsPage.tsx:47-53 | the form opens empty with no error |
| ContactUsPage.ContactForm.HandleChange | src/pages/ContactUsPage.tsx:55-61 | only the named field changes and the error is cleared |
| ContactUsPage.ContactForm.Validate | src/pages/ContactUsPage.tsx:63-74 | passes exactly when the validation finds no error; a failure sets that error; the fields are unchanged |
| ContactUsPage.ContactForm.ClickLink | src/pages/ContactUsPage.tsx:212-227 | the link is followed exactly when the form validates, and it is the Gmail or the mailto link of the current fields |

## Left out

- Network, cookies, `sessionStorage`/`localStorage`, navigation and toasts. Server answers are parameters of the settle methods. A toast is returned only where its text matters.
- AddVendors: the debounced vendor-name suggestion lookup (src/pages/AddVendor.tsx:270-279) is left out. It is a timer around a network call.
- AddVendors.Projection: the payload keeps the entry's text fields and charges as maps keyed by field. How those fields are renamed and grouped into the JSON keys `companyName`, `priceRate` and so on is not modelled.
- AddVendors.VendorEditor.FinishSaveAll: the signed-in customer is a parameter. Without one, building the first payload throws outside the `try`; the model stops there with nothing sent and saving still on, and the rejected promise itself is not modelled.
- AddVendors.UpdateChargeField requires a well-formed list. The record type of the source guarantees that every charge is present.
- AddPrices.PriceConfig.HandleCellChange requires the cell to lie inside the matrix. The grid renders only existing cells.
- AddPrices: `parseFloat` is a parameter (`Option<real>`). Saved zones that are not an array of strings, and cells holding NaN, are not modelled.
- AddTransporter.TransporterUpload.HandleZoneCountChange requires a non-negative count. `Array(n)` throws for a negative n and for n of 2^32 or more. Neither case is modelled.
- AddTransporter.TransporterUpload.HandleFileSelect: the exception that `files[0].name` raises for an empty file list is modelled as a handler that changes nothing.
- CalculatorPage: the total-weight display (`toFixed(2)` of a product) and the scroll timer are left out. The freight arithmetic is done by the server.
- LandingPage.DemoCalculator.RunDemoCalc: the cost is stated before `toFixed(2)` rounding, because binary floating point is not modelled.
- LandingPage.Cost is real arithmetic, not IEEE-754 doubles. The same holds for every real in the model.
- JsText.ParseInt and JsText.NatToString: integers are unbounded. `parseInt` beyond 2^53 and `String` of numbers of 1e21 or more are not modelled.
- JsText: strings are sequences of characters. UTF-16 surrogate pairs, which `.length` and `substring` count as two units, are not distinguished.
- ProfilePage.ToUpperAscii capitalises ASCII letters only. The field names it is applied to are ASCII.
- ProfilePage.CapitalizeFirst: the regex `.` does not match line terminators. The model keeps that rule, but only the four line terminators of ECMAScript are distinguished.
- SignUpPage: `handleVerifyOtp` and the navigation after it are not part of this model.
- HTML constraint attributes (`required`, `minLength`, `min`) are not modelled. `ClickLink` and the submit handlers reflect only the scripted checks.
- Each handler is one atomic state transition. React's batching of `setState` calls and stale closures are not modelled.
- The presentational and routing files (AboutUsPage, Footer, Header, App, SignInPage, ForgotPasswordPage) are not part of this model.
