# Salon management: the logic inside the screens, in Dafny

This project models the deterministic logic of a salon management web
application. The application is a set of React screens over a hosted data
store. Once their inputs are loaded, a few of those screens compute things on
their own, and those computations are the model:

- **Weekly calendar grid** (`WeeklyCalendar`, on top of `Calendar`). It holds
  the hourly slot lists: sixteen full slots, 07:00 to 22:00, and seven compact
  ones. It finds the Sunday that starts a date's week and builds the seven-day
  window. It moves the window back or forward by one week. It picks the one-month
  or two-month header. It looks up the appointments that occupy a (date, slot)
  cell, and it summarises an occupied cell.
- **New-sale form** (`SaleForm`). Line items, the subtotal (the sum of quantity
  times unit price) and the total (subtotal less discount). Adding a line, and
  removing one without ever emptying the list. Choosing a product for a line;
  the form also defines a handler that chooses a service, though nothing in the
  form calls it. The validation schema. The `sales` and `sale_items` rows written
  on submission.
- **Client history summary** (`ClientHistory`). The amount a client has spent:
  completed, priced appointments plus all sales. Also the completed-appointment
  count, `HH:MM` time truncation and the status badge colours.
- **Service catalogue search** (`ServiceSearch`). A case-insensitive substring
  filter on a service's name or its optional category.
- **WhatsApp automation page** (`WhatsApp`). Switching flows and FAQ entries on
  and off by id, and the conversation status badge colours.

Shared modules: `Options` (optional values), `Lists` (filter, sum, removal by
index, update-where, order-preserving sub-lists) and `Text` (prefix, lower
case, substring search, number to string, padding).

Representation choices:

- Dates are naive day numbers: days since 1970-01-01, with no time zone.
  `Calendar.DayOfWeek` follows JavaScript's `getDay` (0 is Sunday).
  `Calendar.ToCivil` is H. Hinnant's `civil_from_days`, and it gives the month
  behind `getMonth`.
- Money (prices, discounts, totals) is integer cents.
- An empty or non-numeric number input (`NaN`), a missing field and a null
  column are all `None`.
- Parsing a date-time string that contains `'T'` is a function parameter. It
  returns the UTC calendar day and the local `HH:MM`, or `None` for an Invalid
  Date.

## Model

| member | source | states |
|---|---|---|
| `WeeklyCalendar.TimeSlots` | src/components/ui/weekly-calendar.tsx:29-32 | There are exactly sixteen full slots. Slot `i` is the zero-padded label "HH:00" of hour `7 + i`, so consecutive slots are one hour apart. |
| `WeeklyCalendar.HourLabelIsHourSlot` | src/components/ui/weekly-calendar.tsx:31 | `padStart(2, '0')` on the decimal form of an hour below 100 gives its two digits, followed by ":00". |
| `WeeklyCalendar.TimeSlotsBounds` | src/components/ui/weekly-calendar.tsx:28-32 | The first full slot is "07:00" and the last is "22:00". |
| `WeeklyCalendar.CompactSlotsAreFull` | src/components/ui/weekly-calendar.tsx:34 | There are seven compact slots. Compact slot `k` is the full slot of hour `8 + 2k`, so every compact slot is also a full slot. |
| `WeeklyCalendar.SlotsFor` | src/components/ui/weekly-calendar.tsx:158 | The grid shows 7 rows in compact mode and 16 otherwise. Every row is a full slot. The compact list is used exactly when `compact` is set. |
| `Calendar.DayOfWeek` | src/components/ui/weekly-calendar.tsx:50 | The day of the week is always between Sunday (0) and Saturday (6). |
| `Calendar.DayOfWeekShift` | src/components/ui/weekly-calendar.tsx:76-89 | Moving by whole weeks keeps the day of the week. |
| `WeeklyCalendar.WeekStart` | src/components/ui/weekly-calendar.tsx:48-54 | The week start is a Sunday, on or before the date, and at most six days earlier. Day numbers make this hold across month and year ends. |
| `WeeklyCalendar.WeekStartUnique` | src/components/ui/weekly-calendar.tsx:48-54 | Any Sunday on or at most six days before a date is that date's week start. So the week start is the only such Sunday. |
| `WeeklyCalendar.WeekStartOfSunday` | src/components/ui/weekly-calendar.tsx:48-54 | A Sunday is its own week start. |
| `WeeklyCalendar.GenerateWeekDays` | src/components/ui/weekly-calendar.tsx:57-65 | The loop builds exactly seven days, and day `i` is the start plus `i`. This is the same window the views hold. |
| `WeeklyCalendar.ShowDate` | src/components/ui/weekly-calendar.tsx:68-73 | The window built for a selected date is a well-formed week (Sunday first, seven consecutive days, Saturday last) that contains the date. |
| `WeeklyCalendar.PreviousWeek` | src/components/ui/weekly-calendar.tsx:76-81 | The week start moves back exactly seven days. If the old start was a Sunday, the new view is a well-formed week. |
| `WeeklyCalendar.NextWeek` | src/components/ui/weekly-calendar.tsx:84-89 | The week start moves forward exactly seven days. If the old start was a Sunday, the new view is a well-formed week. |
| `WeeklyCalendar.NavigationRoundTrip` | src/components/ui/weekly-calendar.tsx:76-89 | Going next then previous restores a well-formed view, and so does going previous then next. |
| `WeeklyCalendar.NavigationMatchesShowDate` | src/components/ui/weekly-calendar.tsx:68-89 | Selecting any day of a navigated-to week rebuilds exactly that view. |
| `WeeklyCalendar.MonthYearHeader` | src/components/ui/weekly-calendar.tsx:147-156 | For a built week, the one-month header is chosen exactly when the first and last days have the same `getMonth`. Otherwise the two-month header is chosen. A week not yet built (both days `undefined`) takes the one-month branch. |
| `WeeklyCalendar.HeaderOfView` | src/components/ui/weekly-calendar.tsx:147-151 | For a well-formed view, the header names one month exactly when its Sunday and its Saturday fall in the same month. |
| `WeeklyCalendar.AppointmentsForSlot` | src/components/ui/weekly-calendar.tsx:104-137 | The result is an order-preserving sub-list of the appointments that keeps every copy of what it keeps. An invalid date gives nothing, and an empty start time never matches. A start without 'T' matches exactly when its first five characters equal the slot. A 'T' start that does not parse never matches. One that parses matches exactly when its day and its time equal the cell's. |
| `WeeklyCalendar.SummarizeCell` | src/components/ui/weekly-calendar.tsx:218-245 | A cell is empty exactly when it has no occupants. Otherwise it shows the first occupant: its client name, or "(Sem título)" when the name is missing or empty, its service name except in compact mode, where no service line is rendered, and the completed colour exactly when its status is "completed". |
| `WeeklyCalendar.AugustWeek` | src/components/ui/weekly-calendar.tsx:48-73 | 2025-08-26 is a Tuesday. Its window runs from Sunday 2025-08-24 to Saturday 2025-08-30, under a one-month header. |
| `WeeklyCalendar.NewYearWeek` | src/components/ui/weekly-calendar.tsx:147-156 | The week of 2026-01-01 starts on Sunday 2025-12-28, and its header names two months. |
| `WeeklyCalendar.BareTimeCells` | src/components/ui/weekly-calendar.tsx:126-131 | A bare "09:00:00" start fills the 09:00 cell and not the 10:00 cell. An empty start fills no cell. |
| `Text.Take` | src/components/ui/weekly-calendar.tsx:129 | `substring(0, 5)` / `slice(0, 5)` gives a prefix of the string. Its length is 5, or the whole length when the string is shorter. |
| `SaleForm.SubtotalAppend` | src/components/forms/SaleForm.tsx:69-71 | The subtotal adds up line by line: the subtotal of two runs of items is the sum of their subtotals. |
| `SaleForm.SubtotalOfOne` | src/components/forms/SaleForm.tsx:69-71 | One line contributes its quantity times its unit price. A missing quantity or price makes the contribution zero. |
| `SaleForm.TotalNotClamped` | src/components/forms/SaleForm.tsx:72 | The total plus the discount is the subtotal, and a missing discount counts as zero. The total is not clamped: it is negative exactly when the discount exceeds the subtotal. |
| `SaleForm.AddItem` | src/components/forms/SaleForm.tsx:94-97 | The list grows by one. The existing lines are unchanged, and the new last line is `{quantity: 1, unit_price: 0}`. |
| `SaleForm.AddItemKeepsSubtotal` | src/components/forms/SaleForm.tsx:94-97 | Adding a blank line leaves the subtotal unchanged. |
| `SaleForm.RemoveItem` | src/components/forms/SaleForm.tsx:99-104 | With more than one line, exactly the line at the index is removed and the others keep their order. With one line, or an index naming no line, nothing changes. A non-empty list never becomes empty. |
| `Lists.WithoutIndex` | src/components/forms/SaleForm.tsx:102 | Filtering by index drops exactly the element at that position. An index outside the list drops nothing. |
| `SaleForm.RemoveUndoesAdd` | src/components/forms/SaleForm.tsx:94-104 | Removing the line just added restores the list. |
| `SaleForm.RemoveItemSubtotal` | src/components/forms/SaleForm.tsx:99-104 | Removing a line lowers the subtotal by exactly that line's total. |
| `SaleForm.FindById` | src/components/forms/SaleForm.tsx:107 | `find` returns nothing exactly when no entry has the id. Otherwise it returns the first entry with that id. |
| `SaleForm.ChooseProduct` | src/components/forms/SaleForm.tsx:106-113 | A known product sets the line's product, clears its service and copies the price of the first product with that id. The quantity and every other line are untouched. An unknown id changes nothing. |
| `SaleForm.ChooseService` | src/components/forms/SaleForm.tsx:115-122 | The mirror image for services: the service is set, the product is cleared and the service's price is copied. An unknown id changes nothing. The form never calls this handler, so through the form no line gets a service. |
| `SaleForm.ChoosingKeepsExclusive` | src/components/forms/SaleForm.tsx:106-122 | If no line names both a product and a service, that stays true after choosing either. |
| `SaleForm.ChooseProductSubtotal` | src/components/forms/SaleForm.tsx:106-113 | Re-pricing a line moves the subtotal by the line's quantity times the new price, less the line's old total. |
| `SaleForm.ValidSaleBounds` | src/components/forms/SaleForm.tsx:16-31 | Under the schema (at least one item, every quantity at least 1, every unit price and the discount non-negative, a payment method in {cash, card, pix, transfer}), the subtotal is non-negative and the total does not exceed it. |
| `SaleForm.DefaultDraftValid` | src/components/forms/SaleForm.tsx:56-62 | The form's default values (one blank line, cash, zero discount) pass the schema whenever a sale date is present. |
| `SaleForm.NullIfEmpty` | src/components/forms/SaleForm.tsx:161-162 | `id \|\| null` keeps a non-empty id and turns an empty or missing one into null. |
| `SaleForm.ItemRows` | src/components/forms/SaleForm.tsx:159-166 | There is one `sale_items` row per validated line, in order. Each row carries the sale id, the line's quantity and unit price, `total_price = quantity * unit_price`, and null for empty ids. |
| `SaleForm.ItemRowsSumToSubtotal` | src/components/forms/SaleForm.tsx:159-166 | For validated lines, the persisted `total_price` values add up to the subtotal the form showed. |
| `SaleForm.Submission` | src/components/forms/SaleForm.tsx:138-166 | For a valid sale, the `sales` row carries the draft's own date, payment method, discount and notes, and its client and employee ids with empty ones nulled. Its subtotal is the form's subtotal and equals the sum of the item rows. The item rows are exactly the draft's lines mapped to rows. The total is the subtotal less a non-negative discount, the subtotal is non-negative, and there is at least one item row. |
| `ClientHistory.TotalSpentPointwise` | src/components/modals/ClientHistoryModal.tsx:95-98 | Total spent is the sum over appointments of the price when completed and priced (zero otherwise), plus the sum of all sale totals. |
| `ClientHistory.TotalSpentAppend` | src/components/modals/ClientHistoryModal.tsx:95-98 | Total spent splits over any split of the appointments and the sales into two parts. |
| `ClientHistory.VisitContribution` | src/components/modals/ClientHistoryModal.tsx:96-97 | Wherever it sits in the list, an appointment that is not completed, or has a null or zero price, adds nothing. A completed, priced one adds exactly its price. |
| `ClientHistory.AddSale` | src/components/modals/ClientHistoryModal.tsx:98 | One more sale raises total spent by exactly that sale's total. |
| `ClientHistory.CompletedCount` | src/components/modals/ClientHistoryModal.tsx:131-140 | The completed count never exceeds the appointment count. It equals that count exactly when every appointment is completed, and it is zero exactly when none is. |
| `ClientHistory.CompletedCountIsTally` | src/components/modals/ClientHistoryModal.tsx:140 | The completed count equals a one-by-one tally over the appointments: one for each completed appointment and zero for any other. |
| `ClientHistory.FormatTime` | src/components/modals/ClientHistoryModal.tsx:75-77 | A string of five or more characters becomes its first five ("HH:MM:SS" becomes "HH:MM"). A shorter string is returned unchanged. |
| `ClientHistory.FormatTimeFacts` | src/components/modals/ClientHistoryModal.tsx:75-77 | Formatting twice is the same as formatting once. An eight-character clock time is its formatted `HH:MM` followed by the remaining `:SS`. |
| `ClientHistory.StatusColor` | src/components/modals/ClientHistoryModal.tsx:86-93 | "scheduled", "completed" and "cancelled" each get their own class, exactly those statuses get them, and every other status gets the gray default. |
| `Text.IncludesIsSubstring` | src/pages/Services.tsx:80-81 | The position-by-position `includes` search answers exactly whether the needle occurs somewhere in the string, in both directions. |
| `Text.ToLowerIdempotent` | src/pages/Services.tsx:80 | Lower-casing a lower-cased string changes nothing. |
| `ServiceSearch.MatchesIsFound` | src/pages/Services.tsx:79-81 | The filter callback accepts a service exactly when the lower-cased term occurs in its lower-cased name, or in its lower-cased category when that is not null. |
| `ServiceSearch.Search` | src/pages/Services.tsx:74-85 | An empty term gives exactly the full list. A non-empty term gives an order-preserving sub-list that keeps every copy of what it keeps. A service is in it exactly when the term is found in its name or its present category. |
| `ServiceSearch.EmptyTermFilterAgrees` | src/pages/Services.tsx:75-82 | The empty-term shortcut returns what the filter would have returned anyway. |
| `ServiceSearch.CaseInsensitive` | src/pages/Services.tsx:80-81 | Two terms with the same lower-case form give the same result. |
| `ServiceSearch.NullCategoryByName` | src/pages/Services.tsx:81 | A service with a null category is found exactly when the term occurs in its name. |
| `ServiceSearch.SearchIdempotent` | src/pages/Services.tsx:78-83 | Searching the result again with the same term returns it unchanged. |
| `Lists.UpdateWhere` | src/pages/WhatsAppIntegration.tsx:125-127 | A `map` that rewrites the matching records keeps the length and the order. It rewrites exactly the matching records and keeps the others. |
| `WhatsApp.ToggleFlow` | src/pages/WhatsAppIntegration.tsx:124-127 | The length is preserved. A flow's `active` flips exactly when its id matches. No other field of any flow changes. |
| `WhatsApp.ToggleFlowTwice` | src/pages/WhatsAppIntegration.tsx:124-127 | Toggling the same id twice restores the flow list. |
| `WhatsApp.ToggleFlowAbsent` | src/pages/WhatsAppIntegration.tsx:125-126 | Toggling an id that no flow carries leaves the list unchanged. |
| `WhatsApp.ToggleFlowCommutes` | src/pages/WhatsAppIntegration.tsx:124-127 | Toggling two ids gives the same list in either order. |
| `WhatsApp.ToggleFaq` | src/pages/WhatsAppIntegration.tsx:134-137 | The length is preserved. An FAQ's `active` flips exactly when its id matches. No other field of any FAQ changes. |
| `WhatsApp.ToggleFaqTwice` | src/pages/WhatsAppIntegration.tsx:134-137 | Toggling the same id twice restores the FAQ list. |
| `WhatsApp.ToggleFaqAbsent` | src/pages/WhatsAppIntegration.tsx:135-136 | Toggling an id that no FAQ carries leaves the list unchanged. |
| `WhatsApp.StatusColor` | src/pages/WhatsAppIntegration.tsx:144-151 | "respondida", "pendente" and "finalizada" each get their own class, exactly those statuses get them, and anything else gets the gray default. |

## Left out

- Data-store I/O: every select, insert, update and delete, the `update_product_stock` call per sold product, and the history and catalogue loaders. They are calls into a hosted service. The model starts from the loaded lists and ends with the rows that would be written.
- React machinery (`useState`, `useEffect`, `watch`, `setValue`), toasts, dialogs and JSX layout. State updates are modelled as pure functions from the old list to the new one.
- JavaScript `Date` time zones. `new Date("YYYY-MM-DD")` is UTC midnight, while `getDay`, `getDate` and `toTimeString` are local; `toISOString` is UTC. The model uses naive day numbers throughout, so a week start that is off by one day in a negative-offset zone is not represented. Parsing a `'T'` date-time is a parameter of `AppointmentsForSlot`. An unparsable `selectedDate` (an Invalid Date window) is not modelled; the cell lookup's invalid-date branch is.
- `isToday` / `isSelected` highlighting, the pt-BR text of the header and of the day labels, and the slot-click callback. These are presentation only. The model keeps which header form is chosen, not its text.
- Calendar.ToCivil: the model does not prove that it inverts `FromCivil` or that its month always lies in 1..12. Only the concrete dates in `AugustWeek` and `NewYearWeek` are checked. The header lemmas compare `getMonth` values whatever they are, so they do not depend on this.
- Floating-point money: amounts are integer cents. `toFixed`, `Intl.NumberFormat`, `Number(...)` conversions and fractional quantities are not modelled.
- SaleForm.ChooseProduct: requires the line index to name an existing line. The handler is only bound to rendered lines (SaleForm.tsx:277-285); writing to a missing index through `setValue` is not modelled.
- SaleForm.ChooseService: requires the line index to name an existing line. Its handler (SaleForm.tsx:115-122) has no caller in the form, which renders only a product select, so no index is ever passed to it; the model keeps it so that the exclusivity lemma covers both handlers.
- The schema's error messages and error paths. Validity is modelled as a predicate, without the list of issues zod would report.
- Text.Take: counts Unicode code points, where JavaScript's `slice` counts UTF-16 code units; they differ only on strings with characters outside the Basic Multilingual Plane, which the time strings it is applied to never contain.
- Text.ToLower: only ASCII letters and the Latin-1 capitals U+00C0 to U+00DE (without U+00D7) are lowered. Other Unicode case mappings, including those that change the length of a string, are not modelled.
- A null appointment status is treated like any status string that is not listed. Both the completed count and the badge colour treat it that way.
- The WhatsApp webhook configuration and the static sample data of that page.
- Appointment duration aggregation over several services, end-time computation and the appointment status lifecycle. The code has none of them: the appointment form stores a single service and a typed end time.
