# QuikBill core in Dafny

QuikBill is a desktop point-of-sale application for a small shop. Items are
added to a bill by barcode scan or as weighed loose items. Line quantities
are adjusted and the bill is finished: it is saved and printed on a thermal
receipt printer. Bills can be sent over WhatsApp, summarised in a sales
report and protected by admin settings.

This project models the business rules buried in those screens and proves
them:

- `CreateBill` holds the bill-in-progress engine of the create-bill screen.
  The open bill is a class whose list of lines and running totals change in
  place. Each operation is proved against a specification function on
  sequences of lines. The invariant it keeps: every line's subtotal equals
  quantity times unit price, barcode lines are unique, the totals agree with
  the lines, and the weight stays 0.
  - The barcode catalogue and the bill store are the `Store` class. It is a
    map from barcode to name and price, plus a save that appends the bill
    with the next row id.
- `Bills` holds the bill line and saved-bill records and the sum of
  subtotals.
- `Printer` holds the receipt layout of the thermal printer as a pure list
  of lines. It also holds the connection flags, and a log of the lines sent
  to the device.
- `WhatsApp` holds the phone-number normaliser and the enable and disable
  state of the send dialog.
- `SalesReport` holds:
  - the summary;
  - the daily trend, built by a grouping loop, a day-filling loop and a sort;
  - the twelve-bar monthly series, as the window computes it and, beside it, the corrected series of the finding below;
  - bar labels and category shares;
  - the date-range window.
- `Admin` holds:
  - e-mail masking;
  - the one-time-password dialog with its resend countdown;
  - the password forms;
  - the credentials toggle.
- `Text` holds whitespace stripping, padding and decimal rendering. `Wrappers`
  holds `Option`.

Money and quantities are `real`. Several outside effects are parameters:

- the clock and `:.2f` formatting;
- whether a device opens and at which line it fails;
- whether a mail is delivered;
- the credential check and the record update;
- the report queries and the calendar conversions.

## Model

| member | source | states |
|---|---|---|
| CreateBill.Store.GetBarcodeItem | data_base/database.py:154-171 | Looking up a barcode yields the catalogued name and price, or nothing for an unknown code |
| CreateBill.Store.SaveBill | data_base/database.py:305-329 | The bill is appended with an id that no earlier bill has; the ids stay the row numbers |
| CreateBill.Store.constructor | data_base/database.py:154-171 | The store starts with the given barcode catalogue and no saved bills |
| CreateBill.CustomerInfoDialog.AcceptInput | billing_tabs/create_bill.py:56-64 | The name and phone are stored stripped; the dialog accepts exactly when the name is not blank, so an accepted dialog carries a non-blank name |
| CreateBill.CustomerInfoDialog.constructor | billing_tabs/create_bill.py:16-25 | A new dialog has an empty name and phone and is not accepted |
| CreateBill.WithQuantity | billing_tabs/create_bill.py:547-549 | A quantity change recomputes the subtotal as quantity times unit price and keeps the name, price, type and barcode |
| CreateBill.BarcodeIndex | billing_tabs/create_bill.py:402-403 | Finds the first barcode line with the scanned code, or reports that no line carries it |
| CreateBill.Scanned | billing_tabs/create_bill.py:394-420 | A scan adds at most one line and changes no line of another code; its cases are RepeatScanMerges, FirstScanAppends and UnknownBarcodeNoChange |
| CreateBill.AddedLoose | billing_tabs/create_bill.py:422-437 | A loose entry appends exactly one line and keeps the lines before it; LooseAlwaysAppends describes the new line |
| CreateBill.Increased | billing_tabs/create_bill.py:512-517 | + keeps the line count and touches no other row; IncreaseTotal gives the new quantity and total |
| CreateBill.Decreased | billing_tabs/create_bill.py:519-531 | - keeps the line count and touches no other row; DecreaseFloor gives the new quantity and total |
| CreateBill.Edited | billing_tabs/create_bill.py:533-550 | An edit keeps the line count and touches no other row |
| CreateBill.Removed | billing_tabs/create_bill.py:552-556 | Remove drops one line for a row in range and none otherwise; RemoveKeepsOrder gives the rest |
| CreateBill.FindBarcodeLine | billing_tabs/create_bill.py:402-407 | The search loop over the bill finds exactly the line `BarcodeIndex` names |
| CreateBill.ScanKeepsLinesValid | billing_tabs/create_bill.py:402-420 | After a scan every line's subtotal is still quantity times unit price |
| CreateBill.EditsKeepLinesValid | billing_tabs/create_bill.py:422-556 | After a loose entry, +, -, edit or remove every subtotal is still quantity times unit price |
| CreateBill.RepeatScanMerges | billing_tabs/create_bill.py:402-407 | Scanning a code already on the bill adds 1 to that line, recomputes its subtotal, keeps the line count and leaves every other line alone |
| CreateBill.FirstScanAppends | billing_tabs/create_bill.py:409-419 | Scanning a catalogued code not on the bill appends one barcode line with quantity 1 and subtotal equal to the price |
| CreateBill.UnknownBarcodeNoChange | billing_tabs/create_bill.py:396-399 | An unknown barcode leaves the bill unchanged |
| CreateBill.ScanKeepsUnique | billing_tabs/create_bill.py:394-420 | Scans never create two barcode lines with the same barcode |
| CreateBill.EditsKeepUnique | billing_tabs/create_bill.py:422-556 | Loose entries, +, -, edit and remove keep barcode lines unique |
| CreateBill.LooseAlwaysAppends | billing_tabs/create_bill.py:428-436 | The appended line is a loose line with the chosen name, quantity and price per kg, even when an equal line exists |
| CreateBill.IncreaseTotal | billing_tabs/create_bill.py:512-517 | + raises the line by 1 (barcode) or 0.1 (loose) and the bill total by that step times the unit price |
| CreateBill.DecreaseFloor | billing_tabs/create_bill.py:519-531 | - lowers a line by its step only when the quantity exceeds the step, so quantities stay positive and a whole barcode quantity stays at least 1; the total drops by the step's price |
| CreateBill.RemoveKeepsOrder | billing_tabs/create_bill.py:552-556 | Remove deletes exactly the indexed line, keeps the others in order and lowers the total by its subtotal |
| CreateBill.OutOfRangeNoChange | billing_tabs/create_bill.py:512-556 | +, -, edit and remove with a row past the end change nothing |
| CreateBill.BillTotals | billing_tabs/create_bill.py:443-507 | The totals loop yields the sum of the subtotals and the number of lines, not the sum of quantities |
| CreateBill.CreateBillWindow.constructor | billing_tabs/create_bill.py:258-262 | A new screen has an empty bill, zero totals and zero weight |
| CreateBill.CreateBillWindow.UpdateBillDisplay | billing_tabs/create_bill.py:439-510 | The refresh leaves the totals equal to the sum of subtotals and the line count |
| CreateBill.CreateBillWindow.OnBarcodeInput | billing_tabs/create_bill.py:381-384 | The buffer holds the latest scanner text |
| CreateBill.CreateBillWindow.ProcessBarcode | billing_tabs/create_bill.py:386-392 | The timeout scans the stripped buffer when it is not blank and then clears it; a blank buffer changes nothing |
| CreateBill.CreateBillWindow.AddBarcodeItem | billing_tabs/create_bill.py:394-420 | The bill becomes the scan of the old bill; the result says whether the code was catalogued; the invariant is kept |
| CreateBill.CreateBillWindow.AddLooseItems | billing_tabs/create_bill.py:422-437 | A completed selection appends its loose line; a cancelled one changes nothing |
| CreateBill.CreateBillWindow.IncreaseQuantity | billing_tabs/create_bill.py:512-517 | The bill becomes the increased bill, with the totals refreshed |
| CreateBill.CreateBillWindow.DecreaseQuantity | billing_tabs/create_bill.py:519-531 | The bill becomes the decreased bill, with the totals refreshed |
| CreateBill.CreateBillWindow.EditItem | billing_tabs/create_bill.py:533-550 | An entered quantity in 0.01..999.99 replaces the line's quantity and subtotal; a cancelled entry or bad row changes nothing |
| CreateBill.CreateBillWindow.RemoveItem | billing_tabs/create_bill.py:552-556 | The bill becomes the bill without that row, with the totals refreshed |
| CreateBill.CreateBillWindow.TryPrint | billing_tabs/create_bill.py:589-603 | Connects over USB and prints: printed only when the device opens and accepts every line, not connected only when it does not open; the device receives the receipt lines |
| CreateBill.CreateBillWindow.FinishBill | billing_tabs/create_bill.py:558-607 | An empty bill or a cancelled customer dialog saves nothing. Otherwise the bill is saved once, with its totals and weight 0 and a non-blank customer name. When the USB device opens, the receipt of exactly that saved bill is sent to it, up to the line where the device fails; otherwise nothing is printed. The bill is then cleared whatever the print result |
| Bills.SumSubtotalsAppend | billing_tabs/create_bill.py:446-507 | The sum of subtotals of two bills joined is the sum of the two sums |
| Bills.SumSubtotalsUpdate | billing_tabs/create_bill.py:515-516 | Replacing one line changes the total by the difference of the subtotals |
| Bills.SumSubtotalsRemove | billing_tabs/create_bill.py:555 | Deleting a line lowers the total by its subtotal |
| Printer.TruncateName | billing_tabs/thermal_printer.py:82-84 | Names over 18 characters become their first 15 plus "..." (18 in all); shorter names are unchanged |
| Printer.QuantityUnit | billing_tabs/thermal_printer.py:86-88 | The quantity gets "kg" only for loose items |
| Printer.ItemLine | billing_tabs/thermal_printer.py:90-93 | An item line is at least 32 characters: 18 for the name, 4 for the quantity, 8 for the price and two spaces; ItemLineColumns places the columns |
| Printer.ItemLineColumns | billing_tabs/thermal_printer.py:90-93 | An item line starts with the name padded to 18 columns, followed by a space, and ends with the rupee sign and the amount, right-aligned |
| Printer.ItemLines | billing_tabs/thermal_printer.py:81-93 | One item line per bill item, in bill order |
| Printer.ReceiptLines | billing_tabs/thermal_printer.py:58-107 | The receipt has 16 lines plus one per item, one for a customer phone and one for a positive weight; it opens with the shop name and ends with "Visit us again!"; ReceiptLayout places the rest |
| Printer.Join | billing_tabs/thermal_printer.py:58-107 | Each line is followed by a newline: the text starts with the first line and ends with the last, each with its newline |
| Printer.ReceiptLayout | billing_tabs/thermal_printer.py:58-107 | The receipt opens with the shop name, address and phone, the bill ID, the date and the customer. The phone line is present only for a customer phone and the weight line only for a positive weight. The item lines follow bill order, the totals and five separators sit at fixed places, and "Thank you for shopping!" comes just before the closing line |
| Printer.ReceiptHead | billing_tabs/thermal_printer.py:62-78 | Lines 1 to 9 (10 with a customer phone) are the shop address and phone, a separator, the bill ID, the date, the customer, the optional phone, and the column titles between separators |
| Printer.ReceiptItems | billing_tabs/thermal_printer.py:80-93 | After the header come the item lines, one per bill item in bill order |
| Printer.ReceiptTail | billing_tabs/thermal_printer.py:95-104 | After the item lines come a separator, the item count, the optional weight, the total, a separator and "Thank you for shopping!" |
| Printer.SeparatorIsDashes | billing_tabs/thermal_printer.py:66-103 | Every separator is exactly 32 dashes |
| Printer.Delivered | billing_tabs/thermal_printer.py:109-175 | A device that fails at line k has received the lines before k |
| Printer.ThermalPrinter.constructor | billing_tabs/thermal_printer.py:8-13 | A new printer is disconnected with the default shop texts |
| Printer.ThermalPrinter.ConnectUsbPrinter | billing_tabs/thermal_printer.py:15-23 | Connected with the USB device only when it opens; a failed open leaves the state as it was |
| Printer.ThermalPrinter.ConnectSerialPrinter | billing_tabs/thermal_printer.py:25-33 | Same rule for a serial device |
| Printer.ThermalPrinter.ConnectNetworkPrinter | billing_tabs/thermal_printer.py:35-43 | Same rule for a network device |
| Printer.ThermalPrinter.TestConnection | billing_tabs/thermal_printer.py:45-56 | Without a connection it fails and sends nothing; otherwise it sends "Test" and cuts, succeeding only when the device does not fail |
| Printer.ThermalPrinter.FormatBillReceipt | billing_tabs/thermal_printer.py:58-107 | The receipt text opens with the shop name line and closes with "Visit us again!" and a newline |
| Printer.ThermalPrinter.PrintBill | billing_tabs/thermal_printer.py:109-175 | Without a connection it fails and sends nothing. Otherwise the device receives the receipt lines (up to a failure) and the paper is cut only on success |
| Printer.ThermalPrinter.PrintTestPage | billing_tabs/thermal_printer.py:177-195 | The same guard and delivery for the test page |
| Printer.ThermalPrinter.CloseConnection | billing_tabs/thermal_printer.py:197-204 | Always ends disconnected with no device, even if closing fails |
| WhatsApp.Clean | billing_tabs/whatsapp_dialog.py:192 | Keeps only digits and '+', never lengthening the text |
| WhatsApp.CleanKeeps | billing_tabs/whatsapp_dialog.py:192 | Text of digits and '+' is left as it is |
| WhatsApp.CleanDrops | billing_tabs/whatsapp_dialog.py:192 | Any character other than a digit or '+' is removed |
| WhatsApp.CleanAppend | billing_tabs/whatsapp_dialog.py:192 | Cleaning works character by character, so it distributes over concatenation |
| WhatsApp.CleanIdempotent | billing_tabs/whatsapp_dialog.py:192 | Cleaning twice is cleaning once |
| WhatsApp.ValidateCases | billing_tabs/whatsapp_dialog.py:189-205 | '+' with at least 10 characters is kept; "91" with at least 12 gets '+'; 10 characters get "+91"; exactly the remaining cleaned texts are rejected |
| WhatsApp.ValidateRejects | billing_tabs/whatsapp_dialog.py:205 | 5 or 11 characters without '+', and '+' with fewer than 10 characters, are rejected |
| WhatsApp.TenDigitsGetCountryCode | billing_tabs/whatsapp_dialog.py:202-203 | A 10-character number not starting with '+' becomes "+91" followed by it |
| WhatsApp.ValidatePhoneNumber | billing_tabs/whatsapp_dialog.py:189-205 | An accepted number starts with '+', has only digits and '+', and is at least 10 long; ValidateCases gives each case (the cleaned text, with '+' or "+91" in front) and exactly which texts are rejected |
| WhatsApp.ValidateIdempotent | billing_tabs/whatsapp_dialog.py:192-203 | Validating an accepted number again returns it unchanged |
| WhatsApp.LocalNumberExample | billing_tabs/whatsapp_dialog.py:202-203 | "9876543210" becomes "+919876543210" |
| WhatsApp.InternationalNumberExample | billing_tabs/whatsapp_dialog.py:195-196 | "+919876543210" is returned as it is |
| WhatsApp.ShortNumberExample | billing_tabs/whatsapp_dialog.py:205 | "12345" is rejected |
| WhatsApp.WhatsAppDialog.constructor | billing_tabs/whatsapp_dialog.py:45-57 | A new dialog has an empty number and image path, is not sending and is not accepted |
| WhatsApp.WhatsAppDialog.CaptureBillImage | billing_tabs/whatsapp_dialog.py:207-240 | Succeeds exactly when the image is saved; the chosen path is recorded whenever rendering got that far |
| WhatsApp.WhatsAppDialog.SendWhatsapp | billing_tabs/whatsapp_dialog.py:242-291 | A blank or invalid number stops before capture and sending, with the number, the save choice and the image kept. A failed capture hides the progress bar. Only a captured image starts the sender, with both buttons disabled |
| WhatsApp.WhatsAppDialog.OnWhatsappFinished | billing_tabs/whatsapp_dialog.py:293-311 | Both buttons are enabled again on success and on failure; only success removes the image and closes the dialog; the number, the image path and the save choice returned with the customer data are kept |
| SalesReport.Summarize | billing_tabs/sales_report.py:693-696 | Revenue is the sum of amounts, the count is the number of bills, items are summed; average times count is the revenue, and an empty range gives zeros |
| SalesReport.RevenueBounds | billing_tabs/sales_report.py:693-694 | With every amount between two bounds, the revenue lies between count times each bound |
| SalesReport.AverageBounds | billing_tabs/sales_report.py:696 | The average bill value lies between the smallest and largest bill bounds |
| SalesReport.GroupSum | billing_tabs/sales_report.py:818-824 | The grouping loop has one entry per key present, holding the revenue of that key's bills |
| SalesReport.Range | billing_tabs/sales_report.py:826-831 | The days of a range are exactly those from its start to its end inclusive |
| SalesReport.FillRange | billing_tabs/sales_report.py:826-831 | Every day from start to end inclusive is present; missing days get 0 and existing days are kept |
| SalesReport.SortedEntries | billing_tabs/sales_report.py:834 | The entries come out in strictly ascending date order, one per key, with their amounts |
| SalesReport.DailyTrend | billing_tabs/sales_report.py:815-838 | Ascending, one entry per day with bills or in the range, each holding that day's revenue, and together adding up to the revenue |
| SalesReport.TrendTotal | billing_tabs/sales_report.py:819-831 | Entries with distinct keys covering every bill, each holding its key's revenue, add up to the total revenue |
| SalesReport.NewestMonth | billing_tabs/sales_report.py:893-895 | The latest month is found exactly when there are bills, and it is their latest month |
| SalesReport.MaxMonth | billing_tabs/sales_report.py:893-897 | The latest month is the month of some bill and no bill is in a later month |
| SalesReport.BackMonths | billing_tabs/sales_report.py:899-904 | As written: twelve months, the j-th being the month of the day 30 × (11 - j) days before the latest day |
| SalesReport.MonthBars | billing_tabs/sales_report.py:906-911 | One bar per month in order, labelled by the calendar and holding that month's revenue, or 0 when it has none |
| SalesReport.MonthlyComparison | billing_tabs/sales_report.py:882-918 | As written: always 12 bars, counted back from the latest month in 30-day steps, each with its month's revenue and 0 for a month without sales |
| SalesReport.MonthsOldestFirst | billing_tabs/sales_report.py:898-903 | With a calendar whose months never go backwards, the bars run oldest to newest |
| SalesReport.ThirtyDayStepsSkipMonth | billing_tabs/sales_report.py:898-903 | With the latest month being March of a common year, February never gets a bar |
| SalesReport.LastTwelveMonths | billing_tabs/sales_report.py:899-904 | Corrected: the twelve consecutive months ending at the latest month, oldest first |
| SalesReport.MonthlyByCalendar | billing_tabs/sales_report.py:882-918 | Corrected: 12 bars for the consecutive months ending at the latest month, each with its revenue; when the bills fall within them the bars add up to the revenue |
| SalesReport.MonthBarsTotal | billing_tabs/sales_report.py:905-911 | Consecutive monthly bars that cover every bill's month add up to the revenue |
| SalesReport.LatestBarsTotal | billing_tabs/sales_report.py:905-911 | Twelve bars ending at the latest month add up to the revenue when no bill is older than the first of them |
| SalesReport.TruncateLabel | billing_tabs/sales_report.py:244-245 | Labels longer than 15 characters become their first 15 plus "..." |
| SalesReport.LookupLast | billing_tabs/sales_report.py:240 | The value for a label is that of its last bar, or absent when no bar carries it |
| SalesReport.CreateBarChart | billing_tabs/sales_report.py:227-246 | No data draws the placeholder. With fixed labels the values follow the label order, defaulting to 0. Otherwise labels are truncated and the values kept |
| SalesReport.FixedOwnLabels | billing_tabs/sales_report.py:238-242 | Using the bars' own labels as the fixed labels keeps every value when equal labels carry equal values |
| SalesReport.CategorySales | billing_tabs/sales_report.py:987-995 | Each category has share revenue / total × 100, or 0 when the total is not positive. "Barcode Items" is appended only when its revenue is present and non-zero |
| SalesReport.SharesAddUpTo100 | billing_tabs/sales_report.py:987-995 | When the total is the categories' own positive revenue, the shares add up to 100 |
| SalesReport.NoTotalNoShare | billing_tabs/sales_report.py:988-993 | A non-positive total gives every category 0 percent |
| SalesReport.SalesReportWindow.constructor | billing_tabs/sales_report.py:324-337 | The window opens on the last 30 days and shows them as LoadReportData does; with no bills in them there is no export data |
| SalesReport.SalesReportWindow.LoadReportData | billing_tabs/sales_report.py:679-743 | An empty range resets the summary to zeros, clears the charts and keeps the old export data. Otherwise it sets the summary; the daily trend, ascending, one entry per day with bills or in the range, each holding that day's revenue; the 12 monthly bars as written, bar j holding the month reached by 11 - j 30-day steps back from the latest month; and the export data, whose category rows follow the category query and then the barcode share of the shown total |
| SalesReport.SalesReportWindow.SetDateRange | billing_tabs/sales_report.py:647-666 | Today, this week and this month set end to today and start to today, the week's Monday or the month's first day, so start ≤ end; an unknown range keeps the dates; the report is then reloaded, with everything LoadReportData states |
| SalesReport.SalesReportWindow.UpdateDateRange | billing_tabs/sales_report.py:668-677 | The entered dates are stored first; a start after the end stops the reload and leaves the report as it was; otherwise the report is reloaded, with everything LoadReportData states |
| Admin.IndexOf | billing_tabs/admin_settings.py:926 | Finds the first '@', or reports that there is none |
| Admin.IndexOfFirst | billing_tabs/admin_settings.py:926 | The split happens at the first '@': any position of '@' with none before it is the one found |
| Admin.Stars | billing_tabs/admin_settings.py:927-930 | A run of n stars is n characters, all '*' |
| Admin.MaskLocal | billing_tabs/admin_settings.py:927-930 | A local part of at most 2 characters becomes all stars; a longer one keeps its first 2 and stars the rest; the length is kept |
| Admin.MaskEmail | billing_tabs/admin_settings.py:923-931 | The masked address always holds an '@', and one with '@' keeps its length; MaskShape and MaskWithoutAt give the two cases |
| Admin.MaskWithoutAt | billing_tabs/admin_settings.py:924-925 | An address without '@' (the empty one included) becomes "***@***" |
| Admin.PlaceholderMasked | billing_tabs/admin_settings.py:924-925 | The placeholder "***@***" masks to itself |
| Admin.MaskShape | billing_tabs/admin_settings.py:926-931 | The length is kept, the first '@' stays in place, everything after it is kept verbatim and only the local part is masked |
| Admin.MaskLocalNoAt | billing_tabs/admin_settings.py:927-930 | Masking a local part introduces no '@', so the first '@' of the result is the original one |
| Admin.MaskLocalIdempotent | billing_tabs/admin_settings.py:927-930 | Masking a masked local part changes nothing |
| Admin.MaskIdempotent | billing_tabs/admin_settings.py:923-931 | Masking a masked address changes nothing |
| Admin.OtpCodeShape | billing_tabs/admin_settings.py:943 | Every code drawn from 100000..999999 is six digits that read back as the number |
| Admin.GenerateOtp | billing_tabs/admin_settings.py:943 | The code is six digits whose value lies in 100000..999999, and it is that value's decimal text |
| Admin.ForgotPasswordDialog.constructor | billing_tabs/admin_settings.py:856-870 | No code, not valid, countdown at 60, button "Send OTP" |
| Admin.ForgotPasswordDialog.SendOtp | billing_tabs/admin_settings.py:939-973 | With no e-mail the code, the button and the countdown are kept. Otherwise a fresh six-digit code in 100000..999999 is drawn and marked valid before the mail. Only a delivered mail shows the code field and "Confirm" and starts both timers, the countdown at 59 after its immediate first tick; a failed mail keeps the button, field and countdown |
| Admin.ForgotPasswordDialog.UpdateResendText | billing_tabs/admin_settings.py:975-983 | Above 1 the countdown drops by one and is shown; at 1 or below it stops and the resend link appears |
| Admin.ForgotPasswordDialog.EnableResend | billing_tabs/admin_settings.py:985-989 | The one-minute timer offers the resend link |
| Admin.ForgotPasswordDialog.ResendOtp | billing_tabs/admin_settings.py:991-993 | The button reads "Resend OTP" and a new code is sent, with everything SendOtp states: a drawn, valid code, and on a delivered mail "Confirm" again with the countdown restarted at 59 |
| Admin.ForgotPasswordDialog.ConfirmOtp | billing_tabs/admin_settings.py:998-1004 | Succeeds exactly when the stripped input is the current code and the code is valid; success uses the code up, so a code works at most once |
| Admin.ForgotPasswordDialog.HandleSendOrConfirm | billing_tabs/admin_settings.py:933-937 | While the button reads "Send OTP" or "Resend OTP" it sends, with everything SendOtp states, and confirms nothing; while it reads "Confirm" it accepts exactly a stripped input equal to the valid code, which then stops being valid; a rejected input leaves the code's validity and the dialog open; the code, button and countdown are left alone |
| Admin.ChangePasswordDialog.ChangePassword | billing_tabs/admin_settings.py:840-852 | Accepted exactly when no field is blank after stripping and the new password equals its confirmation; only then are the passwords stored |
| Admin.ChangePasswordDialog.constructor | billing_tabs/admin_settings.py:739-747 | A new form holds empty passwords and is not accepted |
| Admin.NewPasswordDialog.SetPassword | billing_tabs/admin_settings.py:1061-1086 | Both fields filled and equal after stripping, and the update succeeding, store the new password and accept; otherwise nothing changes |
| Admin.NewPasswordDialog.constructor | billing_tabs/admin_settings.py:1008-1014 | A new form holds no password and is not accepted |
| Admin.AdminStore.constructor | billing_tabs/admin_settings.py:323-324 | The stored admin record is the one given |
| Admin.CredentialsDialog.AcceptCredentials | billing_tabs/admin_settings.py:124-133 | Username and password are stored stripped; the dialog accepts exactly when neither is blank |
| Admin.CredentialsDialog.constructor | billing_tabs/admin_settings.py:14-24 | A new dialog has an empty username and password and is not accepted |
| Admin.AdminSettingsWindow.constructor | billing_tabs/admin_settings.py:318-326 | The window shows the admin record read from the store |
| Admin.AdminSettingsWindow.ToggleCredentials | billing_tabs/admin_settings.py:648-671 | The credentials requirement flips only when the dialog was accepted, the credentials verify and the update succeeds, and the store then holds every field passed to the update; otherwise nothing changes |
| Text.Strip | billing_tabs/create_bill.py:57-58 | Stripping never lengthens a text and leaves no whitespace at either end; StripParts gives what it removes |
| Text.StripStartSuffix | billing_tabs/create_bill.py:57-58 | Stripping the front removes a run of whitespace and keeps the rest |
| Text.StripEndPrefix | billing_tabs/create_bill.py:57-58 | Stripping the back removes a run of whitespace and keeps the rest |
| Text.StripParts | billing_tabs/create_bill.py:57-58 | The input is whitespace, then the stripped text, then whitespace |
| Text.StripBlank | billing_tabs/create_bill.py:60 | A text strips to empty exactly when it is all whitespace |
| Text.DecimalRoundTrip | billing_tabs/thermal_printer.py:69 | A number's decimal rendering reads back as the number |
| Text.DecimalLength | billing_tabs/admin_settings.py:943 | A number between 10^(k-1) and 10^k has k digits |

## Left out

- Floating point. Money and quantities are exact reals, so the rounding error that repeated ±0.1 steps accumulate is not modelled. `:.2f` formatting is an abstract function.
- Unicode. Whitespace is the set that Python's `str.strip()` removes: tab to carriage return, 0x1C..0x1F, the space and the Unicode space and line-separator characters. Digits are '0'..'9'. The two-decimal label parse-back of the report total is an abstract function.
- WhatsApp.Clean: keeps only the ASCII digits and '+'. The pattern's `\d` also matches other Unicode decimal digits, such as Devanagari ones, and those are not modelled.
- CreateBill.DecreaseFloor: "a barcode quantity never goes below 1" is proved only for whole quantities. The edit dialog accepts fractional quantities such as 1.5, and one step down from 1.5 gives 0.5.
- CreateBill.CreateBillWindow.FinishBill: an exception raised while printing is modelled as the device failing at some line. Whatever reaches the device before that is recorded.
- The SQL itself:
  - the report queries are functions of the date range;
  - the top-items queries and charts are not modelled;
  - `get_bills_by_date_range`, `get_admin_details`, `verify_admin_credentials` and `update_admin_details`, which data_base/database.py does not define, are parameters.
- Qt and matplotlib rendering: styles, message boxes, focus, chart drawing and the `int(value)` bar annotations.
- Timers are not real time. The 500 ms debounce is "the buffer holds the latest text; the timeout processes it", and the OTP and countdown timers are explicit ticks.
- Qt signal connections made repeatedly (the resend link, the OTP text-changed hook) are not modelled.
- WhatsApp:
  - the browser-automation sender thread is represented by its completion signal;
  - image capture is an outcome parameter;
  - the saved-customer record is only the flag.
- Mail delivery, the random generator and the mail account: the code is a nondeterministic choice in range and delivery is a parameter.
- Printer transport (USB, serial, network) is not modelled: opening is a parameter, and the printer's alignment and bold settings are not recorded.
- SalesReport.SalesReportWindow.LoadReportData: an exception in a chart step, after the summary labels are set, is not modelled.
- SalesReport.MonthlyComparison: date arithmetic is abstract. A day is a number, and the calendar supplies the month of a day, a month's first day and its label.
- Admin.AdminSettingsWindow.ToggleCredentials: the stored mail address after the update is not stated. The window does not pass it to `update_admin_details`, and data_base/database.py does not define that function.
- `change_credentials`, the shop-details editor, the paper-width and print-demo buttons, and the forgot-password chaining are not part of this model.
- The inventory, bill history, login, home dashboard, main and database-reset files are not part of this model. They are form and CRUD glue.

## Findings

| source | as written | input that shows it | evidently intended | confidence | as-written member | corrected member |
|---|---|---|---|---|---|---|
| billing_tabs/sales_report.py:898-903 | The twelve months are found by stepping back 30 days at a time from the first day of the latest month | Latest bill in March 2025: March 1 minus 30 days is January 30, so February 2025 gets no bar (and another month is shown twice elsewhere in the year) | The twelve consecutive calendar months ending at the latest month, as the chart's "last 12 months" description says | medium, not executed | SalesReport.ThirtyDayStepsSkipMonth | SalesReport.MonthlyByCalendar |
