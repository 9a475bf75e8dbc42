# Freelance ledger — a Dafny model

This project models the rules at the heart of a freelancer's workspace: a
Flask back end and a React front end that together track clients,
projects, time entries, invoices, documents and a public portfolio. The
model covers the parts of that workspace with real rules in them:

- **The back end's routes.** They cover invoices, time entries, projects,
  clients, documents, the portfolio and the account. Each is a method
  over one `Ledger.Database` object whose maps (id → row) stand in for
  the tables. The method takes the parsed request body as a record of
  optional fields. It returns `Ok(row)` or `Err(status, message)`, and it
  changes the tables the way the route's commits do.
- **The two model files.** These are the invoice and invoice-line totals
  and `to_dict`, and the project totals, defaults and `to_dict`.
- **The browser session.** The token, the signed-in user, the `loading`
  flag, the stored token and the `Authorization` header. It is a class
  whose methods take the server's answer as a parameter, beside pure
  transition functions that state what each step does.
- **The portfolio reducer.** A pure function over a record.
- **The pages with rules in them.** The invoice editor's rows; the
  invoice list and the invoice page, with their overdue relabel,
  status-gated actions and reloads; the time log's filter query, its
  per-day grouping and its sections; and the client list's search,
  delete and form.

Dates are modelled as Python's proleptic Gregorian dates (years 1 to
9999), with `isoformat` and `strptime('%Y-%m-%d')` written out. Money and
hours are `real`. "Today", the server's answers, the random part of a
file name and the browser's number parser are parameters.

## Model

| member | source | states |
|---|---|---|
| `AuthSession.HeaderFor` | frontend/src/contexts/AuthContext.jsx:23-27 | A header is set exactly when the token is truthy, and it is `Bearer ` followed by that token. |
| `AuthSession.Mounted` | frontend/src/contexts/AuthContext.jsx:15-28 | On mount, the token is the stored one when that is truthy. There is no user yet, loading is on, and the session is consistent: the header mirrors the token. |
| `AuthSession.AfterLogout` | frontend/src/contexts/AuthContext.jsx:78-88 | Whatever the server answers, the token, the stored token, the user and the header are all cleared, and loading is untouched. |
| `AuthSession.AfterBootstrap` | frontend/src/contexts/AuthContext.jsx:30-44 | Loading always ends. Without a token nothing else changes. With one, a fetched user is set, and a failed fetch logs out. |
| `AuthSession.AfterLogin` | frontend/src/contexts/AuthContext.jsx:47-60 | A failure is exactly a logout. A success stores the same new token in memory and in storage, sets the returned user, and sets the header for it. |
| `AuthSession.AfterRegister` | frontend/src/contexts/AuthContext.jsx:63-76 | A failure changes nothing. A success is what a successful login gives. |
| `AuthSession.AfterUpdateProfile` | frontend/src/contexts/AuthContext.jsx:90-99 | A success replaces the user wholesale with the returned one. A failure changes nothing. |
| `AuthSession.OperationsKeepConsistent` | frontend/src/contexts/AuthContext.jsx:22-99 | Every operation keeps the header equal to the token's, keeps the stored and in-memory tokens in agreement, and once loading is over never leaves a token without a user. |
| `AuthSession.LogoutIdempotent` | frontend/src/contexts/AuthContext.jsx:78-88 | Two logouts leave the same state as one. |
| `AuthSession.FailedLoginClears` | frontend/src/contexts/AuthContext.jsx:47-60 | After a failed login there is no token (stored or in memory), no user and no header, whoever was signed in before. |
| `AuthSession.LoginForgetsPreviousUser` | frontend/src/contexts/AuthContext.jsx:47-56 | A login's result does not depend on the earlier session, because it logs out first. |
| `AuthSession.LoadingNeverReturns` | frontend/src/contexts/AuthContext.jsx:17-113 | Once loading is off (the pages are shown), no operation turns it back on. |
| `AuthSession.MountWithoutToken` | frontend/src/contexts/AuthContext.jsx:30-44 | Mounted without a stored token, the bootstrap shows the pages signed out, with no header. |
| `AuthSession.Session.constructor` | frontend/src/contexts/AuthContext.jsx:15-28 | The state slots after mounting are `Mounted(storedToken)`. |
| `AuthSession.Session.SyncHeader` | frontend/src/contexts/AuthContext.jsx:22-28 | The header is set to `HeaderFor(token)`. |
| `AuthSession.Session.Bootstrap` | frontend/src/contexts/AuthContext.jsx:30-44 | The new slots are `AfterBootstrap` of the old ones. |
| `AuthSession.Session.Logout` | frontend/src/contexts/AuthContext.jsx:78-88 | The new slots are `AfterLogout` of the old ones. |
| `AuthSession.Session.Login` | frontend/src/contexts/AuthContext.jsx:47-60 | The new slots are `AfterLogin`. It returns the user, or rethrows the server's error unchanged. |
| `AuthSession.Session.Register` | frontend/src/contexts/AuthContext.jsx:63-76 | The new slots are `AfterRegister`. It returns the user, or rethrows the error unchanged. |
| `AuthSession.Session.UpdateProfile` | frontend/src/contexts/AuthContext.jsx:90-99 | The new slots are `AfterUpdateProfile`. It returns the server's answer. |
| `PortfolioStore.Reduce` | frontend/src/contexts/PortfolioContext.jsx:18-35 | Each setter replaces exactly its own slot, and `SET_ERROR` also forces loading off. `CLEAR_STATE` gives the initial state, whatever the input. Any other action returns the state unchanged. |
| `PortfolioStore.ReduceAllSnoc` | frontend/src/contexts/PortfolioContext.jsx:18-38 | Dispatching one more action reduces the state the earlier ones left. |
| `PortfolioStore.ClearForgetsHistory` | frontend/src/contexts/PortfolioContext.jsx:30-31 | After a `CLEAR_STATE`, the state does not depend on anything dispatched before it. |
| `PortfolioStore.ReduceTwiceSame` | frontend/src/contexts/PortfolioContext.jsx:20-31 | Dispatching the same action twice is dispatching it once. |
| `PortfolioStore.ErrorKeptByOthers` | frontend/src/contexts/PortfolioContext.jsx:20-33 | No sequence of actions other than `SET_ERROR` and `CLEAR_STATE` changes the error. So a non-null error is reset only by `CLEAR_STATE`, or overwritten by another `SET_ERROR`. |
| `PortfolioStore.LoadingStaysOffAfterError` | frontend/src/contexts/PortfolioContext.jsx:20-33 | After `SET_ERROR`, loading stays false until a `SET_LOADING` or a `CLEAR_STATE` arrives. |
| `InvoiceEditor.FormatDateForInput` | frontend/src/pages/InvoiceForm.jsx:12-15 | A falsy value gives the empty text. A string gives its first ten characters. A date gives its `yyyy-MM-dd` text, which reads back as that date. |
| `InvoiceEditor.FindProject` | frontend/src/pages/InvoiceForm.jsx:139 | It gives the position of the first project whose id, written as text, equals the selected value, or none when no project matches. |
| `InvoiceEditor.ProjectRate` | frontend/src/pages/InvoiceForm.jsx:138-141 | The rate is that project's rate, and 0 when no project matches or its rate is null or 0. |
| `InvoiceEditor.AddedRowAddsNothing` | frontend/src/pages/InvoiceForm.jsx:143-145 | A freshly added row adds 0 to the total, even when its price is not 0. |
| `InvoiceEditor.RemovedRowTotal` | frontend/src/pages/InvoiceForm.jsx:147-151 | Removing a row takes exactly its stored total off. |
| `InvoiceEditor.ReplacedRowTotal` | frontend/src/pages/InvoiceForm.jsx:153-162 | Replacing one row changes the total by exactly the change in that row's total. |
| `InvoiceEditor.Spliced` | frontend/src/pages/InvoiceForm.jsx:147-151 | The result has one row fewer when the index lands in the list and the same rows otherwise, and every remaining row is one of the old rows. |
| `InvoiceEditor.SplicedInRange` | frontend/src/pages/InvoiceForm.jsx:147-151 | For an index in range, exactly that row goes. The rows before keep their places, and the rows after move up by one. |
| `InvoiceEditor.UpdatedRow` | frontend/src/pages/InvoiceForm.jsx:153-158 | Only the named field changes. Quantity and price are read as numbers, and a non-number reads as 0. The total becomes quantity × price. |
| `InvoiceEditor.UpdateRowIdempotent` | frontend/src/pages/InvoiceForm.jsx:153-158 | Applying the same edit twice is applying it once. |
| `InvoiceEditor.GeneratedRows` | frontend/src/pages/InvoiceForm.jsx:167-183 | There is one row per distinct ten-character date, in order of first appearance, so no two rows are for the same day. Its quantity is that date's hours, its description is `Work on <date>: ` and the descriptions, and it is priced at the rate. |
| `InvoiceEditor.GeneratedRowsCoverHours` | frontend/src/pages/InvoiceForm.jsx:167-183 | The generated quantities add up to the hours of all entries: every hour is billed once. |
| `InvoiceEditor.GeneratedRowsConsistent` | frontend/src/pages/InvoiceForm.jsx:167-183 | There are as many rows as distinct days, each row is priced at the rate, and its total is its quantity at the rate. |
| `InvoiceEditor.CheckItems` | frontend/src/pages/InvoiceForm.jsx:99-110 | An empty list is refused. Otherwise the first row with an empty description or a quantity ≤ 0 refuses the list. The list passes exactly when every row is complete. |
| `InvoiceEditor.LineItem.constructor` | frontend/src/pages/InvoiceForm.jsx:143-145 | A row object holds the given row. |
| `InvoiceEditor.LineItem.Update` | frontend/src/pages/InvoiceForm.jsx:155-156 | The object, assigned in place, holds `UpdatedRow` of its old row. |
| `InvoiceEditor.RowsOf` | frontend/src/pages/InvoiceForm.jsx:153-158 | The rows a list of row objects shows, position by position. |
| `InvoiceEditor.ItemList.constructor` | frontend/src/pages/InvoiceForm.jsx:28-30 | The list starts as one blank row. |
| `InvoiceEditor.ItemList.AddItem` | frontend/src/pages/InvoiceForm.jsx:143-145 | The old rows are kept in order, followed by exactly one blank row at the project's rate, with quantity 1 and total 0. |
| `InvoiceEditor.ItemList.RemoveItem` | frontend/src/pages/InvoiceForm.jsx:147-151 | The new list is `Spliced` of the old one. No row object changes. |
| `InvoiceEditor.ItemList.UpdateItem` | frontend/src/pages/InvoiceForm.jsx:153-158 | Only the row at the index changes, to `UpdatedRow`. Every other row and the list's length stay as they were. |
| `InvoiceEditor.ItemList.GenerateFromTime` | frontend/src/pages/InvoiceForm.jsx:164-186 | With no project selected or no entries, nothing changes. Otherwise the rows become `GeneratedRows` of the entries at the project's rate. |
| `InvoicesPage.Relabel` | frontend/src/pages/Invoices.jsx:46-51 | An invoice becomes `overdue` exactly when it is `sent`, has a due date, and that date's midnight has passed. Nothing else about it changes. |
| `InvoicesPage.Relabelled` | frontend/src/pages/Invoices.jsx:46-51 | The list is relabelled invoice by invoice, keeping its length and order. |
| `InvoicesPage.RelabelledChangesOnlySent` | frontend/src/pages/Invoices.jsx:46-51 | Only sent invoices change, only their status changes, and it changes only to `overdue`. |
| `InvoicesPage.RelabelledIdempotent` | frontend/src/pages/Invoices.jsx:46-51 | Relabelling twice is relabelling once. |
| `InvoicesPage.ServerOverdueShownOverdue` | frontend/src/pages/Invoices.jsx:46-51 | Every invoice the server's statistics count as overdue is shown as overdue. |
| `InvoicesPage.DueDayShownOverdue` | frontend/src/pages/Invoices.jsx:46-51 | On the due day itself the page already shows a sent invoice as overdue, while the server does not count it yet. |
| `InvoicesPage.InvoiceQuery` | frontend/src/pages/Invoices.jsx:33-36 | The query holds `status`, `project_id` and `client_id` in that order, each exactly when it is not empty. |
| `InvoicesPage.StatusColor` | frontend/src/pages/Invoices.jsx:139-146 | `paid`, `sent` and `overdue` each get their own style. Every other status gets the draft style. |
| `InvoicesPage.StatusColorSeparates` | frontend/src/pages/Invoices.jsx:139-146 | Two statuses share a style exactly when they are equal or both fall to the draft style. |
| `InvoicesPage.OfferedFor` | frontend/src/pages/Invoices.jsx:366-410 | Mark-sent, edit and delete are offered only for `draft`. Mark-paid is offered only for `sent` or `overdue`. |
| `InvoicesPage.OneTransitionAtATime` | frontend/src/pages/InvoiceDetail.jsx:170-225 | No status offers both transitions, a paid invoice offers none, and a row can be edited or deleted exactly when it can be sent. |
| `InvoicesPage.RelabelKeepsOffered` | frontend/src/pages/Invoices.jsx:366-410 | The relabel never changes what a row offers. |
| `InvoicesPage.InvoiceList.constructor` | frontend/src/pages/Invoices.jsx:11-20 | The list starts empty, with no filters, no error, and loading on. |
| `InvoicesPage.InvoiceList.ResetFilters` | frontend/src/pages/Invoices.jsx:114-120 | All three filters are cleared, and nothing else changes. |
| `InvoicesPage.InvoiceList.Load` | frontend/src/pages/Invoices.jsx:28-71 | It asks with `InvoiceQuery` of the filters. On success the list is the relabelled answer. On failure it is empty and the error is set. Loading ends either way. |
| `InvoicesPage.InvoiceList.Apply` | frontend/src/pages/Invoices.jsx:73-112 | An unconfirmed delete does nothing. A failed change sets that change's error and keeps the list. A successful one reloads with no query and no relabel. |
| `InvoiceDetailPage.InvoiceDetail.constructor` | frontend/src/pages/InvoiceDetail.jsx:18-24 | The page starts with nothing loaded, no error, and loading on. |
| `InvoiceDetailPage.InvoiceDetail.Load` | frontend/src/pages/InvoiceDetail.jsx:27-59 | It requests the invoice, then its project, then that project's client, each only after the one before succeeds. The invoice is shown relabelled. The first failure stops the chain and sets the error. Loading ends. |
| `InvoiceDetailPage.InvoiceDetail.Delete` | frontend/src/pages/InvoiceDetail.jsx:62-72 | Once confirmed and deleted, the page navigates to `/invoices`. A failure stays with the error. Unconfirmed, it does nothing. |
| `InvoiceDetailPage.InvoiceDetail.MarkSent` | frontend/src/pages/InvoiceDetail.jsx:75-83 | The server's invoice replaces the shown one as it comes, with no relabel. A failure keeps it and sets the error. |
| `InvoiceDetailPage.InvoiceDetail.MarkPaid` | frontend/src/pages/InvoiceDetail.jsx:86-94 | The same as `MarkSent`, for marking paid. |
| `Listings.QueryOf` | frontend/src/pages/Invoices.jsx:33-36 | A parameter is in the query exactly when it was tried and its value is not empty, and the parameters keep the order they were tried in. |
| `Listings.FindProject` | frontend/src/pages/Invoices.jsx:128 | It finds the first project with that id, or none when no project has it. |
| `Listings.FindClient` | frontend/src/pages/Invoices.jsx:135 | It finds the first client with that id (no earlier client has it), or none when no client has it. |
| `Listings.ProjectName` | frontend/src/pages/TimeTracking.jsx:204-207 | The title of the first project with the id, or `Unknown Project` when there is none. |
| `Listings.ClientName` | frontend/src/pages/Invoices.jsx:132-137 | `Unknown Client` when no project has the row's project id, or when no client has that project's client id. Otherwise the name of the client that the first matching project points at, as `find` returns it. |
| `Listings.ClientNameByPosition` | frontend/src/pages/Invoices.jsx:132-137 | Read by position: when project `i` is the first with the row's id and client `k` is the first with that project's client id, the row shows client `k`'s name. |
| `Listings.ProjectNameKeepsFirst` | frontend/src/pages/Invoices.jsx:127-130 | Projects added after a match never change the name shown. |
| `TimeTrackingPage.EntriesQuery` | frontend/src/pages/TimeTracking.jsx:51-55 | The query holds `project_id`, `start_date`, `end_date` and `billable` in that order, each exactly when it is not the empty text. |
| `TimeTrackingPage.NonBillableIsSent` | frontend/src/pages/TimeTracking.jsx:116-120 | Choosing non-billable sends `billable=false`. |
| `TimeTrackingPage.WeekFilters` | frontend/src/pages/TimeTracking.jsx:177-184 | The filters are the Monday and the Sunday of today's week, with no project and no billability. |
| `TimeTrackingPage.DatesInRange` | frontend/src/pages/TimeTracking.jsx:197-202 | There are no days when a bound is missing. Otherwise it gives every day from the first bound through the second, ascending. |
| `TimeTrackingPage.WeekRange` | frontend/src/pages/TimeTracking.jsx:38-43 | The week's filters give seven days, Monday first, and today is among them. They are fetched. |
| `TimeTrackingPage.ByDatePartitions` | frontend/src/pages/TimeTracking.jsx:187-195 | Every entry is in exactly one group, its own date's, and as many times as it is in the list. |
| `TimeTrackingPage.ByDateKeepsOrder` | frontend/src/pages/TimeTracking.jsx:187-195 | Each group is an order-preserving subsequence of the list. |
| `TimeTrackingPage.ByDateSnoc` | frontend/src/pages/TimeTracking.jsx:190-193 | One more entry joins the end of its own date's group, and every other group stays as it was. |
| `TimeTrackingPage.NoDateNoGroup` | frontend/src/pages/TimeTracking.jsx:187-195 | A date that no entry carries has no group. |
| `TimeTrackingPage.GroupByDate` | frontend/src/pages/TimeTracking.jsx:187-195 | The loop that pushes each entry under its date computes `ByDate` of the list. |
| `TimeTrackingPage.SectionsLatestFirst` | frontend/src/pages/TimeTracking.jsx:381 | There is one section per day of the range, latest first. |
| `TimeTrackingPage.SectionOfDay` | frontend/src/pages/TimeTracking.jsx:381-384 | A section holds exactly the entries dated that day, in list order, and its total is their hours. A day without entries totals 0. |
| `TimeTrackingPage.TimeLog.constructor` | frontend/src/pages/TimeTracking.jsx:13-43 | Nothing is listed yet, and the filters are this week's. |
| `TimeTrackingPage.TimeLog.ResetFilters` | frontend/src/pages/TimeTracking.jsx:177-184 | The filters become `WeekFilters(today)`, and nothing else changes. |
| `TimeTrackingPage.TimeLog.Load` | frontend/src/pages/TimeTracking.jsx:45-81 | Nothing is asked for unless both bounds are set. Otherwise it asks with `EntriesQuery`, and shows the answer, or an empty list and the error. |
| `TimeTrackingPage.TimeLog.StartEdit` | frontend/src/pages/TimeTracking.jsx:447-452 | An invoiced entry's form never opens. Any other entry becomes the one being edited. |
| `TimeTrackingPage.TimeLog.Submit` | frontend/src/pages/TimeTracking.jsx:94-135 | A form is sent exactly when it is accepted: hours in (0, 24], with project, description and date. It goes as an update while editing and as a new entry otherwise. The list is then fetched again with the current filters. A failure sets the error. |
| `TimeTrackingPage.TimeLog.Delete` | frontend/src/pages/TimeTracking.jsx:149-175 | An invoiced entry is never deleted. Otherwise, once confirmed and deleted, the list is fetched again. A failure sets the error. |
| `Grouping.WhereCount` | frontend/src/pages/Clients.jsx:95-100 | Filtering keeps every copy of a row that passes and no copy of one that fails. |
| `ClientsPage.Filtered` | frontend/src/pages/Clients.jsx:95-100 | A client is kept exactly when the lower-cased term occurs in its lower-cased name, company or email. The result is an order-preserving subsequence of the list and keeps every copy of a kept row. |
| `ClientsPage.EmptySearchKeepsAll` | frontend/src/pages/Clients.jsx:95-100 | An empty search keeps every client, in order. |
| `ClientsPage.SearchIgnoresTermCase` | frontend/src/pages/Clients.jsx:96 | Terms that lower-case alike keep the same clients. |
| `ClientsPage.TextOrEmpty` | frontend/src/pages/Clients.jsx:74-82 | A missing value is the empty text, and a present one is itself. |
| `ClientsPage.EditValues` | frontend/src/pages/Clients.jsx:74-82 | The form starts with the client's name, and each optional field is its value or `''`. |
| `ClientsPage.BareClientForm` | frontend/src/pages/Clients.jsx:74-82 | A client without optional fields opens a form that is blank except for the name. |
| `ClientsPage.ClientList.constructor` | frontend/src/pages/Clients.jsx:14-18 | The list starts empty, with no error. |
| `ClientsPage.ClientList.Load` | frontend/src/pages/Clients.jsx:20-35 | It shows the answer, or an empty list and the error. |
| `ClientsPage.ClientList.Delete` | frontend/src/pages/Clients.jsx:84-93 | After confirmation and a server success, exactly the clients with that id leave, and every other row stays, each copy of it in its order. A failure keeps the list and sets the error. |
| `ClientsPage.ClientList.Save` | frontend/src/pages/Clients.jsx:48-70 | A form is sent exactly when it has a name and any email given looks like one. The list is then fetched again. Either request's failure sets the error. |
| `InvoiceModel.TotalAmountEmpty` | backend/models/invoice.py:17-19 | An invoice with no lines totals 0. |
| `InvoiceModel.TotalAmountAppend` | backend/models/invoice.py:17-19 | The total is additive: every line counts exactly once. |
| `InvoiceModel.ZeroLineAddsNothing` | backend/models/invoice.py:43-45 | A line with a zero quantity or a zero price adds nothing. |
| `InvoiceModel.ItemToDict` | backend/models/invoice.py:47-56 | The reported total is the reported quantity × the reported price, and the fields are reported as stored. |
| `InvoiceModel.ItemsToDict` | backend/models/invoice.py:31 | There is one reported line per stored line, in order. |
| `InvoiceModel.ViewTotalsMatch` | backend/models/invoice.py:30-31 | The reported line totals add up to `total_amount`. |
| `InvoiceModel.OptionalRoundTrip` | backend/models/invoice.py:26-27 | A reported date reads back as the stored date. |
| `InvoiceModel.InvoiceToDict` | backend/models/invoice.py:21-33 | `total_amount` is the sum of the listed line totals. The dates read back as the stored ones, and an absent due date is reported as None. Status and number are as stored. |
| `ProjectModel.EntriesOf` | backend/models/project.py:20 | The project's time entries are exactly the entries that point at it. |
| `ProjectModel.TotalHoursAfterLogging` | backend/models/project.py:24-25 | Logging time on the project adds exactly its hours to `total_hours_method`. Time logged on another project adds nothing. |
| `ProjectModel.TotalHoursNoEntries` | backend/models/project.py:24-25 | A project without entries has 0 hours. |
| `ProjectModel.TotalBilledMethod` | backend/models/project.py:27-30 | A truthy fixed price wins. Otherwise the result is the stored `total_hours` × the hourly rate, and a missing rate counts 0. |
| `ProjectModel.ZeroFixedPriceFallsThrough` | backend/models/project.py:27-30 | For every project, a fixed price of 0 bills exactly what no fixed price bills: it falls through to the hourly formula. |
| `ProjectModel.NewProject` | backend/models/project.py:10-18 | A new project is `pending`, not public, with totals 0.0 and no dates, rates or price, and it bills 0. |
| `ProjectModel.IsoOrNone` | backend/models/project.py:40-41 | An absent date is None. A present one is ISO text that reads back as that date. |
| `ProjectModel.ProjectToDict` | backend/models/project.py:32-48 | Absent dates are reported as None, and present ones read back. The id, status, flag and totals are reported as stored. |
| `Ledger.Select` | backend/routes/clients.py:13 | The result is every row passing the filter and no other, in id (insertion) order. |
| `Ledger.ReverseNewestFirst` | backend/routes/documents.py:38 | Rows in id order, reversed, are the same rows, newest first. |
| `Ledger.Database.constructor` | backend/migrations.py:1-48 | The store starts with every table empty, and its invariant holds. |
| `Ledger.Database.SetUser` | backend/routes/auth.py:116-131 | The user's row is replaced, and the uniqueness and reference invariants are kept. |
| `Ledger.Database.AddUser` | backend/routes/auth.py:29-40 | The user is inserted under a fresh id, and the invariants are kept. |
| `Ledger.Database.PutInvoice` | backend/routes/invoices.py:118-120 | The invoice is inserted or replaced under its id, and the invariants are kept. |
| `Ledger.Database.RemoveInvoice` | backend/routes/invoices.py:259-260 | Exactly that invoice goes. |
| `Ledger.Database.SetEntryFlags` | backend/routes/invoices.py:254-255 | The time entries change in their `invoiced` flags only. |
| `Ledger.Database.RemoveProject` | backend/models/project.py:20-22 | The project goes together with exactly its time entries, invoices and documents (the cascades), and every other row stays. |
| `Ledger.Database.FreshId` | backend/routes/clients.py:44-45 | It hands out an id that no table uses yet. |
| `SqlLike.AnyMatchesPercent` | backend/routes/clients.py:109 | The pattern `%` alone matches every text. |
| `SqlLike.LeadingPercent` | backend/routes/clients.py:109 | A leading `%` matches exactly when some suffix matches the rest. |
| `SqlLike.LiteralPrefix` | backend/routes/invoices.py:94 | A literal prefix followed by `%` matches exactly the texts that start with it, ignoring case. |
| `SqlLike.SubstringSearch` | backend/routes/clients.py:109 | For a query without wildcards, `ILIKE '%q%'` holds exactly when `q` occurs in the text, ignoring case. |
| `SqlLike.UnderscoreMatchesAnything` | backend/routes/clients.py:109 | With `_` in the query, the search is no longer a substring test. |
| `Sorting.SortDesc` | backend/routes/invoices.py:57 | Largest key first, and a permutation of the input. |
| `Sorting.SortDescMembers` | backend/routes/time_entries.py:53 | The sort keeps exactly the input's elements. |
| `Sorting.DistinctIdsPermuted` | backend/routes/time_entries.py:53 | Reordering rows with pairwise distinct ids, as the sort does, never repeats a row. |
| `Grouping.DistinctKeys` | backend/routes/invoices.py:532-537 | The keys appear in order of first occurrence, each once, and they are exactly the keys present. |
| `Grouping.GroupOf` | backend/routes/invoices.py:533-537 | A key's group holds only elements of the list that carry that key, and no more of them than the list has. |
| `Grouping.GroupCount` | backend/routes/invoices.py:532-537 | Each element lands in its own key's group as often as it occurs, and in no other group. |
| `Grouping.SumGroupsTotal` | backend/routes/invoices.py:540-541 | The group totals add up to the total over the whole list. |
| `Calendar.ParseIso` | backend/routes/invoices.py:99 | `strptime(s, '%Y-%m-%d')` as Python reads it: four year digits, and one or two digits for the month and the day. Whatever it accepts is a date Python can hold, and `ParseIsoRoundTrip` shows it reads back what `isoformat` writes. |
| `Calendar.Iso` | backend/models/invoice.py:26 | `isoformat()` gives ten characters with dashes at positions 4 and 7. |
| `Calendar.ParseIsoRoundTrip` | backend/models/invoice.py:26-27 | What `isoformat` writes, `strptime` reads back. |
| `Calendar.FirstOfMonth` | backend/routes/time_entries.py:201 | The first day of the given date's month, no later than that date. |
| `Calendar.StartOfWeek` | frontend/src/pages/TimeTracking.jsx:33 | The Monday of the date's week, at most six days before it. |
| `Calendar.EndOfWeek` | frontend/src/pages/TimeTracking.jsx:34 | The Sunday of the date's week, six days after its Monday. |
| `Calendar.DaysFrom` | backend/routes/time_entries.py:257-270 | Empty when start is after end. Otherwise there is one day for each day of the range, counting both ends. |
| `Calendar.DaysFromMembers` | backend/routes/time_entries.py:257-270 | The walk holds exactly the valid dates between the bounds. |
| `Calendar.DaysFromDistinct` | backend/routes/time_entries.py:257-270 | No day appears twice in the walk. |
| `Calendar.MaxDateIsLast` | backend/routes/time_entries.py:270 | No date Python can hold comes after `date.max`. |
| `Common.ServerMessageOr` | frontend/src/pages/Clients.jsx:91 | The server's message when it is non-empty, and the fallback when the body carries no message or an empty one. |
| `Common.ZeroPadValue` | backend/routes/invoices.py:96 | The zero-padded digits `{n:04d}` writes read back as n. |
| `InvoiceLines.PrefixHasNoWildcards` | backend/routes/invoices.py:90-94 | The `INV-{user}-{year}-` prefix has no LIKE wildcard, so the pattern matches by prefix. |
| `InvoiceLines.InvoiceNumberAsWrittenFormat` | backend/routes/invoices.py:90-96 | As written, the number is the prefix followed by at least four digits that denote one more than the count of the user's numbers carrying the prefix. |
| `InvoiceLines.PrefixedNumberIsCounted` | backend/routes/invoices.py:91-94 | Any number that starts with the prefix is counted. |
| `InvoiceLines.AsWrittenNumberRepeats` | backend/routes/invoices.py:90-96 | Once `...-0001` is deleted while `...-0002` remains, the count gives `...-0002` again. |
| `InvoiceLines.InvoiceNumber` | backend/routes/invoices.py:96 | The corrected number is the prefix followed by at least four digits: one more than the largest sequence used with the prefix. It is not among the given numbers. |
| `InvoiceLines.NextNumber` | backend/routes/invoices.py:90-96 | The corrected number carries the user's and the year's prefix, and no stored invoice has it. |
| `InvoiceLines.ItemFrom` | backend/routes/invoices.py:127-133 | The defaults are description `''`, quantity 1 and price 0. |
| `InvoiceLines.ItemsFrom` | backend/routes/invoices.py:207-214 | There is one line per body item, in order. |
| `InvoiceLines.BillingRate` | backend/routes/invoices.py:150 | The project's truthy rate, or else the user's rate. |
| `InvoiceLines.TimeItems` | backend/routes/invoices.py:145-152 | There is one `Time:` line per attached entry, in order. |
| `InvoiceLines.TimeItemsTotal` | backend/routes/invoices.py:145-152 | The time lines bill the entries' total hours at the rate. |
| `InvoiceLines.Before` | backend/routes/invoices.py:244 | `split(c)[0]` is the text before the first `c`, or all of it when there is none. |
| `InvoiceLines.TimeItemDateRoundTrip` | backend/routes/invoices.py:240-245 | Read from the last `(`, every time line names its entry's date, whatever the description says. |
| `InvoiceLines.TimeItemTextMarked` | backend/routes/invoices.py:148 | Every time line starts with `Time:`. |
| `InvoiceLines.TimeItemTextTail` | backend/routes/invoices.py:148 | A time line ends with `(`, the ISO date and `)`, and that `(` is the last one. |
| `InvoiceLines.TimeItemDateAsWrittenPlain` | backend/routes/invoices.py:244-245 | When the description holds no `(`, line 244 reads the date correctly. |
| `InvoiceLines.TimeItemDateAsWrittenMisses` | backend/routes/invoices.py:244-245 | For the description `Fix (bug)`, line 244 reads no date, while the corrected reading finds it. |
| `InvoiceLines.WorkLinesAreNotTimeLines` | backend/routes/invoices.py:547 | A per-day `Work on` line never starts with `Time:`. |
| `InvoiceLines.TimeLineDates` | backend/routes/invoices.py:238-245 | These are exactly the dates read from the invoice's time lines. |
| `InvoiceLines.TimeItemsReleased` | backend/routes/invoices.py:238-252 | Every attached entry's date is read back from the invoice's lines, wherever its line sits. |
| `InvoiceLines.AsWrittenReleasesNothing` | backend/routes/invoices.py:240-255 | As written, deleting an invoice billing `Fix (bug)` releases no date. Read from the last `(`, it releases the entry's date. |
| `InvoiceLines.WorkItems` | backend/routes/invoices.py:540-551 | There is one line per day, billing that day's entries. |
| `InvoiceLines.WorkDays` | backend/routes/invoices.py:532-537 | The days are the keys of `entries_by_date`, in order of first appearance. |
| `InvoiceLines.WorkItemsTotal` | backend/routes/invoices.py:540-551 | The per-day lines bill all the entries' hours at the rate. |
| `InvoiceLines.WorkItemsReleaseNothing` | backend/routes/invoices.py:238-257 | Deleting an invoice made from time releases no entry. |
| `InvoiceRoutes.UserInvoices` | backend/routes/invoices.py:405-406 | Exactly the invoices of the user's projects, in id order. |
| `InvoiceRoutes.MarkInvoiced` | backend/routes/invoices.py:145-156 | Exactly the chosen entries become invoiced, and every other entry is unchanged. |
| `InvoiceRoutes.StoreInvoice` | backend/routes/invoices.py:118-157 | The invoice is inserted under the next id and the entries' flags are replaced. Nothing else changes. |
| `InvoiceRoutes.DropInvoice` | backend/routes/invoices.py:254-260 | The invoice is removed and the entries' flags are replaced. Nothing else changes. |
| `InvoiceRoutes.NewInvoiceRow` | backend/routes/invoices.py:80-116 | The validations run in order: project id, the project's owner, the issue date, then the due date, each a 400. The issue date defaults to today, the status to `draft` and the notes to `''`. |
| `InvoiceRoutes.CreateInvoice` | backend/routes/invoices.py:75-163 | It creates the invoice `NewInvoiceRow` decides, numbered by the corrected `NextNumber`; the code as written counts instead, see `InvoiceLines.AsWrittenNumberRepeats`. Its lines are the body's lines, then one time line per requested entry that is in the project and un-invoiced. Exactly those entries become invoiced. A refusal changes nothing. |
| `InvoiceRoutes.CreatedTotal` | backend/routes/invoices.py:127-156 | The new invoice bills the body's lines plus the attached hours at the rate. |
| `InvoiceRoutes.PatchInvoice` | backend/routes/invoices.py:177-214 | A paid invoice is refused unless the body's status is `paid`. A malformed issue or due date is a 400. An empty due date is a server error, because the column is NOT NULL. Otherwise only the keys present change, and `items` replaces every line. |
| `InvoiceRoutes.PaidStaysPaid` | backend/routes/invoices.py:177-195 | A paid invoice stays paid through every update that succeeds. |
| `InvoiceRoutes.PaidLinesReplaceable` | backend/routes/invoices.py:177-214 | A body that repeats `paid` may still replace every line of a paid invoice. |
| `InvoiceRoutes.PatchInvoiceIdempotent` | backend/routes/invoices.py:181-214 | Sending the same body twice changes nothing the second time. |
| `InvoiceRoutes.EmptyPatchKeepsInvoice` | backend/routes/invoices.py:181-214 | An unpaid invoice given an empty body stays as it was. |
| `InvoiceRoutes.UpdateInvoice` | backend/routes/invoices.py:167-221 | Another user's invoice is a 404. Otherwise the stored invoice becomes `PatchInvoice`'s result, and a refusal changes nothing. |
| `InvoiceRoutes.ReleaseLines` | backend/routes/invoices.py:238-257 | The loop over the lines releases exactly `ReleasedEntries` at the dates read from the time lines. Unreadable lines are skipped. |
| `InvoiceRoutes.DeleteInvoice` | backend/routes/invoices.py:225-262 | A paid invoice stays (400). Otherwise the entries are released by the date read from the last parentheses of each time line, which is the corrected reading (the code as written reads the first, see `InvoiceLines.TimeItemDateAsWrittenMisses`), and the invoice goes. |
| `InvoiceRoutes.DeleteReleasesAttached` | backend/routes/invoices.py:145-255 | Deleting an invoice releases every entry that creating it attached. |
| `InvoiceRoutes.ReleaseReachesOtherInvoices` | backend/routes/invoices.py:248-255 | Release goes by project and date only, so it also releases an entry billed by another invoice on that day. |
| `Grouping.WhereAscending` | backend/routes/invoices.py:409-424 | Filtering a list whose key strictly ascends keeps the key strictly ascending, so no kept element appears twice. |
| `InvoiceRoutes.InvoiceStatsOf` | backend/routes/invoices.py:378-427 | The totals are over the user's invoices, and `pending_payment` is what the unpaid ones bill. The status counts come from a loop over the four statuses. The recent list is `Latest(·, 5)`. The overdue list is the user's `sent` invoices due before today, filtered in id order, so none appears twice, and the count is its length. |
| `InvoiceRoutes.PendingIsUnpaid` | backend/routes/invoices.py:380-420 | Invoiced minus paid is exactly what the unpaid invoices bill, so `pending_payment` is both. |
| `InvoiceRoutes.LatestAreLatest` | backend/routes/invoices.py:405-407 | The recent list is sorted latest issue date first, is drawn from the user's invoices, and no invoice left out was issued later than one in it. |
| `InvoiceRoutes.MarkPaid` | backend/routes/invoices.py:431-446 | From any status, the user's invoice becomes `paid` and nothing else changes. Another user's invoice is a 404. |
| `InvoiceRoutes.MarkSent` | backend/routes/invoices.py:450-465 | From any status, including `paid`, the invoice becomes `sent`. |
| `InvoiceRoutes.FromTimeRange` | backend/routes/invoices.py:473-502 | The validations run in order: project id, owner, then each truthy bound must parse. |
| `InvoiceRoutes.CreateInvoiceFromTimeAsWritten` | backend/routes/invoices.py:469-523 | As written, the request always fails: with the validations' errors, with 400 when nothing is unbilled, and otherwise with a server error at line 523. |
| `InvoiceRoutes.TimeDraft` | backend/routes/invoices.py:504-555 | With no entries it is a 400. Otherwise it gives a draft due in 30 days, with one line per day worked at the rate. |
| `InvoiceRoutes.FromTimeInvoice` | backend/routes/invoices.py:473-555 | It runs the range checks, then builds `TimeDraft` over exactly the billable, un-invoiced entries of the project in the inclusive range, numbered by the corrected `NextNumber`; the code as written counts instead. |
| `InvoiceRoutes.MarkUnbilled` | backend/routes/invoices.py:553-555 | Exactly the range's unbilled entries become invoiced. |
| `InvoiceRoutes.FromTimeInvoiceStorable` | backend/routes/invoices.py:518-529 | The invoice takes the next id, belongs to the range's project and carries valid dates. |
| `InvoiceRoutes.CreateInvoiceFromTime` | backend/routes/invoices.py:469-562 | It stores the invoice `FromTimeInvoice` decides, numbered by the corrected `NextNumber`, and marks invoiced every entry it bills. A refusal changes nothing. |
| `InvoiceRoutes.StoreFromTime` | backend/routes/invoices.py:528-557 | It inserts the invoice and marks the range's unbilled entries. |
| `InvoiceRoutes.BilledTimeIsSpent` | backend/routes/invoices.py:483-487 | An entry invoiced from time is never selected again. |
| `TimeEntryRoutes.UserEntries` | backend/routes/time_entries.py:23-24 | Exactly the entries of the user's projects, in strictly ascending id, so none repeats. |
| `TimeEntryRoutes.ParseEntryQuery` | backend/routes/time_entries.py:17-50 | A project id of 0 is no filter. Empty dates are no filter, and a malformed one is refused, the start first. `billable` and `invoiced` are true exactly when they lower-case to `true`. |
| `TimeEntryRoutes.ListEntries` | backend/routes/time_entries.py:14-55 | Exactly the user's entries that pass the filters (inclusive bounds), each once, newest first. A malformed bound is a 400. |
| `TimeEntryRoutes.NewEntry` | backend/routes/time_entries.py:76-108 | The validations run in order: project, hours (0 is missing), description, owner, date. A new entry is not invoiced, billable by default, and dated today by default. |
| `TimeEntryRoutes.CreateEntry` | backend/routes/time_entries.py:71-116 | It stores `NewEntry` under the next id. A refusal changes nothing. |
| `TimeEntryRoutes.PatchEntry` | backend/routes/time_entries.py:130-163 | An invoiced entry refuses a body that does not repeat its hours, billable flag and project, and a missing key counts as different. Otherwise only present keys change, `invoiced` included. |
| `TimeEntryRoutes.InvoicedEntryFrozen` | backend/routes/time_entries.py:131-138 | An invoiced entry keeps its hours, billable flag and project through every successful update. |
| `TimeEntryRoutes.EmptyPatchKeepsEntry` | backend/routes/time_entries.py:141-163 | An un-invoiced entry given an empty body stays as it was. |
| `TimeEntryRoutes.UpdateEntry` | backend/routes/time_entries.py:120-170 | Another user's entry is a 404. Otherwise the entry becomes `PatchEntry`'s result, and a refusal changes nothing. |
| `TimeEntryRoutes.DeleteEntry` | backend/routes/time_entries.py:174-189 | It succeeds exactly for the user's un-invoiced entry, which goes. An invoiced one is a 400 and the store stays unchanged. |
| `TimeEntryRoutes.SummaryRange` | backend/routes/time_entries.py:199-215 | The bounds default to the first of the month and today. A malformed bound is refused, the start first. |
| `TimeEntryRoutes.PercentageBounds` | backend/routes/time_entries.py:238 | A part of a whole is between 0 and 100 percent, and 0 when the whole is 0. |
| `TimeEntryRoutes.ProjectRows` | backend/routes/time_entries.py:241-254 | There is one row per project, with its title and its hours in the range. |
| `TimeEntryRoutes.ByProjectAddsUp` | backend/routes/time_entries.py:241-254 | The per-project rows add up to the range's total. |
| `TimeEntryRoutes.DayRows` | backend/routes/time_entries.py:257-268 | There is one row per day, with that day's hours (0 without entries). |
| `TimeEntryRoutes.ByDayAddsUp` | backend/routes/time_entries.py:257-272 | The per-day rows add up to the range's total. |
| `TimeEntryRoutes.WalkStep` | backend/routes/time_entries.py:259-270 | Each turn of the walk appends the current day's row, and the walk's last day is the end. |
| `TimeEntryRoutes.WalkDone` | backend/routes/time_entries.py:259 | Once past the end, the walk has visited every day of the range. |
| `TimeEntryRoutes.HoursByDay` | backend/routes/time_entries.py:257-272 | There is one row per day from start through end, ascending, and none when start is after end. Stepping past `date.max` is a server error. |
| `TimeEntryRoutes.SummaryBetween` | backend/routes/time_entries.py:217-274 | For a given range, it gives the totals over the user's entries, the billable share, one row per project with entries in the range (its id, title and summed hours, in first-appearance order) and the hours by day. Both breakdowns add up to the total. Stepping past the last representable date is a 500. |
| `TimeEntryRoutes.TimeSummary` | backend/routes/time_entries.py:193-274 | A malformed bound is a 400 carrying the parse message. Otherwise it gives the summary over the requested range, which defaults to this month up to today, with one `hours_by_project` row per project that has entries in the range. |
| `TimeEntryRoutes.BillableShareBounded` | backend/routes/time_entries.py:230-238 | With no negative hours, the billable share is a percentage. |
| `ProjectRoutes.UserProjects` | backend/routes/projects.py:19 | Exactly the user's projects, oldest first. |
| `ProjectRoutes.ListProjects` | backend/routes/projects.py:14-30 | Exactly the user's projects that pass the filters. `is_public` is true exactly when it lower-cases to `true`. |
| `ProjectRoutes.NewProjectRow` | backend/routes/projects.py:45-82 | The validations run in order: title, client id (0 counts as missing), client owner, then each given date must parse. A new project is `pending` by default, not public, with totals 0.0. |
| `ProjectRoutes.CreateProject` | backend/routes/projects.py:40-94 | It stores `NewProjectRow` under the next id. A refusal changes nothing. |
| `ProjectRoutes.PatchProject` | backend/routes/projects.py:102-131 | Only the keys present change. A new client must be the user's, or it is a 400. A given date is stored as parsed, an empty one clears it, and a malformed one is a 400, the start date checked before the end date. |
| `ProjectRoutes.EmptyPatchKeepsProject` | backend/routes/projects.py:102-131 | An empty body changes nothing. |
| `ProjectRoutes.UpdateCanPublishUnfinished` | backend/routes/projects.py:130-131 | A plain update can make an unfinished project public. |
| `ProjectRoutes.UpdateProject` | backend/routes/projects.py:98-138 | Another user's project is a 404. Otherwise the project becomes `PatchProject`'s result. |
| `ProjectRoutes.DeleteProject` | backend/routes/projects.py:142-148 | Only the user's project goes, with its entries, invoices and documents. Any other id is a 404 that changes nothing. |
| `ProjectRoutes.Newest` | backend/routes/projects.py:164-166 | At most n projects, newest first. |
| `ProjectRoutes.ProjectStatsOf` | backend/routes/projects.py:152-175 | It gives the total, a count for each of the four statuses, the five newest projects and the public count. |
| `ProjectRoutes.RecentAreNewest` | backend/routes/projects.py:164-168 | Every project left out of the recent list is older than all those in it. |
| `ProjectRoutes.StatusCountsAddUp` | backend/routes/projects.py:158-162 | The four counts add up to the number of projects with one of the four statuses. |
| `ProjectRoutes.TogglePublic` | backend/routes/projects.py:182-187 | An explicit truthy value needs a completed project. An explicit value is stored, and an absent key flips the flag. |
| `ProjectRoutes.ExplicitPublishNeedsCompleted` | backend/routes/projects.py:182-185 | Asking for `true` publishes only completed projects. |
| `ProjectRoutes.ToggleTwiceRestores` | backend/routes/projects.py:187 | Toggling twice without the key restores the flag. |
| `ProjectRoutes.ToggleWithoutKeyPublishesAnything` | backend/routes/projects.py:182-187 | Without the key, the completed-only rule is not applied. |
| `ProjectRoutes.ToggleProjectPublic` | backend/routes/projects.py:179-193 | Another user's project is a 404. Otherwise the project becomes `TogglePublic`'s result. |
| `ClientRoutes.ListClients` | backend/routes/clients.py:11-14 | Exactly the user's clients, oldest first. |
| `ClientRoutes.GetClient` | backend/routes/clients.py:18-21 | The client when it is the user's, and a 404 otherwise. |
| `ClientRoutes.CreateClient` | backend/routes/clients.py:25-50 | A name is required. Omitted fields are stored as `''`, and the client belongs to the user under a new id. |
| `ClientRoutes.ApplyClientPatch` | backend/routes/clients.py:59-71 | The id and the owner never change, whatever the body holds. |
| `ClientRoutes.EmptyPatchKeepsClient` | backend/routes/clients.py:59-71 | An empty body changes nothing. |
| `ClientRoutes.ClientPatchIdempotent` | backend/routes/clients.py:59-71 | Sending the same update twice has the effect of sending it once. |
| `ClientRoutes.ClientPatchFields` | backend/routes/clients.py:60-71 | Each column the body leaves out keeps its value, and each one it gives takes the new value. |
| `ClientRoutes.UpdateClient` | backend/routes/clients.py:54-78 | The user's client takes the body's fields, with no check on them. Another user's client is a 404. |
| `ClientRoutes.DeleteClient` | backend/routes/clients.py:82-95 | It is refused while any project refers to the client, so no project is left without its client. |
| `ClientRoutes.SearchWithoutWildcards` | backend/routes/clients.py:107-110 | A query without wildcards keeps exactly the clients whose name or company contains it, ignoring case. |
| `ClientRoutes.SearchClients` | backend/routes/clients.py:99-112 | An empty query finds nothing. Otherwise it gives the user's clients whose name or company matches `%q%`. |
| `DocumentRoutes.Extension` | backend/routes/documents.py:17 | `rsplit('.', 1)[1]` is the text after the last dot. |
| `DocumentRoutes.AllowedFileByExtension` | backend/routes/documents.py:15-17 | A name is allowed exactly when it has a dot and the lower-cased text after the last dot is one of the ten extensions. |
| `DocumentRoutes.NoDotNotAllowed` | backend/routes/documents.py:17 | A name without a dot is never allowed. |
| `DocumentRoutes.FileExtension` | backend/routes/documents.py:105 | The stored type is the lower-cased extension of the secured name, or `''` without a dot. |
| `DocumentRoutes.NewDocumentRow` | backend/routes/documents.py:80-128 | The validations run in order, each a 400: project id, owner, file part, file name, extension. The name defaults to the original file name, and the type to `other`. |
| `DocumentRoutes.UploadIsAllowed` | backend/routes/documents.py:99-101 | Every stored upload came with an allowed file name. |
| `DocumentRoutes.UploadDocument` | backend/routes/documents.py:77-136 | It stores `NewDocumentRow` under the next id. A refusal changes nothing. |
| `DocumentRoutes.PatchDocument` | backend/routes/documents.py:150-156 | Only name, type and description change. The file, its type and size, and the project stay. |
| `DocumentRoutes.PatchDocumentIdempotent` | backend/routes/documents.py:150-156 | Sending the same body twice changes nothing the second time. |
| `DocumentRoutes.UpdateDocument` | backend/routes/documents.py:140-163 | The user's document becomes `PatchDocument`'s result, and any other id is a 404. |
| `DocumentRoutes.DeleteDocument` | backend/routes/documents.py:167-190 | The user's document goes, and any other id is a 404. |
| `DocumentRoutes.ListDocuments` | backend/routes/documents.py:21-40 | Exactly the user's documents that pass the filters, latest upload first. |
| `DocumentRoutes.DefaultTypeListed` | backend/routes/documents.py:196-207 | The seven types are listed in order, each once, and the default `other` is among them. |
| `PortfolioRoutes.BaseUrl` | backend/routes/portfolio.py:11-14 | It uses the configured server name when it is truthy, and `http://localhost:5001` otherwise. |
| `PortfolioRoutes.ImageUrl` | backend/routes/portfolio.py:30-31 | The stored path behind the base URL, or None when there is no image. |
| `PortfolioRoutes.UserNamed` | backend/routes/portfolio.py:20 | The user with that username, when there is one. |
| `PortfolioRoutes.ShowProject` | backend/routes/portfolio.py:51-61 | A shown project carries its title, its status as category, its flag, and its dates as ISO text or None. |
| `PortfolioRoutes.ShowcasedNewest` | backend/routes/portfolio.py:45-49 | Every completed, public project of the user, latest first. |
| `PortfolioRoutes.Showcase` | backend/routes/portfolio.py:45-49 | At most five completed, public projects of the user, latest first. No project left out is newer than one that is shown. |
| `PortfolioRoutes.Portfolio` | backend/routes/portfolio.py:17-70 | An unknown user is a 404. A private portfolio is a 404 to anyone but its owner. Otherwise it gives the page. |
| `PortfolioRoutes.PortfolioPage` | backend/routes/portfolio.py:30-62 | The page has the user's public fields, the image URL, and the showcase, shown project by project. |
| `PortfolioRoutes.ShowAll` | backend/routes/portfolio.py:51-62 | Each project is shown in order. |
| `PortfolioRoutes.OwnerSeesOwnPortfolio` | backend/routes/portfolio.py:22-25 | The owner always sees their own page, public or not. |
| `PortfolioRoutes.SettingsEntry` | backend/routes/portfolio.py:96-105 | A settings entry carries the project's id and flag. |
| `PortfolioRoutes.SettingsEntries` | backend/routes/portfolio.py:95-106 | There is one entry per project, in order. |
| `PortfolioRoutes.Completed` | backend/routes/portfolio.py:90-93 | Every completed project of the user, public or not. |
| `PortfolioRoutes.PortfolioSettings` | backend/routes/portfolio.py:74-114 | The user's profile fields, and an entry for every completed project. |
| `PortfolioRoutes.SetVisibility` | backend/routes/portfolio.py:133-141 | Only `is_public` flags change. Every project and every other column stays. |
| `PortfolioRoutes.Visibility` | backend/routes/portfolio.py:131-141 | After all the items, only `is_public` flags have changed. |
| `PortfolioRoutes.VisibilityIsLastSetting` | backend/routes/portfolio.py:131-141 | A project of the user takes the value of the last item naming it, with no status check. Every other project keeps its flag. |
| `PortfolioRoutes.UpdatePortfolioSettings` | backend/routes/portfolio.py:118-153 | Bio, specialization and the flag change only when present, and then the project flags change as `Visibility` says. |
| `AuthRoutes.NewUserRow` | backend/routes/auth.py:21-36 | A missing username or email is a server error. A taken username is refused before a taken email. A new user's password checks, name and specialization default to `''`, the rate defaults to 0.0, the bio is NULL, and the portfolio is public. |
| `AuthRoutes.RegisteredIsDistinct` | backend/routes/auth.py:21-27 | A registration never shares a username or an email with an earlier user. |
| `AuthRoutes.RegisterTwiceRefused` | backend/routes/auth.py:21-23 | Registering the same username twice fails the second time. |
| `AuthRoutes.Register` | backend/routes/auth.py:17-60 | It stores `NewUserRow` under the next id, so usernames and emails stay unique. A refusal changes nothing. |
| `AuthRoutes.Login` | backend/routes/auth.py:71-81 | The user of that name whose password checks. An unknown name, or a password that does not check, is a 401. |
| `AuthRoutes.LoginSucceedsIff` | backend/routes/auth.py:71-75 | With usernames unique, signing in succeeds exactly when some user has that name and that password. |
| `AuthRoutes.RegisteredCanLogIn` | backend/routes/auth.py:17-81 | A registered user can sign in with the password they registered with. |
| `AuthRoutes.DecimalValue` | backend/routes/auth.py:129 | Any text it accepts denotes a non-negative number, because a plain decimal carries no sign. |
| `AuthRoutes.RateOf` | backend/routes/auth.py:129 | A falsy rate becomes 0.0, and any other is `float` of it. |
| `AuthRoutes.PatchUser` | backend/routes/auth.py:116-129 | An email held by another user is refused. Only the keys present change, and never the username. |
| `AuthRoutes.PatchUserIdempotent` | backend/routes/auth.py:116-129 | Sending the same accepted body twice changes nothing the second time. |
| `AuthRoutes.UpdateUser` | backend/routes/auth.py:112-142 | The user's row becomes `PatchUser`'s result, and a refusal changes nothing. |
| `AuthRoutes.ChangedPassword` | backend/routes/auth.py:150-154 | A wrong current password is a 400. Otherwise only the credential changes. |
| `AuthRoutes.OldPasswordRetired` | backend/routes/auth.py:150-154 | After a change the old password no longer checks, unless it was also the new one. |
| `AuthRoutes.ChangePassword` | backend/routes/auth.py:146-163 | The user's row becomes `ChangedPassword`'s result, and a refusal changes nothing. |
| `AuthRoutes.ProfileImagePath` | backend/routes/auth.py:176-185 | The path is `/static/uploads/profile_images/{id}_{hex}_{secured name}`. |
| `AuthRoutes.ProfilePathsDistinct` | backend/routes/auth.py:177 | Two users never share an image path, whatever the random part. |
| `AuthRoutes.ProfileImageUpload` | backend/routes/auth.py:169-185 | A missing part or an empty name is a 400. Otherwise it gives the stored path. |
| `AuthRoutes.UploadedImageShown` | backend/routes/auth.py:185-192 | The answered URL is the one the portfolio shows without a configured server name. |
| `AuthRoutes.UploadProfileImage` | backend/routes/auth.py:167-198 | It stores `ProfileImageUpload`'s path in the user's row, and a refusal changes nothing. |

## Left out

- **Flask and SQLAlchemy.** Routing, request parsing, response headers, CORS, joins, sessions and commits are left out. Each route is one atomic step on the store, and a route that fails leaves the store as it was.
- **Read-only routes.** The single-row GET routes for invoices, entries, projects and documents are left out, and so are `get_user` and `logout`. Each is an ownership lookup like the ones modelled. The invoice list route is left out too; its filters are those of the time-entry list.
- **Hidden libraries.** JWT tokens, `flask_login` state, password hashing, `secure_filename`, `uuid`, the filesystem and `os.path` are not modelled. Password checking is a predicate, the secured name and the random hex are parameters, and the directory join is written as `/`.
- **PDF generation.** Not modelled.
- **JSON and form ids.** `null` in a request body is treated as an absent key. A body's ids are integers, and so is the upload form's `project_id` once matched, so texts such as `"+12"` or `" 12"`, which SQLite's numeric affinity can equate with an integer key, are not modelled.
- **Query order.** A query without `order_by`, such as the overdue invoices in the invoice stats, is modelled as returning rows in id order; SQL does not promise an order there.
- `TimeEntryRoutes.TimeSummary`: the `hours_by_project` rows come in the order each project first appears among the entries in id order. `GROUP BY` without `ORDER BY` promises no order.
- **Creation and upload time.** `ORDER BY created_at DESC` and `ORDER BY uploaded_at DESC` are modelled as descending autoincrement id. This is used by `ProjectRoutes.Newest`, `ProjectRoutes.RecentAreNewest`, `PortfolioRoutes.ShowcasedNewest`, `PortfolioRoutes.Showcase`, `DocumentRoutes.ListDocuments` and `Ledger.ReverseNewestFirst`. It holds only if the clock never steps back between inserts. Rows with equal timestamps have no order in SQL, but here the later insert comes first.
- **Commit failures.** The 500 a failed commit gives in `register` and `create_project` is not modelled.
- **Dates.** Dates are the ones Python's `date` can hold, years 1 to 9999. Time zones are not modelled, and "today" and the clock are parameters.
- `AuthRoutes.DecimalValue`: covers only plain decimal text. Python's `float` also reads signs, exponents, `inf`, `nan`, surrounding whitespace and `_` between digits, so `AuthRoutes.RateOf`, `AuthRoutes.PatchUser` and `AuthRoutes.UpdateUser` refuse those texts where Python would accept them.
- `InvoiceRoutes.CreateInvoice`: numbers the invoice with the corrected `InvoiceLines.NextNumber`, not the count of the code as written, which repeats a number after a deletion (see Findings).
- `InvoiceRoutes.FromTimeInvoice`: numbers the draft with the corrected `InvoiceLines.NextNumber` too, where the code as written counts the prefixed numbers at lines 511-516.
- `InvoiceRoutes.CreateInvoiceFromTime`: stores the draft `InvoiceRoutes.FromTimeInvoice` numbers, so it inherits the same correction.
- `InvoiceRoutes.DeleteInvoice`: reads each time line's date from its last parentheses, not its first as the code as written does, which misses the date when the description holds a `(` (see Findings).
- `AuthRoutes.Login`: takes the first user with the name. With unique usernames this is the only one.
- **The browser.** `parseFloat`, the form library's number and email tests, and `isEmail` are parameters. The form library's messages are not modelled.
- **date-fns.** `parseISO` is modelled by the same reading as `strptime`, because the server sends only ISO text. `eachDayOfInterval` on a reversed or invalid interval gives `None`: library versions differ on it.
- **Page stats and payloads.** The stats panels, the `Promise.all` requests behind them, and the `Array.isArray` fallback for a payload that is not a list are not modelled.
- `ClientsPage.Filtered`: lower-cases ASCII letters only, where `toLowerCase` folds all of Unicode.
- **Time log details.** The time log's summary request is not modelled. Neither is its `handleEdit` form filling, which writes numbers as text.
- **UI flags and effects.** Modal and editing flags, React effect scheduling and overlapping requests are not modelled. Each operation is one step with its server answers as parameters.
- **Unmodelled parts.** `frontend/src/pages/Portfolio.jsx`, `Dahsboard.jsx`, `ProjectDetail1.jsx`, `ClientDetail.jsx`, `Settings.jsx` and the other layout components are not part of this model. Neither are `seed.py`, `run.py` and `config.py`.

## Findings

| source | as written | input that shows it | evidently intended | confidence | as-written member | corrected member |
|---|---|---|---|---|---|---|
| backend/routes/invoices.py:90-96 | The sequence number is the count of the user's invoices carrying this year's prefix, plus one. | Create `INV-1-2025-0001` and `INV-1-2025-0002`, then delete the first. The next invoice is numbered `INV-1-2025-0002` again, and `invoice_number` is unique, so the insert fails. | One more than the largest sequence number already used with the prefix, a number no stored invoice has. | not executed | `InvoiceLines.AsWrittenNumberRepeats` | `InvoiceLines.NextNumber` |
| backend/routes/invoices.py:523 | `timedelta` is used, but line 3 imports only `datetime`. | Any request with at least one unbilled entry in range raises `NameError` and ends in a server error, so the route never creates an invoice. | Import `timedelta`, so the draft is due 30 days after today. | not executed | `InvoiceRoutes.CreateInvoiceFromTimeAsWritten` | `InvoiceRoutes.CreateInvoiceFromTime` |
| backend/routes/invoices.py:244 | The date is read between the first `(` and the next `)`. | A time entry described `Fix (bug)` gives the line `Time: Fix (bug) (2025-03-04)`, which reads `bug`. No date parses, so deleting the invoice leaves the entry invoiced forever. | Read the date inside the last parentheses, which line 148 always writes. | not executed | `InvoiceLines.TimeItemDateAsWrittenMisses` | `InvoiceLines.TimeItemDateRoundTrip` |
