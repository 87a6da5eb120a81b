# Window-cleaning console: a Dafny model

The system is a React console for a window-cleaning business. It holds five kinds of record:

- customers;
- jobs, each with a lifecycle status: lead, quoted, scheduled, completed, cancelled or no_show;
- messages exchanged with customers, inbound or outbound, typed or automatic;
- bad-weather day markers;
- key/value settings.

All records live in an external entity store. The logic of the console sits in the page and component handlers. Each handler either reads the record lists and derives figures, filters and groupings from them, or runs a short sequence of store calls.

This project models that logic in Dafny:

- `Gateway.Store` is the store, as in-memory tables. Each table is a sequence of records. Ids come from a counter and creation times from a clock field.
- Each page or component that changes state is a `class`, and its handlers are methods. Each method's `ensures` states the new tables and the new page state.
- The derived views are functions over record lists. Lemmas relate these functions to each other and to the handlers.

Modules:

- Shared modules:
  - `Optional`: the option type.
  - `Seqs`: filtering, counting, grouping by key, toggling.
  - `Text`: trimming, substring search, string order and lower-casing of the ASCII, Latin-1, unaccented Greek and basic Cyrillic capitals. Where the model departs from JavaScript is listed under "## Left out".
  - `Records`: the entities and JavaScript truthiness of their fields.
  - `Gateway`: the store.
  - `Days`: jobs on a date, jobs by status, markers on a date.
- One module per page or component:
  - pages: `Inbox`, `JobDetail`, `Dashboard`, `Calendar`, `SettingsPage`, `JobsPage`, `CustomersPage`, `CustomerDetail`, `NewCustomer`;
  - components: `CalendarView`, `DaySchedule`, `WeatherManager`, `JobForm`, `JobCard`, `MessageComposer`.

Conventions:

- Dates are `yyyy-MM-dd` strings.
- A creation time is a natural number.
- Numeric fields that may be absent are `Option<int>`. Such a field is truthy when it is present and not 0.
- A message's text is a `Body` value. The value names the template and carries the fields the template interpolates, so the text itself is not built.

Points of behaviour worth knowing, as the code has them:

- Job status changes are not validated. Any status is written as submitted, and the form offers all six statuses.
- A save creates at most one automatic message. There is no "sent once" flag: saving a job into `scheduled` again after it left that status sends another confirmation.
- Clearing a bad-weather day deletes only the first marker with that date. A day marked twice stays marked after one clear.
- Automatic messages, and the typed message of the job page, are created without `is_read`. The source does not show the store's default; the model assumes it is unread.
- The automatic message texts are written into the handlers. They are not taken from the saved settings templates.
- The day schedule shows `price_estimate || final_price`. The card and the revenue figures use `final_price || price_estimate`.

## Model

| member | source | states |
|---|---|---|
| Inbox.GroupConversations | src/pages/Inbox.jsx:64-98 | The grouping loop over the message log yields exactly `Conversations`, the newest-first sort of one summary per distinct customer id, in the order of first occurrence. |
| Inbox.GroupByCustomer | src/pages/Inbox.jsx:67-93 | After the loop, the map holds one entry per customer id, and each entry is that customer's summary. The keys are in order of first occurrence. |
| Inbox.Conversations | src/pages/Inbox.jsx:95-97 | The conversation list is sorted by last-message time, descending, and is a permutation of the per-customer summaries. |
| Inbox.ConversationOfCustomer | src/pages/Inbox.jsx:64-93 | A customer has a conversation if and only if some message carries their id. |
| Inbox.ConversationsDistinct | src/pages/Inbox.jsx:67-88 | No two conversations belong to the same customer. |
| Inbox.ConversationIsSummary | src/pages/Inbox.jsx:67-93 | Each conversation holds exactly its customer's messages, in log order. Its unread count is the number of those that are inbound and unread. Its last message, time and channel come from the first of them. |
| Inbox.MessageTotal | src/pages/Inbox.jsx:64-93 | The conversations together hold every message exactly once: their message counts sum to the log length. |
| Inbox.UnreadTotal | src/pages/Inbox.jsx:155 | The header total, the sum of the conversations' unread counts, equals the number of inbound unread messages in the log. |
| Inbox.CustomerById | src/pages/Inbox.jsx:69 | Finds a customer with the given id, or reports that none has it. |
| Inbox.DisplayName | src/pages/Inbox.jsx:74 | The shown name is the customer's full name when present, and is never empty ('Unknown' otherwise). |
| Inbox.SortByRecency | src/pages/Inbox.jsx:95-97 | Sorting gives a permutation that is newest first. |
| Inbox.SortByRecencyStable | src/pages/Inbox.jsx:95-97 | The sort is stable: for every time, the conversations with that last-message time keep their input order. |
| Inbox.NewestFirstPairwise | src/pages/Inbox.jsx:95-97 | In a newest-first list, every earlier conversation is at least as recent as every later one. |
| Inbox.Thread | src/pages/Inbox.jsx:100-102 | The selected thread is a conversation with the selected customer id, or none when no conversation has that id. |
| Inbox.ThreadIsSummary | src/pages/Inbox.jsx:100-102 | For a customer with messages, the thread found is that customer's summary. |
| Inbox.MarkedReadCounts | src/pages/Inbox.jsx:109-113 | After marking, the customer has no unread inbound message. Every other customer's messages are unchanged. The total unread count drops by exactly the customer's unread count. |
| Inbox.MarkedReadIdempotent | src/pages/Inbox.jsx:104-116 | Marking a conversation read twice is the same as marking it once, so reopening makes no change. |
| Inbox.MarkConversationRead | src/pages/Inbox.jsx:109-113 | The update loop sets is_read on exactly the customer's unread inbound messages. The number of writes is their count. The store stays valid. |
| Inbox.Reply | src/pages/Inbox.jsx:121-129 | A reply is outbound, read and not automatic. It has the conversation's customer, the id of the conversation's latest job (none without one), the chosen channel and the typed body. |
| Inbox.InboxPage.SelectConversation | src/pages/Inbox.jsx:104-116 | Opening a conversation selects it and marks its unread inbound messages read, with one write each. |
| Inbox.SendReply | src/pages/Inbox.jsx:49-57 | The send mutation creates the reply, then marks the customer's unread inbound messages read. |
| Inbox.InboxPage.SendMessage | src/pages/Inbox.jsx:118-131 | With no conversation selected, nothing changes. Otherwise the reply is sent as above and the composer is cleared. |
| Inbox.InboxPage.QuickReply | src/pages/Inbox.jsx:133-135 | A quick reply replaces the composer text with the template. |
| Inbox.InboxPage.constructor | src/pages/Inbox.jsx:28-31 | The page starts with no conversation, the text channel and an empty composer. |
| JobDetail.ServiceLabel | src/pages/JobDetail.jsx:89 | A service id is shown with its first underscore replaced by a space, and every other character kept. |
| JobDetail.ServiceText | src/pages/JobDetail.jsx:89 | The quote's service text is 'window cleaning' for an absent or empty list, otherwise the labels joined by ', ' (the first label, ', ', then the join of the rest when there are two or more). It is never empty. |
| JobDetail.QuoteHours | src/pages/JobDetail.jsx:90 | The quoted duration is the estimate when truthy, otherwise 2. |
| JobDetail.AutoMessages | src/pages/JobDetail.jsx:88-113 | A save sends a quote if and only if the move is lead to quoted with a truthy price. It sends a confirmation if and only if the move is into scheduled, with a date, from any other status. It sends at most one message. |
| JobDetail.UnchangedStatusSendsNothing | src/pages/JobDetail.jsx:88 | A save that keeps the status sends no automatic message. |
| JobDetail.NoPriceNoQuote | src/pages/JobDetail.jsx:88 | Quoting a lead with a price of 0 or none sends nothing. |
| JobDetail.AutoMessagesShape | src/pages/JobDetail.jsx:92-112 | Every automatic message is outbound, text, automatic, and carries this job's id and customer id. |
| JobDetail.TypedMessage | src/pages/JobDetail.jsx:119-126 | A typed message is outbound, text, not automatic, and carries the job and the customer. |
| JobDetail.JobDetailPage.HandleSaveJob | src/pages/JobDetail.jsx:83-114 | The submitted data is written first, unvalidated, keeping the id. Then exactly the `AutoMessages` for the previous status are created. A sent message clears the text box. |
| JobDetail.JobDetailPage.HandleSendMessage | src/pages/JobDetail.jsx:116-127 | Text that is blank once trimmed sends nothing and changes nothing. Otherwise one typed message with the untrimmed text is created and the box is cleared. |
| Days.JobsOn | src/pages/Dashboard.jsx:53-54 | The jobs of a day are exactly those whose scheduled date equals the day's string. |
| Days.JobsOnInOrder | src/pages/Calendar.jsx:59 | The jobs of a day keep their list order. |
| Days.DaysDisjoint | src/pages/Dashboard.jsx:53-54 | The jobs of two different days together number at most the whole list. |
| Days.HasMarker | src/pages/Dashboard.jsx:74 | A day is bad-weather if and only if some marker has that date. |
| Days.WithStatus | src/pages/Dashboard.jsx:55-56 | The jobs with a status are exactly those whose status equals it. |
| Days.StatusCount | src/pages/Dashboard.jsx:55-56 | The lead and quoted counts are bounded by the list length, and are 0 exactly when no job has that status. |
| Days.StatusCountsDisjoint | src/pages/Dashboard.jsx:55-56 | The counts of two different statuses sum to at most the job count. |
| Dashboard.UnreadMessages | src/pages/Dashboard.jsx:57 | The unread badge counts inbound unread messages. It is 0 exactly when there are none. |
| Dashboard.UnreadMatchesInbox | src/pages/Dashboard.jsx:57 | Over the same log, the dashboard badge equals the inbox header total. |
| Dashboard.MonthlyRevenueAppend | src/pages/Dashboard.jsx:59-66 | Adding a job adds `final_price \|\| price_estimate \|\| 0` to the month's revenue exactly when it is completed and created in the month. |
| Dashboard.MonthlyRevenueConcat | src/pages/Dashboard.jsx:59-66 | Monthly revenue is additive over concatenated job lists. |
| Dashboard.UnconfirmedJobs | src/pages/Dashboard.jsx:68-72 | The unconfirmed jobs are exactly the scheduled, unconfirmed jobs dated today or tomorrow. |
| Dashboard.UnconfirmedAmongScheduled | src/pages/Dashboard.jsx:68-72 | There are no more unconfirmed jobs than scheduled jobs, and they do not overlap the leads or the quoted jobs. |
| Dashboard.ThreeStatuses | src/pages/Dashboard.jsx:55-56 | The lead, quoted and scheduled counts sum to at most the job count. |
| Dashboard.ShowsAlerts | src/pages/Dashboard.jsx:124 | The alert block shows if and only if there is an unconfirmed job, or a marker for today or tomorrow. |
| Dashboard.TodayList | src/pages/Dashboard.jsx:176 | The today list shows at most 5 of today's jobs, as a prefix in list order, all of them when there are 5 or fewer, and exactly the first 5 when there are more. |
| Dashboard.RecentLeads | src/pages/Dashboard.jsx:213 | The leads list shows at most 5 leads, as a prefix in list order, all of them when there are 5 or fewer, and exactly the first 5 when there are more. |
| Calendar.MarkBadWeather | src/pages/Calendar.jsx:39-42 | Marking always appends one new marker for the date, with no duplicate check. Afterwards the day is bad-weather. |
| Calendar.Cleared | src/pages/Calendar.jsx:44-49 | When the date has a marker, clearing removes exactly the first marker with that date and keeps the others in order. Otherwise nothing changes. |
| Calendar.ClearedKeepsOtherDays | src/pages/Calendar.jsx:44-49 | Clearing a date leaves every other day's bad-weather flag as it was. |
| Calendar.ClearAfterDoubleMarkLeavesMarker | src/pages/Calendar.jsx:39-49 | A day marked twice is still bad-weather after one clear. |
| Calendar.ClearBadWeather | src/pages/Calendar.jsx:44-51 | The handler deletes the first marker with the date, if any. |
| Calendar.MarkComplete | src/pages/Calendar.jsx:66-81 | The job's status is written completed first. Then exactly one outbound automatic text review request for that job and customer is created. |
| Calendar.MarkNoShow | src/pages/Calendar.jsx:83-88 | The job's status is written no_show and no message is created. |
| Calendar.FirstName | src/pages/Calendar.jsx:91 | The greeting name is the customer name's first space-separated token: a space-free prefix followed by a space or by the end of the name. It is '' when there is no name. |
| Calendar.RescheduleMessage | src/pages/Calendar.jsx:90-100 | The reschedule message is outbound, text and not automatic. It carries the first name and the date, and the note only when the note is non-empty. |
| Calendar.SendReschedule | src/pages/Calendar.jsx:90-101 | Sending appends that one message and changes no job. |
| CalendarView.DayCell | src/components/calendar/CalendarView.jsx:32-40 | A cell shows at most the first 3 of the day's jobs, in order. '+N more' appears exactly when there are more than 3, with N the count minus 3. The bad-weather flag is set exactly when a marker has the date. |
| SettingsPage.Kind | src/pages/Settings.jsx:132 | A key is typed 'template' if and only if it starts with 'template_', and 'config' otherwise. |
| SettingsPage.SavedKeysDistinct | src/pages/Settings.jsx:143-153 | The saved mapping has exactly 13 distinct keys. |
| SettingsPage.SavedKeysLayout | src/pages/Settings.jsx:143-153 | The keys are the 6 general keys followed by 'template_' plus each of the 7 template names. |
| SettingsPage.SavedKeysKinds | src/pages/Settings.jsx:132 | The 6 general keys are config and the 7 template keys are template. |
| SettingsPage.Defaults | src/pages/Settings.jsx:74-83 | The page starts with a value for every saved key. |
| SettingsPage.StoredMap | src/pages/Settings.jsx:92-95 | The loaded map has exactly the keys of the stored records. |
| SettingsPage.StoredMapLastWins | src/pages/Settings.jsx:92-95 | When keys repeat, the last record with a key gives its value. |
| SettingsPage.BuildMap | src/pages/Settings.jsx:92-95 | The load loop builds exactly `StoredMap`. |
| SettingsPage.Merge | src/pages/Settings.jsx:97-116 | Each field takes the stored value when it is non-empty, and keeps its previous value otherwise. The set of fields is unchanged. |
| SettingsPage.SavedRecords | src/pages/Settings.jsx:128-134 | Save creates one record per key, in key order, with the key's value and its kind. |
| SettingsPage.DeleteAll | src/pages/Settings.jsx:123-125 | The delete loop empties the settings table. |
| SettingsPage.CreateAll | src/pages/Settings.jsx:128-134 | The create loop appends one typed record per entry, with consecutive ids. |
| SettingsPage.StoredMapOfSaved | src/pages/Settings.jsx:92-95 | Loading the saved records gives back every saved value under its key. |
| SettingsPage.SaveLoadRoundTrip | src/pages/Settings.jsx:92-134 | Saving then loading restores every non-empty value verbatim. An empty value keeps what the page showed before. |
| SettingsPage.SaveLoadIdentity | src/pages/Settings.jsx:92-134 | Loading what was just saved over the same values changes nothing. |
| SettingsPage.SettingsPage.Load | src/pages/Settings.jsx:90-118 | No stored records leaves the values as they are. Otherwise they become the merge with the stored map. |
| SettingsPage.SettingsPage.Save | src/pages/Settings.jsx:120-155 | Save replaces the whole table with the 13 records of the current values and sets the saved flag. |
| SettingsPage.SettingsPage.SetField | src/pages/Settings.jsx:74-83 | Editing a field changes that value only. |
| JobsPage.FilteredJobs | src/pages/Jobs.jsx:58-88 | A job is listed if and only if it matches the search and the selected filter keeps it. |
| JobsPage.FilteredInOrder | src/pages/Jobs.jsx:58 | The filtered jobs are an order-preserving sub-list. |
| JobsPage.UnknownFilterKeepsAll | src/pages/Jobs.jsx:85-86 | With an empty search, 'all' or any unknown filter key lists every job. |
| JobsPage.TodayFilterIsDay | src/pages/Jobs.jsx:69-72 | The today and tomorrow filters list exactly that day's jobs. |
| JobsPage.StatusFilterIsStatus | src/pages/Jobs.jsx:75-84 | Each status filter lists exactly the jobs with that status. |
| JobsPage.UnconfirmedTabCoversAlerts | src/pages/Jobs.jsx:81-82 | The unconfirmed tab has no date limit, so it holds every job of the dashboard's unconfirmed alert. |
| JobsPage.WeekFilterIsRange | src/pages/Jobs.jsx:73-74 | A dated job is in the week tab if and only if its date string lies between the week bounds inclusive, in string order. |
| JobsPage.Counts | src/pages/Jobs.jsx:48-52 | The tab counts are taken over the whole job list and fit within it. |
| JobsPage.CountsBoundTabs | src/pages/Jobs.jsx:48-52 | Each of the four tab counts (today, tomorrow, lead, quoted) bounds its tab's list under any search, and equals its length when the search is empty. |
| CustomersPage.JobCounts | src/pages/Customers.jsx:29-35 | The count map has an entry for every customer id with jobs, and the entry is the number of that customer's jobs. |
| CustomersPage.ShownCountIsJobCount | src/pages/Customers.jsx:117 | The shown count is the customer's job count, and 0 for a customer with no jobs. |
| CustomersPage.CountsSumToTotal | src/pages/Customers.jsx:29-35 | The per-customer counts sum to the number of jobs. |
| CustomersPage.FilteredCustomers | src/pages/Customers.jsx:44-65 | A customer is listed if and only if they match the search and the type filter. The search is case-insensitive on name, address and email, and case-sensitive on the mobile number. |
| CustomersPage.FilteredInOrder | src/pages/Customers.jsx:44 | The filtered customers are an order-preserving sub-list. |
| CustomersPage.OtherFilterKeepsAll | src/pages/Customers.jsx:62-63 | With an empty search, any filter other than residential, commercial or reviewed lists every customer. |
| CustomersPage.ResidentialCommercialDisjoint | src/pages/Customers.jsx:56-59 | No customer is both residential (which includes an unset type) and commercial. |
| CustomerDetail.TotalRevenueAppend | src/pages/CustomerDetail.jsx:74-76 | A job adds its `final_price \|\| price_estimate \|\| 0` to the revenue exactly when it is completed. |
| CustomerDetail.RevenueAgreesWithDashboard | src/pages/CustomerDetail.jsx:74-76 | Over jobs all created in the month, the customer revenue rule and the dashboard's monthly revenue agree. |
| CustomerDetail.CompletedCount | src/pages/CustomerDetail.jsx:78 | The completed count never exceeds the job count. With no completed jobs the revenue is 0. |
| CustomerDetail.HandleCreateJob | src/pages/CustomerDetail.jsx:80-88 | New Job creates one lead for this customer, with the customer's name and address copied. |
| CustomerDetail.ToggleReview | src/pages/CustomerDetail.jsx:90-94 | The customer's left_review is written as the negation of the shown value. |
| CustomerDetail.ToggleReviewTwice | src/pages/CustomerDetail.jsx:90-94 | One toggle flips exactly the flag, and a second toggle restores the table. |
| NewCustomer.CreatedCount | src/pages/NewCustomer.jsx:17-39 | A chain that fails at a step has created exactly the records before it. A chain with no failure creates all three. |
| NewCustomer.CreateChain | src/pages/NewCustomer.jsx:17-40 | The chain creates the customer, then a lead with the form's name and address linked to it, then an automatic outbound welcome text for both. It returns the customer and job, and stops at the first failure without undoing anything. |
| NewCustomer.NewCustomerPage.HandleSave | src/pages/NewCustomer.jsx:47-59 | The saving flag ends false on every path. Success opens the new job. Failure sets the error text and keeps the records already made. The tables gain exactly the chain's records: the customer unless the first call fails, the lead when the message call fails or nothing fails, and the welcome message only when nothing fails. |
| WeatherManager.BatchCount | src/components/weather/WeatherManager.jsx:29-35 | The bulk send makes one message per selected id that matches a job of the day, and skips the others. |
| WeatherManager.BatchAbout | src/components/weather/WeatherManager.jsx:29-35 | Each message of the batch is a reschedule message for a selected job of the day. |
| WeatherManager.WeatherManager.ToggleJob | src/components/weather/WeatherManager.jsx:21-27 | Toggling removes a selected id or appends an unselected one. Membership flips, and the selection never gains a duplicate. |
| WeatherManager.WeatherManager.SendBulk | src/components/weather/WeatherManager.jsx:29-38 | The reschedule messages are sent in selection order. Then the selection and the note are reset. |
| WeatherManager.WeatherManager.ShowsJobList | src/components/weather/WeatherManager.jsx:78 | The job list shows only on a bad-weather day that has jobs. |
| WeatherManager.WeatherManager.ShowsSendControl | src/components/weather/WeatherManager.jsx:106 | The send control also needs a non-empty selection. |
| JobForm.Normalised | src/components/jobs/JobForm.jsx:68-70 | On submit a numeric input becomes its number when given, and null otherwise. |
| JobForm.Synced | src/components/jobs/JobForm.jsx:48-50 | A sync maps a number of 0 or none to an empty input. |
| JobForm.Initial | src/components/jobs/JobForm.jsx:29-41 | The job's fields override the form defaults. Each numeric input holds the job's stored number, or is empty when the job leaves it unset. With no job the defaults stand. |
| JobForm.Submit | src/components/jobs/JobForm.jsx:64-72 | Submit normalises the three numeric inputs and passes every other field through unchanged. |
| JobForm.SyncSubmitRoundTrip | src/components/jobs/JobForm.jsx:43-72 | Submitting a synced form gives the job back, except that a stored 0 comes back as null. |
| JobForm.InitialAgreesWithSync | src/components/jobs/JobForm.jsx:29-53 | The initial state and the sync that follows submit the same data. |
| JobForm.JobFormState.Sync | src/components/jobs/JobForm.jsx:43-53 | A given job replaces the form's fields. No job leaves the form as it is. |
| JobForm.JobFormState.ToggleService | src/components/jobs/JobForm.jsx:55-62 | Toggling removes a listed service or appends it to the (possibly unset) list. Membership flips and no duplicate appears. |
| JobForm.JobFormState.SetStatus | src/components/jobs/JobForm.jsx:19-26 | Any of the six status choices is written, with no transition check. |
| JobForm.ToggleServiceTwice | src/components/jobs/JobForm.jsx:55-62 | Toggling a service twice restores its membership, and the list itself when it was absent. |
| DaySchedule.SortJobsSpec | src/components/calendar/DaySchedule.jsx:35-39 | The sorted copy is a permutation of the day's jobs. Timed jobs come before untimed ones, timed jobs ascend by start time, and untimed jobs keep their order. |
| DaySchedule.SortedMeans | src/components/calendar/DaySchedule.jsx:36-38 | In a sorted schedule, no untimed job precedes a timed one, and timed jobs are in ascending start-time order. |
| DaySchedule.ShowsUnconfirmed | src/components/calendar/DaySchedule.jsx:77 | The Unconfirmed badge shows if and only if the job is scheduled and not confirmed, and then the actions show too. |
| DaySchedule.PriceShown | src/components/calendar/DaySchedule.jsx:100 | The schedule's price is the estimate when truthy, else the final price when truthy, else 0. |
| DaySchedule.PriceShownVersusWorth | src/components/calendar/DaySchedule.jsx:100 | The schedule's price differs from the revenue worth exactly when both prices are truthy and differ. |
| JobCard.StatusBadge | src/components/jobs/JobCard.jsx:37 | A known status shows its badge. An unknown status shows the Lead badge. |
| JobCard.ServiceBadge | src/components/jobs/JobCard.jsx:81 | A known service shows its label. An unknown id is shown as it is. |
| JobCard.PriceLine | src/components/jobs/JobCard.jsx:100-105 | The price line shows if and only if either price is truthy, and the shown amount is never 0. |
| JobCard.PriceLineIsWorth | src/components/jobs/JobCard.jsx:100-105 | The card shows the final price when truthy and the estimate otherwise (the revenue worth), and hides the line exactly when that worth is 0. |
| JobCard.QuickActions | src/components/jobs/JobCard.jsx:122-152 | With quick actions enabled, Message is always offered, Send Quote exactly for a lead and Schedule exactly for a quoted job. |
| MessageComposer.ChannelChange | src/components/inbox/MessageComposer.jsx:43 | An empty channel value is ignored. Any other value is passed on. |
| MessageComposer.Composer.constructor | src/components/inbox/MessageComposer.jsx:14 | The field starts with the default message. |
| MessageComposer.Composer.SyncDefault | src/components/inbox/MessageComposer.jsx:16-20 | A non-empty default message replaces the text. An empty one does not. |
| MessageComposer.Composer.HandleSend | src/components/inbox/MessageComposer.jsx:22-27 | The trimmed text is sent if and only if it is non-empty and no send is in progress. Then the field is cleared. Otherwise the text is kept. What is sent needs no further trimming. |
| MessageComposer.Composer.HandleKeyDown | src/components/inbox/MessageComposer.jsx:29-34 | Enter without Shift sends as the button does. Shift+Enter or any other key sends nothing and keeps the text. |
| Text.TrimIdempotent | src/components/inbox/MessageComposer.jsx:23-24 | Trimming twice is the same as trimming once. |
| Text.TrimEmptyIffBlank | src/pages/JobDetail.jsx:117 | Trimmed text is empty if and only if every character is whitespace. |
| Records.AutoMessage | src/pages/NewCustomer.jsx:30-37 | An automatic message is outbound, text, automatic and unread, with the given customer and job. |
| Records.NewLead | src/pages/CustomerDetail.jsx:81-86 | A new job is an unconfirmed lead. |
| Records.TotalValueConcat | src/pages/Dashboard.jsx:66 | The summed worth of jobs is additive over concatenation. |

## Left out

- Rendering: JSX, styling, icons, layout and the presentation-only components. The visible results of rendering are modelled as functions: the cell contents, badges, price lines, action lists and visibility conditions.
- The store client: react-query caching, invalidation and the 30-second unread polling. The store is in-memory tables with ids from a counter and creation times from a clock field.
- Query limits and sort orders of fetches, such as the 500 newest messages. Every fetched list is a parameter, or the whole table.
- Transport failures: only the new customer chain catches them. There, `failure` names the call that fails. Every other handler's store calls are taken to succeed, apart from an update or delete of an unknown id, which reports `NotFound`.
- Concurrency: `Promise.all` and `forEach` fan-outs run as sequential loops, which reach the same final state.
- Clock and dates: date-fns and `new Date()` are left out. Today, tomorrow and the week bounds are string parameters. The current month is a window `[monthStart, monthEnd)` of creation times.
- Dashboard.MonthlyRevenue: month-and-year extraction is not modelled. Membership in the month is that window test.
- Text: long-form date formatting and the exact message texts are abstracted into `Body` values. Each value names the template and carries the fields it interpolates.
- SettingsPage.Defaults: the default template texts are placeholders, not the source's literal texts.
- Numbers: floating point and `parseFloat` are not modelled. Prices and durations are integers, and typed input is kept as the integer it parses to.
- JobForm.Initial: a number field stored as null and one left unset are both an empty input. Both submit as null. A text field (notes, assigned tech, scheduled date and times) or the service list that the job leaves unset stays unset in the model, where the source keeps the default `''` or `[]`, so `Submit` passes on an unset value where the source sends `''` or `[]`.
- JobForm.JobFormState.Sync: the source merges the job over the current form, so a key the job object lacks keeps the form's value. The model's job record has every field, so the sync replaces them all.
- String comparisons: the `>=`/`<=` date comparisons are string order on characters. A character here is a Unicode scalar value, where JavaScript compares UTF-16 code units. These two orders differ only for characters beyond U+FFFF compared with characters from U+E000 to U+FFFF.
- DaySchedule.SortJobs: `localeCompare` of start times is modelled as the same character order. Locale collation differs from it in general (case, accents, punctuation: `"a".localeCompare("B")` is negative while `"a" > "B"`). The two agree on fixed-width `HH:mm` times, which is what the field holds.
- Text.ToLower / JobsPage.FilteredJobs / CustomersPage.FilteredCustomers: only the ASCII, Latin-1, unaccented Greek (U+0391 to U+03A9) and basic Cyrillic capitals are folded. Accented Greek capitals (U+0386, U+0388 to U+038F) and Ϊ Ϋ (U+03AA, U+03AB) are kept as they are, and a word-final Σ lowers to σ where JavaScript gives ς, so a search "ΟΔΟΣ" finds "οδος" in the source and nothing in the model. `toLowerCase` folds every Unicode letter, so a search that differs from a listed field only in the case of other letters finds nothing in the model, where the source finds the record.
- DaySchedule.SortJobs: the comparator is not consistent for two jobs without a start time. The model fixes the order that a stable insertion sort gives: timed jobs ascending, then untimed jobs in list order. The engine's actual order among untimed jobs is not modelled.
- The saved flag of the settings page is set on save. Its reset two seconds later, by a timer, is not modelled.
- Navigation: page changes after creating a job, and the job card's quick-action navigation, are not modelled. The created job's id is returned instead.
- JobCard.PriceLine: when `final_price` is 0 and the estimate is falsy, the source's `(price_estimate || final_price) && …` yields 0 and React renders a bare "0" on the card. The model has the line hidden and nothing else shown.
- Mobile layout toggles and loading spinners are not modelled.
