# Monitora Marcas dashboard — a Dafny model of its client-side logic

This project models the logic of a social-listening dashboard (a Next.js /
React front end) that sits between its event handlers and its charts:

- the **collection control** of the monitor page ("Coletas" tab): a status
  of idle / collecting / done / error with a status message, a run button and
  a delete button gated by two pending mutations and by whether any data
  exists;
- **search-term editing**: the term managers of the platform-settings page
  (add with trimming, remove every occurrence, replace one of six lists) and
  the term list of the trends comparison chart;
- **analytics data shaping**: the merge of several trend series into chart
  rows, the join of mentions and trends by date, the capitalised sentiment
  slices and their colours, the mentions table's pagination and entity
  filter, and the query parameters of the analytics requests;
- **small validators and builders**: the WhatsApp `.zip` upload form, the
  user form's schema and password stripping, and the Instagram dashboard's
  endpoint builders, headers and error messages.

One Dafny module models each source file. `Common` holds the shared
values (optional values, the signed-in user, toasts, "remove every
occurrence"). `Strings` holds the JavaScript string primitives the code
relies on (`trim`, ASCII case mapping, `endsWith`, decimal rendering).
`UrlQuery` holds the `name=value&…` query format.

State that the components keep with `useState` is a Dafny `class`, with one
method per handler. Each method's `ensures` gives the whole new state. A
`Valid()` predicate states what every handler preserves. An asynchronous
handler is split into the part that runs before the request and the
`onSuccess` / `onError` / `finally` part that runs when the request settles.
Pure mappings are functions, and the loops of the source are methods with
invariants. These are the `forEach` that fills a chart row and the
`forEach` that appends `profiles` pairs to a `URLSearchParams`.

Library behaviour enters as parameters:

- date validity (`isValid` of date-fns), for the monitor's start date;
- date formatting (`toLocaleDateString`), for chart labels;
- the e-mail check of the form schema;
- the form encoding of `URLSearchParams`.

The browser's `window.confirm` answer is a parameter too.

The monitor page polls nothing, and it reads no system status. A collection
is one request that settles once. The model follows the code here and has no
polling loop.

## Model

| member | source | states |
|---|---|---|
| Common.RemoveAll | src/app/profile/page.tsx:39 | the filtered list holds every element except `x` with its multiplicity, and no `x` |
| Common.RemoveAllMembers | src/app/profile/page.tsx:39 | `y` survives the filter iff it was in the list and differs from the removed term |
| Common.RemoveAllAppend | src/components/analytics/TabInteligenciaTrends.tsx:97-99 | the filter distributes over concatenation, so the survivors keep their relative order |
| Common.RemoveAllAbsent | src/components/analytics/TabInteligenciaTrends.tsx:98 | removing a term that is not in the list leaves it unchanged |
| Common.RemoveAllKeepsNoDuplicates | src/components/analytics/TabInteligenciaTrends.tsx:97-99 | filtering a duplicate-free list keeps it duplicate-free |
| Strings.TrimStart | src/app/profile/page.tsx:33 | the result is a suffix; what was cut is whitespace; the result does not start with whitespace |
| Strings.TrimEnd | src/app/profile/page.tsx:33 | the result is a prefix; what was cut is whitespace; the result does not end with whitespace |
| Strings.Trim | src/app/profile/page.tsx:33 | `trim()` gives a slice of the input; the whitespace cut from both ends is all of it; the slice has no whitespace at either end |
| Strings.TrimOfTrimmed | src/app/profile/page.tsx:33 | a string without whitespace ends is its own trim |
| Strings.TrimEmptyIff | src/app/profile/page.tsx:32-33 | a string trims to "" exactly when it is all whitespace |
| Strings.ToLower | src/components/whatsapp/whatsapp-upload-form.tsx:22 | lower-casing keeps the length and maps each character on its own |
| Strings.ToLowerOfLower | src/components/analytics/SentimentDistributionChart.tsx:66 | a string with no upper-case letter lower-cases to itself |
| Strings.Capitalize | src/components/analytics/SentimentDistributionChart.tsx:30 | capitalising keeps the length, changes only the first character, and maps "" to "" |
| Strings.LowerOfCapitalized | src/components/analytics/SentimentDistributionChart.tsx:30 | lower-casing a capitalised string gives the lower-cased original; for a string without upper-case letters that is the string itself |
| Strings.ToLowerSuffix | src/components/whatsapp/whatsapp-upload-form.tsx:22 | lower-casing commutes with taking a suffix |
| Strings.NatToString | src/services/instagramDashboardApi.ts:58 | `${n}` of a non-negative safe integer (below 2^53, hence below 10^21, where JavaScript switches to exponent form) is a non-empty run of digits without a leading zero |
| Strings.IntToString | src/services/instagramDashboardApi.ts:58 | for a safe integer `i`, `${i}` starts with a minus sign exactly when `i` is negative |
| Strings.NatToStringRoundTrip | src/services/instagramDashboardApi.ts:58 | for a safe integer, reading the digits back gives the number |
| Strings.NatToStringInjective | src/services/instagramDashboardApi.ts:23 | distinct safe integers print differently |
| Monitor.HasAnyData | src/app/monitor/page.tsx:325 | data exists when a summary has arrived and counts at least one run |
| Monitor.RunEnabled | src/app/monitor/page.tsx:346-350 | the date input and run button are enabled when neither mutation is pending and there is no data |
| Monitor.DeleteEnabled | src/app/monitor/page.tsx:389 | the delete button is enabled when neither mutation is pending and there is data |
| Monitor.IsMutating | src/app/monitor/page.tsx:326 | a mutation is under way while the collection or the deletion is pending |
| Monitor.GatingExclusive | src/app/monitor/page.tsx:325-350 | run and delete are never enabled together; both are disabled while either mutation is pending; otherwise run is enabled iff there is no data and delete (line 389) iff there is |
| Monitor.SuccessMessage | src/app/monitor/page.tsx:273 | the backend's message when non-empty, else "Coleta concluída com sucesso!" |
| Monitor.FailureMessage | src/app/monitor/page.tsx:282-284 | "Erro na coleta: " followed by the response detail when non-empty, else by "Ocorreu um erro durante a coleta." |
| Monitor.CollectionsTab.HasData | src/app/monitor/page.tsx:325 | the tab's `hasAnyData`, read from its current summary |
| Monitor.CollectionsTab.RunButtonEnabled | src/app/monitor/page.tsx:346-350 | the run button's and date input's enabled state for the tab's pending flags and data |
| Monitor.CollectionsTab.DeleteButtonEnabled | src/app/monitor/page.tsx:389 | the delete button's enabled state for the tab's pending flags and data |
| Monitor.CollectionsTab.StatusAlertShown | src/app/monitor/page.tsx:355 | the status alert is rendered exactly when the status is not idle |
| Monitor.CollectionsTab.DeleteControlShown | src/app/monitor/page.tsx:380 | the data-management card with the delete button exists exactly for an ADM user |
| Monitor.CollectionsTab.constructor | src/app/monitor/page.tsx:261-263 | empty date, idle status, empty message, nothing pending |
| Monitor.CollectionsTab.SummaryArrived | src/app/monitor/page.tsx:265-268 | a new summary replaces the old one and nothing else changes |
| Monitor.CollectionsTab.TypeStartDate | src/app/monitor/page.tsx:344-346 | the date input takes the typed text only while it is enabled, under the same rule as the run button |
| Monitor.CollectionsTab.HandleRunCollection | src/app/monitor/page.tsx:304-317 | an empty date or one the date library rejects gives only its error toast and changes no status, message or pending flag; otherwise the status is collecting with the starting message, and a request carrying the entered date is sent |
| Monitor.CollectionsTab.ClickRun | src/app/monitor/page.tsx:350 | a click runs the handler exactly when the run button is enabled; a sent request leaves a pending collection and no pending deletion |
| Monitor.CollectionsTab.HandleDeleteData | src/app/monitor/page.tsx:319-323 | the delete mutation starts exactly when the user confirms |
| Monitor.CollectionsTab.ClickDelete | src/app/monitor/page.tsx:380-389 | a deletion starts iff the user is ADM (the control exists), the button is enabled and the user confirms |
| Monitor.CollectionsTab.CollectionSucceeded | src/app/monitor/page.tsx:272-280 | status done, the success message as status message and toast, the three monitor queries invalidated in order |
| Monitor.CollectionsTab.CollectionFailed | src/app/monitor/page.tsx:281-286 | status error; the prefixed detail is both the status message and the error toast |
| Monitor.CollectionsTab.DeleteSucceeded | src/app/monitor/page.tsx:291-298 | status idle with an empty message, so the status alert (line 355) is hidden; the three queries are invalidated |
| Monitor.CollectionsTab.DeleteFailed | src/app/monitor/page.tsx:299-301 | only an error toast (the detail or "Falha ao limpar os dados."); status and message are kept |
| Profile.AddedTerms | src/app/profile/page.tsx:32-33 | no change iff the raw input is empty or already listed; otherwise the list is the old one with the trimmed input appended |
| Profile.AddThenRemove | src/app/profile/page.tsx:32-39 | removing a freshly added trimmed term restores the list |
| Profile.AddTrimmedKeepsNoDuplicates | src/app/profile/page.tsx:32-33 | with input that has no whitespace ends, adding keeps a duplicate-free list duplicate-free |
| Profile.AddUntrimmedDuplicates | src/app/profile/page.tsx:32-33 | input "a " is accepted next to "a" and stored as a second "a" |
| Profile.AddWhitespaceOnly | src/app/profile/page.tsx:32-33 | a whitespace-only input appends the empty string |
| Profile.TermManager.constructor | src/app/profile/page.tsx:29 | the input starts empty |
| Profile.TermManager.TypeInput | src/app/profile/page.tsx:62 | the input holds what was typed |
| Profile.TermManager.HandleAddTerm | src/app/profile/page.tsx:31-36 | reports the added list when there is one, and clears the input exactly then |
| Profile.TermManager.HandleRemoveTerm | src/app/profile/page.tsx:38-40 | reports the list without any occurrence of the term |
| Profile.WithGroup | src/app/profile/page.tsx:251-258 | the chosen list of the chosen section is replaced; the other five lists are unchanged |
| Profile.WithGroupSame | src/app/profile/page.tsx:251-258 | writing back the list already there changes nothing |
| Profile.IsReadOnly | src/app/profile/page.tsx:226 | the page is read-only unless the signed-in user's role is ADM |
| Profile.ReadOnlyUnlessAdmin | src/app/profile/page.tsx:226 | read-only iff the user is not ADM, including when nobody is signed in |
| Profile.HasSearchTerms | src/app/profile/page.tsx:121-122 | a group has search terms when it has a main term or a synonym; excluded terms do not count |
| Profile.HasBrandTerms | src/app/profile/page.tsx:121 | the brand group has a main term or a synonym |
| Profile.HasCompetitorTerms | src/app/profile/page.tsx:122 | the competitors group has a main term or a synonym |
| Profile.ExcludedTermsIgnored | src/app/profile/page.tsx:121-122 | editing excluded terms does not change whether brand or competitors have search terms |
| Profile.RunPreview | src/app/profile/page.tsx:113-119 | a read-only user gets the permission toast; anyone else's preview receives the current terms |
| Profile.SettingsPage.ReadOnly | src/app/profile/page.tsx:226 | the page's read-only flag for its signed-in user |
| Profile.SettingsPage.constructor | src/app/profile/page.tsx:221-224 | all six lists start empty |
| Profile.SettingsPage.TermsFetched | src/app/profile/page.tsx:234-238 | fetched terms replace the edited state; no data leaves it as it was |
| Profile.SettingsPage.HandleTermGroupChange | src/app/profile/page.tsx:251-259 | the state becomes the nested update of one position |
| Profile.SettingsPage.AddTermAt | src/app/profile/page.tsx:315-320 | for an editor, the list at that position grows by the trimmed input or stays; the input is cleared when it grows; the other five lists are unchanged; for a read-only user (no controls, lines 56-68) nothing changes |
| Profile.SettingsPage.RemoveTermAt | src/app/profile/page.tsx:74-83 | for an editor, that list loses every occurrence of the term and the others stay; for a read-only user nothing changes |
| Profile.SettingsPage.HandleSubmit | src/app/profile/page.tsx:261-264 | the save request carries the current terms |
| Profile.SettingsPage.HandleRunPreview | src/app/profile/page.tsx:113-119 | the preview outcome for this page's read-only flag and current terms |
| AnalyticsService.Keys | src/services/analyticsService.ts:124 | the keys of a params object, one per pair, in order |
| AnalyticsService.Lookup | src/services/analyticsService.ts:124-127 | a lookup finds nothing exactly when the key is absent |
| AnalyticsService.LookupFirst | src/services/analyticsService.ts:124-127 | a value found is the value of the FIRST pair with that key, and no earlier pair has it |
| AnalyticsService.LookupAppend | src/services/analyticsService.ts:126 | adding a key at the end leaves earlier keys' values and adds the new one |
| AnalyticsService.MentionsBaseFacts | src/services/analyticsService.ts:124 | the base params are exactly `search_group`, `days`, `page`, with the given values |
| AnalyticsService.MentionsRequest | src/services/analyticsService.ts:118-130 | the keys are exactly `search_group`, `days` and `page`, in that order, with the given values, followed by `entity` iff the entity is non-null and non-empty, which is then passed verbatim |
| AnalyticsService.MentionsDefaults | src/services/analyticsService.ts:121-122 | without page and entity, the request is the page-1, no-entity request, and its keys are the three base keys |
| AnalyticsService.GroupParams | src/services/analyticsService.ts:99 | the params are exactly `search_group` then `days`, holding the given group and period |
| AnalyticsService.KpisRequest | src/services/analyticsService.ts:97-102 | GET `/analytics/kpis` with exactly `search_group` and `days` |
| AnalyticsService.CombinedViewRequest | src/services/analyticsService.ts:104-109 | GET `/analytics/combined_view` with exactly `search_group` and `days` |
| AnalyticsService.EntitiesCloudRequest | src/services/analyticsService.ts:111-116 | GET `/analytics/entities_cloud` with exactly `search_group` and `days` |
| AnalyticsService.RisingQueriesRequest | src/services/analyticsService.ts:132-137 | GET `/analytics/rising_queries` with `search_group` alone |
| AnalyticsService.TrendsComparisonRequest | src/services/analyticsService.ts:139-144 | GET `/analytics/trends_comparison` with the whole term list under `terms`, then `days` |
| AnalyticsService.SentimentDistributionRequest | src/services/analyticsService.ts:146-151 | GET `/analytics/sentiment_distribution` with exactly `search_group` and `days` |
| AnalyticsService.SentimentOverTimeRequest | src/services/analyticsService.ts:153-158 | GET `/analytics/sentiment_over_time` with exactly `search_group` and `days` |
| Trends.SeriesColor | src/components/analytics/TabInteligenciaTrends.tsx:151 | every series gets one of the four palette colours |
| Trends.SeriesColorSame | src/components/analytics/TabInteligenciaTrends.tsx:112 | two series share a colour iff their indices agree modulo 4; the palette repeats every four series |
| Trends.WithTerm | src/components/analytics/TabInteligenciaTrends.tsx:91-92 | no change iff the input is empty or listed; otherwise the raw, untrimmed input is appended |
| Trends.WithTermKeepsNoDuplicates | src/components/analytics/TabInteligenciaTrends.tsx:91-92 | adding keeps a duplicate-free list duplicate-free |
| Trends.WithTermThenRemove | src/components/analytics/TabInteligenciaTrends.tsx:90-99 | removing a just-added term restores the list |
| Trends.ComparisonChart.constructor | src/components/analytics/TabInteligenciaTrends.tsx:75-76 | starts with "Parlamentar A", "Concorrente B" and an empty input; the list is duplicate-free |
| Trends.ComparisonChart.TypeInput | src/components/analytics/TabInteligenciaTrends.tsx:125 | the input holds what was typed; the terms stay |
| Trends.ComparisonChart.AddTerm | src/components/analytics/TabInteligenciaTrends.tsx:90-95 | either the list grows by the input and the input is cleared, or nothing changes; the list stays duplicate-free |
| Trends.ComparisonChart.RemoveTerm | src/components/analytics/TabInteligenciaTrends.tsx:97-99 | the list loses every occurrence and stays duplicate-free; the input stays |
| Trends.ComparisonChart.HandleCompare | src/components/analytics/TabInteligenciaTrends.tsx:84-88 | a comparison fetch, with the current terms and period, happens iff the list is non-empty |
| Trends.ChartData | src/components/analytics/TabInteligenciaTrends.tsx:102-110 | undefined iff there is no series; otherwise one row per point of the first series, each row being the label plus every series' column, where a term `__proto__` writes nothing |
| Trends.Fill | src/components/analytics/TabInteligenciaTrends.tsx:105-108 | the loop keeps every key of the entry and leaves the last series' value at index k under its term, unless that term is `__proto__`, whose inherited setter ignores a number |
| Trends.ChartRow | src/components/analytics/TabInteligenciaTrends.tsx:102-108 | row k has exactly the keys `date` and every series' term other than `__proto__` |
| Trends.LastWith | src/components/analytics/TabInteligenciaTrends.tsx:106-107 | the index of the last series with a given term, or -1 |
| Trends.FillAt | src/components/analytics/TabInteligenciaTrends.tsx:106-108 | a term's column holds the value at index k of the LAST series with that term, or 0 when that series is shorter; other keys, and `__proto__`, keep what the entry had |
| Trends.FillKeys | src/components/analytics/TabInteligenciaTrends.tsx:103-108 | a row's keys are `date` and every series' term other than `__proto__` |
| Trends.ChartRowColumns | src/components/analytics/TabInteligenciaTrends.tsx:102-108 | in row k each term's column is its last series' value at k, the date label survives unless a series is named "date", and no column is named `__proto__` |
| VisaoGeral.FindDate | src/components/analytics/TabVisaoGeral.tsx:74 | the index of the first trends point with the date, or -1 when none has it |
| VisaoGeral.CorrelationRows | src/components/analytics/TabVisaoGeral.tsx:73-80 | one row per mention, in order; each row carries the mention's formatted date and its value as `Menções` |
| VisaoGeral.SearchInterestOfRow | src/components/analytics/TabVisaoGeral.tsx:74-78 | `Interesse de Busca` is the value of the first trends point of the same date, and 0 when no point has it |
| VisaoGeral.CorrelationRowsAppend | src/components/analytics/TabVisaoGeral.tsx:73 | the join keeps the order of the mentions |
| VisaoGeral.FindIgnoresOtherDates | src/components/analytics/TabVisaoGeral.tsx:74 | a trends point of another date does not change what is found |
| VisaoGeral.UnmatchedTrendPointIgnored | src/components/analytics/TabVisaoGeral.tsx:73-74 | a trends point whose date no mention has leaves every row unchanged |
| Pautas.SentimentVariant | src/components/analytics/TabAnalisePautas.tsx:45-51 | success iff "positivo"; destructive iff "negativo"; secondary otherwise |
| Pautas.FilterDescription | src/components/analytics/TabAnalisePautas.tsx:139 | names the selected entity when there is one, else says all mentions are shown |
| Pautas.PautasTab.constructor | src/components/analytics/TabAnalisePautas.tsx:108-109 | page 1, no entity filter |
| Pautas.PautasTab.MentionsQuery | src/components/analytics/TabAnalisePautas.tsx:36-38 | the table's request goes to `/analytics/mentions` with the tab's group, period and current page, and carries the selected entity verbatim iff a non-empty one is selected |
| Pautas.PreviousDisabled | src/components/analytics/TabAnalisePautas.tsx:89 | "Anterior" is disabled exactly on page 1 |
| Pautas.NextDisabled | src/components/analytics/TabAnalisePautas.tsx:97 | "Próxima" is disabled exactly when the page equals `total_pages`, with no bound check beyond that |
| Pautas.PautasTab.ClickPrevious | src/components/analytics/TabAnalisePautas.tsx:88-89 | one page back except on page 1, where the button is disabled; the page never drops below 1 |
| Pautas.PautasTab.ClickNext | src/components/analytics/TabAnalisePautas.tsx:96-97 | one page forward unless the page equals `total_pages`; from a page already past `total_pages` (the count is not checked) it keeps going forward and the button stays enabled |
| Pautas.PautasTab.EntityClick | src/components/analytics/TabAnalisePautas.tsx:111-114 | the filter is the clicked entity and the page is 1 |
| Pautas.PautasTab.ClearFilter | src/components/analytics/TabAnalisePautas.tsx:140 | the filter is cleared and the page stays |
| Sentiment.Slices | src/components/analytics/TabAnaliseSentimento.tsx:41-44 | one slice per item, in order, named by the capitalised sentiment, valued by the count |
| Sentiment.SlicesKeepTotal | src/components/analytics/TabAnaliseSentimento.tsx:41-44 | the slices' values add up to the items' counts |
| Sentiment.SentimentNamesHaveColors | src/components/analytics/TabAnaliseSentimento.tsx:42-50 | the names made from "positivo", "negativo" and "neutro" are keys of the colour map |
| Sentiment.EvolutionRows | src/components/analytics/TabAnaliseSentimento.tsx:94-99 | one row per day, in order: the label, then Positivo, Negativo and Neutro from positive, negative and neutral |
| SentimentChart.Render | src/components/analytics/SentimentDistributionChart.tsx:21-32 | loading wins over error; the pie, with the mapped slices, shows only when neither holds |
| SentimentChart.SliceColor | src/components/analytics/SentimentDistributionChart.tsx:66 | a colour iff the lower-cased name is a key of the colour map, and then that key's colour; an inherited member of the object iff the name is `constructor` or `__proto__`; otherwise undefined |
| SentimentChart.SliceColorResolves | src/components/analytics/SentimentDistributionChart.tsx:14-66 | a slice has a colour iff its sentiment, lower-cased, is positive, negative or neutral; for those three it is their colour |
| SentimentChart.InheritedSentimentFill | src/components/analytics/SentimentDistributionChart.tsx:66 | a sentiment "constructor" gets the inherited `Object` function as its fill, not undefined |
| WhatsappUpload.IsZipName | src/components/whatsapp/whatsapp-upload-form.tsx:22 | the lower-cased name ends in `.zip`, so an accepted name has at least four characters |
| WhatsappUpload.UpperCaseZipAccepted | src/components/whatsapp/whatsapp-upload-form.tsx:22 | "FOO.ZIP" is accepted and "foo.rar" is not |
| WhatsappUpload.ZipSuffixAccepted | src/components/whatsapp/whatsapp-upload-form.tsx:22 | any name ending in ".zip" in any letter case is accepted |
| WhatsappUpload.WhatsappUploadForm.SubmitDisabled | src/components/whatsapp/whatsapp-upload-form.tsx:89 | the send button is disabled without a file or while an upload runs |
| WhatsappUpload.UploadErrorMessage | src/components/whatsapp/whatsapp-upload-form.tsx:65-71 | the server's detail or "Falha ao enviar o arquivo."; else "Erro no cliente: " then the error's message; else "Ocorreu um erro desconhecido." |
| WhatsappUpload.WhatsappUploadForm.constructor | src/components/whatsapp/whatsapp-upload-form.tsx:15-16 | no file and no upload |
| WhatsappUpload.WhatsappUploadForm.FileChange | src/components/whatsapp/whatsapp-upload-form.tsx:19-29 | no file list: nothing happens; the first file is kept iff its name ends in ".zip"; a rejected or missing file clears the stored file and gives the error toast |
| WhatsappUpload.WhatsappUploadForm.HandleSubmit | src/components/whatsapp/whatsapp-upload-form.tsx:31-40 | without a file, profile or account: the error toast and no state change; otherwise the upload starts (`isUploading`) with the file kept |
| WhatsappUpload.WhatsappUploadForm.UploadFinished | src/components/whatsapp/whatsapp-upload-form.tsx:57-74 | `isUploading` is false afterwards either way; success clears the file and names it in the toast; failure keeps it and shows the chosen error message |
| UserForm.PasswordValid | src/components/users/UserFormDialog.tsx:30 | the password is optional, may be the empty literal, and otherwise needs at least 6 UTF-16 code units |
| UserForm.RoleValid | src/components/users/UserFormDialog.tsx:31 | the role enum admits exactly ADM and OPERADOR |
| UserForm.SchemaAccepts | src/components/users/UserFormDialog.tsx:28-32 | the form schema: a valid e-mail, a valid password and a valid role |
| UserForm.PasswordLengths | src/components/users/UserFormDialog.tsx:30 | a typed password is accepted iff it is empty or at least 6 UTF-16 code units long; six characters always suffice, one or two never do |
| UserForm.AstralPasswordAccepted | src/components/users/UserFormDialog.tsx:30 | three emoji (six code units) pass the minimum of six |
| Strings.Utf16Length | src/components/users/UserFormDialog.tsx:30 | JavaScript's `length`: between the number of characters and twice that, and equal to it when no character lies outside the Basic Multilingual Plane |
| UserForm.SubmittedData | src/components/users/UserFormDialog.tsx:68-74 | the password is dropped iff it is absent or empty, and otherwise passed unchanged; e-mail and role pass as given |
| UserForm.SubmittedDataValid | src/components/users/UserFormDialog.tsx:28-74 | whatever passes the schema reaches `onSubmit` with no password or one of at least 6 code units, one of the two roles, and a checked e-mail |
| UserForm.UserFormDialog.IsEditMode | src/components/users/UserFormDialog.tsx:57 | edit mode exactly when a user was supplied |
| UserForm.UserFormDialog.EmailDisabled | src/components/users/UserFormDialog.tsx:90 | the e-mail input is disabled exactly in edit mode |
| UserForm.UserFormDialog.PasswordShown | src/components/users/UserFormDialog.tsx:93 | the password field is rendered exactly when creating |
| UserForm.UserFormDialog.constructor | src/components/users/UserFormDialog.tsx:50-54 | e-mail "", password "", role OPERADOR, creating |
| UserForm.UserFormDialog.UserChanged | src/components/users/UserFormDialog.tsx:59-66 | editing loads the user's e-mail and role (OPERADOR when null) and keeps the password; creating resets to the defaults |
| UserForm.UserFormDialog.SelectRole | src/components/users/UserFormDialog.tsx:102 | only the role changes |
| UserForm.UserFormDialog.Submit | src/components/users/UserFormDialog.tsx:87 | `onSubmit` is called iff the schema accepts, with the password-stripped data |
| UserForm.LoadedRoleValid | src/components/users/UserFormDialog.tsx:62 | the role loaded for any user is one the schema accepts |
| UrlQuery.QueryString | src/services/instagramDashboardApi.ts:86 | `name=value` pieces joined by `&`: empty exactly for no pairs, and starting with the first name and `=` |
| UrlQuery.SplitJoin | src/services/instagramDashboardApi.ts:86 | splitting on `&` undoes joining pieces that contain no `&` |
| UrlQuery.ParseQuery | src/services/instagramDashboardApi.ts:86 | the reading-back of a query that partners QueryString: no pairs exactly for the empty string |
| UrlQuery.ParseQuerySingle | src/services/instagramDashboardApi.ts:86 | a non-empty query without `&` reads back as the one pair it holds |
| UrlQuery.ParseQueryString | src/services/instagramDashboardApi.ts:84-86 | a query string parses back to exactly its pairs, in order, when names hold no `&` or `=` and values no `&` |
| InstagramApi.WithOnePair | src/services/instagramDashboardApi.ts:57-59 | the template string with one pair is the path followed by `?` and that pair's query string |
| InstagramApi.WithTwoPairs | src/services/instagramDashboardApi.ts:65-71 | the template string with two pairs is the path followed by `?` and that two-pair query string, in order |
| InstagramApi.EngagementEvolutionEndpoint | src/services/instagramDashboardApi.ts:57-59 | the profile's engagement-evolution path, then `days`, which defaults to 30 |
| InstagramApi.PostsRankingEndpoint | src/services/instagramDashboardApi.ts:65-67 | `sort_by` then `limit`, defaulting to likes_count and 10 |
| InstagramApi.TopCommentersEndpoint | src/services/instagramDashboardApi.ts:69-71 | the commenter type in `analysis_type`, then `limit`, which defaults to 5 |
| InstagramApi.CommentersInfluenceEndpoint | src/services/instagramDashboardApi.ts:73-75 | only `limit`, which defaults to 50 |
| InstagramApi.SentimentByPostEndpoint | src/services/instagramDashboardApi.ts:77-79 | only `limit`, which defaults to 10 |
| InstagramApi.HashtagFeedEndpoint | src/services/instagramDashboardApi.ts:110-112 | only `limit`, which defaults to 20 |
| InstagramApi.TopicSentimentOverTimeEndpoint | src/services/instagramDashboardApi.ts:114-116 | only `days`, which defaults to 30 |
| InstagramApi.TopicInfluencersEndpoint | src/services/instagramDashboardApi.ts:118-120 | only `limit`, which defaults to 10 |
| InstagramApi.PerformanceByContentTypeEndpoint | src/services/instagramDashboardApi.ts:61-63 | the profile appended to the path, with no query: no `?` unless the profile holds one |
| InstagramApi.BuilderQueries | src/services/instagramDashboardApi.ts:57-79 | the single-profile queries parse back to their pairs in order, when `sort_by` holds no `&` |
| InstagramApi.SearchParams.Append | src/services/instagramDashboardApi.ts:85 | a pair is added at the end |
| InstagramApi.SearchParams.ToString | src/services/instagramDashboardApi.ts:86 | the encoded pairs as a query string, empty exactly when nothing was appended |
| InstagramApi.Encoded | src/services/instagramDashboardApi.ts:86 | `toString` encodes every name and value, pair by pair |
| InstagramApi.ProfilePairs | src/services/instagramDashboardApi.ts:85 | one `profiles` pair per profile, in list order |
| InstagramApi.AppendProfiles | src/services/instagramDashboardApi.ts:85 | the loop appends exactly the profile pairs after what was there |
| InstagramApi.ProfilesQuery | src/services/instagramDashboardApi.ts:84-86 | the encoded `profiles` pairs, empty exactly when the list is empty |
| InstagramApi.HeadToHeadEngagementEndpoint | src/services/instagramDashboardApi.ts:83-87 | the encoded profile pairs, then `&days=N` written right after them; `days` defaults to 7 |
| InstagramApi.HeadToHeadNoProfiles | src/services/instagramDashboardApi.ts:86 | an empty list yields `…head-to-head-engagement?&days=7` |
| InstagramApi.ProfilesOnlyEndpoint | src/services/instagramDashboardApi.ts:90-92 | the path, `?`, and the encoded profile pairs, built by appending each profile to a fresh params object |
| InstagramApi.ContentStrategyComparisonEndpoint | src/services/instagramDashboardApi.ts:89-93 | only the encoded profile pairs |
| InstagramApi.VulnerabilityIdentificationEndpoint | src/services/instagramDashboardApi.ts:95-99 | only the encoded profile pairs |
| InstagramApi.TopTermsByProfileEndpoint | src/services/instagramDashboardApi.ts:101-106 | under `/analytics/`: the profile pairs, then `days` (default 7) as the last pair, all encoded |
| InstagramApi.TopTermsQueryParses | src/services/instagramDashboardApi.ts:101-106 | read back: one encoded `profiles` pair per profile, in order, then the `days` pair last |
| InstagramApi.RequestHeaders | src/services/instagramDashboardApi.ts:15-18 | the keys are the caller's plus Content-Type; caller headers win; Content-Type is application/json unless the caller sets it |
| InstagramApi.FetchErrorMessage | src/services/instagramDashboardApi.ts:21-24 | a non-JSON body gives "Erro desconhecido na API."; otherwise the `detail` when non-empty, else "Erro " and the status |
| InstagramApi.FetchErrorMessageStatus | src/services/instagramDashboardApi.ts:23 | without a detail, distinct statuses give distinct messages |

## Left out

- **Polling and status reconciliation.** The code polls nothing, has no timer and reads no system status; a collection's status changes only in its own callbacks.
- **Rendering.** JSX, the charts (recharts, tremor), the word clouds and the dialogs are not modelled. The small visible rules are kept: alert shown, control present, button enabled, description text. The monitor's "data already collected" info alert (src/app/monitor/page.tsx:368) is not modelled.
- **Network, authentication and caching.** HTTP calls, the axios and fetch clients, Firebase and the token interceptor are outside the model. An HTTP call is its request, plus the outcome given to the completion method. react-query is modelled only as the list of invalidated query keys. The rule that a mutation's callbacks run only while it is pending becomes those methods' `requires`.
- **Disabled controls.** A click on a control that the page disables or does not render cannot happen. The model shows this either as a no-op method (ClickRun, ClickDelete, ClickPrevious, ClickNext, AddTermAt, RemoveTermAt, TypeStartDate) or as a `requires` (HandleRunCollection, HandleDeleteData, FileChange and HandleSubmit of the upload form).
- **Library functions.** These are parameters without any interpretation: date validity and date formatting (date-fns `isValid`, `toLocaleDateString`), zod's e-mail check, and `URLSearchParams` form encoding. The "yesterday" `max` of the date input (src/app/monitor/page.tsx:347) depends on the clock and is not modelled.
- Strings.NatToString, Strings.IntToString, Strings.NatToStringRoundTrip and Strings.NatToStringInjective: the source's numbers are float64. JavaScript prints a value of 10^21 or more in exponent form (`${1e21}` is "1e+21"), and integers above 2^53 are not exact. The model prints every digit of an unbounded integer, so its contracts match the source only for safe integers. The core passes only small values: days 7 or 30, pages, limits up to 50 and three-digit HTTP statuses.
- Strings.ToLower and Strings.Capitalize: these map only the ASCII letters, whereas JavaScript's `toLowerCase` and `toUpperCase` are Unicode-aware.
- **Numbers.** Values are whole numbers. Floating point is not modelled: `toFixed`, `toLocaleString`, sentiment scores and the pie-label trigonometry. `ValueAt` and `SearchInterest` return the value itself. JavaScript's `value || 0` would also replace NaN by 0, and that case is not modelled.
- Trends.ChartData: `series.data[index]?.value || 0` replaces an undefined value by 0. Here a point always has a value.
- WhatsappUpload.UploadErrorMessage: an axios error without a response is an `Error`, so it falls under the client-error case. The detail is modelled as an optional string. A non-string detail is not modelled: a FastAPI validation array or a number is passed to the toast as it is. A `null` response body makes `error.response.data.detail` throw inside the catch block (src/components/whatsapp/whatsapp-upload-form.tsx:67), so no toast is shown and the upload state still resets in `finally`; that path is not modelled either.
- Monitor.FailureMessage: the detail is an optional string. JavaScript would interpolate any truthy detail through `String()`: a FastAPI validation array renders as "[object Object]" and `{detail: 42}` as "42". Those renderings are not modelled. A falsy non-string detail (`0`, `false`, `null`) falls back to the default, as an absent one does here.
- Monitor.CollectionsTab.DeleteFailed: the same holds for the delete toast, which receives the detail itself rather than a string made from it (src/app/monitor/page.tsx:300).
- InstagramApi.FetchErrorMessage: the JSON body's `detail` is an optional string. A number or an array would reach `new Error(...)` and be converted by `String()`, and that is not modelled. A body that is the JSON literal `null` makes `errorData.detail` throw a `TypeError` instead of the API error (src/services/instagramDashboardApi.ts:22-23). That case is not modelled either.
- InstagramApi.RequestHeaders: header names are compared exactly, not case-insensitively. The caller's headers are a plain map, not a `Headers` object or an array of pairs. The other `RequestInit` options simply pass through and are not modelled.
- **Fixed endpoints.** The five 24-hour endpoints of the Instagram pulse tab are constant paths, and `PerformanceByContentTypeEndpoint` has no query. The API base URL comes from the environment and is not modelled. The template-string builders do not encode what they interpolate. A profile or hashtag holding `?` or `/` would change the path. A `sort_by` holding `&` would add a pair, which is why `BuilderQueries` excludes that case.
- AnalyticsService.TrendsComparisonRequest: the term list is one parameter value. How axios serialises an array for FastAPI is not modelled.
- **The Instagram dashboard tabs.** PulseTab, PerformanceTab, CompetitionTab and HashtagsTab contain only fixed sample data, and the target and service-account pages only wire tables and dialogs. None of them is modelled.
