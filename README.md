# Dashboard Advocacia — a verified model of the lead dashboard

This project models the data and page logic of a law firm's lead-management dashboard.
The dashboard is a React/TypeScript single-page application. It reads leads (potential
clients) and lawyers (advogados) from an analytics backend. It charts them, lists the
leads that need a follow-up, and handles a simulated login with the browser's local
storage.

The model covers these parts:

- **HTTP client** (`src/lib/api.ts`):
  - how `apiRequest` builds the request, including the header merge;
  - how it classifies the outcome: network failure, non-2xx status, unparsable body,
    `success: false` envelope, or success;
  - the query string `getLeads` builds;
  - the other fetchers and `checkApiHealth`;
  - the WhatsApp, phone-dialer and `mailto:` URLs;
  - the two chart transformers.
- **Mock data** (`src/lib/mockData.ts`): its five list helpers, generalised to any list
  of leads, and the facts they give on the seven mock leads.
- **Leads page:** the search and status filter, and the status options.
- **Dashboard page:**
  - the all-or-nothing load of its three data sets;
  - the guarded chart series;
  - the top three lawyers by conversion rate.
- **Login / register form:** a class over the form state and the browser's storage.
- **Settings page:** the theme initialiser and switch, logout, save and the notification
  switches, as methods over the browser's `localStorage` map and the `<html>` class list.
- **Landing page:** its authentication test, as `BrowserState.Browser.IsAuthenticated`.

JavaScript pieces whose behaviour is not part of this code are parameters of the model:

- `encodeURIComponent` and the `URLSearchParams` value encoding, as `encode`;
- `toLowerCase`, as `lower`;
- `formatDateForChart`, as `format`;
- `new Date(label).getTime()`, as `time`;
- the network, as `server`: a function from the request to what came back.

The model keeps the following behaviours of the code as written:

- Headers given by the caller replace the default `Content-Type`; they are not merged
  with it. The spread `...options` overwrites the merged `headers`
  (`Api.CallerHeadersReplaceDefault`).
- The time-series sort parses the *formatted* `dd/MM` label, not the original date.
  `Charts.ByTime` therefore applies `time` to `ChartPoint.date`.
- The phone search on the Leads page compares the raw, formatted phone number
  (`LeadsPage.PhoneSearchNotNormalised`).
- A lead with status "Inválido" can only appear under "Todos", because the status
  select offers no "Inválido" entry.

`checkApiHealth` makes its request through `apiRequest` like every other fetcher. A
`success: false` envelope therefore also makes it report `false`
(`Api.CheckApiHealth`).

## Model

| member | source | states |
|---|---|---|
| Api.BuildRequest | src/lib/api.ts:15-21 | The URL is the base URL followed by the endpoint. The caller's headers, when given, replace the defaults entirely; otherwise the headers are exactly `Content-Type: application/json`. The method is the caller's. |
| Api.CallerHeadersReplaceDefault | src/lib/api.ts:15-21 | Caller headers without `Content-Type` yield a request without `Content-Type`, although the merged object had one. |
| Api.Classify | src/lib/api.ts:23-38 | A non-2xx response fails with its status and status text. A 2xx response succeeds exactly when the body parsed to a non-`null` value whose `success` is not literally `false`, and then yields the body unchanged. The other failures are rethrown as they are: a rejected `fetch` gives its reason, a body that did not parse gives the parse error, and a `null` body fails because reading `data.success` throws. |
| Api.HttpErrorScenario | src/lib/api.ts:23-25 | A 404 "Not Found" fails with the message "HTTP 404: Not Found". |
| Api.EnvelopeScenarios | src/lib/api.ts:30-34 | `success: false` fails with the backend's message, or "Erro na API" when that is missing or empty. `success: true` or no `success` field passes the body through. |
| Api.ApiRequest | src/lib/api.ts:13-39 | The request built by `Api.BuildRequest`, sent to the server and classified by `Api.Classify`; its properties are the contracts of those two. |
| Api.ResponseData | src/lib/api.ts:64 | A failure propagates unchanged; a success yields the body's `data` member (stated for each fetcher by `Api.FetchersUnwrapData` and `Api.GetLeads`). |
| Api.GetFollowupLeads | src/lib/api.ts:71-74 | A default GET on `/api/analytics/leads/followup`, yielding `data` (`Api.FetchersUnwrapData`). |
| Api.GetAdvogados | src/lib/api.ts:80-83 | A default GET on `/api/analytics/advogados`, yielding `data` (`Api.FetchersUnwrapData`). |
| Api.GetDashboardSummary | src/lib/api.ts:89-92 | A default GET on `/api/analytics/dashboard/summary`, yielding `data` (`Api.FetchersUnwrapData`). |
| Api.FetchersUnwrapData | src/lib/api.ts:71-92 | Each fetcher performs a default GET on its fixed endpoint. It yields the body's `data` field, and fails exactly when the request fails. |
| Api.GetLeads | src/lib/api.ts:45-65 | The request goes to the endpoint built from the selected parameters. The result is the response's `data`. |
| Api.CheckApiHealth | src/lib/api.ts:127-134 | True if and only if the health request got a 2xx, parsable response whose `status` is the string "healthy" and whose `success` is not `false`. Every failure gives false. |
| LeadsQuery.CandidateParams | src/lib/api.ts:54-58 | The five candidate parameters, in the order start_date, end_date, status, advogado_id, limit. |
| LeadsQuery.LeadsQueryParams | src/lib/api.ts:52-58 | The five conditional `append` calls yield exactly the selected parameters. |
| LeadsQuery.SelectedParamsSpec | src/lib/api.ts:54-58 | The parameters sent are an order-preserving subsequence of the candidates. A parameter is sent if and only if it is a candidate with a non-empty value, so empty strings and a zero limit are dropped. There are at most five. |
| LeadsQuery.NoQueryWithoutParams | src/lib/api.ts:60-61 | The endpoint has no `?` suffix if and only if no parameter is sent. |
| LeadsQuery.UnsetFiltersSendNoQuery | src/lib/api.ts:52-61 | No filters, or only empty or zero values, give the bare `/api/analytics/leads`. |
| LeadsQuery.StatusAndLimitParams | src/lib/api.ts:56-58 | Status "Novo" and limit 10 give the parameters `status=Novo` and `limit=10`, in that order. |
| LeadsQuery.StatusAndLimitScenario | src/lib/api.ts:60-61 | The same filters give `/api/analytics/leads?status=Novo&limit=10`. |
| Strings.NatToStringRoundTrip | src/lib/api.ts:58 | The decimal text of the limit reads back as the same number. |
| LeadsQuery.JoinNonEmpty | src/lib/api.ts:60-61 | A query with a non-empty first part is non-empty, so the `?` is added. |
| DeepLinks.WhatsAppUrl | src/lib/api.ts:97-105 | The URL `openWhatsApp` opens; its structure is stated by `DeepLinks.WhatsAppUrlParts`. |
| DeepLinks.PhoneDialerUrl | src/lib/api.ts:111-114 | `tel:` followed by the phone's digits (`DeepLinks.PhoneDigitsSpec`, `DeepLinks.PhoneDigitsScenario`). |
| DeepLinks.EmailUrl | src/lib/api.ts:119-122 | The URL `openEmail` navigates to; its structure is stated by `DeepLinks.EmailUrlSpec`. |
| DeepLinks.PhoneDigitsSpec | src/lib/api.ts:99 | Stripping non-digits keeps the digits in order with their exact multiplicities, keeps nothing else, and is idempotent. |
| DeepLinks.PhoneDigitsScenario | src/lib/api.ts:111-113 | "+55 (11) 98765-4321" becomes "5511987654321", and the dialer URL is `tel:5511987654321`. |
| DeepLinks.WhatsAppUrlParts | src/lib/api.ts:97-104 | The WhatsApp URL splits back into `https://wa.me/`, the phone's digits up to the first `?`, and `?text=` followed by the encoded message. The message is the caller's when it is non-empty and the default otherwise. |
| DeepLinks.EmailUrlSpec | src/lib/api.ts:119-122 | The URL starts with `mailto:` and the address. It carries `?subject=` and the encoded subject if and only if a non-empty subject is given. |
| DeepLinks.BeforeConcat | src/lib/api.ts:104 | The text before the first `?` of the digits followed by the `?text=` tail is the digits. |
| Charts.GroupCount | src/lib/api.ts:140-147 | The counting loop over a record yields the key/count entries of `Charts.Tally`. The entries come in the order in which the input first mentions their keys. |
| Charts.TallySpec | src/lib/api.ts:140-147 | There is one entry per distinct key, each counting that key's occurrences. Every key appears, no key appears twice, and the counts sum to the number of inputs. |
| Charts.FirstOccurrencesOrdered | src/lib/api.ts:144-147 | The record's keys are ordered by the position of their first occurrence in the input. |
| Charts.FirstOccurrencesPrefix | src/lib/api.ts:144 | Keys are only ever appended: the key order after a prefix of the input is a prefix of the final key order. |
| Charts.FirstOccurrencesSpec | src/lib/api.ts:147 | The key order of the record is duplicate-free and has exactly the keys of the input. |
| Charts.StatusDistribution | src/lib/api.ts:159-170 | The pie data; its properties are `Charts.StatusDistributionShape`, `Charts.StatusDistributionValues`, `Charts.StatusDistributionNames` and `Charts.StatusDistributionOrder`. |
| Charts.ProcessStatusDistribution | src/lib/api.ts:159-170 | The method yields the status distribution. |
| Charts.StatusDistributionShape | src/lib/api.ts:159-170 | There is one slice per distinct status, and no two slices share a name. |
| Charts.StatusDistributionValues | src/lib/api.ts:162-169 | Each slice's value is the number of leads with that status, at least 1, and the values sum to the number of leads. |
| Charts.StatusDistributionNames | src/lib/api.ts:166-169 | Every slice names some lead's status, and every lead's status names some slice. |
| Charts.StatusDistributionOrder | src/lib/api.ts:162-169 | The slices come in the order in which their statuses first occur among the leads. |
| Charts.ByTimeIsConsistent | src/lib/api.ts:152 | The time comparator is a total preorder. |
| Charts.LeadsOverTime | src/lib/api.ts:139-154 | The line-chart data; its properties are `Charts.LeadsOverTimeLength`, `Charts.LeadsOverTimeAscending`, `Charts.LeadsOverTimePoints` and `Charts.LeadsOverTimeKeepsLatest`. |
| Charts.ProcessLeadsOverTime | src/lib/api.ts:139-154 | The method yields the leads-over-time series. |
| Charts.LeadsOverTimeLength | src/lib/api.ts:147-153 | The series has eight points, or the number of distinct event dates when that is smaller. No leads give no points. |
| Charts.LeadsOverTimeAscending | src/lib/api.ts:152 | The points are in non-decreasing order of the time parsed from their labels. |
| Charts.LeadsOverTimePoints | src/lib/api.ts:147-153 | Every point is a formatted date with its count, taken from the grouped entries. |
| Charts.LeadsOverTimeKeepsLatest | src/lib/api.ts:152-153 | No dropped point is later than a point that is kept. |
| Sorting.SortIsPermutation | src/lib/api.ts:152 | `Array.prototype.sort` as modelled returns a permutation of its input. |
| Sorting.SortIsSorted | src/lib/api.ts:152 | For a total-preorder comparator, the result is sorted. |
| Sorting.SortIsStable | src/lib/api.ts:152 | Elements that compare equal keep their relative order. |
| MockData.ByStatus | src/lib/mockData.ts:212-214 | `getLeadsByStatus` over any list; stated by `MockData.ByStatusSpec`. |
| MockData.ByAdvogado | src/lib/mockData.ts:223-225 | `getLeadsByAdvogado` over any list; stated by `MockData.ByAdvogadoSpec`. |
| MockData.NeedingFollowup | src/lib/mockData.ts:216-221 | `getLeadsNeedingFollowup` over any list; stated by `MockData.NeedingFollowupMembers`, `MockData.NeedingFollowupOrdered` and `MockData.NeedingFollowupStable`. |
| MockData.GetDashboardStats | src/lib/mockData.ts:227-239 | `getDashboardStats` over any list; stated by `MockData.DashboardStatsCounts` and `MockData.DashboardStatsRate`. |
| MockData.FixedStatusDistribution | src/lib/mockData.ts:249-255 | `getLeadsByStatusDistribution` over any list; stated by `MockData.FixedStatusDistributionSpec`. |
| MockData.ByStatusSpec | src/lib/mockData.ts:212-214 | The result is a subsequence of the leads. A lead is in it if and only if its status equals the argument, and it keeps each such lead's multiplicity. |
| MockData.ByStatusUnknownName | src/lib/mockData.ts:212-214 | A status string no lead can carry gives the empty list. |
| MockData.ByAdvogadoSpec | src/lib/mockData.ts:223-225 | The same as for status, keyed on `advogadoId`. |
| MockData.FollowupOrderIsConsistent | src/lib/mockData.ts:217-220 | The follow-up comparator (urgency rank, then most days without reply) is a total preorder. |
| MockData.NeedingFollowupMembers | src/lib/mockData.ts:216-221 | The result is a permutation of the leads flagged for follow-up, and only those. |
| MockData.NeedingFollowupOrdered | src/lib/mockData.ts:217-220 | Urgency is non-decreasing from Alta to Baixa. Within one urgency, days without reply are non-increasing. |
| MockData.NeedingFollowupStable | src/lib/mockData.ts:217-220 | Leads with equal urgency and equal days keep their order in the mock list. |
| MockData.DashboardStatsCounts | src/lib/mockData.ts:227-239 | The total is the number of leads. The converted and follow-up counts are at most the total. An empty list gives all zeros. |
| MockData.DashboardStatsRate | src/lib/mockData.ts:231 | The rate lies between 0 and 100. It is 0 if and only if nothing converted, and it is converted/total × 100. |
| MockData.RateFacts | src/lib/mockData.ts:231 | The arithmetic facts behind the rate bounds. |
| MockData.FixedStatusDistributionSpec | src/lib/mockData.ts:249-255 | There are exactly five slices, in the fixed order, each with the exact count. "Inválido" is not among them, and the values sum to the leads that are not "Inválido". |
| MockData.CountsPartition | src/lib/mockData.ts:7 | The six per-status counts sum to the number of leads. |
| MockData.MockFollowupList | src/lib/mockData.ts:62-221 | On the mock data, the follow-up list is the leads 1, 5, 2, 6. |
| MockData.MockDashboardStats | src/lib/mockData.ts:62-239 | On the mock data the stats are 7 leads, 1 converted, a rate of 100/7 and 4 follow-ups. |
| MockData.MockStatusDistribution | src/lib/mockData.ts:62-255 | On the mock data the fixed distribution is 2, 2, 1, 1, 1. |
| MockData.MockFilters | src/lib/mockData.ts:62-225 | On the mock data, lawyer "1" has the leads 1, 2, 7, and status "Novo" has the leads 1, 5. |
| LeadsPage.FilteredLeads | src/pages/Leads.tsx:39-46 | The list the page shows; stated by `LeadsPage.FilteredLeadsSpec` and the lemmas below it. |
| LeadsPage.FilteredLeadsSpec | src/pages/Leads.tsx:39-46 | The shown leads are a subsequence of the leads. A lead is shown if and only if it matches the search on name, raw phone or e-mail, and matches the status filter. |
| LeadsPage.EmptySearchShowsAll | src/pages/Leads.tsx:39-46 | An empty search under "Todos" shows every lead, in order. |
| Strings.IncludesAt | src/pages/Leads.tsx:41-43 | The model of `includes` finds any occurrence at any position. |
| Strings.IncludesWhere | src/pages/Leads.tsx:41-43 | ... and finds nothing else: a found term occurs at some position. |
| LeadsPage.StatusFilterIsExact | src/pages/Leads.tsx:44 | Under any filter other than "Todos", every shown lead has exactly that status. |
| LeadsPage.InvalidOnlyUnderAll | src/pages/Leads.tsx:119-131 | No selectable option other than "Todos" shows an "Inválido" lead. Under "Todos", every matching "Inválido" lead is shown. |
| LeadsPage.PhoneSearchIsRaw | src/pages/Leads.tsx:42 | A term found in the raw phone text shows the lead whatever `lower` does. |
| LeadsPage.PhoneSearchNotNormalised | src/pages/Leads.tsx:42 | The digits "987654321" are not found in the formatted phone "98765-4321". |
| DashboardPage.Dashboard.constructor | src/pages/Dashboard.tsx:11-15 | The page starts with no summary, no lawyers, no leads, no error, and loading. |
| DashboardPage.Dashboard.LoadDashboardData | src/pages/Dashboard.tsx:21-42 | If all three requests succeeded, summary, lawyers and leads are all replaced and the error is cleared. Otherwise none of them changes and the error message is set. Loading ends either way. |
| DashboardPage.DashboardLeadsQuery | src/pages/Dashboard.tsx:30 | The dashboard's lead request sends only `limit=1000`. |
| DashboardPage.Dashboard.ChartSeries | src/pages/Dashboard.tsx:45-46 | The guarded series equal the transformers' output, and both are empty without leads. |
| DashboardPage.EmptyCharts | src/pages/Dashboard.tsx:45-46 | The guard changes nothing: both transformers give empty series for no leads. |
| DashboardPage.TopAdvogados | src/pages/Dashboard.tsx:49-51 | The first three lawyers after sorting; stated by the four `TopAdvogados…` lemmas. |
| DashboardPage.ByConversionIsConsistent | src/pages/Dashboard.tsx:50 | The conversion comparator is a total preorder. |
| DashboardPage.TopAdvogadosMembers | src/pages/Dashboard.tsx:49-51 | There are min(3, n) lawyers, each taken from the input with its multiplicity. |
| DashboardPage.TopAdvogadosDescending | src/pages/Dashboard.tsx:50 | They are in non-increasing order of conversion rate. |
| DashboardPage.TopAdvogadosAreBest | src/pages/Dashboard.tsx:49-51 | No lawyer left out has a higher rate than any lawyer shown. |
| DashboardPage.TopAdvogadosKeepTies | src/pages/Dashboard.tsx:50-51 | Lawyers with equal rates appear in the backend's order. |
| AuthPage.AuthForm.constructor | src/pages/Auth.tsx:11-14 | The form starts in login mode with every field empty. |
| AuthPage.AuthForm.SetName | src/pages/Auth.tsx:68 | Sets the name and nothing else. |
| AuthPage.AuthForm.SetEmail | src/pages/Auth.tsx:80 | Sets the e-mail and nothing else. |
| AuthPage.AuthForm.SetPassword | src/pages/Auth.tsx:91 | Sets the password and nothing else. |
| AuthPage.AuthForm.HandleSubmit | src/pages/Auth.tsx:16-38 | A login with e-mail and password stores `isAuthenticated = "true"` and goes to /dashboard with the success toast. A registration with all three fields returns to login mode, clears only the password and leaves storage alone. Any missing field changes nothing and shows the error toast. The class list is never touched. |
| AuthPage.AuthForm.ToggleMode | src/pages/Auth.tsx:104 | The mode flips and every field is kept. |
| AuthPage.RegisterThenLogin | src/pages/Auth.tsx:16-38 | Registering, then logging in with the kept e-mail and a retyped password, authenticates the browser and goes to /dashboard. |
| BrowserState.Browser.GetItem | src/pages/Settings.tsx:17 | A stored value is returned, and `null` is returned exactly when the key is absent. |
| BrowserState.Browser.SetItem | src/pages/Auth.tsx:23 | `localStorage.setItem`: the key now maps to the value, every other key and the class list are unchanged. |
| BrowserState.Browser.RemoveItem | src/pages/Settings.tsx:29 | `localStorage.removeItem`: the key is gone, everything else is unchanged. |
| BrowserState.Browser.AddClass | src/pages/Settings.tsx:19 | `classList.add`: the class is present, storage is unchanged. |
| BrowserState.Browser.RemoveClass | src/pages/Settings.tsx:102 | `classList.remove`: the class is absent, storage is unchanged. |
| BrowserState.Browser.IsAuthenticated | src/pages/Index.tsx:6 | The user counts as signed in exactly when `isAuthenticated` is stored as "true". |
| SettingsPage.Settings.constructor | src/pages/Settings.tsx:15-26 | A stored theme is read and nothing is written. With no stored theme and a window, dark mode is on, stored as "true" and applied with the `dark` class. Without a window it is on and nothing is touched. Both notification switches start on. |
| SettingsPage.Settings.OnDarkModeChange | src/pages/Settings.tsx:96-104 | The state, the stored "true"/"false" and the `dark` class all follow the switch, and end in sync. Nothing else changes. |
| SettingsPage.Settings.HandleLogout | src/pages/Settings.tsx:28-31 | Only `isAuthenticated` is removed, so the user is signed out and the stored theme stays. It goes to / with the logout toast. |
| SettingsPage.Settings.HandleSave | src/pages/Settings.tsx:34-36 | Only the success toast is shown; nothing is stored. |
| SettingsPage.Settings.SetNotifications | src/pages/Settings.tsx:123 | Sets the push switch and nothing else. |
| SettingsPage.Settings.SetEmailNotifications | src/pages/Settings.tsx:131 | Sets the e-mail switch and nothing else. |
| SettingsPage.OpenAndLogout | src/pages/Settings.tsx:15-31 | Opening settings and logging out signs the user out and keeps a stored theme's value. |
| Types.StatusNameInjective | src/lib/types.ts:13 | Distinct statuses have distinct names. |

## Left out

- Network, timing and concurrency: `fetch`, `Promise.all` and `async`/`await` are not modelled. The three dashboard requests are given as already-settled results.
- The TypeScript casts of response bodies to `Lead[]`, `Advogado[]` and `DashboardSummary` are unchecked in the source. The dashboard receives typed results directly, and the fetchers yield the JSON `data` field.
- `console.error` logging, and the page navigation other than the returned route.
- The rendering of toasts: they are returned as values.
- JSX rendering, colour and label tables (`STATUS_COLORS`, `getStatusColor`), loading spinners and icons.
- `Error` objects: a failure is a tagged value carrying the message parts, not the thrown `Error` text.
- Objects other than plain header maps: `Headers` instances and header arrays.
- `encodeURIComponent`, `URLSearchParams` encoding, `toLowerCase`, `formatDateForChart` and `Date` parsing: these are library behaviour, so they are parameters.
- `window.open` and `window.location.href`: the URL builders return the URL that would be opened.
- `Object.entries` puts integer-like keys first, before insertion order. Dates and status names are never integer-like, so the model keeps insertion order only. Keys inherited from `Object.prototype` are not modelled either.
- `NaN` comparator results (an unparsable date label) are not modelled: `time` yields an integer.
- MockData.GetDashboardStats: the rate is the exact real number, not rounded to one decimal by `toFixed(1)` and `parseFloat`, because floating point formatting is outside the model.
- DashboardPage.TopAdvogadosDescending: the rates are exact reals, so floating point rounding in the subtraction is not modelled.
- Api.GetLeads: the limit is an integer, so `toString` of a fractional or non-finite number is not modelled.
- BrowserState.Browser.IsAuthenticated: the `typeof window` test of the landing page is not modelled; a browser is always present there.
- `getLeadsByDay` draws random counts, so it has no stated behaviour to model.
- `mockAdvogados` and the mock `Advogado` interface are only rendered by the lawyers page, which is not part of this model.
- The follow-ups page, the lead card, the navigation bar and the stat card are not part of this model.
- The profile inputs on the settings page are uncontrolled; nothing reads them.
