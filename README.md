# WhatBin bin lookup, modelled in Dafny

WhatBin looks up the bin collections of a Belfast address. Given a postcode and an optional house
number, the backend drives a headless browser through the council's "find your bin collection day"
form. It picks an address from the list the form offers and reads the results tables. Each row
becomes a bin collection whose colour is classified from its label. If scraping fails, the backend
answers with fixed mock data. The backend exists twice:

- a C# ASP.NET service (`BinScraperService` and `BinLookupController`), which first asks a database;
- a Python FastAPI service (`main.py`).

This project models the decision logic of both and proves what each promises. The browser is reduced
to the outcome of each of its steps (`Model.Browser`): whether launching, searching and submitting
threw, the page text after the search, the address options, and the result page as tables of rows of
cell texts. Both services share the logic that is the same in each:

- address filtering and selection (`address.dfy`);
- the colour classifier (`classification.dfy`);
- result extraction (`extraction.dfy`);
- string helpers (`text.dfy`).

Each service also has its own module:

- `scraper_service.dfy`: the C# mock generator and the C# exception handling with its message prefixes;
- `python_app.dfy`: the Python mock generator, the Python mapping of failures to `HTTPException`
  status codes, and `lookup_bins`' fallback to the mock data;
- `controller.dfy`: the C# endpoint's decision chain: a blank postcode, then the database, then
  scraping, then the mock data, with a 500 for a database error.

Dates are day numbers, and day 0 is a Sunday. .NET's `DayOfWeek` is `day % 7` (0 is Sunday), and
Python's `weekday()` is `(day + 6) % 7` (0 is Monday).

The C# mock generator calls its first date `nextMonday`, but it adds `(7 - DayOfWeek) % 7` days, and
that lands on `DayOfWeek` 0, a Sunday. Its `nextThursday` is then a Wednesday.
`ScraperService.MockShape` states the dates as the code computes them.
`PythonApp.MockDatesDiffer` proves that the two services' mock dates always differ: the Python
service's first date is a real Monday.

## Model

| member | source | states |
|---|---|---|
| Text.ContainsIffOccurs | backend/Services/BinScraperService.cs:165 | the substring test holds exactly when the needle occurs at some index of the lower-cased label |
| Text.TrimStartIsSuffix | backend/Services/BinScraperService.cs:160 | dropping leading white space leaves a suffix that does not start with white space, after only white space |
| Text.TrimEndIsPrefix | backend/Services/BinScraperService.cs:161 | dropping trailing white space leaves a prefix that does not end with white space, followed by only white space |
| Text.TrimIsInfix | backend/Services/BinScraperService.cs:160-161 | a trimmed cell text is the infix of the cell between white-space runs, with no white space at either end |
| Text.NatToString | backend/app/main.py:183 | `str` of a status code is a non-empty string of decimal digits |
| Text.NatToStringValue | backend/app/main.py:183 | `str` of a status code spells that number: its digits read back in base ten give the code |
| Classification.ColourOf | backend/Services/BinScraperService.cs:163-174 | every classified colour is one of Black, Blue, Brown, Green, Purple, Unknown |
| Classification.FirstMatchWins | backend/Services/BinScraperService.cs:165-174 | a first-match rule table gives rule i's colour exactly when rule i matches and no earlier rule does |
| Classification.ColourOfIsFirstMatch | backend/Services/BinScraperService.cs:163-174 | the if/else chain equals the five-rule table applied first-match-wins to the lower-cased label |
| Classification.ClassifiedByRule | backend/Services/BinScraperService.cs:164-174 | a label gets rule i's colour exactly when rule i matches its lower-cased form and no earlier rule does |
| Classification.UnknownIffNoKeyword | backend/Services/BinScraperService.cs:163-174 | a label stays "Unknown" exactly when none of the ten keywords occurs in it, compared case-insensitively |
| Classification.BlackFoodWasteIsBlack | backend/Services/BinScraperService.cs:165-172 | "Black Food Waste" matches the food rule too, but is classified Black because the black rule comes first |
| Extraction.KeptRows | backend/Services/BinScraperService.cs:158 | the rows with at least two cells: no more than there are rows, and a row is kept exactly when it has at least two cells |
| Extraction.ExtractAppend | backend/Services/BinScraperService.cs:150-185 | extracting two runs of tables gives their extractions one after the other |
| Extraction.ExtractIsDocumentOrder | backend/Services/BinScraperService.cs:147-158 | the table-then-row loops extract the page's rows in document order |
| Extraction.ExtractRowsIsEntryOfKept | backend/Services/BinScraperService.cs:155-182 | one collection per row with at least two cells, the k-th made from the k-th such row |
| Extraction.ExtractIsOnePerKeptRow | backend/Services/BinScraperService.cs:147-186 | over a whole page, the k-th collection comes from the k-th row of the page with at least two cells |
| Extraction.EntryIsExtracted | backend/Services/BinScraperService.cs:158-181 | a row's collection has as label the first cell with only white space removed around it and none left at either end, the colour that label classifies to, and the trimmed second cell as its date |
| Extraction.ExtractRowsAreExtracted | backend/Services/BinScraperService.cs:155-182 | every collection made from a run of rows has a trimmed label and its classified colour |
| Extraction.ExtractedEntriesAreTrimmedAndClassified | backend/Services/BinScraperService.cs:147-186 | every collection of a page has a trimmed label and its classified colour |
| Extraction.ExtractCollections | backend/Services/BinScraperService.cs:144-191 | the nested loops build exactly the page's extraction; the next colour is the first collection's colour or "Unknown"; the result is well formed |
| Address.ValidOptions | backend/Services/BinScraperService.cs:112-113 | an option is kept exactly when its value is not the placeholder for the postcode; no option is added |
| Address.ValidOptionsAppend | backend/Services/BinScraperService.cs:112-113 | the filter keeps the options' relative order |
| Address.NoValidOptions | backend/Services/BinScraperService.cs:115-118 | no address is left exactly when every option is the placeholder |
| Address.PlaceholderIsExactMatch | backend/Services/BinScraperService.cs:112-113 | the placeholder test is exact: a prompt with the postcode in another case is kept |
| Address.FirstMention | backend/Services/BinScraperService.cs:123-130 | the index of the first option whose lower-cased text contains the lower-cased house number, or none when no option does |
| Address.ChooseOption | backend/Services/BinScraperService.cs:120-131 | the chosen option is a valid one: the first when the house number is null or empty, otherwise the first that mentions it, otherwise the first |
| Address.SelectOption | backend/Services/BinScraperService.cs:120-131 | the default-then-loop-with-break selects exactly the option `ChooseOption` describes |
| ScraperService.NextMonday | backend/Services/BinScraperService.cs:20-22 | the mock's first day is 1 to 7 days after today, has `DayOfWeek` 0 (Sunday), and is the first such day |
| ScraperService.MockShape | backend/Services/BinScraperService.cs:18-51 | the C# mock: the address names the postcode; Black, Blue, Brown; the first on the next Sunday, the others 3 days later; well formed; the house number is ignored |
| ScraperService.ProcessAddress | backend/Services/BinScraperService.cs:107-199 | the address block fails with the list error, with "No addresses found for this postcode", or with the submit error; otherwise it returns the chosen option's text and the page's extraction |
| ScraperService.ScrapeBinData | backend/Services/BinScraperService.cs:78-215 | each failing step yields its message with "Scraping error: " and, inside the address block, "Error processing address: " prefixed; success returns the chosen address and the extraction; the driver is quit once exactly when it was created |
| PythonApp.NextMonday | backend/app/main.py:44 | the Python mock's first day is 1 to 7 days after today, a Monday (weekday 0), and the first such day |
| PythonApp.MondayGoesAWeekOut | backend/app/main.py:44 | on a Monday the mock's date is the Monday a week later |
| PythonApp.MockShape | backend/app/main.py:43-67 | the Python mock: the address names the postcode; Black, Blue, Brown; the first on the next Monday, the others on the Thursday after it; well formed; the house number is ignored |
| PythonApp.MockDatesDiffer | backend/app/main.py:44-45 | the C# mock's first date is a Sunday and the Python one's a Monday: one day apart, or six when today is a Sunday |
| PythonApp.NoAddressesText | backend/app/main.py:124 | `str` of the 404 raised when no address is left is "404: No addresses found for this postcode" |
| PythonApp.ProcessAddress | backend/app/main.py:117-180 | the address block raises the list or submit error, or the 404 when no address is left; otherwise it returns the chosen option's text and the page's extraction |
| PythonApp.ScrapeBinData | backend/app/main.py:90-191 | "not recognised" gives 404 "Postcode not found"; every failure of the address block, its own 404 included, gives 500 "Error processing address: ..."; a launch or search failure gives 500 "Scraping error: ..."; the driver is quit once exactly when it was created |
| PythonApp.LookupNeverFails | backend/app/main.py:197-203 | `lookup_bins` returns the scrape result, or the mock data for the same postcode when scraping raised, and its response is well formed |
| PythonApp.LookupBinsScraping | backend/app/main.py:197-203 | end to end: the scraped address and extraction when every browser step succeeds, the mock data otherwise, always well formed |
| Controller.LookupBins | backend/Controllers/BinLookupController.cs:26-64 | 400 exactly for a null or blank postcode, 500 exactly when the database lookup throws, 200 otherwise |
| Controller.BlankPostcodeIsRejected | backend/Controllers/BinLookupController.cs:31-34 | a null or blank postcode gets BadRequest "Postcode is required", whatever the database and the scraper would do |
| Controller.DatabaseHitIsReturned | backend/Controllers/BinLookupController.cs:38-43 | a database result is returned unchanged, whatever the scraper would do |
| Controller.DatabaseMissFallsBack | backend/Controllers/BinLookupController.cs:45-57 | on a database miss the scrape result is returned, or the mock data with status 200 when scraping threw |
| Controller.DatabaseFailureIs500 | backend/Controllers/BinLookupController.cs:59-63 | a database exception gives status 500 with "Error: " and its message |
| Controller.RepliesAreWellFormed | backend/Controllers/BinLookupController.cs:38-57 | every 200 body is well formed when the database's and the scraper's are |
| Controller.LookupBinsScraping | backend/Controllers/BinLookupController.cs:45-57 | on a database miss: the scraped address and extraction when every browser step succeeds, the mock data otherwise, always 200 and well formed |

## Left out

- Selenium itself: navigation, element look-ups, clicks, waits and sleeps are reduced to the outcome of each step (`Model.Browser`); timeouts and timing are not modelled.
- HTML parsing (HtmlAgilityPack, BeautifulSoup): the result page is given already split into tables, rows and cell texts. Nested tables, whose rows both parsers would report twice, and the joining of text nodes by `get_text(strip=True)` are not modelled.
- Date formatting ("dddd, dd MMMM yyyy", "%A, %d %B %Y") and the calendar: mock dates are day numbers.
- The clock: `today` is a parameter. The C# code reads `DateTime.Now` three times and the Python code twice; the model assumes every read gives the same day.
- `LookupFromDatabase`: its body is not part of this model. The controller takes its outcome (a response, null, or an exception) as a parameter, so postcode normalisation and the database schema are not modelled.
- Logging, `print`, CORS, routing, response serialisation and the `healthz` endpoints: they do not affect any response body.
- The frontend is not part of this model.
- Text.Lower, Text.IsWhiteSpace: lower-casing covers A-Z only and white space is the six characters space, tab, line feed, vertical tab, form feed and carriage return. .NET and Python also lower-case and trim non-ASCII characters, and Python's `strip()` (used by `get_text(strip=True)`) also removes the ASCII separators 0x1C-0x1F, which the model keeps.
- ScraperService.ScrapeBinData, PythonApp.ScrapeBinData: `addressSelect.SelectByValue` / `select_by_value` is folded into the submit step, so an option whose value the list rejects shows up as a submit failure.
- Classification.ColourOf: the model does not prove that the mock data's hard-coded colours are what the classifier gives for the mock labels.
- Exceptions that the `finally` blocks themselves throw (a failing `Quit()`) are not modelled.
