/** The data the lookup pipeline passes around, common to the C# service
    (backend/Services/BinScraperService.cs, backend/Models/BinLookupResponse.cs)
    and the Python service (backend/app/main.py). */
module Model {

  datatype Option<+T> = None | Some(value: T)

  /** A call that either returns a value or raises an exception carrying `error`. */
  datatype Result<+T, +E> = Success(value: T) | Failure(error: E)

  /** The date of a collection: the trimmed text of a results-table cell, or
      the day number that the mock generator formats with "dddd, dd MMMM yyyy"
      (C#) or "%A, %d %B %Y" (Python). Day numbers count days, and day 0 is a Sunday. */
  datatype CollectionDate = Scraped(text: string) | Formatted(day: int)

  datatype BinCollection = BinCollection(binType: string, color: string, nextCollection: CollectionDate)

  datatype BinLookupResponse = BinLookupResponse(
    address: string,
    collections: seq<BinCollection>,
    nextCollectionColor: string)

  /** An `<option>` of the address list: its `value` attribute and its visible text. */
  datatype AddressOption = AddressOption(value: string, text: string)

  /** A parsed results page: every `table`, each as its `tr` rows, each row as the texts of its `td` cells. */
  type Row = seq<string>
  type Table = seq<Row>
  type Page = seq<Table>

  /** The outcome of a browser interaction that produces nothing the model needs. */
  datatype Step = Done | Threw(message: string)

  /** What the headless browser does during one scrape attempt:
      - launch: starting the driver;
      - search: loading the form, choosing search-by-postcode, typing the postcode and pressing Find;
      - searchPageSource: the page source after the search;
      - addressList: finding the address list and reading its options;
      - submit: selecting the chosen option and pressing the select button;
      - resultPage: the tables of the page that comes back. */
  datatype Browser = Browser(
    launch: Step,
    search: Step,
    searchPageSource: string,
    addressList: Result<seq<AddressOption>, string>,
    submit: Step,
    resultPage: Page)
}
