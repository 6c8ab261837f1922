/** The C# endpoint `POST api/bin-lookup`, backend/Controllers/BinLookupController.cs:26-64:
    validate the postcode, answer from the database when it has a result, otherwise scrape,
    and fall back to the mock data when scraping fails. The database lookup and the scrape are
    given as their outcomes; an exception is `Failure(message)`. */
module Controller {

  import opened Model
  import opened Text
  import opened Extraction
  import opened Address
  import opened ScraperService

  /** The request body; either field may be missing (null). */
  datatype BinLookupRequest = BinLookupRequest(postcode: Option<string>, houseNumber: Option<string>)

  /** The endpoint's replies: `Ok(body)`, `BadRequest(new { detail })`, `StatusCode(code, new { detail })`. */
  datatype ActionResult =
    | Ok(body: BinLookupResponse)
    | BadRequest(detail: string)
    | StatusCode(code: int, detail: string)

  /** The HTTP status a reply is sent with. */
  function Status(reply: ActionResult): int
  {
    match reply
    case Ok(_) => 200
    case BadRequest(_) => 400
    case StatusCode(code, _) => code
  }

  const PostcodeRequired := "Postcode is required"

  /** `LookupBins`. `database` is the outcome of `LookupFromDatabase` (a response, null, or an exception),
      `scrape` the outcome of `ScrapeBinData`, `today` the day `GetMockBinData` reads from the clock. */
  function LookupBins(request: BinLookupRequest, today: int,
                      database: Result<Option<BinLookupResponse>, string>,
                      scrape: Result<BinLookupResponse, string>): (reply: ActionResult)
    ensures Status(reply) == 400 <==> IsNullOrWhiteSpace(request.postcode)
    ensures Status(reply) == 500 <==> !IsNullOrWhiteSpace(request.postcode) && database.Failure?
    ensures Status(reply) == 200 <==> !IsNullOrWhiteSpace(request.postcode) && database.Success?
  {
    if IsNullOrWhiteSpace(request.postcode) then BadRequest(PostcodeRequired)
    else match database
      case Failure(message) => StatusCode(500, "Error: " + message)
      case Success(Some(found)) => Ok(found)
      case Success(None) =>
        match scrape
        case Success(result) => Ok(result)
        case Failure(_) => Ok(GetMockBinData(request.postcode.value, request.houseNumber, today))
  }

  /** A missing or blank postcode is rejected before the database or the scraper is consulted. */
  lemma BlankPostcodeIsRejected(request: BinLookupRequest, today: int,
                                database: Result<Option<BinLookupResponse>, string>,
                                scrape: Result<BinLookupResponse, string>)
    requires IsNullOrWhiteSpace(request.postcode)
    ensures LookupBins(request, today, database, scrape) == BadRequest(PostcodeRequired)
  {
  }

  /** A database hit is returned as it is, whatever the scraper would have done. */
  lemma DatabaseHitIsReturned(request: BinLookupRequest, today: int, found: BinLookupResponse,
                              scrape: Result<BinLookupResponse, string>)
    requires !IsNullOrWhiteSpace(request.postcode)
    ensures LookupBins(request, today, Success(Some(found)), scrape) == Ok(found)
  {
  }

  /** On a database miss a successful scrape is returned; a failed one is replaced by the mock data
      for the same postcode and house number, still with status 200. */
  lemma DatabaseMissFallsBack(request: BinLookupRequest, today: int, scrape: Result<BinLookupResponse, string>)
    requires !IsNullOrWhiteSpace(request.postcode)
    ensures scrape.Success? ==> LookupBins(request, today, Success(None), scrape) == Ok(scrape.value)
    ensures scrape.Failure? ==>
              LookupBins(request, today, Success(None), scrape)
              == Ok(GetMockBinData(request.postcode.value, request.houseNumber, today))
  {
  }

  /** Only an exception of the database lookup reaches the outer `catch`: 500 with "Error: " and its message. */
  lemma DatabaseFailureIs500(request: BinLookupRequest, today: int, message: string,
                             scrape: Result<BinLookupResponse, string>)
    requires !IsNullOrWhiteSpace(request.postcode)
    ensures LookupBins(request, today, Failure(message), scrape) == StatusCode(500, "Error: " + message)
  {
  }

  /** Every body the endpoint sends is well formed when the database's and the scraper's are:
      the mock data is well formed by construction. */
  lemma RepliesAreWellFormed(request: BinLookupRequest, today: int,
                             database: Result<Option<BinLookupResponse>, string>,
                             scrape: Result<BinLookupResponse, string>)
    requires database.Success? && database.value.Some? ==> WellFormed(database.value.value)
    requires scrape.Success? ==> WellFormed(scrape.value)
    ensures LookupBins(request, today, database, scrape).Ok? ==> WellFormed(LookupBins(request, today, database, scrape).body)
  {
    if !IsNullOrWhiteSpace(request.postcode) {
      MockShape(request.postcode.value, request.houseNumber, today);
    }
  }

  /** The end-to-end scraping path: when the database has nothing, the reply is 200 with the scrape's result
      when the browser gets through every step, and the mock data otherwise. */
  method LookupBinsScraping(request: BinLookupRequest, today: int, browser: Browser) returns (reply: ActionResult)
    requires !IsNullOrWhiteSpace(request.postcode)
    ensures reply.Ok? && WellFormed(reply.body)
    ensures var postcode := request.postcode.value;
            var succeeded := browser.launch.Done? && browser.search.Done? && !NotRecognised(browser.searchPageSource)
                             && browser.addressList.Success? && ValidOptions(browser.addressList.value, postcode) != []
                             && browser.submit.Done?;
            if succeeded then
              reply.body.address == ChooseOption(ValidOptions(browser.addressList.value, postcode), request.houseNumber).text
              && reply.body.collections == Extract(browser.resultPage)
            else reply.body == GetMockBinData(postcode, request.houseNumber, today)
  {
    var scrape, quits := ScrapeBinData(request.postcode.value, request.houseNumber, browser);
    reply := LookupBins(request, today, Success(None), scrape);
    MockShape(request.postcode.value, request.houseNumber, today);
  }
}
