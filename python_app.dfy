/** The Python service, backend/app/main.py: its mock generator, the decision logic of
    `scrape_bin_data` with its mapping of failures to HTTP exceptions, and the mock
    fallback of `lookup_bins`. Address selection and result extraction are the same as
    the C# service's and use the shared `Address` and `Extraction` modules. */
module PythonApp {

  import opened Model
  import opened Text
  import opened Extraction
  import opened Address
  import CSharp = ScraperService

  /** Python `datetime.weekday()` of a day number: 0 is Monday, ..., 6 Sunday (day 0 is a Sunday). */
  function Weekday(day: int): int
  {
    (day + 6) % 7
  }

  /** `next_monday`: `today` plus `7 - weekday()`. */
  function NextMonday(today: int): (day: int)
    ensures today < day <= today + 7
    ensures Weekday(day) == 0
    ensures forall d :: today < d < day ==> Weekday(d) != 0
  {
    today + (7 - Weekday(today))
  }

  /** On a Monday the mock's Monday is a full week out, never today. */
  lemma MondayGoesAWeekOut(today: int)
    requires Weekday(today) == 0
    ensures NextMonday(today) == today + 7
  {
  }

  /** `get_mock_bin_data`: three fixed collections on next Monday and the Thursday after it. */
  function GetMockBinData(postcode: string, houseNumber: Option<string>, today: int): BinLookupResponse
  {
    var nextMonday := NextMonday(today);
    var nextThursday := nextMonday + 3;
    BinLookupResponse(
      "Sample Address, " + postcode,
      [ BinCollection("General Waste (Black Bin)", "Black", Formatted(nextMonday)),
        BinCollection("Recycling (Blue Bin)", "Blue", Formatted(nextThursday)),
        BinCollection("Garden Waste (Brown Bin)", "Brown", Formatted(nextThursday)) ],
      "Black")
  }

  /** The mock response: Black, Blue, Brown; the first on the next Monday (weekday 0) after today,
      the other two on the Thursday (weekday 3) after it; the address names the postcode;
      the house number plays no part. */
  lemma MockShape(postcode: string, houseNumber: Option<string>, today: int)
    ensures var r := GetMockBinData(postcode, houseNumber, today);
            && r.address == "Sample Address, " + postcode
            && |r.collections| == 3
            && r.collections[0].color == "Black" && r.collections[1].color == "Blue" && r.collections[2].color == "Brown"
            && r.nextCollectionColor == "Black"
            && r.collections[0].nextCollection.Formatted?
            && var monday := r.collections[0].nextCollection.day;
               today < monday <= today + 7 && Weekday(monday) == 0
               && r.collections[1].nextCollection == r.collections[2].nextCollection == Formatted(monday + 3)
               && Weekday(monday + 3) == 3
    ensures WellFormed(GetMockBinData(postcode, houseNumber, today))
    ensures forall other :: GetMockBinData(postcode, other, today) == GetMockBinData(postcode, houseNumber, today)
  {
  }

  /** The two services' mock data disagree on the first date: the C# one is a Sunday (Python weekday 6),
      one day before the Python one's Monday, or six days after it when today is a Sunday. */
  lemma MockDatesDiffer(postcode: string, houseNumber: Option<string>, today: int)
    ensures var cs := CSharp.GetMockBinData(postcode, houseNumber, today).collections[0].nextCollection.day;
            var py := GetMockBinData(postcode, houseNumber, today).collections[0].nextCollection.day;
            Weekday(cs) == 6 && Weekday(py) == 0
            && (if CSharp.DayOfWeek(today) == 0 then cs == py + 6 else cs == py - 1)
  {
  }

  /** FastAPI's `HTTPException(status_code, detail)`. */
  datatype HTTPException = HTTPException(statusCode: nat, detail: string)

  /** An exception inside the address block: an `HTTPException` or any other error with its text. */
  datatype PyException = Http(exception: HTTPException) | Other(message: string)

  /** `str(e)`: Starlette renders an `HTTPException` as "<status>: <detail>". */
  function Str(e: PyException): string
  {
    match e
    case Http(h) => NatToString(h.statusCode) + ": " + h.detail
    case Other(m) => m
  }

  /** The messages and the "not recognised" test are the C# service's. */
  const AddressErrorPrefix := CSharp.AddressErrorPrefix
  const ScrapingErrorPrefix := CSharp.ScrapingErrorPrefix
  const NoAddressesFound := CSharp.NoAddressesFound
  const PostcodeNotFound := CSharp.PostcodeNotFound

  /** The text of the 404 raised when no address is left. */
  lemma NoAddressesText()
    ensures Str(Http(HTTPException(404, NoAddressesFound))) == "404: " + NoAddressesFound
  {
    assert NatToString(4) == "4";
    assert NatToString(40) == "40";
  }

  /** The inner `try` block of `scrape_bin_data`, before its `except Exception`. */
  method ProcessAddress(postcode: string, houseNumber: Option<string>, browser: Browser)
    returns (r: Result<BinLookupResponse, PyException>)
    ensures browser.addressList.Failure? ==> r == Failure(Other(browser.addressList.error))
    ensures browser.addressList.Success? && ValidOptions(browser.addressList.value, postcode) == [] ==>
              r == Failure(Http(HTTPException(404, NoAddressesFound)))
    ensures browser.addressList.Success? && ValidOptions(browser.addressList.value, postcode) != [] ==>
              var valid := ValidOptions(browser.addressList.value, postcode);
              match browser.submit
              case Threw(m) => r == Failure(Other(m))
              case Done =>
                r.Success? && r.value.address == ChooseOption(valid, houseNumber).text
                && r.value.collections == Extract(browser.resultPage) && WellFormed(r.value)
  {
    if browser.addressList.Failure? {
      return Failure(Other(browser.addressList.error));
    }
    var validOptions := ValidOptions(browser.addressList.value, postcode);
    if |validOptions| == 0 {
      return Failure(Http(HTTPException(404, NoAddressesFound)));
    }
    var selectedOption := SelectOption(validOptions, houseNumber);
    if browser.submit.Threw? {
      return Failure(Other(browser.submit.message));
    }
    var addressText := selectedOption.text;
    var collections, nextCollectionColor := ExtractCollections(browser.resultPage);
    r := Success(BinLookupResponse(addressText, collections, nextCollectionColor));
  }

  /** `scrape_bin_data`. `quits` counts the calls of `driver.quit()` in the `finally` block.
      Only `HTTPException`s leave it: "not recognised" as 404, everything else as 500. */
  method ScrapeBinData(postcode: string, houseNumber: Option<string>, browser: Browser)
    returns (r: Result<BinLookupResponse, HTTPException>, ghost quits: nat)
    ensures quits == if browser.launch.Done? then 1 else 0
    ensures browser.launch.Threw? ==> r == Failure(HTTPException(500, ScrapingErrorPrefix + browser.launch.message))
    ensures browser.launch.Done? && browser.search.Threw? ==>
              r == Failure(HTTPException(500, ScrapingErrorPrefix + browser.search.message))
    ensures browser.launch.Done? && browser.search.Done? && CSharp.NotRecognised(browser.searchPageSource) ==>
              r == Failure(HTTPException(404, PostcodeNotFound))
    ensures browser.launch.Done? && browser.search.Done? && !CSharp.NotRecognised(browser.searchPageSource) ==>
              if browser.addressList.Failure? then
                r == Failure(HTTPException(500, AddressErrorPrefix + browser.addressList.error))
              else if ValidOptions(browser.addressList.value, postcode) == [] then
                r == Failure(HTTPException(500, AddressErrorPrefix + "404: " + NoAddressesFound))
              else if browser.submit.Threw? then
                r == Failure(HTTPException(500, AddressErrorPrefix + browser.submit.message))
              else
                r.Success? && WellFormed(r.value)
                && r.value.address == ChooseOption(ValidOptions(browser.addressList.value, postcode), houseNumber).text
                && r.value.collections == Extract(browser.resultPage)
    ensures r.Failure? ==>
              (r.error.statusCode == 404 <==> browser.launch.Done? && browser.search.Done? && CSharp.NotRecognised(browser.searchPageSource))
    ensures r.Failure? ==> r.error.statusCode == 404 || r.error.statusCode == 500
  {
    quits := 0;
    if browser.launch.Threw? {
      // `driver` is still None: the `finally` block skips `quit()`.
      r := Failure(HTTPException(500, ScrapingErrorPrefix + browser.launch.message));
      return;
    }
    if browser.search.Threw? {
      r := Failure(HTTPException(500, ScrapingErrorPrefix + browser.search.message));
    } else if CSharp.NotRecognised(browser.searchPageSource) {
      // Raised in the outer `try` and re-raised unchanged by `except HTTPException: raise`.
      r := Failure(HTTPException(404, PostcodeNotFound));
    } else {
      var inner := ProcessAddress(postcode, houseNumber, browser);
      if inner.Success? {
        r := Success(inner.value);
      } else {
        // `except Exception as e` turns every failure of the block, the 404 included, into a 500,
        // which the outer `except HTTPException: raise` passes on.
        if inner.error.Http? {
          NoAddressesText();
          assert AddressErrorPrefix + ("404: " + NoAddressesFound) == AddressErrorPrefix + "404: " + NoAddressesFound;
        }
        r := Failure(HTTPException(500, AddressErrorPrefix + Str(inner.error)));
      }
    }
    quits := quits + 1;
  }

  /** `lookup_bins`: the scrape result, or the mock data for the same postcode when the scrape raised. */
  function LookupBins(postcode: string, houseNumber: Option<string>, today: int,
                      scrape: Result<BinLookupResponse, HTTPException>): (r: BinLookupResponse)
  {
    match scrape
    case Success(result) => result
    case Failure(_) => GetMockBinData(postcode, houseNumber, today)
  }

  /** `lookup_bins` never fails: it returns the scrape result when there is one and the mock data
      for the same postcode otherwise, so its response is well formed whenever the scrape's is. */
  lemma LookupNeverFails(postcode: string, houseNumber: Option<string>, today: int,
                         scrape: Result<BinLookupResponse, HTTPException>)
    ensures scrape.Success? ==> LookupBins(postcode, houseNumber, today, scrape) == scrape.value
    ensures scrape.Failure? ==>
              LookupBins(postcode, houseNumber, today, scrape) == GetMockBinData(postcode, houseNumber, today)
              && LookupBins(postcode, houseNumber, today, scrape).address == "Sample Address, " + postcode
    ensures (scrape.Success? ==> WellFormed(scrape.value)) ==> WellFormed(LookupBins(postcode, houseNumber, today, scrape))
  {
    MockShape(postcode, houseNumber, today);
  }

  /** `lookup_bins` calling `scrape_bin_data`: the scraped response when the browser gets through
      every step, the mock data for the same postcode otherwise; never an error. */
  method LookupBinsScraping(postcode: string, houseNumber: Option<string>, today: int, browser: Browser)
    returns (response: BinLookupResponse)
    ensures WellFormed(response)
    ensures var succeeded := browser.launch.Done? && browser.search.Done? && !CSharp.NotRecognised(browser.searchPageSource)
                             && browser.addressList.Success? && ValidOptions(browser.addressList.value, postcode) != []
                             && browser.submit.Done?;
            if succeeded then
              response.address == ChooseOption(ValidOptions(browser.addressList.value, postcode), houseNumber).text
              && response.collections == Extract(browser.resultPage)
            else response == GetMockBinData(postcode, houseNumber, today)
  {
    var scrape, quits := ScrapeBinData(postcode, houseNumber, browser);
    response := LookupBins(postcode, houseNumber, today, scrape);
    LookupNeverFails(postcode, houseNumber, today, scrape);
  }
}
