/** The C# scraping service, backend/Services/BinScraperService.cs: the mock data
    generator and the decision logic of `ScrapeBinData`, with the browser reduced to
    the outcomes of its steps (see `Model.Browser`). Exceptions are `Failure(message)`. */
module ScraperService {

  import opened Model
  import opened Text
  import opened Extraction
  import opened Address

  /** .NET `DayOfWeek` of a day number: 0 is Sunday, 1 Monday, ..., 6 Saturday. */
  function DayOfWeek(day: int): int
  {
    day % 7
  }

  /** The day the source calls `nextMonday`: `today` plus `(7 - dow) % 7`, moved a week on when that is today.
      (`7 - dow` is between 1 and 7, so C#'s truncating `%` and Dafny's agree here.) */
  function NextMonday(today: int): (day: int)
    ensures today < day <= today + 7
    ensures DayOfWeek(day) == 0
    ensures forall d :: today < d < day ==> DayOfWeek(d) != 0
  {
    var candidate := today + (7 - DayOfWeek(today)) % 7;
    if candidate == today then candidate + 7 else candidate
  }

  /** `GetMockBinData`: three fixed collections on the computed days. The house number is not used. */
  function GetMockBinData(postcode: string, houseNumber: Option<string>, today: int): BinLookupResponse
  {
    var nextMonday := NextMonday(today);
    var nextThursday := nextMonday + 3;
    BinLookupResponse(
      "Sample Address, " + postcode,
      [ BinCollection("General Waste (Black Bin)", "Black", Formatted(nextMonday)),
        BinCollection("Recycling (Blue Bin)", "Blue", Formatted(nextThursday)),
        BinCollection("Garden Waste (Brown Bin)", "Brown", Formatted(nextThursday)) ],
      "Black")
  }

  /** The mock response: three collections coloured Black, Blue, Brown in that order, the first on the
      next day with `DayOfWeek` 0 (a Sunday, whatever the variable name says) after today, the other two
      three days later (a Wednesday); the address names the postcode; the result ignores the house number. */
  lemma MockShape(postcode: string, houseNumber: Option<string>, today: int)
    ensures var r := GetMockBinData(postcode, houseNumber, today);
            && r.address == "Sample Address, " + postcode
            && |r.collections| == 3
            && r.collections[0].color == "Black" && r.collections[1].color == "Blue" && r.collections[2].color == "Brown"
            && r.nextCollectionColor == "Black"
            && r.collections[0].nextCollection.Formatted?
            && var monday := r.collections[0].nextCollection.day;
               today < monday <= today + 7 && DayOfWeek(monday) == 0
               && r.collections[1].nextCollection == r.collections[2].nextCollection == Formatted(monday + 3)
               && DayOfWeek(monday + 3) == 3
    ensures WellFormed(GetMockBinData(postcode, houseNumber, today))
    ensures forall other :: GetMockBinData(postcode, other, today) == GetMockBinData(postcode, houseNumber, today)
  {
  }

  const AddressErrorPrefix := "Error processing address: "
  const ScrapingErrorPrefix := "Scraping error: "
  const NoAddressesFound := "No addresses found for this postcode"
  const PostcodeNotFound := "Postcode not found"

  /** The page after the postcode search says the postcode is unknown. */
  predicate NotRecognised(pageSource: string)
  {
    Contains(Lower(pageSource), "not recognised")
  }

  /** The inner `try` block: choose an address and read the results page. Its failures are raised
      with the message they carry; the `catch` around it is applied by `ScrapeBinData`. */
  method ProcessAddress(postcode: string, houseNumber: Option<string>, browser: Browser)
    returns (r: Result<BinLookupResponse, string>)
    ensures browser.addressList.Failure? ==> r == Failure(browser.addressList.error)
    ensures browser.addressList.Success? && ValidOptions(browser.addressList.value, postcode) == [] ==>
              r == Failure(NoAddressesFound)
    ensures browser.addressList.Success? && ValidOptions(browser.addressList.value, postcode) != [] ==>
              var valid := ValidOptions(browser.addressList.value, postcode);
              match browser.submit
              case Threw(m) => r == Failure(m)
              case Done =>
                r.Success? && r.value.address == ChooseOption(valid, houseNumber).text
                && r.value.collections == Extract(browser.resultPage) && WellFormed(r.value)
  {
    if browser.addressList.Failure? {
      return Failure(browser.addressList.error);
    }
    var validOptions := ValidOptions(browser.addressList.value, postcode);
    if |validOptions| == 0 {
      return Failure(NoAddressesFound);
    }
    var selectedOption := SelectOption(validOptions, houseNumber);
    if browser.submit.Threw? {
      return Failure(browser.submit.message);
    }
    var addressText := selectedOption.text;
    var collections, nextCollectionColor := ExtractCollections(browser.resultPage);
    r := Success(BinLookupResponse(addressText, collections, nextCollectionColor));
  }

  /** `ScrapeBinData`. `quits` counts the calls of `driver.Quit()` made by the `finally` block:
      one exactly when the driver was created. Every failure leaves with the outer prefix. */
  method ScrapeBinData(postcode: string, houseNumber: Option<string>, browser: Browser)
    returns (r: Result<BinLookupResponse, string>, ghost quits: nat)
    ensures quits == if browser.launch.Done? then 1 else 0
    ensures browser.launch.Threw? ==> r == Failure(ScrapingErrorPrefix + browser.launch.message)
    ensures browser.launch.Done? && browser.search.Threw? ==>
              r == Failure(ScrapingErrorPrefix + browser.search.message)
    ensures browser.launch.Done? && browser.search.Done? && NotRecognised(browser.searchPageSource) ==>
              r == Failure(ScrapingErrorPrefix + PostcodeNotFound)
    ensures browser.launch.Done? && browser.search.Done? && !NotRecognised(browser.searchPageSource) ==>
              if browser.addressList.Failure? then
                r == Failure(ScrapingErrorPrefix + AddressErrorPrefix + browser.addressList.error)
              else if ValidOptions(browser.addressList.value, postcode) == [] then
                r == Failure(ScrapingErrorPrefix + AddressErrorPrefix + NoAddressesFound)
              else if browser.submit.Threw? then
                r == Failure(ScrapingErrorPrefix + AddressErrorPrefix + browser.submit.message)
              else
                r.Success? && WellFormed(r.value)
                && r.value.address == ChooseOption(ValidOptions(browser.addressList.value, postcode), houseNumber).text
                && r.value.collections == Extract(browser.resultPage)
    ensures r.Failure? ==> |ScrapingErrorPrefix| <= |r.error| && r.error[..|ScrapingErrorPrefix|] == ScrapingErrorPrefix
  {
    quits := 0;
    if browser.launch.Threw? {
      // The driver was never assigned: the `finally` block finds it null and quits nothing.
      r := Failure(ScrapingErrorPrefix + browser.launch.message);
      return;
    }
    var raised: Result<BinLookupResponse, string>;
    if browser.search.Threw? {
      raised := Failure(browser.search.message);
    } else if NotRecognised(browser.searchPageSource) {
      raised := Failure(PostcodeNotFound);
    } else {
      var inner := ProcessAddress(postcode, houseNumber, browser);
      raised := if inner.Failure? then Failure(AddressErrorPrefix + inner.error) else inner;
      if inner.Failure? {
        assert ScrapingErrorPrefix + raised.error == ScrapingErrorPrefix + AddressErrorPrefix + inner.error;
      }
    }
    r := if raised.Failure? then Failure(ScrapingErrorPrefix + raised.error) else raised;
    quits := quits + 1;
  }
}
