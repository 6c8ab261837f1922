/** Address-list handling (backend/Services/BinScraperService.cs:112-131,
    backend/app/main.py:121-131): drop the placeholder option, then pick the first
    remaining option, or the first one whose text mentions the house number. */
module Address {

  import opened Model
  import opened Text

  /** The value of the list's prompt option for `postcode`. */
  function Placeholder(postcode: string): string
  {
    "Select the " + postcode + " address from the list."
  }

  /** The options whose value is not exactly the placeholder, in their original order. */
  function ValidOptions(options: seq<AddressOption>, postcode: string): (valid: seq<AddressOption>)
    ensures |valid| <= |options|
    ensures forall o :: o in valid <==> o in options && o.value != Placeholder(postcode)
  {
    if options == [] then []
    else (if options[0].value != Placeholder(postcode) then [options[0]] else [])
         + ValidOptions(options[1..], postcode)
  }

  /** Filtering commutes with concatenation: the options kept keep their relative order. */
  lemma {:induction false} ValidOptionsAppend(a: seq<AddressOption>, b: seq<AddressOption>, postcode: string)
    ensures ValidOptions(a + b, postcode) == ValidOptions(a, postcode) + ValidOptions(b, postcode)
  {
    if a != [] {
      assert (a + b)[1..] == a[1..] + b;
      ValidOptionsAppend(a[1..], b, postcode);
    } else {
      assert a + b == b;
    }
  }

  /** Nothing is left exactly when every option is the placeholder. */
  lemma NoValidOptions(options: seq<AddressOption>, postcode: string)
    ensures ValidOptions(options, postcode) == [] <==>
              forall k :: 0 <= k < |options| ==> options[k].value == Placeholder(postcode)
  {
    var valid := ValidOptions(options, postcode);
    if valid != [] {
      assert valid[0] in valid;
    }
  }

  /** The test is exact equality, not a "contains" test and not case-insensitive: a prompt that
      differs from the placeholder only in the case of the postcode is kept. */
  lemma PlaceholderIsExactMatch()
    ensures ValidOptions([AddressOption("Select the bt1 1aa address from the list.", "")], "BT1 1AA")
            == [AddressOption("Select the bt1 1aa address from the list.", "")]
  {
    var o := AddressOption("Select the bt1 1aa address from the list.", "");
    assert o.value[11] != Placeholder("BT1 1AA")[11];
  }

  /** The option text mentions the house number, compared case-insensitively. */
  predicate Mentions(option: AddressOption, houseNumber: string)
  {
    Contains(Lower(option.text), Lower(houseNumber))
  }

  /** The index of the first option that mentions the house number, if any. */
  function FirstMention(options: seq<AddressOption>, houseNumber: string): (r: Option<nat>)
    ensures r.Some? ==> r.value < |options| && Mentions(options[r.value], houseNumber)
                        && forall j :: 0 <= j < r.value ==> !Mentions(options[j], houseNumber)
    ensures r.None? ==> forall j :: 0 <= j < |options| ==> !Mentions(options[j], houseNumber)
  {
    if options == [] then None
    else if Mentions(options[0], houseNumber) then Some(0)
    else match FirstMention(options[1..], houseNumber)
      case None => None
      case Some(i) => Some(i + 1)
  }

  /** The option the scraper selects among the valid ones. */
  function ChooseOption(valid: seq<AddressOption>, houseNumber: Option<string>): (chosen: AddressOption)
    requires |valid| > 0
    ensures chosen in valid
    ensures IsNullOrEmpty(houseNumber) ==> chosen == valid[0]
    ensures !IsNullOrEmpty(houseNumber) ==>
              if exists i :: 0 <= i < |valid| && Mentions(valid[i], houseNumber.value) then
                exists i :: 0 <= i < |valid| && chosen == valid[i] && Mentions(valid[i], houseNumber.value)
                            && forall j :: 0 <= j < i ==> !Mentions(valid[j], houseNumber.value)
              else chosen == valid[0]
  {
    if IsNullOrEmpty(houseNumber) then valid[0]
    else match FirstMention(valid, houseNumber.value)
      case None => valid[0]
      case Some(i) => valid[i]
  }

  /** The default option, then the `foreach` over the valid options that overwrites it with
      the first one mentioning the house number and breaks. */
  method SelectOption(valid: seq<AddressOption>, houseNumber: Option<string>) returns (selected: AddressOption)
    requires |valid| > 0
    ensures selected == ChooseOption(valid, houseNumber)
  {
    selected := valid[0];
    if !IsNullOrEmpty(houseNumber) {
      var needle := houseNumber.value;
      var i := 0;
      while i < |valid|
        invariant 0 <= i <= |valid|
        invariant selected == valid[0]
        invariant forall j :: 0 <= j < i ==> !Mentions(valid[j], needle)
      {
        if Contains(Lower(valid[i].text), Lower(needle)) {
          selected := valid[i];
          assert FirstMention(valid, needle) == Some(i);
          break;
        }
        i := i + 1;
      }
    }
  }
}
