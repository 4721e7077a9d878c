/**
 * The token search of the select box: a query that starts with "0x" is looked up in the
 * token's address, any other query in its label, both without regard to letter case.
 */
module Select {

  import opened Text

  /** The data of one option of the select (`label` is a reserved word in Dafny, hence `labelText`). */
  datatype TokenOption = TokenOption(labelText: string, tokenAddress: string)

  /** The `^0x` test: a case-sensitive check of the first two characters. */
  predicate AddressStart(searchText: string)
  {
    StartsWith(searchText, "0x")
  }

  /** `customFilter`: whether an option is shown for the search text. */
  predicate CustomFilter(option: TokenOption, searchText: string)
  {
    if AddressStart(searchText) then Contains(Lower(option.tokenAddress), Lower(searchText))
    else Contains(Lower(option.labelText), Lower(searchText))
  }

  /** The field searched: the address for an address query, the label otherwise. */
  function SearchedField(option: TokenOption, searchText: string): string
  {
    if AddressStart(searchText) then option.tokenAddress else option.labelText
  }

  /** An option is shown exactly when the lower-cased query occurs in the lower-cased searched field. */
  lemma CustomFilterMeaning(option: TokenOption, searchText: string)
    ensures CustomFilter(option, searchText) <==>
              Occurs(Lower(SearchedField(option, searchText)), Lower(searchText))
  {
    var field := Lower(SearchedField(option, searchText));
    assert CustomFilter(option, searchText) == Contains(field, Lower(searchText));
    ContainsIffOccurs(field, Lower(searchText));
  }

  /** An empty query shows every option. */
  lemma EmptySearchMatchesAll(option: TokenOption)
    ensures CustomFilter(option, "")
  {
  }

  /** An address query never looks at the label, and any other query never looks at the address. */
  lemma OnlySearchedFieldMatters(option: TokenOption, other: TokenOption, searchText: string)
    requires SearchedField(option, searchText) == SearchedField(other, searchText)
    ensures CustomFilter(option, searchText) == CustomFilter(other, searchText)
  {
  }

  /** Letter case in the option's fields does not change the outcome. */
  lemma FieldCaseIgnored(option: TokenOption, other: TokenOption, searchText: string)
    requires Lower(option.labelText) == Lower(other.labelText)
    requires Lower(option.tokenAddress) == Lower(other.tokenAddress)
    ensures CustomFilter(option, searchText) == CustomFilter(other, searchText)
  {
  }

  /** Letter case in the query does not change the outcome, as long as the "0x" test agrees. */
  lemma QueryCaseIgnored(option: TokenOption, searchText: string, other: string)
    requires Lower(searchText) == Lower(other)
    requires AddressStart(searchText) == AddressStart(other)
    ensures CustomFilter(option, searchText) == CustomFilter(option, other)
  {
  }

  lemma {:induction false} AbsentFirstChar(text: string, pat: string)
    requires |pat| > 0 && forall i :: 0 <= i < |text| ==> text[i] != pat[0]
    ensures !Contains(text, pat)
    decreases |text|
  {
    if |text| > 0 {
      if |pat| <= |text| {
        assert text[..|pat|][0] == text[0];
      }
      AbsentFirstChar(text[1..], pat);
    }
  }

  /**
   * The prefix test is case-sensitive: "0XC0" is looked up in the label, so it misses a token
   * whose address starts with it.
   */
  lemma UpperCasePrefixSearchesLabel()
    ensures !CustomFilter(TokenOption("WETH", "0xc02a"), "0XC0")
  {
    assert !AddressStart("0XC0");
    var q := Lower("0XC0");
    assert |q| == 4 && q[0] == '0';
    var l := Lower("WETH");
    assert forall i :: 0 <= i < |l| ==> l[i] != '0';
    AbsentFirstChar(l, q);
  }

  /** The same query with a lower-case "0x" is looked up in the address and finds the token. */
  lemma LowerCasePrefixSearchesAddress()
    ensures CustomFilter(TokenOption("WETH", "0xc02a"), "0xC0")
  {
    assert AddressStart("0xC0");
    var q := Lower("0xC0");
    assert q == "0xc0";
    var t := Lower("0xc02a");
    assert t[..4] == "0xc0";
  }
}
