/**
 * The "Edit Additional Costs" dialog: two fee fields kept as numbers,
 * shown with Indian digit grouping and re-read on every keystroke with
 * commas stripped, reset to the current fees on opening.
 */
module AdditionalCosts {
  import opened Types
  import opened JsNumber

  /** `value.replace(/,/g, '')`. */
  function RemoveCommas(s: string): (r: string)
    ensures ',' !in r
    ensures |r| <= |s|
  {
    if s == [] then []
    else (if s[0] == ',' then [] else [s[0]]) + RemoveCommas(s[1..])
  }

  lemma {:induction false} RemoveCommasAppend(a: string, b: string)
    ensures RemoveCommas(a + b) == RemoveCommas(a) + RemoveCommas(b)
  {
    if a == [] {
      assert a + b == b;
    } else {
      var head := if a[0] == ',' then [] else [a[0]];
      assert (a + b)[0] == a[0] && (a + b)[1..] == a[1..] + b;
      assert RemoveCommas(a + b) == head + RemoveCommas(a[1..] + b);
      RemoveCommasAppend(a[1..], b);
      assert head + (RemoveCommas(a[1..]) + RemoveCommas(b)) == (head + RemoveCommas(a[1..])) + RemoveCommas(b);
    }
  }

  /** Text without commas is left as it is. */
  lemma {:induction false} RemoveCommasNoComma(s: string)
    requires ',' !in s
    ensures RemoveCommas(s) == s
  {
    if s != [] {
      RemoveCommasNoComma(s[1..]);
    }
  }

  /** `parseNumber`: strip every comma, read a decimal integer, and take 0
      for NaN (`|| 0`). */
  function ParseNumber(s: string): (n: int)
    ensures ParseInt(RemoveCommas(s), 10).None? ==> n == 0
  {
    match ParseInt(RemoveCommas(s), 10)
    case None => 0
    case Some(v) => v
  }

  /** Grouping of the leading digits in pairs, as the Indian system does
      left of the last three digits. */
  function GroupPairs(d: string): string
  {
    if |d| <= 2 then d else GroupPairs(d[..|d| - 2]) + "," + d[|d| - 2..]
  }

  /** Indian digit grouping: the last three digits, then pairs. */
  function GroupIndian(d: string): string
  {
    if |d| <= 3 then d else GroupPairs(d[..|d| - 3]) + "," + d[|d| - 3..]
  }

  /** The text the fee field shows for an integer fee (`en-IN` grouping). */
  function FeeText(n: int): string
  {
    if n < 0 then "-" + GroupIndian(Decimal(-n)) else GroupIndian(Decimal(n))
  }

  /** Joining with a comma adds nothing once commas are stripped. */
  lemma RemoveCommasJoin(a: string, b: string)
    requires ',' !in b
    ensures RemoveCommas(a + "," + b) == RemoveCommas(a) + b
  {
    RemoveCommasNoComma(b);
    RemoveCommasAppend(a + ",", b);
    RemoveCommasAppend(a, ",");
  }

  lemma {:induction false} GroupPairsUngroups(d: string)
    requires ',' !in d
    ensures RemoveCommas(GroupPairs(d)) == d
  {
    if |d| > 2 {
      var n := |d| - 2;
      assert d == d[..n] + d[n..];
      GroupPairsUngroups(d[..n]);
      RemoveCommasJoin(GroupPairs(d[..n]), d[n..]);
    }
  }

  lemma GroupIndianUngroups(d: string)
    requires ',' !in d
    ensures RemoveCommas(GroupIndian(d)) == d
  {
    if |d| <= 3 {
      RemoveCommasNoComma(d);
    } else {
      var n := |d| - 3;
      assert d == d[..n] + d[n..];
      GroupPairsUngroups(d[..n]);
      RemoveCommasJoin(GroupPairs(d[..n]), d[n..]);
    }
  }

  /** Re-reading the text a fee field shows gives the fee back, so an
      unedited field keeps its value. */
  lemma ParseFeeText(n: int)
    ensures ParseNumber(FeeText(n)) == n
  {
    if n < 0 {
      GroupIndianUngroups(Decimal(-n));
      RemoveCommasAppend("-", GroupIndian(Decimal(-n)));
      ParseIntText(n, "");
      assert IntText(n) + "" == "-" + Decimal(-n);
    } else {
      GroupIndianUngroups(Decimal(n));
      ParseIntText(n, "");
      assert IntText(n) + "" == Decimal(n);
    }
  }

  lemma GroupedDigits()
    ensures RemoveCommas("1,00,000") == "100000"
  {
    assert "1,00,000" == "1,00" + "," + "000" && "1,00" == "1" + "," + "00";
    RemoveCommasJoin("1,00", "000");
    RemoveCommasJoin("1", "00");
    RemoveCommasNoComma("1");
    assert "1" + "00" + "000" == "100000";
  }

  lemma DecimalExample()
    ensures Decimal(100000) == "100000"
  {
  }

  /** Commas anywhere are ignored, so grouped input reads as its digits. */
  lemma GroupedInput()
    ensures ParseNumber("1,00,000") == 100000
  {
    GroupedDigits();
    DecimalExample();
    ParseIntText(100000, "");
    assert IntText(100000) + "" == "100000";
  }

  /** Reading stops at the first character that is not a digit. */
  lemma TrailingTextIgnored(n: int, rest: string)
    requires ',' !in rest
    requires rest == [] || DigitValue(rest[0]) >= 10
    ensures ParseNumber(IntText(n) + rest) == n
  {
    var m: nat := if n < 0 then -n else n;
    assert ',' !in IntText(n) + rest;
    RemoveCommasNoComma(IntText(n) + rest);
    ParseIntText(n, rest);
  }

  /** Text with no digit where the number should start reads as 0. */
  lemma NoDigitsReadsZero(s: string)
    requires var t := TrimStart(RemoveCommas(s)); t == [] || (t[0] != '+' && t[0] != '-' && DigitValue(t[0]) >= 10)
    ensures ParseNumber(s) == 0
  {
    NoDigitsIsNaN(RemoveCommas(s), 10);
  }

  /** The dialog's own state: the two fee fields. */
  class CostsDialog {
    var setupFee: int
    var annualFee: int

    /** `useState(defaultSetupFee)`, `useState(defaultAnnualFee)`. */
    constructor (defaultSetupFee: int, defaultAnnualFee: int)
      ensures setupFee == defaultSetupFee && annualFee == defaultAnnualFee
    {
      setupFee, annualFee := defaultSetupFee, defaultAnnualFee;
    }

    /** The effect run when `isOpen` or the defaults change: reset both
        fields to the defaults while the dialog is open. */
    method Sync(isOpen: bool, defaultSetupFee: int, defaultAnnualFee: int)
      modifies this
      ensures isOpen ==> setupFee == defaultSetupFee && annualFee == defaultAnnualFee
      ensures !isOpen ==> setupFee == old(setupFee) && annualFee == old(annualFee)
    {
      if isOpen {
        setupFee, annualFee := defaultSetupFee, defaultAnnualFee;
      }
    }

    /** Typing in the set-up fee field. */
    method EditSetupFee(text: string)
      modifies this
      ensures setupFee == ParseNumber(text) && annualFee == old(annualFee)
    {
      setupFee := ParseNumber(text);
    }

    /** Typing in the annual fee field. */
    method EditAnnualFee(text: string)
      modifies this
      ensures annualFee == ParseNumber(text) && setupFee == old(setupFee)
    {
      annualFee := ParseNumber(text);
    }

    /** The text each field shows. */
    function SetupFeeShown(): string
      reads this
    {
      FeeText(setupFee)
    }

    function AnnualFeeShown(): string
      reads this
    {
      FeeText(annualFee)
    }

    /** `handleSave`: hand both fees over unchanged; the dialog then closes. */
    method Save() returns (setup: int, annual: int)
      ensures setup == setupFee && annual == annualFee
    {
      setup, annual := setupFee, annualFee;
    }
  }

  /** Re-entering the shown set-up fee leaves both fees as they were. */
  method RetypeShownSetupFee(d: CostsDialog)
    modifies d
    ensures d.setupFee == old(d.setupFee) && d.annualFee == old(d.annualFee)
  {
    ParseFeeText(d.setupFee);
    d.EditSetupFee(d.SetupFeeShown());
  }
}
