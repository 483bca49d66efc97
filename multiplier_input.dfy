/**
 * The quantity dialog shown when a special check is selected: a numeric
 * field clamped to at least 1 on every edit and again on save, reset to
 * its default on opening.
 */
module MultiplierInput {
  import opened Types
  import opened JsNumber

  /** `Math.max(1, parseInt(text) || 1)`: NaN and 0 become 1, anything
      below 1 becomes 1. */
  function ClampInput(text: string): (v: int)
    ensures v >= 1
    ensures ParseInt(text, 0).None? ==> v == 1
    ensures ParseInt(text, 0).Some? && ParseInt(text, 0).value >= 1 ==> v == ParseInt(text, 0).value
    ensures ParseInt(text, 0).Some? && ParseInt(text, 0).value < 1 ==> v == 1
  {
    var parsed := ParseInt(text, 0);
    var orOne := if parsed.None? || parsed.value == 0 then 1 else parsed.value;
    if orOne > 1 then orOne else 1
  }

  /** A positive integer typed as is, with or without a fractional or
      exponent part after it, is stored unchanged. */
  lemma PositiveInputKept(n: nat, rest: string)
    requires n >= 1
    requires rest == [] || DigitValue(rest[0]) >= 10
    ensures ClampInput(Decimal(n) + rest) == n
  {
    ParseIntTextNoRadix(n, rest);
  }

  /** Zero, negative and non-numeric input all store 1. */
  lemma ZeroInputIsOne()
    ensures ClampInput("0") == 1
  {
    NothingToTrim("0");
    assert Unsigned("0") == "0" && !Negative("0");
    assert DigitPrefix("0", 10) == "0";
    ParseUntrimmed("0", 0, 0);
  }

  lemma NegativeInputIsOne(m: nat)
    requires m > 0
    ensures ClampInput("-" + Decimal(m)) == 1
  {
    ParseNegativeTextNoRadix(m);
  }

  lemma ParseNegativeTextNoRadix(m: nat)
    requires m > 0
    ensures ParseInt("-" + Decimal(m), 0) == Some(-(m as int))
  {
    var u := Decimal(m);
    var s := "-" + u;
    assert s[0] == '-' && s[1..] == u;
    assert Unsigned(s) == u && Negative(s);
    assert u + [] == u;
    MagnitudeOfDecimal(m, [], 0);
    NothingToTrim(s);
    ParseUntrimmed(s, 0, m);
  }

  lemma NonNumericInputIsOne(text: string)
    requires var t := TrimStart(text); t == [] || (t[0] != '+' && t[0] != '-' && DigitValue(t[0]) >= 10)
    ensures ClampInput(text) == 1
  {
    NoDigitsIsNaN(text, 0);
  }

  /** `handleSave`'s `Math.max(1, value)`. */
  function SaveValue(value: int): (m: int)
    ensures m >= 1
    ensures value >= 1 ==> m == value
    ensures value < 1 ==> m == 1
  {
    if value > 1 then value else 1
  }

  /** The dialog's own state: the quantity field. */
  class MultiplierDialog {
    var value: int

    /** `useState(defaultValue)`, with `defaultValue` 1 when not given. */
    constructor (defaultValue: Option<int>)
      ensures value == if defaultValue.Some? then defaultValue.value else 1
    {
      value := if defaultValue.Some? then defaultValue.value else 1;
    }

    /** The effect run when `isOpen` or the default changes. */
    method Sync(isOpen: bool, defaultValue: Option<int>)
      modifies this
      ensures isOpen ==> value == if defaultValue.Some? then defaultValue.value else 1
      ensures !isOpen ==> value == old(value)
    {
      if isOpen {
        value := if defaultValue.Some? then defaultValue.value else 1;
      }
    }

    /** Typing in the field. */
    method Edit(text: string)
      modifies this
      ensures value == ClampInput(text) && value >= 1
    {
      value := ClampInput(text);
    }

    /** `handleSave`: the value handed over is at least 1, and is the
        field's value whenever that is at least 1. */
    method Save() returns (multiplier: int)
      ensures multiplier >= 1
      ensures multiplier == SaveValue(value)
    {
      multiplier := SaveValue(value);
    }
  }
}
