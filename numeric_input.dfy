/**
 * The numeric input field: a shorthand parser ("2.5k", "15M", "1,000"), the
 * comma formatting of the shown text, and the field's focus/blur/change
 * handlers. JavaScript's `parseFloat` and `Intl.NumberFormat` are parameters:
 * `parseFloat` answers None where JavaScript gives NaN.
 */
module NumericInput {
  import opened Wrappers
  import opened Seqs
  import opened Strings

  /** `input.replace(/,/g, "")`. */
  function RemoveCommas(s: string): (r: string)
    ensures forall i :: 0 <= i < |r| ==> r[i] != ','
    ensures forall c :: c in r <==> c in s && c != ','
  {
    FilterMembershipAll(s, (c: char) => c != ',');
    var r := Filter(s, (c: char) => c != ',');
    assert forall i :: 0 <= i < |r| ==> r[i] in r;
    r
  }

  /** Removing commas works piece by piece, so the other characters keep their order and multiplicity. */
  lemma RemoveCommasAppend(a: string, b: string)
    ensures RemoveCommas(a + b) == RemoveCommas(a) + RemoveCommas(b)
  {
    FilterAppend(a, b, (c: char) => c != ',');
  }

  /** A single character: a comma is dropped, anything else is kept. */
  lemma RemoveCommasChar(c: char)
    ensures RemoveCommas([c]) == if c == ',' then [] else [c]
  {
    assert [c][..0] == [];
  }

  /** The text the parser works on: commas removed, then trimmed, then lower-cased. */
  function Clean(input: string): string
  {
    Lower(Trim(RemoveCommas(input)))
  }

  /** The multiplier of a shorthand suffix letter (`suffixMap[lastChar]`). */
  function SuffixMultiplier(c: char): (r: Option<real>)
    ensures r.Some? <==> c == 'k' || c == 'm' || c == 'b'
  {
    if c == 'k' then Some(1000.0)
    else if c == 'm' then Some(1000000.0)
    else if c == 'b' then Some(1000000000.0)
    else None
  }

  /** `parseShorthand`: parse the cleaned text. */
  function ParseShorthand(input: string, defaultValue: real, parseFloat: string -> Option<real>): (r: real)
    ensures Clean(input) == [] ==> r == defaultValue
  {
    ParseClean(Clean(input), defaultValue, parseFloat)
  }

  /** The body of `parseShorthand` after cleaning: the suffix form, else the plain number, else the default. */
  function ParseClean(cleanInput: string, defaultValue: real, parseFloat: string -> Option<real>): real
  {
    if cleanInput == [] then defaultValue
    else
      var lastChar := cleanInput[|cleanInput| - 1];
      var multiplier := SuffixMultiplier(lastChar);
      var suffixed := if multiplier.Some? then parseFloat(cleanInput[..|cleanInput| - 1]) else None;
      if suffixed.Some? then suffixed.value * multiplier.value
      else
        var num := parseFloat(cleanInput);
        if num.Some? then num.value else defaultValue
  }

  /** The scale factors a parsed number can receive: none, or a suffix multiplier. */
  predicate IsScale(k: real)
  {
    k == 1.0 || k == 1000.0 || k == 1000000.0 || k == 1000000000.0
  }

  /** On cleaned text: the default, or a parsed prefix scaled by one of the factors. */
  lemma ParseCleanSources(clean: string, defaultValue: real, parseFloat: string -> Option<real>)
    ensures var r := ParseClean(clean, defaultValue, parseFloat);
            || r == defaultValue
            || exists t, k :: t <= clean && parseFloat(t).Some? && IsScale(k) && r == parseFloat(t).value * k
  {
    var r := ParseClean(clean, defaultValue, parseFloat);
    if clean != [] {
      var prefix := clean[..|clean| - 1];
      var multiplier := SuffixMultiplier(clean[|clean| - 1]);
      if multiplier.Some? && parseFloat(prefix).Some? {
        assert prefix <= clean && IsScale(multiplier.value);
        assert r == parseFloat(prefix).value * multiplier.value;
      } else if parseFloat(clean).Some? {
        assert clean <= clean && IsScale(1.0);
        assert r == parseFloat(clean).value * 1.0;
      }
    }
  }

  /**
   * The result is never NaN: it is the default, or a number `parseFloat` read
   * from a prefix of the cleaned text, scaled by 1, a thousand, a million or a billion.
   */
  lemma ParsedOrDefault(input: string, defaultValue: real, parseFloat: string -> Option<real>)
    ensures var r := ParseShorthand(input, defaultValue, parseFloat);
            || r == defaultValue
            || exists t, k :: t <= Clean(input) && parseFloat(t).Some? && IsScale(k) && r == parseFloat(t).value * k
    ensures var clean := Clean(input);
            (clean != [] && parseFloat(clean).Some?
             && (SuffixMultiplier(clean[|clean| - 1]).None? || parseFloat(clean[..|clean| - 1]).None?))
            ==> ParseShorthand(input, defaultValue, parseFloat) == parseFloat(clean).value
  {
    ParseCleanSources(Clean(input), defaultValue, parseFloat);
  }

  /** Input that is empty once commas and surrounding white space are gone gives the default. */
  lemma EmptyGivesDefault(input: string, defaultValue: real, parseFloat: string -> Option<real>)
    requires forall i :: 0 <= i < |input| ==> input[i] == ',' || IsJsWhitespace(input[i])
    ensures ParseShorthand(input, defaultValue, parseFloat) == defaultValue
  {
    var noCommas := RemoveCommas(input);
    forall i | 0 <= i < |noCommas|
      ensures IsJsWhitespace(noCommas[i])
    {
      assert noCommas[i] in noCommas;
    }
    TrimAllWhitespace(noCommas);
  }

  /** A k, m or b after a parsable number multiplies it by a thousand, a million or a billion. */
  lemma SuffixScales(input: string, defaultValue: real, parseFloat: string -> Option<real>)
    requires var clean := Clean(input);
             clean != [] && clean[|clean| - 1] in {'k', 'm', 'b'} && parseFloat(clean[..|clean| - 1]).Some?
    ensures var clean := Clean(input);
            var x := parseFloat(clean[..|clean| - 1]).value;
            && (clean[|clean| - 1] == 'k' ==> ParseShorthand(input, defaultValue, parseFloat) == x * 1000.0)
            && (clean[|clean| - 1] == 'm' ==> ParseShorthand(input, defaultValue, parseFloat) == x * 1000000.0)
            && (clean[|clean| - 1] == 'b' ==> ParseShorthand(input, defaultValue, parseFloat) == x * 1000000000.0)
  {
  }

  /** When neither the suffix form nor the whole text parses, the result is the default. */
  lemma UnparsableGivesDefault(input: string, defaultValue: real, parseFloat: string -> Option<real>)
    requires var clean := Clean(input);
             clean != [] && parseFloat(clean).None?
             && (SuffixMultiplier(clean[|clean| - 1]).None? || parseFloat(clean[..|clean| - 1]).None?)
    ensures ParseShorthand(input, defaultValue, parseFloat) == defaultValue
  {
  }

  /** White space around the input does not matter: padded input cleans and parses as the input itself. */
  lemma WhitespaceIgnored(w1: string, a: string, w2: string, defaultValue: real, parseFloat: string -> Option<real>)
    requires forall k :: 0 <= k < |w1| ==> IsJsWhitespace(w1[k])
    requires forall k :: 0 <= k < |w2| ==> IsJsWhitespace(w2[k])
    ensures Clean(w1 + a + w2) == Clean(a)
    ensures ParseShorthand(w1 + a + w2, defaultValue, parseFloat) == ParseShorthand(a, defaultValue, parseFloat)
  {
    RemoveCommasAppend(w1 + a, w2);
    RemoveCommasAppend(w1, a);
    var c1 := RemoveCommas(w1);
    var c2 := RemoveCommas(w2);
    assert forall k :: 0 <= k < |c1| ==> IsJsWhitespace(c1[k]) by {
      forall k | 0 <= k < |c1| ensures IsJsWhitespace(c1[k]) {
        assert c1[k] in c1;
      }
    }
    assert forall k :: 0 <= k < |c2| ==> IsJsWhitespace(c2[k]) by {
      forall k | 0 <= k < |c2| ensures IsJsWhitespace(c2[k]) {
        assert c2[k] in c2;
      }
    }
    TrimPadded(c1, RemoveCommas(a), c2);
  }

  /** Lower-casing never produces a comma. */
  lemma LowerNoCommas(s: string)
    requires forall i :: 0 <= i < |s| ==> s[i] != ','
    ensures forall i :: 0 <= i < |Lower(s)| ==> Lower(s)[i] != ','
  {
  }

  /** Cleaning is idempotent: the cleaned text has no commas, no outer white space and no capitals. */
  lemma CleanIdempotent(input: string)
    ensures Clean(Clean(input)) == Clean(input)
  {
    var t := Trim(RemoveCommas(input));
    assert forall k :: 0 <= k < |t| ==> t[k] != ',';
    var c := Lower(t);
    LowerNoCommas(t);
    FilterAll(c, (ch: char) => ch != ',');
    assert RemoveCommas(c) == c;
    if c != [] {
      LowerKeepsWhitespace(t[0]);
      LowerKeepsWhitespace(t[|t| - 1]);
    }
    TrimTrimmed(c);
    LowerIdempotent(t);
  }

  /** The parser sees only the cleaned text, so commas, outer white space and letter case do not matter. */
  lemma ParseDependsOnCleanText(a: string, b: string, defaultValue: real, parseFloat: string -> Option<real>)
    requires Clean(a) == Clean(b)
    ensures ParseShorthand(a, defaultValue, parseFloat) == ParseShorthand(b, defaultValue, parseFloat)
    ensures ParseShorthand(Clean(a), defaultValue, parseFloat) == ParseShorthand(a, defaultValue, parseFloat)
  {
    CleanIdempotent(a);
  }

  /**
   * Commas anywhere and the case of letters do not matter: two inputs that
   * agree once commas are dropped and letters lower-cased parse alike
   * (so "2,5K" parses as "25k").
   */
  lemma CommasAndCaseIgnored(a: string, b: string, defaultValue: real, parseFloat: string -> Option<real>)
    requires Lower(RemoveCommas(a)) == Lower(RemoveCommas(b))
    ensures Clean(a) == Clean(b)
    ensures ParseShorthand(a, defaultValue, parseFloat) == ParseShorthand(b, defaultValue, parseFloat)
  {
    TrimLowerCommute(RemoveCommas(a));
    TrimLowerCommute(RemoveCommas(b));
  }

  /** `formatWithCommas`: zero shows as empty text unless the field has focus. */
  function FormatWithCommas(num: real, isFocused: bool, format: real -> string): (r: string)
    ensures num == 0.0 && !isFocused ==> r == ""
    ensures !(num == 0.0 && !isFocused) ==> r == format(num)
  {
    if num == 0.0 && !isFocused then "" else format(num)
  }

  /** The field's state; `format` and `toString` stand for `Intl.NumberFormat` and `Number.prototype.toString`. */
  class NumericField {
    var displayValue: string
    var isFocused: bool

    constructor ()
      ensures displayValue == "" && !isFocused
    {
      displayValue := "";
      isFocused := false;
    }

    /** The effect on a new prop value: reformat it while the field is not focused. */
    method SyncFromValue(value: real, format: real -> string)
      modifies this
      ensures !old(isFocused) ==> displayValue == FormatWithCommas(value, false, format)
      ensures old(isFocused) ==> displayValue == old(displayValue)
      ensures isFocused == old(isFocused)
    {
      if !isFocused {
        displayValue := FormatWithCommas(value, isFocused, format);
      }
    }

    /** `handleChange`: show the typed text and report its parsed value. */
    method HandleChange(input: string, defaultValue: real, parseFloat: string -> Option<real>) returns (emitted: real)
      modifies this
      ensures displayValue == input && isFocused == old(isFocused)
      ensures emitted == ParseShorthand(input, defaultValue, parseFloat)
    {
      displayValue := input;
      emitted := ParseShorthand(input, defaultValue, parseFloat);
    }

    /** `handleFocus`: show the raw number, or nothing for zero. */
    method HandleFocus(value: real, toString: real -> string)
      modifies this
      ensures isFocused
      ensures displayValue == if value == 0.0 then "" else toString(value)
    {
      isFocused := true;
      displayValue := if value == 0.0 then "" else toString(value);
    }

    /**
     * `handleBlur`: report the parsed text and show it formatted. The handler
     * formats with the focus flag of the render it belongs to, which is still
     * set, so a zero shows as `format(0)` until the effect reruns.
     */
    method HandleBlur(defaultValue: real, parseFloat: string -> Option<real>, format: real -> string)
      returns (emitted: real)
      modifies this
      ensures !isFocused
      ensures emitted == ParseShorthand(old(displayValue), defaultValue, parseFloat)
      ensures displayValue == FormatWithCommas(emitted, old(isFocused), format)
    {
      var renderedFocus := isFocused;
      isFocused := false;
      emitted := ParseShorthand(displayValue, defaultValue, parseFloat);
      displayValue := FormatWithCommas(emitted, renderedFocus, format);
    }
  }

  /**
   * A blur followed by the effect it triggers once the parent passes the
   * emitted value back: the field ends unfocused showing that value formatted,
   * so a zero shows as empty text.
   */
  method BlurThenSync(field: NumericField, defaultValue: real, parseFloat: string -> Option<real>,
                      format: real -> string)
    returns (emitted: real)
    modifies field
    ensures !field.isFocused
    ensures emitted == ParseShorthand(old(field.displayValue), defaultValue, parseFloat)
    ensures field.displayValue == FormatWithCommas(emitted, false, format)
    ensures emitted == 0.0 ==> field.displayValue == ""
  {
    emitted := field.HandleBlur(defaultValue, parseFloat, format);
    field.SyncFromValue(emitted, format);
  }
}
