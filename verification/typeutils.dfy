/** `TypeUtils.ToBool`: reading a loosely typed configuration value as a boolean. */
module TypeUtils {
  import opened Options
  import Text

  /** The values `ToBool` distinguishes: booleans, strings, and anything else. */
  datatype JsValue = JsBool(b: bool) | JsString(s: string) | JsOther

  /** `s` spells `word` when letter case is ignored. */
  predicate EqualsIgnoringCase(s: string, word: string) {
    |s| == |word| && forall i :: 0 <= i < |s| ==> Text.LowerChar(s[i]) == Text.LowerChar(word[i])
  }

  /** Lower-casing `s` yields the lower-case `word` exactly when `s` spells `word` in any case. */
  lemma LowerEqualsIffIgnoringCase(s: string, word: string)
    requires Text.Lower(word) == word
    ensures Text.Lower(s) == word <==> EqualsIgnoringCase(s, word)
  {
    if EqualsIgnoringCase(s, word) {
      assert forall i :: 0 <= i < |s| ==> Text.Lower(s)[i] == Text.LowerChar(word[i]) == Text.Lower(word)[i];
    }
  }

  /**
   `ToBool`: a boolean is returned as it is; the strings "true" and "false" in
   any letter case give true and false; every other value gives nothing (null).
   */
  function ToBool(v: JsValue): (r: Option<bool>)
    ensures v.JsBool? ==> r == Some(v.b)
    ensures v.JsString? ==> (r == Some(true) <==> EqualsIgnoringCase(v.s, "true"))
    ensures v.JsString? ==> (r == Some(false) <==> EqualsIgnoringCase(v.s, "false"))
    ensures v.JsOther? ==> r.None?
  {
    match v
    case JsBool(b) => Some(b)
    case JsString(s) =>
      LowerEqualsIffIgnoringCase(s, "true");
      LowerEqualsIffIgnoringCase(s, "false");
      if Text.Lower(s) == "true" then Some(true)
      else if Text.Lower(s) == "false" then Some(false)
      else None
    case JsOther => None
  }

  /** How a boolean prints as a string. */
  function BoolText(b: bool): string {
    if b then "true" else "false"
  }

  /** Reading back a printed boolean, in lower or upper case, gives the boolean. */
  lemma ToBoolReadsPrintedBool(b: bool)
    ensures ToBool(JsString(BoolText(b))) == Some(b)
    ensures ToBool(JsString(Text.Upper(BoolText(b)))) == Some(b)
  {
    var up := Text.Upper(BoolText(b));
    assert EqualsIgnoringCase(up, BoolText(b));
    assert EqualsIgnoringCase(BoolText(b), BoolText(b));
    if b {
      assert !EqualsIgnoringCase(up, "false");
    } else {
      assert !EqualsIgnoringCase(up, "true");
    }
  }

  /** Only the two boolean spellings of a string are read as booleans. */
  lemma ToBoolStringIsBoolText(s: string)
    requires ToBool(JsString(s)).Some?
    ensures EqualsIgnoringCase(s, BoolText(ToBool(JsString(s)).value))
  {
  }
}
