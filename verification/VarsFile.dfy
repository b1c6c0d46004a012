/** Writing one Terraform variable into the tfvars file: the fallbacks between Go values,
    JSON text, HCL text and plain strings. */
module VarsFile {
  import opened Snapshots

  /** An input value as Go holds it. */
  datatype Value = Nil | Text(text: string) | Data(id: int)

  /** A value as it stands in the tfvars file. */
  datatype Cty = NullString | StringVal(text: string) | Typed(id: int)

  datatype Severity = Warning | Error

  /** How parsing an expression ends; a value may come with diagnostics. */
  datatype Parsed = Parsed(value: Cty, diags: seq<Severity>)

  /** The encoding libraries. */
  datatype Lib = Lib(
    marshal: Value -> Option<string>,
    sprintf: Value -> string,
    implied: Value -> bool,
    toCty: Value -> Option<Cty>,
    validJson: string -> bool,
    unmarshal: string -> Option<Cty>,
    hcl: string -> Parsed,
    ctyMarshal: Cty -> Option<string>)

  /** All that is asked of the libraries: a string converts to itself. */
  ghost predicate StringsConvert(lib: Lib) {
    forall s: string :: lib.implied(Text(s)) && lib.toCty(Text(s)) == Some(StringVal(s))
  }

  predicate HasErrors(diags: seq<Severity>) {
    Error in diags
  }

  function ParseJsonOrHcl(lib: Lib, raw: string): Parsed {
    if lib.validJson(raw) then
      match lib.unmarshal(raw)
      case None => Parsed(NullString, [Error])
      case Some(v) => Parsed(v, [])
    else lib.hcl(raw)
  }

  // ----- what ends up in the file -----

  /** The value of a raw expression: what it parses to, the JSON text of that, or the
      expression itself as a string. */
  function StoredRaw(lib: Lib, raw: string, encode: bool): Cty {
    var parsed := ParseJsonOrHcl(lib, raw);
    if HasErrors(parsed.diags) then StringVal(raw)
    else if !encode then parsed.value
    else match lib.ctyMarshal(parsed.value)
      case None => StringVal(raw)
      case Some(json) => StringVal(json)
  }

  /** The value of a variable; None if it cannot be written at all. */
  function Stored(lib: Lib, value: Value, encode: bool): Option<Cty> {
    if encode then
      Some(StringVal(if lib.marshal(value).Some? then lib.marshal(value).value else lib.sprintf(value)))
    else if value.Nil? then Some(NullString)
    else if lib.implied(value) then lib.toCty(value)
    else match lib.marshal(value)
      case None => None
      case Some(json) => Some(StoredRaw(lib, json, false))
  }

  /** The two ways of adding a variable call each other; each call stands lower. */
  function Rank(value: Value, encode: bool): nat {
    if encode then 3 else if value.Text? then 0 else 2
  }

  const RAW_RANK := 1

  class VarsFile {
    const lib: Lib
    var attributes: map<string, Cty>
    ghost var sets: seq<(string, Cty)>  // every attribute ever set, in order

    constructor (lib: Lib)
      ensures this.lib == lib && attributes == map[] && sets == []
    {
      this.lib, attributes, sets := lib, map[], [];
    }

    method SetAttributeValue(name: string, value: Cty)
      modifies this
      ensures attributes == old(attributes)[name := value]
      ensures sets == old(sets) + [(name, value)]
    {
      attributes, sets := attributes[name := value], sets + [(name, value)];
    }

    method AddVariable(name: string, value: Value, encodeAsJsonString: bool) returns (diags: seq<Severity>)
      requires StringsConvert(lib)
      modifies this
      ensures var stored := Stored(lib, value, encodeAsJsonString);
        && sets == old(sets) + (if stored.None? then [] else [(name, stored.value)])
        && attributes == (if stored.None? then old(attributes) else old(attributes)[name := stored.value])
        && (HasErrors(diags) <==> stored.None?)
      decreases Rank(value, encodeAsJsonString)
    {
      if encodeAsJsonString {
        var valueJson := lib.marshal(value);
        if valueJson.Some? {
          diags := AddVariable(name, Text(valueJson.value), false);
        } else {
          diags := AddVariable(name, Text(lib.sprintf(value)), false);
          diags := [Warning] + diags;
        }
        return;
      }
      if value.Nil? {
        SetAttributeValue(name, NullString);
        return [];
      }
      if !lib.implied(value) {
        var valueJson := lib.marshal(value);
        if valueJson.Some? {
          diags := AddRawVariable(name, valueJson.value, false);
        } else {
          diags := [Error];
        }
        return;
      }
      var ctyValue := lib.toCty(value);
      if ctyValue.None? {
        return [Error];
      }
      SetAttributeValue(name, ctyValue.value);
      diags := [];
    }

    method AddRawVariable(name: string, rawExpression: string, encodeAsJsonString: bool) returns (diags: seq<Severity>)
      requires StringsConvert(lib)
      modifies this
      ensures var stored := StoredRaw(lib, rawExpression, encodeAsJsonString);
        && sets == old(sets) + [(name, stored)]
        && attributes == old(attributes)[name := stored]
        && !HasErrors(diags)
      ensures lib.validJson(rawExpression) && lib.unmarshal(rawExpression).Some? && !encodeAsJsonString ==>
        attributes[name] == lib.unmarshal(rawExpression).value
      ensures !lib.validJson(rawExpression) && Error !in lib.hcl(rawExpression).diags && !encodeAsJsonString ==>
        attributes[name] == lib.hcl(rawExpression).value
      ensures (if lib.validJson(rawExpression) then lib.unmarshal(rawExpression).None? else Error in lib.hcl(rawExpression).diags) ==>
        attributes[name] == StringVal(rawExpression)
      decreases RAW_RANK
    {
      var parsed := ParseJsonOrHcl(lib, rawExpression);
      if HasErrors(parsed.diags) {
        diags := AddVariable(name, Text(rawExpression), false);
        diags := Downgraded(parsed.diags) + [Warning] + diags;
      } else if encodeAsJsonString {
        var vJson := lib.ctyMarshal(parsed.value);
        if vJson.Some? {
          diags := AddVariable(name, Text(vJson.value), false);
          diags := parsed.diags + diags;
        } else {
          diags := AddVariable(name, Text(rawExpression), false);
          diags := parsed.diags + [Warning, Warning] + diags;
        }
      } else {
        SetAttributeValue(name, parsed.value);
        diags := [];
      }
    }
  }

  /** Errors on the way to a fallback are only warnings. */
  function Downgraded(diags: seq<Severity>): (r: seq<Severity>)
    ensures !HasErrors(r) && |r| == |diags|
  {
    seq(|diags|, _ => Warning)
  }

  // ----- what can be relied on -----

  /** The value of a raw expression in terms of what the libraries answer: a text that is valid
      JSON is what it unmarshals to, any other what it is as HCL; if a string is asked for, the
      JSON text of that value; and the text itself only if the reading that applies fails, or the
      value has no JSON text. */
  lemma ARawExpressionIs(lib: Lib, raw: string)
    ensures lib.validJson(raw) && lib.unmarshal(raw).Some? ==> ReadAs(lib, raw, lib.unmarshal(raw).value)
    ensures !lib.validJson(raw) && Error !in lib.hcl(raw).diags ==> ReadAs(lib, raw, lib.hcl(raw).value)
    ensures (if lib.validJson(raw) then lib.unmarshal(raw).None? else Error in lib.hcl(raw).diags) ==>
      StoredRaw(lib, raw, false) == StringVal(raw) && StoredRaw(lib, raw, true) == StringVal(raw)
  {
  }

  /** Stored as the value itself, or as its JSON text if a string is asked for. */
  ghost predicate ReadAs(lib: Lib, raw: string, value: Cty) {
    && StoredRaw(lib, raw, false) == value
    && StoredRaw(lib, raw, true) == StringVal(if lib.ctyMarshal(value).Some? then lib.ctyMarshal(value).value else raw)
  }

  /** The value of a variable in terms of what the libraries answer. */
  lemma AVariableIs(lib: Lib, value: Value)
    requires StringsConvert(lib)
    ensures Stored(lib, value, true) == Some(StringVal(if lib.marshal(value).Some? then lib.marshal(value).value else lib.sprintf(value)))
    ensures Stored(lib, Nil, false) == Some(NullString)
    ensures forall text :: Stored(lib, Text(text), false) == Some(StringVal(text))
    ensures value.Data? && lib.implied(value) ==> Stored(lib, value, false) == lib.toCty(value)
    ensures value.Data? && !lib.implied(value) && lib.marshal(value).Some? ==>
      Stored(lib, value, false) == Some(StoredRaw(lib, lib.marshal(value).value, false))
  {
  }

  /** A list given as text becomes the list, and where the configuration wants a string, its JSON text. */
  lemma AListIsReadAsAList(lib: Lib)
    requires lib.validJson("[\"a\",\"b\"]") && lib.unmarshal("[\"a\",\"b\"]") == Some(Typed(7))
    requires lib.ctyMarshal(Typed(7)) == Some("[\"a\",\"b\"]")
    ensures StoredRaw(lib, "[\"a\",\"b\"]", false) == Typed(7)
    ensures StoredRaw(lib, "[\"a\",\"b\"]", true) == StringVal("[\"a\",\"b\"]")
  {
  }

  /** Valid JSON is never read as HCL, so no template sequence inside it is expanded. */
  lemma JsonIsNeverReadAsHcl(lib: Lib, other: string -> Parsed, raw: string, encode: bool)
    requires lib.validJson(raw)
    ensures StoredRaw(lib.(hcl := other), raw, encode) == StoredRaw(lib, raw, encode)
  {
  }

  /** Asking for a JSON string always yields a string: such a variable never has another type. */
  lemma EncodedVariablesAreStrings(lib: Lib, value: Value, raw: string)
    ensures Stored(lib, value, true).Some? && Stored(lib, value, true).value.StringVal?
    ensures StoredRaw(lib, raw, true).StringVal?
  {
  }

  /** A variable is lost exactly when its Go value has no Terraform type it converts to, and, if
      it has none at all, no JSON form either. */
  lemma LostIff(lib: Lib, value: Value)
    requires StringsConvert(lib)
    ensures Stored(lib, value, false).None? <==>
      !value.Nil? && !value.Text? && (if lib.implied(value) then lib.toCty(value).None? else lib.marshal(value).None?)
  {
  }
}
