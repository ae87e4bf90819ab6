/** A decoded JSON document and the small part of gjson's query interface the
    parser uses: `Get` with a dotted path of object keys and array indexes,
    `Exists`, `String` and `ForEach`. Raw text is kept for numbers, arrays and
    objects because gjson's `String` returns it for them; a number also carries
    the shortest decimal form of its float64 value (`strconv.FormatFloat(num,
    'f', -1, 64)`), which the decoder supplies. */
module Json {
  import opened Wrappers
  import Text

  datatype Json =
    | JNull
    | JBool(b: bool)
    | JNum(raw: string, formatted: string)
    | JStr(s: string)
    | JArr(items: seq<Json>, raw: string)
    | JObj(fields: seq<Field>, raw: string)

  datatype Field = Field(key: string, value: Json)

  /** The value of the first field called `key`, as gjson picks it. */
  function FieldValue(fields: seq<Field>, key: string): (r: Option<Json>)
    ensures r.Some? <==> exists i :: 0 <= i < |fields| && fields[i].key == key
    decreases |fields|
  {
    if fields == [] then None
    else if fields[0].key == key then Some(fields[0].value)
    else
      var r := FieldValue(fields[1..], key);
      assert forall i :: 1 <= i < |fields| ==> fields[i] == fields[1..][i - 1];
      r
  }

  /** One path component: a key of an object or a decimal index of an array;
      anything else finds nothing. */
  function Step(j: Json, key: string): Option<Json> {
    match j
    case JObj(fields, _) => FieldValue(fields, key)
    case JArr(items, _) =>
      if |key| > 0 && Text.AllDigits(key) && Text.DigitsValue(key) < |items|
      then Some(items[Text.DigitsValue(key)]) else None
    case _ => None
  }

  function Walk(j: Json, keys: seq<string>): Option<Json>
    decreases |keys|
  {
    if keys == [] then Some(j)
    else match Step(j, keys[0])
      case None => None
      case Some(k) => Walk(k, keys[1..])
  }

  /** `gjson.Get(doc, path)`: None stands for a result that does not exist. */
  function Get(j: Json, path: string): Option<Json> {
    Walk(j, Text.Split(path, '.'))
  }

  /** `Get` with a path that is one key, the way the state walk queries. */
  function Key(j: Json, key: string): Option<Json>
    requires '.' !in key
  {
    Step(j, key)
  }

  /** `Result.Get` on a result that may not exist. */
  function GetIn(r: Option<Json>, path: string): Option<Json> {
    if r.Some? then Get(r.value, path) else None
  }

  /** A number written as an optional minus sign and decimal digits only: the
      numbers whose raw text gjson's `String` returns unchanged. */
  predicate IntegerLiteral(raw: string) {
    raw != [] && Text.AllDigits(if raw[0] == '-' then raw[1..] else raw)
  }

  /** `Result.String()`: "" for a missing result and for null; a number keeps
      its raw text only when it is an integer literal and is otherwise printed
      from its float64 value. */
  function String(r: Option<Json>): string {
    match r
    case None => ""
    case Some(JNull) => ""
    case Some(JBool(b)) => if b then "true" else "false"
    case Some(JNum(raw, formatted)) => if IntegerLiteral(raw) then raw else formatted
    case Some(JStr(s)) => s
    case Some(JArr(_, raw)) => raw
    case Some(JObj(_, raw)) => raw
  }

  /** An integer literal keeps its text, negative or not; a number with a
      fraction is printed from its value instead (so "1.50" reads "1.5"). */
  lemma NumberString(digits: string, formatted: string)
    requires digits != [] && Text.AllDigits(digits)
    ensures String(Some(JNum(digits, formatted))) == digits
    ensures String(Some(JNum("-" + digits, formatted))) == "-" + digits
    ensures String(Some(JNum(digits + "." + digits, formatted))) == formatted
  {
    assert ("-" + digits)[1..] == digits;
    var fraction := digits + "." + digits;
    assert fraction[|digits|] == '.';
  }

  function FieldValues(fields: seq<Field>): (vs: seq<Json>)
    ensures |vs| == |fields|
    ensures forall i :: 0 <= i < |fields| ==> vs[i] == fields[i].value
  {
    if fields == [] then [] else [fields[0].value] + FieldValues(fields[1..])
  }

  /** What `Result.ForEach` visits, in order: the items of an array, the
      values of an object, a scalar itself, and nothing for a missing result. */
  function ForEach(r: Option<Json>): seq<Json> {
    match r
    case None => []
    case Some(JArr(items, _)) => items
    case Some(JObj(fields, _)) => FieldValues(fields)
    case Some(v) => [v]
  }

  /** A one-key path looks the key up directly. */
  lemma GetOneKey(j: Json, key: string)
    requires '.' !in key
    ensures Get(j, key) == Key(j, key)
  {
    Text.SplitNoSep(key, '.');
    assert [key][1..] == [];
    match Step(j, key)
    case None =>
    case Some(k) => assert Walk(k, []) == Some(k);
  }
}
