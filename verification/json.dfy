/** The free-form payloads the backend stores and sends (event `data` and `metadata`,
    tool results, WebSocket frames' bodies): JSON-like values whose objects keep their
    keys in insertion order, as Python dicts do, and their Python `repr`/`str`. */
module JsonValues {
  import opened Common

  /** A number is `digits / 10^scale`: 28 is JNum(28, 0), 0.95 is JNum(95, 2). */
  datatype Json =
    | JNull
    | JBool(b: bool)
    | JNum(digits: int, scale: nat)
    | JStr(s: string)
    | JList(items: seq<Json>)
    | JObj(fields: seq<Field>)

  datatype Field = Field(key: string, value: Json)

  const EmptyObject: Json := JObj([])

  /** The value stored under `key` in a field list (the first one, keys being unique). */
  function Lookup(fields: seq<Field>, key: string): Option<Json> {
    if |fields| == 0 then None
    else if fields[0].key == key then Some(fields[0].value)
    else Lookup(fields[1..], key)
  }

  /** A lookup finds a value exactly when some field has the key, and what it finds is
      stored under that key. */
  lemma {:induction false} LookupFinds(fields: seq<Field>, key: string)
    ensures Lookup(fields, key).Some? <==> exists i :: 0 <= i < |fields| && fields[i].key == key
    ensures Lookup(fields, key).Some? ==>
              exists i :: 0 <= i < |fields| && fields[i] == Field(key, Lookup(fields, key).value)
  {
    if |fields| > 0 && fields[0].key != key {
      LookupFinds(fields[1..], key);
      assert forall i :: 0 <= i < |fields[1..]| ==> fields[1..][i] == fields[i + 1];
      if exists i :: 0 <= i < |fields| && fields[i].key == key {
        var i :| 0 <= i < |fields| && fields[i].key == key;
        assert fields[1..][i - 1].key == key;
      }
    }
  }

  /** A key stored at no index is not found. */
  lemma {:induction false} LookupMissing(fields: seq<Field>, key: string)
    requires forall i :: 0 <= i < |fields| ==> fields[i].key != key
    ensures Lookup(fields, key) == None
  {
    if |fields| > 0 {
      LookupMissing(fields[1..], key);
    }
  }

  /** A key stored at index `i` and at no earlier index is found with its value there. */
  lemma {:induction false} LookupAt(fields: seq<Field>, i: nat)
    requires i < |fields|
    requires forall j :: 0 <= j < i ==> fields[j].key != fields[i].key
    ensures Lookup(fields, fields[i].key) == Some(fields[i].value)
  {
    if i > 0 {
      LookupAt(fields[1..], i - 1);
    }
  }

  /** `obj.get(key)`: None when the key is absent or the value is not an object. */
  function Get(obj: Json, key: string): Option<Json> {
    if obj.JObj? then Lookup(obj.fields, key) else None
  }

  /** `obj.get(key, default)`. */
  function GetOr(obj: Json, key: string, default: Json): Json {
    Get(obj, key).GetOr(default)
  }

  /** `str(v)`: a string is itself, anything else is its repr. */
  function Str(v: Json): string {
    if v.JStr? then v.s else Repr(v)
  }

  /** `str(obj.get(key, default))` for a text field such as "content". */
  function TextOr(obj: Json, key: string, default: string): string {
    match Get(obj, key)
    case None => default
    case Some(v) => Str(v)
  }

  /** A positive number: the unit a scaled decimal is divided by. */
  type Positive = n: nat | n >= 1 witness 1

  function Pow10(n: nat): Positive {
    if n == 0 then 1 else 10 * Pow10(n - 1)
  }

  /** The fractional digits of a decimal, left-padded with zeros to `width`. */
  function PadDigits(n: nat, width: nat): string {
    var d := NatToString(n);
    if |d| >= width then d else seq(width - |d|, _ => '0') + d
  }

  function NumRepr(digits: int, scale: nat): string {
    if digits < 0 then "-" + DecimalRepr(-digits, scale) else DecimalRepr(digits, scale)
  }

  function DecimalRepr(magnitude: nat, scale: nat): string {
    if scale == 0 then NatToString(magnitude) else PointRepr(magnitude, Pow10(scale), scale)
  }

  /** `magnitude / unit` written with `width` digits after the decimal point. */
  function PointRepr(magnitude: nat, unit: Positive, width: nat): string {
    NatToString(magnitude / unit) + "." + PadDigits(magnitude % unit, width)
  }

  /** Python's name of the type of a decoded JSON value. */
  function TypeName(v: Json): string {
    match v
    case JNull => "NoneType"
    case JBool(_) => "bool"
    case JNum(_, scale) => if scale == 0 then "int" else "float"
    case JStr(_) => "str"
    case JList(_) => "list"
    case JObj(_) => "dict"
  }

  /** Python's `repr` of the value (strings single-quoted, dicts in insertion order). */
  function Repr(v: Json): string
    decreases v, 1
  {
    match v
    case JNull => "None"
    case JBool(b) => if b then "True" else "False"
    case JNum(d, sc) => NumRepr(d, sc)
    case JStr(s) => "'" + s + "'"
    case JList(items) => "[" + Join(ReprItems(items), ", ") + "]"
    case JObj(fields) => "{" + Join(ReprFields(fields), ", ") + "}"
  }

  function ReprItems(items: seq<Json>): seq<string>
    decreases items, 0
  {
    if |items| == 0 then [] else [Repr(items[0])] + ReprItems(items[1..])
  }

  function ReprFields(fields: seq<Field>): seq<string>
    decreases fields, 0
  {
    if |fields| == 0 then []
    else ["'" + fields[0].key + "': " + Repr(fields[0].value)] + ReprFields(fields[1..])
  }
}
