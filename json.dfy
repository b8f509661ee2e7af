/**
 * The JavaScript values that arrive in request bodies and replies, with the
 * three operations the handlers apply to them: truthiness (`!x`, `x || y`),
 * `typeof`, and string conversion in a template literal (`${x}`).
 */
module Json {
  import opened Optional
  import opened Text

  datatype Json =
    | Undefined
    | Null
    | Bool(b: bool)
    | Num(n: int)
    | Str(s: string)
    | Arr(items: seq<Json>)
    | Obj(fields: map<string, Json>)

  /** JavaScript truthiness: `undefined`, `null`, `false`, `0` and `""` are falsy. */
  predicate Truthy(j: Json)
  {
    match j
    case Undefined => false
    case Null => false
    case Bool(b) => b
    case Num(n) => n != 0
    case Str(s) => s != []
    case Arr(_) => true
    case Obj(_) => true
  }

  /** `typeof j`. */
  function TypeOf(j: Json): (r: string)
    ensures r == "string" <==> j.Str?
    ensures r == "number" <==> j.Num?
    ensures r == "boolean" <==> j.Bool?
  {
    match j
    case Undefined => "undefined"
    case Bool(_) => "boolean"
    case Num(_) => "number"
    case Str(_) => "string"
    case _ => "object"
  }

  /** `${j}`: the string a template literal inserts for `j`. */
  function TemplateString(j: Json): string
    decreases j, 1
  {
    match j
    case Undefined => "undefined"
    case Null => "null"
    case Bool(b) => if b then "true" else "false"
    case Num(n) => IntToString(n)
    case Str(s) => s
    case Arr(items) => ElementsString(j, items)
    case Obj(_) => "[object Object]"
  }

  /** `Array.prototype.toString`: elements joined by commas, `null` and `undefined` as empty. */
  function ElementsString(whole: Json, items: seq<Json>): string
    requires forall k :: 0 <= k < |items| ==> items[k] < whole
    decreases whole, 0, |items|
  {
    if items == [] then ""
    else
      var first := if items[0].Undefined? || items[0].Null? then "" else TemplateString(items[0]);
      if |items| == 1 then first else first + "," + ElementsString(whole, items[1..])
  }

  /**
   * `Number(s)` for the decimal integer strings: white space around an
   * optionally signed run of digits; an empty or blank string is 0.
   * `None` stands for every other string, which this model reads as `NaN`.
   */
  function StringToNumber(s: string): (r: Option<int>)
  {
    var t := Trim(s);
    if t == [] then Some(0)
    else if AllDigits(t) then Some(DigitsValue(t))
    else if (t[0] == '-' || t[0] == '+') && |t| > 1 && AllDigits(t[1..]) then
      var v: int := DigitsValue(t[1..]);
      Some(if t[0] == '-' then -v else v)
    else None
  }

  /**
   * `Number(j)` as arithmetic on `j` applies it; `None` is `NaN`. An array
   * converts through its string, so `[]` is 0 and `[3]` is 3.
   */
  function ToNumber(j: Json): (r: Option<int>)
    ensures j.Num? ==> r == Some(j.n)
    ensures j.Null? || j.Bool? ==> r.Some? && (r.value == 1 <==> j == Bool(true)) && (r.value == 0 <==> j != Bool(true))
    ensures j.Arr? ==> r == StringToNumber(TemplateString(j))
    ensures j.Undefined? || j.Obj? ==> r.None?
  {
    match j
    case Num(n) => Some(n)
    case Null => Some(0)
    case Bool(b) => Some(if b then 1 else 0)
    case Str(s) => StringToNumber(s)
    case Arr(_) => StringToNumber(TemplateString(j))
    case _ => None
  }

  /** `Number([])` is 0, and a one-element array of a number or a string is that element's number. */
  lemma {:induction false} ArrayNumber(x: Json)
    ensures ToNumber(Arr([])) == Some(0)
    ensures x.Num? || x.Str? ==> ToNumber(Arr([x])) == ToNumber(x)
  {
    assert TemplateString(Arr([])) == [];
    assert Trim([]) == [];
    if x.Num? || x.Str? {
      assert [x][0] == x;
      assert TemplateString(Arr([x])) == TemplateString(x);
      if x.Num? {
        NumberOfNumeral(x.n);
      }
    }
  }

  /** A number written out as a string converts back to that number. */
  lemma NumberOfNumeral(n: int)
    ensures ToNumber(Str(IntToString(n))) == Some(n)
  {
    var d := NatToString(if n < 0 then -n else n);
    DigitsOfNatToString(if n < 0 then -n else n);
    TrimOfTrimmed(IntToString(n));
    if n < 0 {
      assert IntToString(n)[1..] == d;
      assert !AllDigits(IntToString(n));
    }
  }
}
