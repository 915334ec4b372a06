/** The JavaScript values this layer builds and inspects (numbers kept as integers). */
module Values {
  import opened Wrappers

  datatype Value =
    | Undefined
    | Null
    | Bool(b: bool)
    | Num(n: int)
    | Str(s: string)
    | Arr(items: seq<Value>)
    | Obj(fields: map<string, Value>)

  /** The mapping `flatten().fieldErrors` of the schema library: field name to its ordered messages. */
  type FieldErrors = map<string, seq<string>>

  /** An array of strings as a value. */
  function Strings(ss: seq<string>): (v: Value)
    ensures v.Arr? && |v.items| == |ss|
    ensures forall i :: 0 <= i < |ss| ==> v.items[i] == Str(ss[i])
  {
    Arr(seq(|ss|, i requires 0 <= i < |ss| => Str(ss[i])))
  }

  /** Reads back an array whose every element is a string. */
  function AsStrings(items: seq<Value>): (r: Option<seq<string>>)
    ensures r.Some? ==> |r.value| == |items|
    ensures r.Some? ==> forall i :: 0 <= i < |items| ==> items[i] == Str(r.value[i])
    ensures r.None? ==> exists i :: 0 <= i < |items| && !items[i].Str?
  {
    if items == [] then Some([])
    else if !items[0].Str? then None
    else
      match AsStrings(items[1..])
      case None => None
      case Some(rest) => Some([items[0].s] + rest)
  }

  lemma {:induction false} AsStringsOfStrings(ss: seq<string>)
    ensures AsStrings(Strings(ss).items) == Some(ss)
  {
    var items := Strings(ss).items;
    if ss == [] {
      assert items == [];
    } else {
      AsStringsOfStrings(ss[1..]);
      assert items[1..] == Strings(ss[1..]).items;
      assert items[0] == Str(ss[0]);
      assert [ss[0]] + ss[1..] == ss;
    }
  }

  /** The field-error mapping as the JSON object sent to the client. */
  function FieldErrorsValue(fe: FieldErrors): (v: Value)
    ensures v.Obj? && v.fields.Keys == fe.Keys
  {
    Obj(map k | k in fe :: Strings(fe[k]))
  }

  /** Reads a field-error mapping back from a JSON object of string arrays. */
  function ReadFieldErrors(v: Value): Option<FieldErrors> {
    if v.Obj? && forall k :: k in v.fields ==> v.fields[k].Arr? && AsStrings(v.fields[k].items).Some?
    then Some(map k | k in v.fields :: AsStrings(v.fields[k].items).value)
    else None
  }

  /** The wire encoding of field errors loses nothing: every field and its messages, in order. */
  lemma FieldErrorsRoundTrip(fe: FieldErrors)
    ensures ReadFieldErrors(FieldErrorsValue(fe)) == Some(fe)
  {
    var v := FieldErrorsValue(fe);
    forall k | k in fe
      ensures v.fields[k].Arr? && AsStrings(v.fields[k].items) == Some(fe[k])
    {
      AsStringsOfStrings(fe[k]);
    }
    var m := map k | k in v.fields :: AsStrings(v.fields[k].items).value;
    assert m == fe;
  }
}
