/** The generic JSON value that the schema serializer produces (AIProxy's JSON value
    type, restricted to the cases a JSON Schema object can hold here). */
module Json {
  import opened Prelude

  datatype JSON =
    | JNull
    | JBool(b: bool)
    | JInt(i: int)
    | JString(str: string)
    | JArray(elems: seq<JSON>)
    | JObject(obj: map<string, JSON>)

  /** `strings.map { .string($0) }`: a JSON array of string values, in input order. */
  function StringArray(strings: seq<string>): (r: seq<JSON>)
    ensures |r| == |strings|
    ensures forall i | 0 <= i < |r| :: r[i] == JString(strings[i])
  {
    MapSeq((s: string) => JString(s), strings)
  }

  /** Reads back an array whose elements are all strings; `None` if any element is not one. */
  function StringsOf(elems: seq<JSON>): (r: Option<seq<string>>)
    ensures r.Some? <==> forall i | 0 <= i < |elems| :: elems[i].JString?
    ensures r.Some? ==> StringArray(r.value) == elems
  {
    if elems == [] then Some([])
    else if !elems[0].JString? then None
    else
      var rest := StringsOf(elems[1..]);
      if rest.None? then None
      else
        assert StringArray([elems[0].str] + rest.value) == elems;
        Some([elems[0].str] + rest.value)
  }

  /** Reading back what StringArray wrote gives the original strings. */
  lemma {:induction false} StringsOfStringArray(strings: seq<string>)
    ensures StringsOf(StringArray(strings)) == Some(strings)
  {
    if strings != [] {
      var a := StringArray(strings);
      StringsOfStringArray(strings[1..]);
      assert a[1..] == StringArray(strings[1..]);
      assert a[0] == JString(strings[0]);
      assert strings == [strings[0]] + strings[1..];
    }
  }
}
