/** The parsed document tree (Gson's JsonElement). */
module JsonTree {
  import opened Wrappers

  datatype Json =
    | JsonNull
    | JsonBool(b: bool)
    | JsonNumber(literal: string)
    | JsonString(text: string)
    | JsonArray(elements: seq<Json>)
    | JsonObject(members: seq<Member>)

  /** One property of an object, in document order. */
  datatype Member = Member(key: string, value: Json)

  /** The value of the member named `key`. When a parsed object repeats a key,
      Gson's JsonObject keeps the last value given for it, so the last such
      member is the one found. */
  function Lookup(members: seq<Member>, key: string): (r: Option<Json>)
    ensures r.Some? <==> exists i :: 0 <= i < |members| && members[i].key == key
    ensures r.Some? ==> exists i :: 0 <= i < |members| && members[i] == Member(key, r.value)
                                    && forall j :: i < j < |members| ==> members[j].key != key
    decreases |members|
  {
    if members == [] then None
    else
      var init := members[..|members| - 1];
      var last := members[|members| - 1];
      if last.key == key then Some(last.value)
      else
        var r := Lookup(init, key);
        assert forall i :: 0 <= i < |init| ==> init[i] == members[i];
        r
  }
}
