/** Reading fields out of a payload the way the API methods do: subscripting
    (`resp_json["id"]`) and list comprehensions over a subscripted list
    (`[Backup.from_dict(b) for b in resp_json["backups"]]`). The `from_dict`
    constructors belong to the models and are passed in uninterpreted. */
module Projection {
  import opened Results
  import opened Json
  import opened Envelope

  /** `payload[key]`, failing with `KeyError` when the key is absent. */
  function Field(payload: Payload, key: string): (r: Result<Json, ApiError>)
    ensures r.Success? <==> key in payload
    ensures r.Success? ==> r.value == payload[key]
    ensures r.Failure? ==> r.error == MissingKey(key)
  {
    if key in payload then Success(payload[key]) else Failure(MissingKey(key))
  }

  /** `[fromDict(x) for x in xs]`: one result per element, in order. */
  function MapEach<T>(xs: seq<Json>, fromDict: Json -> T): (ys: seq<T>)
    ensures |ys| == |xs|
    ensures forall i :: 0 <= i < |xs| ==> ys[i] == fromDict(xs[i])
  {
    if xs == [] then [] else [fromDict(xs[0])] + MapEach(xs[1..], fromDict)
  }

  /** `[fromDict(x) for x in payload[key]]`: fails when the key is absent or
      does not hold a list, and otherwise converts every element in order. */
  function Items<T>(payload: Payload, key: string, fromDict: Json -> T): (r: Result<seq<T>, ApiError>)
    ensures key !in payload ==> r == Failure(MissingKey(key))
    ensures key in payload && !payload[key].JList? ==> r == Failure(NotAList(key))
    ensures r.Success? <==> key in payload && payload[key].JList?
    ensures r.Success? ==>
              && |r.value| == |payload[key].items|
              && forall i :: 0 <= i < |r.value| ==> r.value[i] == fromDict(payload[key].items[i])
  {
    var list :- Field(payload, key);
    if list.JList? then Success(MapEach(list.items, fromDict)) else Failure(NotAList(key))
  }
}
