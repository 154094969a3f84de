/**
 * How `get_nearby_places` reads a MapQuest radius-search response and what
 * it shows for each result: four fields, each replaced by a placeholder when
 * the field is missing or empty. The response itself is never altered.
 */
module Nearby {
  import opened Wrappers
  import opened JsonValue

  /** The four fields shown per result, in display order. */
  const Keywords: seq<string> := ["name", "group_sic_code_name_ext", "address", "city"]

  /** `show_nothing`: what is shown in place of a missing or empty field. */
  const Placeholders: seq<string> := ["no name", "no category", "no address", "no city"]

  /** `key not in fields.keys() or fields[key] == ""`. */
  predicate Missing(fields: map<string, Json>, key: string) {
    key !in fields || fields[key] == JStr("")
  }

  /** The value shown for the i-th keyword. */
  function ShownField(fields: map<string, Json>, i: nat): (shown: Json)
    requires i < 4
  {
    if Missing(fields, Keywords[i]) then JStr(Placeholders[i]) else fields[Keywords[i]]
  }

  /** The four values the line `- name (category): address, city` shows for one result. */
  function ShownRow(fields: map<string, Json>): (row: seq<Json>)
    ensures |row| == 4
  {
    [ShownField(fields, 0), ShownField(fields, 1), ShownField(fields, 2), ShownField(fields, 3)]
  }

  /**
   * A shown field is its placeholder exactly when the field is missing, empty,
   * or holds the placeholder text itself; otherwise it is the raw value.
   */
  lemma ShownFieldIsPlaceholder(fields: map<string, Json>, i: nat)
    requires i < 4
    ensures ShownField(fields, i) == JStr(Placeholders[i]) <==>
      Missing(fields, Keywords[i]) || fields[Keywords[i]] == JStr(Placeholders[i])
    ensures !Missing(fields, Keywords[i]) ==> ShownField(fields, i) == fields[Keywords[i]]
  {
  }

  /**
   * The loop over `keywords`: each slot first holds the key name and is then
   * overwritten with the shown value.
   */
  method SubstitutePlaceholders(fields: map<string, Json>) returns (shown: seq<Json>)
    ensures |shown| == 4
    ensures forall i :: 0 <= i < 4 ==>
      (Missing(fields, Keywords[i]) ==> shown[i] == JStr(Placeholders[i])) &&
      (!Missing(fields, Keywords[i]) ==> shown[i] == fields[Keywords[i]])
    ensures shown == ShownRow(fields)
  {
    var keywords := new Json[4];
    keywords[0], keywords[1], keywords[2], keywords[3] :=
      JStr(Keywords[0]), JStr(Keywords[1]), JStr(Keywords[2]), JStr(Keywords[3]);
    for i := 0 to 4
      invariant forall j :: 0 <= j < i ==> keywords[j] == ShownField(fields, j)
      invariant forall j :: i <= j < 4 ==> keywords[j] == JStr(Keywords[j])
    {
      var key := keywords[i].s;
      keywords[i] := if key !in fields || fields[key] == JStr("") then JStr(Placeholders[i]) else fields[key];
    }
    shown := keywords[..];
  }

  /** `response_json["searchResults"]`. */
  function SearchResults(response: Json): (results: Result<Json>)
    ensures results.Ok? <==> response.JObj? && "searchResults" in response.members
    ensures results.Ok? ==> results.value == response.members["searchResults"]
  {
    match response
    case JObj(members) => if "searchResults" in members then Ok(members["searchResults"]) else Err(KeyError)
    case _ => Err(TypeError)
  }

  /**
   * `for result in results`: a list yields its items, a string its
   * characters; an empty object yields nothing, a non-empty one yields its
   * keys, which fail at once on `result["fields"]`; other values are not
   * iterable.
   */
  function Iterate(results: Json): (items: Result<seq<Json>>)
    ensures results.JArr? ==> items == Ok(results.items)
    ensures results.JStr? ==> items.Ok? && |items.value| == |results.s|
    ensures results.JStr? ==> forall i :: 0 <= i < |results.s| ==> items.value[i] == JStr([results.s[i]])
    ensures results.JObj? ==> (items.Ok? <==> results.members == map[])
    ensures items.Ok? ==> results.JArr? || results.JStr? || results.JObj?
    ensures items.Ok? && results.JObj? ==> items.value == []
    ensures items.Err? ==> items.error == TypeError
  {
    match results
    case JArr(items) => Ok(items)
    case JStr(s) => Ok(seq(|s|, i requires 0 <= i < |s| => JStr([s[i]])))
    case JObj(members) => if members == map[] then Ok([]) else Err(TypeError)
    case _ => Err(TypeError)
  }

  /** `result["fields"]`, which must be an object for `.keys()` to succeed. */
  function FieldsOf(result: Json): (fields: Result<map<string, Json>>)
    ensures fields.Ok? <==> result.JObj? && "fields" in result.members && result.members["fields"].JObj?
    ensures fields.Ok? ==> fields.value == result.members["fields"].members
    ensures !result.JObj? ==> fields == Err(TypeError)
    ensures result.JObj? && "fields" !in result.members ==> fields == Err(KeyError)
    ensures result.JObj? && "fields" in result.members && !result.members["fields"].JObj? ==>
      fields == Err(AttributeError)
  {
    match result
    case JObj(members) =>
      if "fields" !in members then Err(KeyError)
      else if members["fields"].JObj? then Ok(members["fields"].members)
      else Err(AttributeError)
    case _ => Err(TypeError)
  }

  /** The rows shown for a list of results, or the exception raised at the first malformed one. */
  function RowsOf(results: seq<Json>): (rows: Result<seq<seq<Json>>>)
    ensures rows.Ok? <==> forall j :: 0 <= j < |results| ==> FieldsOf(results[j]).Ok?
    ensures rows.Ok? ==> |rows.value| == |results|
    ensures rows.Ok? ==> forall j :: 0 <= j < |results| ==> rows.value[j] == ShownRow(FieldsOf(results[j]).value)
  {
    if results == [] then Ok([])
    else
      var front := RowsOf(results[..|results| - 1]);
      var last := FieldsOf(results[|results| - 1]);
      if front.Err? then front
      else if last.Err? then Err(last.error)
      else Ok(front.value + [ShownRow(last.value)])
  }

  /** The loop over `results`, stopping at the first result that raises. */
  method RenderResults(results: seq<Json>) returns (rows: Result<seq<seq<Json>>>)
    ensures rows == RowsOf(results)
  {
    var shown: seq<seq<Json>> := [];
    for j := 0 to |results|
      invariant RowsOf(results[..j]) == Ok(shown)
    {
      assert results[..j + 1][..j] == results[..j];
      var fields := FieldsOf(results[j]);
      if fields.Err? {
        rows := Err(fields.error);
        RowsOfStopsAtError(results, j + 1);
        return;
      }
      var row := SubstitutePlaceholders(fields.value);
      shown := shown + [row];
    }
    assert results[..|results|] == results;
    rows := Ok(shown);
  }

  /** Once a prefix of the results raises, so does the whole list, with the same exception. */
  lemma {:induction false} RowsOfStopsAtError(results: seq<Json>, n: nat)
    requires n <= |results|
    requires RowsOf(results[..n]).Err?
    ensures RowsOf(results) == RowsOf(results[..n])
    decreases |results| - n
  {
    if n < |results| {
      var next := results[..n + 1];
      assert next[..n] == results[..n];
      RowsOfStopsAtError(results, n + 1);
    } else {
      assert results[..n] == results;
    }
  }

  /** What `get_nearby_places` returns (the response) with the rows it shows. */
  datatype NearbyAnswer = NearbyAnswer(response: Json, rows: seq<seq<Json>>)

  /** Every result is an object whose "fields" member is an object, so showing it cannot raise. */
  predicate Showable(item: Json) {
    item.JObj? && "fields" in item.members && item.members["fields"].JObj?
  }

  /**
   * Lines 228-258 after the response is known: `response["searchResults"]`,
   * the loop that shows every result, and the response returned untouched;
   * or the exception raised on the way.
   */
  function Answer(response: Json): (answer: Result<NearbyAnswer>)
    ensures answer.Ok? ==> answer.value.response == response
    ensures !response.JObj? ==> answer == Err(TypeError)
    ensures response.JObj? && "searchResults" !in response.members ==> answer == Err(KeyError)
    ensures response.JObj? && "searchResults" in response.members ==>
      var results := response.members["searchResults"];
      && (results.JNull? || results.JBool? || results.JNum? ==> answer == Err(TypeError))
      && (results.JObj? && results.members != map[] ==> answer == Err(TypeError))
      && (results.JStr? && results.s != "" ==> answer == Err(TypeError))
      && (results == JObj(map[]) || results == JStr("") ==> answer == Ok(NearbyAnswer(response, [])))
    ensures response.JObj? && "searchResults" in response.members && response.members["searchResults"].JArr? ==>
      var items := response.members["searchResults"].items;
      && (answer.Ok? <==> forall j :: 0 <= j < |items| ==> Showable(items[j]))
      && (answer.Ok? ==> |answer.value.rows| == |items|)
      && (answer.Ok? ==> forall j :: 0 <= j < |items| ==>
            answer.value.rows[j] == ShownRow(items[j].members["fields"].members))
  {
    var results := SearchResults(response);
    if results.Err? then Err(results.error)
    else
      var items := Iterate(results.value);
      if items.Err? then Err(items.error)
      else
        var rows := RowsOf(items.value);
        assert results.value.JStr? && results.value.s != "" ==> rows == Err(TypeError) by {
          if results.value.JStr? && results.value.s != "" {
            RowsOfStopsAtError(items.value, 1);
            assert items.value[..1][..0] == [];
          }
        }
        if rows.Ok? then Ok(NearbyAnswer(response, rows.value)) else Err(rows.error)
  }
}
