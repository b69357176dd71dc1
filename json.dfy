/**
 * JSON values as the serializer sees them once text has been parsed: an object
 * is its ordered list of members.  Numbers are integers because every numeric
 * property of the service is integral.
 */
module Json {
  import opened Wrappers

  datatype Json =
    | JNull
    | JBool(b: bool)
    | JNum(n: int)
    | JStr(s: string)
    | JArr(items: seq<Json>)
    | JObj(members: seq<(string, Json)>)

  /**
   * The value of the last member named `key`, or None when there is none: the
   * streaming decoder assigns every occurrence in turn, so a later member of
   * the same name overrides an earlier one.
   */
  function Lookup(members: seq<(string, Json)>, key: string): (r: Option<Json>)
    ensures r.Some? <==> exists i :: 0 <= i < |members| && members[i].0 == key
    ensures r.Some? ==> exists i :: 0 <= i < |members| && members[i] == (key, r.value)
  {
    if |members| == 0 then None
    else
      var r := Lookup(members[1..], key);
      assert forall i :: 0 < i < |members| ==> members[i] == members[1..][i - 1];
      if r.Some? then r
      else if members[0].0 == key then Some(members[0].1)
      else None
  }

  /** `j` is an object with the member `key: v`, as `put(key, v)` writes it. */
  predicate Puts(j: Json, key: string, v: Json) {
    j.JObj? && (key, v) in j.members
  }

  /** The member at `i` is the one found when no later member has its name. */
  lemma {:induction false} LookupAt(members: seq<(string, Json)>, i: nat)
    requires i < |members|
    requires forall j :: i < j < |members| ==> members[j].0 != members[i].0
    ensures Lookup(members, members[i].0) == Some(members[i].1)
    decreases i
  {
    assert forall j :: 0 < j < |members| ==> members[j] == members[1..][j - 1];
    if i > 0 {
      LookupAt(members[1..], i - 1);
    } else {
      assert Lookup(members[1..], members[0].0) == None;
    }
  }

  /** A member appended to an object is what its name now leads to. */
  lemma {:induction false} LookupAppend(members: seq<(string, Json)>, k: string, v: Json, key: string)
    ensures Lookup(members + [(k, v)], key) == if key == k then Some(v) else Lookup(members, key)
  {
    if |members| > 0 {
      assert (members + [(k, v)])[1..] == members[1..] + [(k, v)];
      LookupAppend(members[1..], k, v, key);
    }
  }
}
