/** The query-string lookup a connection does: `parse_qs(query).get(name, [default])[0]`. */
module Query {

  /** One `name=value` piece of a query string, after splitting and percent-decoding. */
  datatype QueryPair = QueryPair(name: string, value: string)

  /** `parse_qs` keeps a piece under its name only when its value is not blank. */
  predicate Supplies(p: QueryPair, name: string)
  {
    p.name == name && p.value != ""
  }

  /** The first value supplied for `name`, or `default` when none is. */
  function Get(pairs: seq<QueryPair>, name: string, default: string): string
  {
    if |pairs| == 0 then default
    else if Supplies(pairs[0], name) then pairs[0].value
    else Get(pairs[1..], name, default)
  }

  /** When `name` is never supplied (absent, or only with blank values) the default is used. */
  lemma {:induction false} GetAbsent(pairs: seq<QueryPair>, name: string, default: string)
    requires forall i :: 0 <= i < |pairs| ==> !Supplies(pairs[i], name)
    ensures Get(pairs, name, default) == default
  {
    if |pairs| > 0 {
      GetAbsent(pairs[1..], name, default);
    }
  }

  /** When `name` is supplied, the first supplied value wins over later ones. */
  lemma {:induction false} GetFirst(pairs: seq<QueryPair>, name: string, default: string, i: nat)
    requires i < |pairs| && Supplies(pairs[i], name)
    requires forall j :: 0 <= j < i ==> !Supplies(pairs[j], name)
    ensures Get(pairs, name, default) == pairs[i].value
  {
    if i > 0 {
      GetFirst(pairs[1..], name, default, i - 1);
    }
  }

  /** The result is always the default or one of the values supplied for `name`. */
  lemma {:induction false} GetIsSuppliedOrDefault(pairs: seq<QueryPair>, name: string, default: string)
    ensures var r := Get(pairs, name, default);
            r == default || exists i :: 0 <= i < |pairs| && Supplies(pairs[i], name) && r == pairs[i].value
  {
    if |pairs| > 0 && !Supplies(pairs[0], name) {
      GetIsSuppliedOrDefault(pairs[1..], name, default);
      var r := Get(pairs, name, default);
      if r != default {
        var i :| 0 <= i < |pairs| - 1 && Supplies(pairs[1..][i], name) && r == pairs[1..][i].value;
        assert pairs[i + 1] == pairs[1..][i];
      }
    }
  }
}
