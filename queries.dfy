/** The parameterised SQL text the document repositories build: a list of
    WHERE clauses, each with at most one named parameter, joined by " AND "
    after `SELECT * FROM c`. Only the text and the parameters are modelled;
    what the database does with them is not. */
module Queries {
  import opened Wrappers
  import opened Strings
  import opened Json

  /** A query parameter `{"name": ..., "value": ...}`. */
  datatype Param = Param(name: string, value: Json)

  const SelectAll := "SELECT * FROM c"

  /** The query text: `SELECT * FROM c`, then ` WHERE ` and the clauses joined
      by ` AND ` when there is at least one clause. */
  function WithWhere(clauses: seq<string>): string
  {
    if |clauses| == 0 then SelectAll else SelectAll + " WHERE " + Join(" AND ", clauses)
  }

  /** The text is the bare `SELECT * FROM c` exactly when no clause was built. */
  lemma WithWhereBare(clauses: seq<string>)
    ensures WithWhere(clauses) == SelectAll <==> |clauses| == 0
  {
    if |clauses| > 0 {
      assert |WithWhere(clauses)| > |SelectAll|;
    }
  }

  /** `" ".join(query_parts)` where the parts are the select and, when there
      are clauses, `"WHERE " + " AND ".join(clauses)`: the same text. */
  lemma {:induction false} PartsJoin(clauses: seq<string>)
    requires |clauses| > 0
    ensures Join(" ", [SelectAll, "WHERE " + Join(" AND ", clauses)]) == WithWhere(clauses)
  {
    var j := Join(" AND ", clauses);
    JoinPair(" ", SelectAll, "WHERE " + j);
    assert " " + "WHERE " == " WHERE ";
    assert " " + ("WHERE " + j) == (" " + "WHERE ") + j;
  }

  lemma JoinPair(sep: string, a: string, b: string)
    ensures Join(sep, [a, b]) == a + (sep + b)
  {
    assert [a, b][1..] == [b];
  }

  /** `" ".join(query_parts)` after the optional WHERE part was appended. */
  method WhereQuery(clauses: seq<string>) returns (query: string)
    ensures query == WithWhere(clauses)
  {
    var parts := [SelectAll];
    if |clauses| > 0 {
      parts := parts + ["WHERE " + Join(" AND ", clauses)];
      PartsJoin(clauses);
    }
    query := Join(" ", parts);
  }

  /** `f"@p{n}"`. */
  function Numbered(n: nat): string
  {
    "@p" + NatToString(n)
  }

  /** Different counter values give different parameter names. */
  lemma NumberedInjective(m: nat, n: nat)
    requires Numbered(m) == Numbered(n)
    ensures m == n
  {
    assert Numbered(m)[2..] == NatToString(m);
    assert Numbered(n)[2..] == NatToString(n);
    NatToStringInjective(m, n);
  }

  /** `if value and value != "all"`: the filter applies. */
  predicate Applies(v: Option<string>)
  {
    Given(v) && v.value != "all"
  }

  // ---------------------------------------------------------------------
  // Counter-numbered filters

  /** The clauses of the applied filters, the k-th (from 1) naming `@pk`. */
  function NumberedClauses<F>(fs: seq<(F, string)>, clause: (F, string) -> string): (r: seq<string>)
    ensures |r| == |fs|
    ensures forall i :: 0 <= i < |fs| ==> r[i] == clause(fs[i].0, Numbered(i + 1))
  {
    seq(|fs|, i requires 0 <= i < |fs| => clause(fs[i].0, Numbered(i + 1)))
  }

  /** The parameters of the applied filters: `@pk` carries the k-th value. */
  function NumberedParams<F>(fs: seq<(F, string)>): (r: seq<Param>)
    ensures |r| == |fs|
    ensures forall i :: 0 <= i < |fs| ==> r[i] == Param(Numbered(i + 1), JStr(fs[i].1))
  {
    seq(|fs|, i requires 0 <= i < |fs| => Param(Numbered(i + 1), JStr(fs[i].1)))
  }

  /** One more applied filter adds one clause and one parameter at the end,
      both numbered with the incremented counter. */
  lemma NumberedSnoc<F>(fs: seq<(F, string)>, f: F, v: string, clause: (F, string) -> string)
    ensures NumberedClauses(fs + [(f, v)], clause)
         == NumberedClauses(fs, clause) + [clause(f, Numbered(|fs| + 1))]
    ensures NumberedParams(fs + [(f, v)]) == NumberedParams(fs) + [Param(Numbered(|fs| + 1), JStr(v))]
  {
  }

  /** The parameter names are pairwise different. */
  lemma NumberedParamsDistinct<F>(fs: seq<(F, string)>)
    ensures forall i, j :: 0 <= i < j < |fs| ==> NumberedParams(fs)[i].name != NumberedParams(fs)[j].name
  {
    forall i, j | 0 <= i < j < |fs|
      ensures NumberedParams(fs)[i].name != NumberedParams(fs)[j].name
    {
      if Numbered(i + 1) == Numbered(j + 1) {
        NumberedInjective(i + 1, j + 1);
      }
    }
  }

  /** The filter `(f, value)` when its test `keep` holds, else nothing. */
  function Take<F>(f: F, arg: Option<string>, keep: bool): seq<(F, string)>
  {
    if keep && arg.Some? then [(f, arg.value)] else []
  }

  /** One `if <test>: param_index += 1; where_clauses.append(...);
      params.append(...)` block: the counter, clauses and parameters stay
      those of the filters applied so far. */
  method AddNumbered<F>(ghost done: seq<(F, string)>, clauses: seq<string>, params: seq<Param>,
                        index: nat, f: F, arg: Option<string>, keep: bool,
                        clause: (F, string) -> string)
    returns (clauses': seq<string>, params': seq<Param>, index': nat)
    requires clauses == NumberedClauses(done, clause) && params == NumberedParams(done)
    requires index == |done|
    ensures clauses' == NumberedClauses(done + Take(f, arg, keep), clause)
    ensures params' == NumberedParams(done + Take(f, arg, keep))
    ensures index' == |done + Take(f, arg, keep)|
  {
    clauses', params', index' := clauses, params, index;
    if keep && arg.Some? {
      index' := index' + 1;
      clauses' := clauses' + [clause(f, Numbered(index'))];
      params' := params' + [Param(Numbered(index'), JStr(arg.value))];
      NumberedSnoc(done, f, arg.value, clause);
    } else {
      assert done + Take(f, arg, keep) == done;
    }
  }

  // ---------------------------------------------------------------------
  // Substring facts for clause texts

  /** A text lacking one of the characters of `p` cannot contain `p`. */
  lemma AbsentCharNotContained(s: string, p: string, x: char)
    requires x in p && x !in s
    ensures !Contains(s, p)
  {
    ContainsIffOccurs(s, p);
  }

  /** A character in neither the separator nor any part is not in the join. */
  lemma {:induction false} JoinAvoids(sep: string, parts: seq<string>, x: char)
    requires x !in sep
    requires forall i :: 0 <= i < |parts| ==> x !in parts[i]
    ensures x !in Join(sep, parts)
    decreases |parts|
  {
    if |parts| > 1 {
      JoinAvoids(sep, parts[1..], x);
    }
  }

  lemma AllDigitsAvoid(d: string, x: char)
    requires AllDigits(d) && !IsDigit(x)
    ensures x !in d
  {
  }
}
