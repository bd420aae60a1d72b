/** The list and string logic of the helper around the solution's DynamoDB
    state table: order-preserving de-duplication, the request built by
    `update_item`, the query built by `find_item` and the choice among its
    results, the distinct solutions and accounts of a scan, and the shape of
    a generated record id. The table itself is an input: a scan or a query
    is the list of items it returned. */
module StateTable {
  import opened Base
  import opened Text

  /** A table item: attribute names to (string) values. */
  type Item = map<string, string>

  /** A Python dict of attributes, in its iteration (insertion) order. */
  type Attributes = seq<(string, string)>

  /** Dict keys are unique. */
  predicate DistinctKeys(attrs: Attributes) {
    forall i, j :: 0 <= i < j < |attrs| ==> attrs[i].0 != attrs[j].0
  }

  // ---------------------------------------------------------------------
  // get_unique_values_from_list

  predicate NoDuplicates<T(==,!new)>(xs: seq<T>) {
    forall i, j :: 0 <= i < j < |xs| ==> xs[i] != xs[j]
  }

  /** The values of `xs`, each once, at the place of its first occurrence. */
  function Dedup<T(==,!new)>(xs: seq<T>): (r: seq<T>)
    ensures NoDuplicates(r)
    ensures forall x :: x in r <==> x in xs
  {
    if |xs| == 0 then []
    else
      var p := Dedup(xs[..|xs| - 1]);
      var x := xs[|xs| - 1];
      assert forall y :: y in xs <==> y in xs[..|xs| - 1] || y == x by {
        assert xs == xs[..|xs| - 1] + [x];
      }
      if x in p then p else p + [x]
  }

  /** The position of the first occurrence of `x` in `xs`. */
  function FirstIndex<T(==,!new)>(xs: seq<T>, x: T): (i: nat)
    requires x in xs
    ensures i < |xs| && xs[i] == x && x !in xs[..i]
  {
    if xs[0] == x then 0
    else
      var j := FirstIndex(xs[1..], x);
      assert xs[..j + 1] == [xs[0]] + xs[1..][..j];
      j + 1
  }

  /** An occurrence with no earlier one is the first occurrence. */
  lemma FirstIndexUnique<T(!new)>(xs: seq<T>, x: T, i: nat)
    requires i < |xs| && xs[i] == x && x !in xs[..i]
    ensures FirstIndex(xs, x) == i
  {
  }

  /** The de-duplicated list keeps the order of first occurrences. */
  lemma {:induction false} DedupKeepsFirstOccurrenceOrder<T(!new)>(xs: seq<T>)
    ensures forall a, b :: 0 <= a < b < |Dedup(xs)| ==> FirstIndex(xs, Dedup(xs)[a]) < FirstIndex(xs, Dedup(xs)[b])
  {
    if |xs| > 0 {
      DedupKeepsFirstOccurrenceOrder(xs[..|xs| - 1]);
      forall a, b | 0 <= a < b < |Dedup(xs)|
        ensures FirstIndex(xs, Dedup(xs)[a]) < FirstIndex(xs, Dedup(xs)[b])
      {
        DedupOrderStep(xs, a, b);
      }
    }
  }

  /** The step of `DedupKeepsFirstOccurrenceOrder`: the order kept for all
      but the last element is kept for the whole list. */
  lemma DedupOrderStep<T(!new)>(xs: seq<T>, a: nat, b: nat)
    requires |xs| > 0
    requires var pre := xs[..|xs| - 1];
             forall a, b :: 0 <= a < b < |Dedup(pre)| ==> FirstIndex(pre, Dedup(pre)[a]) < FirstIndex(pre, Dedup(pre)[b])
    requires a < b < |Dedup(xs)|
    ensures FirstIndex(xs, Dedup(xs)[a]) < FirstIndex(xs, Dedup(xs)[b])
  {
    var n := |xs| - 1;
    var pre := xs[..n];
    var p := Dedup(pre);
    var r := Dedup(xs);
    assert r == if xs[n] in p then p else p + [xs[n]];
    assert r[a] == p[a];
    FirstIndexInPrefix(xs, p[a]);
    if b < |p| {
      assert r[b] == p[b];
      FirstIndexInPrefix(xs, p[b]);
    } else {
      assert r[b] == xs[n] && xs[n] !in pre;
      FirstIndexUnique(xs, xs[n], n);
    }
  }

  /** A value occurring before the last position has the same first index in
      the list without its last element, and that index is before the last. */
  lemma FirstIndexInPrefix<T(!new)>(xs: seq<T>, y: T)
    requires |xs| > 0 && y in xs[..|xs| - 1]
    ensures FirstIndex(xs, y) == FirstIndex(xs[..|xs| - 1], y) < |xs| - 1
  {
    var pre := xs[..|xs| - 1];
    var f := FirstIndex(pre, y);
    assert xs[..f] == pre[..f];
    FirstIndexUnique(xs, y, f);
  }

  /** A list without duplicates is its own de-duplication. */
  lemma {:induction false} DedupOfDistinct<T(!new)>(xs: seq<T>)
    requires NoDuplicates(xs)
    ensures Dedup(xs) == xs
  {
    if |xs| > 0 {
      var n := |xs| - 1;
      DedupOfDistinct(xs[..n]);
      assert xs[n] !in xs[..n];
      assert xs[..n] + [xs[n]] == xs;
    }
  }

  /** De-duplicating twice is de-duplicating once. */
  lemma DedupIdempotent<T(!new)>(xs: seq<T>)
    ensures Dedup(Dedup(xs)) == Dedup(xs)
  {
    DedupOfDistinct(Dedup(xs));
  }

  /** `get_unique_values_from_list`: appends each value not yet collected. */
  method GetUniqueValues<T(==,!new)>(values: seq<T>) returns (unique: seq<T>)
    ensures unique == Dedup(values)
  {
    unique := [];
    for i := 0 to |values|
      invariant unique == Dedup(values[..i])
    {
      assert values[..i + 1][..i] == values[..i];
      if values[i] !in unique {
        unique := unique + [values[i]];
      }
    }
    assert values[..|values|] == values;
  }

  // ---------------------------------------------------------------------
  // Placeholder values shared by update_item and find_item

  /** `{":" + a: v for a, v in attrs}` filled in order: a later key
      overwrites an earlier one. */
  function PlaceholderValues(attrs: Attributes): map<string, string> {
    if |attrs| == 0 then map[]
    else
      var n := |attrs| - 1;
      PlaceholderValues(attrs[..n])[":" + attrs[n].0 := attrs[n].1]
  }

  /** The placeholder of an attribute determines the attribute. */
  lemma PlaceholderInjective(a: string, b: string)
    requires ":" + a == ":" + b
    ensures a == b
  {
    assert a == (":" + a)[1..];
  }

  /** The placeholders are exactly ":" + each attribute. */
  lemma {:induction false} PlaceholderKeys(attrs: Attributes)
    ensures forall k :: k in PlaceholderValues(attrs) <==> exists i :: 0 <= i < |attrs| && k == ":" + attrs[i].0
  {
    if |attrs| > 0 {
      var n := |attrs| - 1;
      var pre := attrs[..n];
      PlaceholderKeys(pre);
      var m := PlaceholderValues(attrs);
      assert m == PlaceholderValues(pre)[":" + attrs[n].0 := attrs[n].1];
      forall k
        ensures k in m <==> exists i :: 0 <= i < |attrs| && k == ":" + attrs[i].0
      {
        if k in PlaceholderValues(pre) {
          var i :| 0 <= i < |pre| && k == ":" + pre[i].0;
          assert attrs[i] == pre[i];
        }
        if exists i :: 0 <= i < |attrs| && k == ":" + attrs[i].0 {
          var i :| 0 <= i < |attrs| && k == ":" + attrs[i].0;
          if i < n {
            assert attrs[i] == pre[i];
          }
        }
      }
    }
  }

  /** With distinct attribute names, each placeholder is bound to its
      attribute's value. */
  lemma {:induction false} PlaceholderBindings(attrs: Attributes)
    requires DistinctKeys(attrs)
    ensures forall i :: 0 <= i < |attrs| ==>
              ":" + attrs[i].0 in PlaceholderValues(attrs) && PlaceholderValues(attrs)[":" + attrs[i].0] == attrs[i].1
  {
    if |attrs| > 0 {
      var n := |attrs| - 1;
      var pre := attrs[..n];
      PlaceholderBindings(pre);
      var m := PlaceholderValues(attrs);
      assert m == PlaceholderValues(pre)[":" + attrs[n].0 := attrs[n].1];
      forall i | 0 <= i < |attrs|
        ensures ":" + attrs[i].0 in m && m[":" + attrs[i].0] == attrs[i].1
      {
        if i < n {
          assert attrs[i] == pre[i];
          if ":" + attrs[i].0 == ":" + attrs[n].0 {
            PlaceholderInjective(attrs[i].0, attrs[n].0);
          }
        }
      }
    }
  }

  // ---------------------------------------------------------------------
  // update_item

  /** `a=:a`: one assignment of the update expression. */
  function Assignment(a: string): string {
    a + "=:" + a
  }

  function Assignments(names: seq<string>): (r: seq<string>)
    ensures |r| == |names| && forall i :: 0 <= i < |names| ==> r[i] == Assignment(names[i])
  {
    seq(|names|, i requires 0 <= i < |names| => Assignment(names[i]))
  }

  function Names(attrs: Attributes): (r: seq<string>)
    ensures |r| == |attrs| && forall i :: 0 <= i < |attrs| ==> r[i] == attrs[i].0
  {
    seq(|attrs|, i requires 0 <= i < |attrs| => attrs[i].0)
  }

  /** The update expression: empty without attributes, otherwise "set "
      followed by the assignments in order, separated by ", ". */
  function UpdateExpression(names: seq<string>): (e: string)
    ensures e == "" <==> |names| == 0
  {
    if |names| == 0 then "" else "set " + Join(Assignments(names), ", ")
  }

  /** The `update_item` request. */
  datatype UpdateRequest = UpdateRequest(
    key: Item,
    updateExpression: string,
    expressionAttributeValues: map<string, string>,
    returnValues: string)

  /** `update_item`: grows the expression one assignment at a time (starting
      it with "set " when it is still empty) and binds ":a" to each value; the
      item is addressed by its solution name and record id and the new values
      are asked back. */
  method UpdateItem(solutionName: string, recordId: string, attrs: Attributes) returns (req: UpdateRequest)
    ensures req.key == map["solution_name" := solutionName, "record_id" := recordId]
    ensures req.updateExpression == UpdateExpression(Names(attrs))
    ensures req.expressionAttributeValues == PlaceholderValues(attrs)
    ensures req.returnValues == "UPDATED_NEW"
  {
    var updateExpression := "";
    var values: map<string, string> := map[];
    for i := 0 to |attrs|
      invariant updateExpression == UpdateExpression(Names(attrs[..i]))
      invariant values == PlaceholderValues(attrs[..i])
    {
      var attribute := attrs[i].0;
      UpdateStep(attrs, i);
      if updateExpression == "" {
        updateExpression := "set " + Assignment(attribute);
      } else {
        updateExpression := updateExpression + ", " + Assignment(attribute);
      }
      values := values[":" + attribute := attrs[i].1];
    }
    assert attrs[..|attrs|] == attrs;
    req := UpdateRequest(map["solution_name" := solutionName, "record_id" := recordId],
                         updateExpression, values, "UPDATED_NEW");
  }

  /** One pass of `update_item`'s loop: the expression grows by one
      assignment, started with "set " or continued with ", ", and the
      attribute's placeholder is bound to its value. */
  lemma UpdateStep(attrs: Attributes, i: nat)
    requires i < |attrs|
    ensures var e := UpdateExpression(Names(attrs[..i]));
            UpdateExpression(Names(attrs[..i + 1])) ==
              if e == "" then "set " + Assignment(attrs[i].0) else e + ", " + Assignment(attrs[i].0)
    ensures PlaceholderValues(attrs[..i + 1]) == PlaceholderValues(attrs[..i])[":" + attrs[i].0 := attrs[i].1]
  {
    assert attrs[..i + 1][..i] == attrs[..i];
    assert Names(attrs[..i + 1]) == Names(attrs[..i]) + [attrs[i].0];
    UpdateExpressionAppend(Names(attrs[..i]), attrs[i].0);
  }

  /** Appending a name to the list adds its assignment to the expression. */
  lemma UpdateExpressionAppend(names: seq<string>, a: string)
    ensures var e := UpdateExpression(names);
            UpdateExpression(names + [a]) == if e == "" then "set " + Assignment(a) else e + ", " + Assignment(a)
  {
    assert Assignments(names + [a]) == Assignments(names) + [Assignment(a)];
    if |names| > 0 {
      JoinAppend(Assignments(names), Assignment(a), ", ");
    }
  }

  /** Each attribute's assignment appears in the update expression, and the
      expression names nothing but the attributes. */
  lemma UpdateExpressionNamesEachAttribute(names: seq<string>, i: nat)
    requires i < |names|
    ensures Occurs(UpdateExpression(names), Assignment(names[i]))
  {
    JoinContainsPart(Assignments(names), i, ", ");
    var j :| OccursAt(Join(Assignments(names), ", "), Assignment(names[i]), j);
    var e := UpdateExpression(names);
    assert e[4 + j..4 + j + |Assignment(names[i])|] == Join(Assignments(names), ", ")[j..j + |Assignment(names[i])|];
    assert OccursAt(e, Assignment(names[i]), 4 + j);
  }

  /** Every part of a join occurs in it. */
  lemma {:induction false} JoinContainsPart(parts: seq<string>, i: nat, sep: string)
    requires i < |parts|
    ensures Occurs(Join(parts, sep), parts[i])
  {
    var s := Join(parts, sep);
    if i == 0 {
      assert s[0..|parts[0]|] == parts[0];
      assert OccursAt(s, parts[0], 0);
    } else {
      JoinContainsPart(parts[1..], i - 1, sep);
      var rest := Join(parts[1..], sep);
      var j :| OccursAt(rest, parts[1..][i - 1], j);
      var off := |parts[0]| + |sep|;
      assert s == parts[0] + sep + rest;
      assert s[off + j..off + j + |parts[i]|] == rest[j..j + |parts[i]|];
      assert OccursAt(s, parts[i], off + j);
    }
  }

  // ---------------------------------------------------------------------
  // find_item

  /** `a = :a`: one condition of the filter. */
  function Condition(a: string): string {
    a + " = :" + a
  }

  /** The filter: the conditions of the additional attributes, joined by " AND ". */
  function FilterExpression(names: seq<string>): string {
    Join(seq(|names|, i requires 0 <= i < |names| => Condition(names[i])), " AND ")
  }

  /** The filter is empty exactly when there are no attributes, and each
      attribute's condition appears in it. */
  lemma FilterNamesEachAttribute(names: seq<string>)
    ensures FilterExpression(names) == "" <==> |names| == 0
    ensures forall i :: 0 <= i < |names| ==> Occurs(FilterExpression(names), Condition(names[i]))
  {
    var conditions := seq(|names|, i requires 0 <= i < |names| => Condition(names[i]));
    forall i | 0 <= i < |names|
      ensures Occurs(FilterExpression(names), Condition(names[i]))
    {
      JoinContainsPart(conditions, i, " AND ");
    }
    if |names| > 0 {
      var j :| OccursAt(FilterExpression(names), Condition(names[0]), j);
      assert |Condition(names[0])| > 0;
    }
  }

  /** The `find_item` query. */
  datatype FindQuery = FindQuery(
    keyConditionExpression: string,
    expressionAttributeValues: map<string, string>,
    filterExpression: string)

  const KeyCondition := "solution_name = :solution_name"

  /** ":solution_name" bound to the solution name, then updated with ":a"
      for each additional attribute. */
  function QueryValues(solutionName: string, attrs: Attributes): map<string, string> {
    map[":solution_name" := solutionName] + PlaceholderValues(attrs)
  }

  /** The query `find_item` sends: the key condition on the solution name,
      the values of `QueryValues`, and the filter over the attributes. */
  function FindItemQuery(solutionName: string, attrs: Attributes): (q: FindQuery)
    ensures q.keyConditionExpression == KeyCondition
    ensures q.expressionAttributeValues == QueryValues(solutionName, attrs)
    ensures q.filterExpression == FilterExpression(Names(attrs))
    ensures q.filterExpression == "" <==> |attrs| == 0
    ensures forall i :: 0 <= i < |attrs| ==> Occurs(q.filterExpression, Condition(attrs[i].0))
  {
    FilterNamesEachAttribute(Names(attrs));
    FindQuery(KeyCondition, QueryValues(solutionName, attrs), FilterExpression(Names(attrs)))
  }

  /** The query's values: ":a" bound to each attribute's value, and
      ":solution_name" bound to the solution name unless an additional
      attribute is itself called "solution_name", whose value then wins. */
  lemma FindItemValues(solutionName: string, attrs: Attributes)
    requires DistinctKeys(attrs)
    ensures var m := QueryValues(solutionName, attrs);
            && (forall k :: k in m <==> k == ":solution_name" || exists i :: 0 <= i < |attrs| && k == ":" + attrs[i].0)
            && (forall i :: 0 <= i < |attrs| ==> m[":" + attrs[i].0] == attrs[i].1)
            && ((forall i :: 0 <= i < |attrs| ==> attrs[i].0 != "solution_name") ==> m[":solution_name"] == solutionName)
  {
    PlaceholderKeys(attrs);
    PlaceholderBindings(attrs);
    if forall i :: 0 <= i < |attrs| ==> attrs[i].0 != "solution_name" {
      if ":solution_name" in PlaceholderValues(attrs) {
        var i :| 0 <= i < |attrs| && ":solution_name" == ":" + attrs[i].0;
        PlaceholderInjective("solution_name", attrs[i].0);
      }
    }
  }

  /** What `find_item` returns: `(False, None)` for no match, otherwise
      `(True, first item)`. With several matches it logs the first item's
      `record_id`, which raises KeyError when that item has none. */
  function SelectItem(items: seq<Item>): (r: Result<(bool, Option<Item>), Exception>)
    ensures r.Failure? <==> |items| > 1 && "record_id" !in items[0]
    ensures r.Failure? ==> r.error == KeyError("record_id")
    ensures r.Success? ==> (r.value.0 <==> |items| > 0)
    ensures r.Success? && r.value.0 ==> r.value.1 == Some(items[0])
    ensures r.Success? && !r.value.0 ==> r.value.1 == None
  {
    if |items| > 1 then
      if "record_id" !in items[0] then Failure(KeyError("record_id"))
      else Success((true, Some(items[0])))
    else if |items| < 1 then Success((false, None))
    else Success((true, Some(items[0])))
  }

  // ---------------------------------------------------------------------
  // get_distinct_solutions_and_accounts

  /** `[item[key] for item in items]`, raising KeyError when an item lacks the key. */
  function Column(items: seq<Item>, key: string): (r: Result<seq<string>, Exception>)
    ensures r.Success? <==> forall i :: 0 <= i < |items| ==> key in items[i]
    ensures r.Failure? ==> r.error == KeyError(key)
    ensures r.Success? ==> |r.value| == |items| && forall i :: 0 <= i < |items| ==> r.value[i] == items[i][key]
  {
    if forall i :: 0 <= i < |items| ==> key in items[i] then
      Success(seq(|items|, i requires 0 <= i < |items| => items[i][key]))
    else Failure(KeyError(key))
  }

  /** `get_distinct_solutions_and_accounts` over the scanned items: the
      distinct solution names and the distinct accounts, each in order of
      first appearance; an item without `solution_name` raises first, then
      one without `account`. */
  method GetDistinctSolutionsAndAccounts(items: seq<Item>) returns (r: Result<(seq<string>, seq<string>), Exception>)
    ensures r.Success? <==> forall i :: 0 <= i < |items| ==> "solution_name" in items[i] && "account" in items[i]
    ensures r.Failure? ==>
              r.error == (if Column(items, "solution_name").Failure? then KeyError("solution_name") else KeyError("account"))
    ensures r.Success? ==>
              && r.value.0 == Dedup(Column(items, "solution_name").value)
              && r.value.1 == Dedup(Column(items, "account").value)
  {
    var solutionNames := Column(items, "solution_name");
    if solutionNames.Failure? {
      return Failure(solutionNames.error);
    }
    var uniqueSolutions := GetUniqueValues(solutionNames.value);
    var accounts := Column(items, "account");
    if accounts.Failure? {
      return Failure(accounts.error);
    }
    var uniqueAccounts := GetUniqueValues(accounts.value);
    return Success((uniqueSolutions, uniqueAccounts));
  }

  /** A solution name occurs in the result exactly when some scanned item
      carries it, and it occurs once. */
  lemma DistinctSolutionsComplete(items: seq<Item>, name: string)
    requires forall i :: 0 <= i < |items| ==> "solution_name" in items[i]
    ensures var s := Dedup(Column(items, "solution_name").value);
            && NoDuplicates(s)
            && (name in s <==> exists i :: 0 <= i < |items| && items[i]["solution_name"] == name)
  {
    var c := Column(items, "solution_name").value;
    if exists i :: 0 <= i < |items| && items[i]["solution_name"] == name {
      var i :| 0 <= i < |items| && items[i]["solution_name"] == name;
      assert c[i] == name;
    }
  }

  // ---------------------------------------------------------------------
  // generate_id and insert_item

  /** `string.ascii_letters`: "a" to "z", then "A" to "Z". */
  function AsciiLetters(): string {
    seq(26, i requires 0 <= i < 26 => ('a' as int + i) as char) +
    seq(26, i requires 0 <= i < 26 => ('A' as int + i) as char)
  }

  /** `string.digits`: "0" to "9". */
  function Digits(): string {
    seq(10, i requires 0 <= i < 10 => ('0' as int + i) as char)
  }

  /** `string.ascii_letters + string.digits + "-_"`. */
  function IdAlphabet(): string { AsciiLetters() + Digits() + "-_" }

  const IdLength := 8

  /** An ASCII letter, a digit, "-" or "_". */
  predicate IdChar(c: char) {
    'a' <= c <= 'z' || 'A' <= c <= 'Z' || '0' <= c <= '9' || c == '-' || c == '_'
  }

  /** The alphabet is exactly the id characters, 64 of them. */
  lemma IdAlphabetIsIdChars()
    ensures |IdAlphabet()| == 64
    ensures forall i :: 0 <= i < 26 ==> IdAlphabet()[i] == ('a' as int + i) as char
    ensures forall i :: 26 <= i < 52 ==> IdAlphabet()[i] == ('A' as int + (i - 26)) as char
    ensures forall i :: 52 <= i < 62 ==> IdAlphabet()[i] == ('0' as int + (i - 52)) as char
    ensures IdAlphabet()[62] == '-' && IdAlphabet()[63] == '_'
    ensures forall i :: 0 <= i < |IdAlphabet()| ==> IdChar(IdAlphabet()[i])
  {
  }

  /** `generate_id`: eight characters, the k-th chosen by the k-th random
      pick (an index into the alphabet, as `random.choice` makes it). */
  function GenerateId(picks: seq<nat>): (id: string)
    requires |picks| == IdLength && forall k :: 0 <= k < |picks| ==> picks[k] < |IdAlphabet()|
    ensures |id| == IdLength
    ensures forall k :: 0 <= k < |id| ==> IdChar(id[k])
  {
    IdAlphabetIsIdChars();
    seq(IdLength, k requires 0 <= k < IdLength => IdAlphabet()[picks[k]])
  }

  /** The position of an id character in the alphabet. */
  function AlphabetIndex(c: char): (i: nat)
    requires IdChar(c)
    ensures i < |IdAlphabet()| && IdAlphabet()[i] == c
  {
    IdAlphabetIsIdChars();
    if 'a' <= c <= 'z' then c as int - 'a' as int
    else if 'A' <= c <= 'Z' then 26 + (c as int - 'A' as int)
    else if '0' <= c <= '9' then 52 + (c as int - '0' as int)
    else if c == '-' then 62
    else 63
  }

  /** Every string of eight id characters is a possible record id. */
  lemma EveryIdReachable(id: string)
    requires |id| == IdLength && forall k :: 0 <= k < |id| ==> IdChar(id[k])
    ensures exists picks: seq<nat> ::
              |picks| == IdLength && (forall k :: 0 <= k < |picks| ==> picks[k] < |IdAlphabet()|) &&
              GenerateId(picks) == id
  {
    var picks := seq(IdLength, k requires 0 <= k < IdLength => AlphabetIndex(id[k]));
    assert GenerateId(picks) == id;
  }

  /** `insert_item`: the item put into the table, keyed by the solution name
      and a freshly generated record id and stamped with the time; the id and
      time are returned. */
  function InsertItem(solutionName: string, picks: seq<nat>, dateTime: string): (r: (Item, string, string))
    requires |picks| == IdLength && forall k :: 0 <= k < |picks| ==> picks[k] < |IdAlphabet()|
    ensures r.0.Keys == {"solution_name", "record_id", "date_time"}
    ensures r.0["solution_name"] == solutionName && r.0["record_id"] == r.1 && r.0["date_time"] == dateTime
    ensures r.1 == GenerateId(picks) && r.2 == dateTime
  {
    var recordId := GenerateId(picks);
    (map["solution_name" := solutionName, "record_id" := recordId, "date_time" := dateTime], recordId, dateTime)
  }
}
