/**
 * The order clause of GET /assignments (routes/assignments.js:50-58): the
 * `sortBy` query text becomes a Sequelize `order` array, and that array's JSON
 * text becomes part of the list cache key.
 */
module OrderClause {
  import opened Wrappers
  import opened Text
  import opened Json

  /** One `[column, direction]` entry of a Sequelize `order` array. */
  datatype OrderPair = OrderPair(column: string, direction: string)

  /**
   * The order clause built from `sortBy`, or None when building it throws.
   * An absent or empty `sortBy` is falsy and gives the empty clause; a
   * `sortBy` without ':' leaves `order` undefined, and `order.toUpperCase()`
   * throws a TypeError.
   */
  function ParseSortBy(sortBy: Option<string>): (r: Option<seq<OrderPair>>)
    ensures sortBy.None? || sortBy == Some("") ==> r == Some([])
    ensures sortBy.Some? && sortBy.value != "" ==> (r.None? <==> ':' !in sortBy.value)
    ensures r.Some? ==> |r.value| <= 1
  {
    if sortBy.None? || sortBy.value == "" then Some([])
    else
      var parts := Split(sortBy.value, ':');
      SplitCount(sortBy.value, ':');
      if |parts| < 2 then None
      else Some([OrderPair(parts[0], UpperAscii(parts[1]))])
  }

  /**
   * With a ':' in `sortBy`, the clause is the single pair of the text before
   * the first ':' and the upper-cased text between the first and second ':'.
   */
  lemma ParseSortByFields(sortBy: string, column: string, direction: string)
    requires SecondField(sortBy, ':', column, direction)
    ensures ParseSortBy(Some(sortBy)) == Some([OrderPair(column, UpperAscii(direction))])
  {
    assert ':' in sortBy by {
      assert sortBy[|column|] == ':';
    }
    SplitFields(sortBy, ':');
    var parts := Split(sortBy, ':');
    SecondFieldUnique(sortBy, ':', column, direction, parts[0], parts[1]);
  }

  /** The JSON text of one pair: `["column","DIRECTION"]`. */
  function PairText(p: OrderPair): string {
    "[" + Quote(p.column) + "," + Quote(p.direction) + "]"
  }

  /** The JSON texts of the pairs, separated by commas. */
  function ElemsText(clause: seq<OrderPair>): string
    decreases |clause|
  {
    if |clause| == 0 then ""
    else if |clause| == 1 then PairText(clause[0])
    else PairText(clause[0]) + "," + ElemsText(clause[1..])
  }

  /** `JSON.stringify(orderClause)`. */
  function ClauseText(clause: seq<OrderPair>): string {
    "[" + ElemsText(clause) + "]"
  }

  /** Reads one pair at the front of `s`: the pair and the text after it. */
  function ReadPair(s: string): (r: Option<(OrderPair, string)>)
    ensures r.Some? ==> |r.value.1| < |s|
  {
    if |s| == 0 || s[0] != '[' then None
    else
      match ReadString(s[1..])
      case None => None
      case Some((column, r1)) =>
        if |r1| == 0 || r1[0] != ',' then None
        else
          match ReadString(r1[1..])
          case None => None
          case Some((direction, r2)) =>
            if |r2| == 0 || r2[0] != ']' then None
            else Some((OrderPair(column, direction), r2[1..]))
  }

  /** Reads comma-separated pairs up to the closing bracket: the pairs and the text after the bracket. */
  function ReadElems(s: string): (r: Option<(seq<OrderPair>, string)>)
    decreases |s|
  {
    match ReadPair(s)
    case None => None
    case Some((p, rest)) =>
      if |rest| > 0 && rest[0] == ']' then Some(([p], rest[1..]))
      else if |rest| > 0 && rest[0] == ',' then
        match ReadElems(rest[1..])
        case None => None
        case Some((more, after)) => Some(([p] + more, after))
      else None
  }

  /** Reads the JSON text of a whole order clause. */
  function ReadClause(s: string): Option<seq<OrderPair>> {
    if s == "[]" then Some([])
    else if |s| == 0 || s[0] != '[' then None
    else
      match ReadElems(s[1..])
      case Some((clause, rest)) => if rest == "" then Some(clause) else None
      case None => None
  }

  lemma ReadPairText(p: OrderPair, rest: string)
    ensures ReadPair(PairText(p) + rest) == Some((p, rest))
  {
    var q1, q2 := Quote(p.column), Quote(p.direction);
    var r2 := "]" + rest;
    var r1 := "," + (q2 + r2);
    var s := PairText(p) + rest;
    assert s == "[" + (q1 + r1);
    assert s[1..] == q1 + r1;
    QuoteRoundTrip(p.column, r1);
    assert r1[1..] == q2 + r2;
    QuoteRoundTrip(p.direction, r2);
    assert r2[1..] == rest;
  }

  /** One step of `ReadElems`: a pair followed by the closing bracket, or by a comma and more pairs. */
  lemma ReadElemsStep(p: OrderPair, after: string)
    requires |after| > 0 && (after[0] == ']' || after[0] == ',')
    ensures after[0] == ']' ==> ReadElems(PairText(p) + after) == Some(([p], after[1..]))
    ensures after[0] == ',' ==> ReadElems(PairText(p) + after) == match ReadElems(after[1..])
                                                                  case None => None
                                                                  case Some((more, rest)) => Some(([p] + more, rest))
  {
    ReadPairText(p, after);
  }

  lemma ReadElemsLast(p: OrderPair, rest: string)
    ensures ReadElems(ElemsText([p]) + "]" + rest) == Some(([p], rest))
  {
    var after := "]" + rest;
    assert ElemsText([p]) + "]" + rest == PairText(p) + after;
    ReadElemsStep(p, after);
    assert after[1..] == rest;
  }

  lemma ElemsTextCons(clause: seq<OrderPair>, rest: string)
    requires |clause| >= 2
    ensures ElemsText(clause) + "]" + rest == PairText(clause[0]) + ("," + (ElemsText(clause[1..]) + "]" + rest))
  {
    var p, e := PairText(clause[0]), ElemsText(clause[1..]);
    assert ElemsText(clause) == p + "," + e;
    Regroup(p, ",", e, "]", rest);
  }

  lemma Regroup(a: string, b: string, c: string, d: string, e: string)
    ensures a + b + c + d + e == a + (b + (c + d + e))
  {
  }

  lemma ReadElemsMore(clause: seq<OrderPair>, rest: string)
    requires |clause| >= 2
    requires ReadElems(ElemsText(clause[1..]) + "]" + rest) == Some((clause[1..], rest))
    ensures ReadElems(ElemsText(clause) + "]" + rest) == Some((clause, rest))
  {
    var tail := ElemsText(clause[1..]) + "]" + rest;
    var after := "," + tail;
    ElemsTextCons(clause, rest);
    assert after[1..] == tail;
    ReadElemsStep(clause[0], after);
    assert [clause[0]] + clause[1..] == clause;
  }

  lemma {:induction false} ReadElemsText(clause: seq<OrderPair>, rest: string)
    requires |clause| >= 1
    ensures ReadElems(ElemsText(clause) + "]" + rest) == Some((clause, rest))
    decreases |clause|
  {
    if |clause| == 1 {
      ReadElemsLast(clause[0], rest);
      assert clause == [clause[0]];
    } else {
      ReadElemsText(clause[1..], rest);
      ReadElemsMore(clause, rest);
    }
  }

  /** The JSON text of an order clause determines the clause: reading it back gives the clause. */
  lemma ClauseRoundTrip(clause: seq<OrderPair>)
    ensures ReadClause(ClauseText(clause)) == Some(clause)
  {
    if |clause| >= 1 {
      var s := ClauseText(clause);
      assert |PairText(clause[0])| >= 2;
      assert |ElemsText(clause)| >= 2;
      assert s != "[]";
      assert s[1..] == ElemsText(clause) + "]" + "";
      ReadElemsText(clause, "");
    }
  }
}
