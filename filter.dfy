/** SCIM filter expressions and their text (section 3.4.2.2 of RFC 7644). */
module Filter {
  import opened Text

  /** The comparison operators; eq_ci is an extension that RFC 7644 does not define. */
  datatype Operator = Equal | EqualCI | NotEqual | Contains | StartsWith | EndsWith

  /** The operator as it appears in the filter text. */
  function OperatorText(op: Operator): string
  {
    match op
    case Equal => "eq"
    case EqualCI => "eq_ci"
    case NotEqual => "ne"
    case Contains => "co"
    case StartsWith => "sw"
    case EndsWith => "ew"
  }

  const OperatorTexts: set<string> := {"eq", "eq_ci", "ne", "co", "sw", "ew"}

  /** The operator set is closed: exactly these six texts are operators, each for one operator. */
  lemma OperatorsClosed(s: string)
    ensures s in OperatorTexts <==> exists op :: OperatorText(op) == s
    ensures forall a, b :: OperatorText(a) == s && OperatorText(b) == s ==> a == b
  {
    if s in OperatorTexts {
      var op :=
        if s == "eq" then Equal else if s == "eq_ci" then EqualCI else if s == "ne" then NotEqual
        else if s == "co" then Contains else if s == "sw" then StartsWith else EndsWith;
      assert OperatorText(op) == s;
    }
  }

  datatype FilterExpr =
    /** No filter: the zero value the Go code compares against. */
    | Null
    | Comparison(attribute: string, op: Operator, value: string)
    | And(exprs: seq<FilterExpr>)
    | Or(exprs: seq<FilterExpr>)
    | Not(expr: FilterExpr)

  /** The text of a group with connective `sep` around the members' texts. */
  function GroupText(texts: seq<string>, sep: string): string
  {
    "(" + Join(texts, sep) + ")"
  }

  /**
   * The filter text. The value is quoted without escaping; a group is parenthesised even
   * when it has one member; Not adds no parentheses. Only Null gives the empty text.
   */
  function ToString(e: FilterExpr): (r: string)
    ensures r == "" <==> e.Null?
    decreases e
  {
    match e
    case Null => ""
    case Comparison(attr, op, v) => attr + " " + OperatorText(op) + " \"" + v + "\""
    case And(es) => GroupText(Texts(es), " and ")
    case Or(es) => GroupText(Texts(es), " or ")
    case Not(x) => "not " + ToString(x)
  }

  /** The texts of the members of a group, in order. */
  function Texts(es: seq<FilterExpr>): (r: seq<string>)
    ensures |r| == |es| && forall i :: 0 <= i < |es| ==> r[i] == ToString(es[i])
    decreases es
  {
    seq(|es|, i requires 0 <= i < |es| => ToString(es[i]))
  }

  /** A group with one member is still parenthesised, whichever its connective. */
  lemma SingleMemberGroup(x: FilterExpr)
    ensures ToString(And([x])) == "(" + ToString(x) + ")"
    ensures ToString(Or([x])) == "(" + ToString(x) + ")"
  {
  }

  lemma GroupTextAppend(texts: seq<string>, t: string, sep: string)
    requires |texts| > 0
    ensures var g := GroupText(texts, sep);
      |g| >= 2 && GroupText(texts + [t], sep) == g[..|g| - 1] + sep + t + ")"
  {
    JoinSnoc(texts, t, sep);
    var g := GroupText(texts, sep);
    assert g[..|g| - 1] == "(" + Join(texts, sep);
  }

  /**
   * Members keep their order: appending a member to a non-empty group inserts the
   * connective and the member's text just before the closing parenthesis.
   */
  lemma GroupAppend(es: seq<FilterExpr>, x: FilterExpr)
    requires |es| > 0
    ensures var t := ToString(And(es));
      |t| >= 2 && ToString(And(es + [x])) == t[..|t| - 1] + " and " + ToString(x) + ")"
    ensures var t := ToString(Or(es));
      |t| >= 2 && ToString(Or(es + [x])) == t[..|t| - 1] + " or " + ToString(x) + ")"
  {
    var texts := Texts(es);
    assert Texts(es + [x]) == texts + [ToString(x)];
    GroupTextAppend(texts, ToString(x), " and ");
    GroupTextAppend(texts, ToString(x), " or ");
    assert ToString(And(es)) == GroupText(texts, " and ");
    assert ToString(Or(es)) == GroupText(texts, " or ");
    assert ToString(And(es + [x])) == GroupText(texts + [ToString(x)], " and ");
    assert ToString(Or(es + [x])) == GroupText(texts + [ToString(x)], " or ");
  }

  predicate NoParens(s: string)
  {
    '(' !in s && ')' !in s
  }

  /** No attribute or value in the expression holds a parenthesis. */
  predicate PlainLeaves(e: FilterExpr)
  {
    match e
    case Null => true
    case Comparison(attr, _, v) => NoParens(attr) && NoParens(v)
    case And(es) => forall i :: 0 <= i < |es| ==> PlainLeaves(es[i])
    case Or(es) => forall i :: 0 <= i < |es| ==> PlainLeaves(es[i])
    case Not(x) => PlainLeaves(x)
  }

  /** The number of And and Or nodes. */
  function GroupCount(e: FilterExpr): nat
    decreases e
  {
    match e
    case Null => 0
    case Comparison(_, _, _) => 0
    case And(es) => 1 + GroupCountAll(es)
    case Or(es) => 1 + GroupCountAll(es)
    case Not(x) => GroupCount(x)
  }

  function GroupCountAll(es: seq<FilterExpr>): nat
    decreases es
  {
    if |es| == 0 then 0 else GroupCount(es[0]) + GroupCountAll(es[1..])
  }

  /**
   * Each group contributes exactly one pair of parentheses and nothing else adds one:
   * with plain attributes and values the text has as many '(' and as many ')' as groups.
   */
  lemma {:induction false} GroupParentheses(e: FilterExpr, c: char)
    requires c == '(' || c == ')'
    requires PlainLeaves(e)
    ensures Count(ToString(e), c) == GroupCount(e)
    decreases e
  {
    match e
    case Null =>
    case Comparison(attr, op, v) =>
      ComparisonParentheses(attr, op, v, c);
    case And(es) =>
      GroupParenthesesAll(es, c);
      GroupTextParentheses(Texts(es), " and ", c);
    case Or(es) =>
      GroupParenthesesAll(es, c);
      GroupTextParentheses(Texts(es), " or ", c);
    case Not(x) =>
      GroupParentheses(x, c);
      CountAppend("not ", ToString(x), c);
  }

  lemma ComparisonParentheses(attr: string, op: Operator, v: string, c: char)
    requires c == '(' || c == ')'
    requires NoParens(attr) && NoParens(v)
    ensures Count(ToString(Comparison(attr, op, v)), c) == 0
  {
    var o := OperatorText(op);
    assert c !in o by {
      match op
      case Equal =>
      case EqualCI =>
      case NotEqual =>
      case Contains =>
      case StartsWith =>
      case EndsWith =>
    }
    CountAbsent(attr, c);
    CountAbsent(" ", c);
    CountAbsent(o, c);
    CountAbsent(" \"", c);
    CountAbsent(v, c);
    CountAbsent("\"", c);
    CountAppend(attr, " ", c);
    CountAppend(attr + " ", o, c);
    CountAppend(attr + " " + o, " \"", c);
    CountAppend(attr + " " + o + " \"", v, c);
    CountAppend(attr + " " + o + " \"" + v, "\"", c);
  }

  /** A group's own parentheses add one of each to its members' counts. */
  lemma GroupTextParentheses(texts: seq<string>, sep: string, c: char)
    requires c == '(' || c == ')'
    requires Count(sep, c) == 0
    ensures Count(GroupText(texts, sep), c) == 1 + SumCounts(texts, c)
  {
    CountJoin(texts, sep, c);
    CountAppend("(", Join(texts, sep), c);
    CountAppend("(" + Join(texts, sep), ")", c);
  }

  lemma {:induction false} GroupParenthesesAll(es: seq<FilterExpr>, c: char)
    requires c == '(' || c == ')'
    requires forall i :: 0 <= i < |es| ==> PlainLeaves(es[i])
    ensures SumCounts(Texts(es), c) == GroupCountAll(es)
    decreases es
  {
    if |es| > 0 {
      GroupParentheses(es[0], c);
      assert Texts(es)[1..] == Texts(es[1..]);
      GroupParenthesesAll(es[1..], c);
    }
  }

  /** A group of two members: both texts, in order, around the connective. */
  lemma TwoMemberGroup(a: FilterExpr, b: FilterExpr)
    ensures ToString(And([a, b])) == "(" + ToString(a) + " and " + ToString(b) + ")"
    ensures ToString(Or([a, b])) == "(" + ToString(a) + " or " + ToString(b) + ")"
  {
    var x, y := ToString(a), ToString(b);
    assert Texts([a, b]) == [x, y];
    TwoTexts(x, y, " and ");
    TwoTexts(x, y, " or ");
  }

  lemma TwoTexts(x: string, y: string, sep: string)
    ensures GroupText([x, y], sep) == "(" + x + sep + y + ")"
  {
    JoinTwo(x, y, sep);
  }

  /**
   * The shape of the combined expression of filter_test.go: an Or group nested in an And
   * group keeps its own parentheses inside the outer ones.
   */
  lemma NestedGroups(a: FilterExpr, b: FilterExpr, c: FilterExpr)
    ensures ToString(And([a, Or([b, c])]))
      == "(" + ToString(a) + " and (" + ToString(b) + " or " + ToString(c) + "))"
  {
    TwoMemberGroup(b, c);
    TwoMemberGroup(a, Or([b, c]));
    NestedText(ToString(a), ToString(b), ToString(c));
  }

  /** String associativity for NestedGroups, kept apart so that its proof sees no filter facts. */
  lemma NestedText(x: string, y: string, z: string)
    ensures "(" + x + " and " + ("(" + y + " or " + z + ")") + ")" == "(" + x + " and (" + y + " or " + z + "))"
  {
  }

  /** The first comparison and the negation of filter_test.go. */
  lemma ComparisonExample()
    ensures ToString(Comparison("name", Equal, "John")) == "name eq \"John\""
    ensures ToString(Not(Comparison("name", Equal, "John"))) == "not name eq \"John\""
  {
  }

  /**
   * Values are not escaped, so the text does not determine the expression. A value with
   * a quote in it reads like a second comparison.
   */
  lemma QuoteInValue()
    ensures ToString(Comparison("a", Equal, "1\" or b eq \"2")) == "a eq \"1\" or b eq \"2\""
  {
  }

  /** An attribute starting with "not " reads like a negation. */
  lemma NotInAttribute()
    ensures ToString(Comparison("not a", Equal, "1")) == ToString(Not(Comparison("a", Equal, "1")))
  {
    assert ToString(Comparison("a", Equal, "1")) == "a eq \"1\"";
  }

  /** A one-member group loses its connective. */
  lemma SingleMemberConnective(x: FilterExpr)
    ensures ToString(And([x])) == ToString(Or([x]))
  {
    SingleMemberGroup(x);
  }
}
