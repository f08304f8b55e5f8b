/**
 * The data-access layer: it turns a condition map into one parameterised
 * SELECT, and writes an ad together with its targeting rows inside one
 * transaction.
 *
 * The relational store is not modelled as an engine. A read is a pair of
 * oracles (does preparing this text fail; what rows does this query give);
 * a write is a transaction whose statements fail or succeed as an oracle over
 * the statements attempted so far decides.
 */
module Repository {
  import opened Domain

  // ---------------------------------------------------------------------
  // SQL text helpers
  // ---------------------------------------------------------------------

  /** The number of positional `?` placeholders in a SQL text. */
  function Placeholders(s: string): nat {
    if s == [] then 0 else (if s[0] == '?' then 1 else 0) + Placeholders(s[1..])
  }

  /** `strings.Repeat`: `count` copies of `s`, back to back. */
  function Repeat(s: string, count: nat): string {
    if count == 0 then "" else s + Repeat(s, count - 1)
  }

  /**
   * `repeatQuestionMarks`: the placeholder list of an `IN (...)` predicate.
   * Go's `strings.Repeat` panics on a negative count, so `length` must be at
   * least 1.
   */
  function RepeatQuestionMarks(length: nat): string
    requires length >= 1
  {
    "?" + Repeat(",?", length - 1)
  }

  /** `strings.Join`: the elements with `sep` between neighbours. */
  function Join(elems: seq<string>, sep: string): string {
    if |elems| == 0 then ""
    else if |elems| == 1 then elems[0]
    else elems[0] + sep + Join(elems[1..], sep)
  }

  /** The placeholders of all elements together. */
  function SumPlaceholders(elems: seq<string>): nat {
    if elems == [] then 0 else Placeholders(elems[0]) + SumPlaceholders(elems[1..])
  }

  /** Placeholders of a concatenation add up. */
  lemma {:induction false} PlaceholdersAppend(a: string, b: string)
    ensures Placeholders(a + b) == Placeholders(a) + Placeholders(b)
  {
    if a == [] {
      assert a + b == b;
    } else {
      assert (a + b)[0] == a[0];
      assert (a + b)[1..] == a[1..] + b;
      PlaceholdersAppend(a[1..], b);
    }
  }

  lemma PlaceholdersAppend4(a: string, b: string, c: string, d: string)
    ensures Placeholders(a + b + c + d) == Placeholders(a) + Placeholders(b) + Placeholders(c) + Placeholders(d)
  {
    PlaceholdersAppend(a, b);
    PlaceholdersAppend(a + b, c);
    PlaceholdersAppend(a + b + c, d);
  }

  lemma PlaceholdersAppend7(a: string, b: string, c: string, d: string, e: string, f: string, g: string)
    ensures Placeholders(a + b + c + d + e + f + g)
      == Placeholders(a) + Placeholders(b) + Placeholders(c) + Placeholders(d)
       + Placeholders(e) + Placeholders(f) + Placeholders(g)
  {
    PlaceholdersAppend4(a, b, c, d);
    PlaceholdersAppend4(a + b + c + d, e, f, g);
  }

  /** A text without a question mark holds no placeholder. */
  lemma {:induction false} NoMarksNoPlaceholders(s: string)
    requires '?' !in s
    ensures Placeholders(s) == 0
  {
    if s != [] {
      assert s[0] != '?';
      assert forall c :: c in s[1..] ==> c in s;
      NoMarksNoPlaceholders(s[1..]);
    }
  }

  lemma {:induction false} RepeatCommaMarks(k: nat)
    ensures |Repeat(",?", k)| == 2 * k
    ensures forall i :: 0 <= i < 2 * k ==>
              Repeat(",?", k)[i] == if i % 2 == 0 then ',' else '?'
    ensures Placeholders(Repeat(",?", k)) == k
  {
    if k > 0 {
      RepeatCommaMarks(k - 1);
      var rest := Repeat(",?", k - 1);
      assert Repeat(",?", k) == ",?" + rest;
      forall i | 0 <= i < 2 * k
        ensures Repeat(",?", k)[i] == if i % 2 == 0 then ',' else '?'
      {
        if i >= 2 {
          assert Repeat(",?", k)[i] == rest[i - 2];
        }
      }
      PlaceholdersAppend(",?", rest);
      assert Placeholders(",?") == 1 by {
        assert ",?"[1..] == "?";
        assert "?"[1..] == [];
      }
    }
  }

  /**
   * `repeatQuestionMarks(n)` is n question marks separated by n - 1 commas:
   * its length is 2n - 1, every even position holds a `?` and every odd one
   * a comma.
   */
  lemma RepeatQuestionMarksShape(n: nat)
    requires n >= 1
    ensures |RepeatQuestionMarks(n)| == 2 * n - 1
    ensures forall i :: 0 <= i < 2 * n - 1 ==>
              RepeatQuestionMarks(n)[i] == if i % 2 == 0 then '?' else ','
  {
    var tail := Repeat(",?", n - 1);
    RepeatCommaMarks(n - 1);
    var r := RepeatQuestionMarks(n);
    assert r == "?" + tail;
    forall i | 0 <= i < 2 * n - 1
      ensures r[i] == if i % 2 == 0 then '?' else ','
    {
      if i > 0 {
        assert r[i] == tail[i - 1];
      }
    }
  }

  /** `repeatQuestionMarks(n)` holds exactly n placeholders. */
  lemma RepeatQuestionMarksCount(n: nat)
    requires n >= 1
    ensures Placeholders(RepeatQuestionMarks(n)) == n
  {
    RepeatCommaMarks(n - 1);
    PlaceholdersAppend("?", Repeat(",?", n - 1));
    assert "?"[1..] == [];
  }

  lemma {:induction false} JoinPlaceholders(elems: seq<string>, sep: string)
    requires Placeholders(sep) == 0
    ensures Placeholders(Join(elems, sep)) == SumPlaceholders(elems)
  {
    if |elems| > 1 {
      JoinPlaceholders(elems[1..], sep);
      PlaceholdersAppend(elems[0], sep);
      PlaceholdersAppend(elems[0] + sep, Join(elems[1..], sep));
    } else if |elems| == 1 {
      assert elems[1..] == [];
    }
  }

  lemma {:induction false} SumPlaceholdersAppend(a: seq<string>, b: seq<string>)
    ensures SumPlaceholders(a + b) == SumPlaceholders(a) + SumPlaceholders(b)
  {
    if a != [] {
      SumPlaceholdersAppend(a[1..], b);
      assert (a + b)[1..] == a[1..] + b;
    } else {
      assert a + b == b;
    }
  }

  // ---------------------------------------------------------------------
  // The fragments of the SELECT (repository/ad.go:102-140). Long texts are
  // written as concatenations of short pieces; the text is the same.
  // ---------------------------------------------------------------------

  const SelectClause := "SELECT ads.title, " + "ads.end_at FROM ads "

  const GenderJoin :=
    "INNER JOIN ad_gender " + "ON ads.id = ad_gender.ad_id " +
    "INNER JOIN genders " + "ON genders.id = " + "ad_gender.gender_id"

  const CountryJoin :=
    "INNER JOIN ad_country " + "ON ads.id = ad_country.ad_id " +
    "INNER JOIN countries " + "ON countries.id = " + "ad_country.country_id"

  const PlatformJoin :=
    "INNER JOIN ad_platform " + "ON ads.id = ad_platform.ad_id " +
    "INNER JOIN platforms " + "ON platforms.id = " + "ad_platform.platform_id"

  /** A positional placeholder. */
  const Mark := "?"

  const AgeLower := "ads.age_start <= "
  const AgeUpper := " AND ads.age_end >= "
  const AgePredicate := AgeLower + Mark + AgeUpper + Mark

  const ActivePredicate := "ads.start_at <= NOW() " + "AND ads.end_at >= NOW()"

  const OrderBy := "ORDER BY ads.end_at "
  const Limit := "ASC LIMIT "
  const Offset := " OFFSET "
  const OrderClause := OrderBy + Limit + Mark + Offset + Mark

  /** One of the three targeting dimensions. */
  datatype Dimension = Gender | Country | Platform {
    /** The condition-map key that selects this dimension. */
    function Key(): string {
      match this
      case Gender => "gender"
      case Country => "country"
      case Platform => "platform"
    }

    /** The joins from ads through the junction table to the lookup table. */
    function JoinClause(): string {
      match this
      case Gender => GenderJoin
      case Country => CountryJoin
      case Platform => PlatformJoin
    }

    /** The lookup column its `IN` predicate tests. */
    function Column(): string {
      match this
      case Gender => "genders.gender"
      case Country => "countries.country"
      case Platform => "platforms.platform"
    }
  }

  /** `<column> IN (?,...,?)` with `n` placeholders. */
  function InPredicate(column: string, n: nat): string
    requires n >= 1
  {
    column + " IN (" + RepeatQuestionMarks(n) + ")"
  }

  lemma GenderJoinNoMarks()
    ensures '?' !in GenderJoin
  {
    assert '?' !in "INNER JOIN ad_gender " && '?' !in "ON ads.id = ad_gender.ad_id ";
    assert '?' !in "INNER JOIN genders " && '?' !in "ON genders.id = ";
    assert '?' !in "ad_gender.gender_id";
  }

  lemma CountryJoinNoMarks()
    ensures '?' !in CountryJoin
  {
    assert '?' !in "INNER JOIN ad_country " && '?' !in "ON ads.id = ad_country.ad_id ";
    assert '?' !in "INNER JOIN countries " && '?' !in "ON countries.id = ";
    assert '?' !in "ad_country.country_id";
  }

  lemma PlatformJoinNoMarks()
    ensures '?' !in PlatformJoin
  {
    assert '?' !in "INNER JOIN ad_platform " && '?' !in "ON ads.id = ad_platform.ad_id ";
    assert '?' !in "INNER JOIN platforms " && '?' !in "ON platforms.id = ";
    assert '?' !in "ad_platform.platform_id";
  }

  /** No join or column text of a dimension holds a placeholder. */
  lemma DimensionPlain(d: Dimension)
    ensures Placeholders(d.JoinClause()) == 0 && Placeholders(d.Column()) == 0
  {
    match d {
      case Gender =>
        GenderJoinNoMarks();
        assert '?' !in "genders.gender";
      case Country =>
        CountryJoinNoMarks();
        assert '?' !in "countries.country";
      case Platform =>
        PlatformJoinNoMarks();
        assert '?' !in "platforms.platform";
    }
    NoMarksNoPlaceholders(d.JoinClause());
    NoMarksNoPlaceholders(d.Column());
  }

  lemma SelectPlaceholders()
    ensures Placeholders(SelectClause) == 0
  {
    assert '?' !in "SELECT ads.title, " && '?' !in "ads.end_at FROM ads ";
    NoMarksNoPlaceholders(SelectClause);
  }

  lemma ActivePlaceholders()
    ensures Placeholders(ActivePredicate) == 0
  {
    assert '?' !in "ads.start_at <= NOW() " && '?' !in "AND ads.end_at >= NOW()";
    NoMarksNoPlaceholders(ActivePredicate);
  }

  lemma MarkPlaceholder()
    ensures Placeholders(Mark) == 1
  {
    assert Mark[1..] == [];
  }

  /** Two texts free of placeholders, each followed by a mark, hold two. */
  lemma TwoMarks(a: string, b: string)
    requires Placeholders(a) == 0 && Placeholders(b) == 0
    ensures Placeholders(a + Mark + b + Mark) == 2
  {
    MarkPlaceholder();
    PlaceholdersAppend4(a, Mark, b, Mark);
  }

  lemma AgePlaceholders()
    ensures Placeholders(AgePredicate) == 2
  {
    assert '?' !in AgeLower && '?' !in AgeUpper;
    NoMarksNoPlaceholders(AgeLower);
    NoMarksNoPlaceholders(AgeUpper);
    TwoMarks(AgeLower, AgeUpper);
  }

  /** The text before the LIMIT mark holds no placeholder. */
  lemma OrderLimitPlain()
    ensures Placeholders(OrderBy + Limit) == 0
  {
    assert '?' !in OrderBy && '?' !in Limit;
    NoMarksNoPlaceholders(OrderBy + Limit);
  }

  lemma OffsetPlain()
    ensures Placeholders(Offset) == 0
  {
    assert '?' !in Offset;
    NoMarksNoPlaceholders(Offset);
  }

  lemma OrderPlaceholders()
    ensures Placeholders(OrderClause) == 2
  {
    OrderLimitPlain();
    OffsetPlain();
    TwoMarks(OrderBy + Limit, Offset);
  }

  /** An `IN` predicate holds one placeholder per value. */
  lemma InPredicatePlaceholders(column: string, n: nat)
    requires Placeholders(column) == 0 && n >= 1
    ensures Placeholders(InPredicate(column, n)) == n
  {
    var open, close := " IN (", ")";
    assert '?' !in open && '?' !in close;
    NoMarksNoPlaceholders(open);
    NoMarksNoPlaceholders(close);
    RepeatQuestionMarksCount(n);
    PlaceholdersAppend(column, open);
    PlaceholdersAppend(column + open, RepeatQuestionMarks(n));
    PlaceholdersAppend(column + open + RepeatQuestionMarks(n), close);
  }

  // ---------------------------------------------------------------------
  // The query a condition map stands for
  // ---------------------------------------------------------------------

  /**
   * What `GetByCondition` demands of its map: it reads `limit[0]` and
   * `offset[0]` unconditionally and `age[0]` when `age` is present, and a
   * present dimension with no value makes `repeatQuestionMarks` panic.
   */
  predicate Queryable(condition: map<string, seq<string>>) {
    && ("gender" in condition ==> |condition["gender"]| > 0)
    && ("country" in condition ==> |condition["country"]| > 0)
    && ("platform" in condition ==> |condition["platform"]| > 0)
    && ("age" in condition ==> |condition["age"]| > 0)
    && "limit" in condition && |condition["limit"]| > 0
    && "offset" in condition && |condition["offset"]| > 0
  }

  /** The join a dimension adds: one clause when its key is present. */
  function JoinPart(condition: map<string, seq<string>>, d: Dimension): seq<string> {
    if d.Key() in condition then [d.JoinClause()] else []
  }

  /** The `IN` predicate a dimension adds: one when its key is present. */
  function PredicatePart(condition: map<string, seq<string>>, d: Dimension): seq<string>
    requires Queryable(condition)
  {
    if d.Key() in condition then [InPredicate(d.Column(), |condition[d.Key()]|)] else []
  }

  /** The arguments a dimension adds: all its values when its key is present. */
  function ValuePart(condition: map<string, seq<string>>, d: Dimension): seq<string> {
    if d.Key() in condition then condition[d.Key()] else []
  }

  /** The INNER JOIN clauses of the query, in dimension order. */
  function Joins(condition: map<string, seq<string>>): seq<string> {
    JoinPart(condition, Gender) + JoinPart(condition, Country) + JoinPart(condition, Platform)
  }

  /** The age band predicate, when `age` is present. */
  function AgePart(condition: map<string, seq<string>>): seq<string> {
    if "age" in condition then [AgePredicate] else []
  }

  /** The WHERE predicates of the query, joined by AND. */
  function Predicates(condition: map<string, seq<string>>): seq<string>
    requires Queryable(condition)
  {
    PredicatePart(condition, Gender) + PredicatePart(condition, Country)
      + PredicatePart(condition, Platform) + AgePart(condition) + [ActivePredicate]
  }

  /** The age value twice, when `age` is present. */
  function AgeArgs(condition: map<string, seq<string>>): seq<string>
    requires Queryable(condition)
  {
    if "age" in condition then [condition["age"][0], condition["age"][0]] else []
  }

  /** The positional arguments of the query. */
  function Args(condition: map<string, seq<string>>): seq<string>
    requires Queryable(condition)
  {
    ValuePart(condition, Gender) + ValuePart(condition, Country)
      + ValuePart(condition, Platform) + AgeArgs(condition)
      + [condition["limit"][0], condition["offset"][0]]
  }

  /** The SQL text of the query. */
  function Command(condition: map<string, seq<string>>): string
    requires Queryable(condition)
  {
    SelectClause + Join(Joins(condition), " ") + " "
      + "WHERE " + Join(Predicates(condition), " AND ") + " "
      + OrderClause
  }

  /** A dimension adds as many placeholders as it adds arguments, and none in its join. */
  lemma DimensionPlaceholders(condition: map<string, seq<string>>, d: Dimension)
    requires Queryable(condition)
    ensures SumPlaceholders(PredicatePart(condition, d)) == |ValuePart(condition, d)|
    ensures SumPlaceholders(JoinPart(condition, d)) == 0
  {
    DimensionPlain(d);
    if d.Key() in condition {
      assert |condition[d.Key()]| > 0 by {
        match d
        case Gender =>
        case Country =>
        case Platform =>
      }
      InPredicatePlaceholders(d.Column(), |condition[d.Key()]|);
    }
  }

  lemma PredicatesPlaceholders(condition: map<string, seq<string>>)
    requires Queryable(condition)
    ensures SumPlaceholders(Predicates(condition)) == |Args(condition)| - 2
  {
    var g, c, p := PredicatePart(condition, Gender), PredicatePart(condition, Country),
      PredicatePart(condition, Platform);
    DimensionPlaceholders(condition, Gender);
    DimensionPlaceholders(condition, Country);
    DimensionPlaceholders(condition, Platform);
    AgePlaceholders();
    ActivePlaceholders();
    SumPlaceholdersAppend(g, c);
    SumPlaceholdersAppend(g + c, p);
    SumPlaceholdersAppend(g + c + p, AgePart(condition));
    SumPlaceholdersAppend(g + c + p + AgePart(condition), [ActivePredicate]);
  }

  lemma JoinsPlaceholders(condition: map<string, seq<string>>)
    requires Queryable(condition)
    ensures SumPlaceholders(Joins(condition)) == 0
  {
    var g, c, p := JoinPart(condition, Gender), JoinPart(condition, Country),
      JoinPart(condition, Platform);
    DimensionPlaceholders(condition, Gender);
    DimensionPlaceholders(condition, Country);
    DimensionPlaceholders(condition, Platform);
    SumPlaceholdersAppend(g, c);
    SumPlaceholdersAppend(g + c, p);
  }

  /** The separators the command is assembled with hold no placeholder. */
  lemma SeparatorsPlain()
    ensures Placeholders(" ") == 0 && Placeholders("WHERE ") == 0 && Placeholders(" AND ") == 0
  {
    assert '?' !in " " && '?' !in "WHERE " && '?' !in " AND ";
    NoMarksNoPlaceholders(" ");
    NoMarksNoPlaceholders("WHERE ");
    NoMarksNoPlaceholders(" AND ");
  }

  /**
   * Whatever keys are present, the assembled command holds exactly as many
   * `?` placeholders as there are arguments.
   */
  lemma CommandPlaceholdersMatchArgs(condition: map<string, seq<string>>)
    requires Queryable(condition)
    ensures Placeholders(Command(condition)) == |Args(condition)|
  {
    var joins := Join(Joins(condition), " ");
    var preds := Join(Predicates(condition), " AND ");
    var space, where, and := " ", "WHERE ", " AND ";
    SeparatorsPlain();
    JoinsPlaceholders(condition);
    PredicatesPlaceholders(condition);
    JoinPlaceholders(Joins(condition), space);
    JoinPlaceholders(Predicates(condition), and);
    SelectPlaceholders();
    OrderPlaceholders();
    PlaceholdersAppend7(SelectClause, joins, space, where, preds, space, OrderClause);
  }

  /** The join texts differ from each other (at the junction table's name). */
  lemma JoinClausesDistinct(d: Dimension, e: Dimension)
    requires d != e
    ensures d.JoinClause() != e.JoinClause()
  {
    assert GenderJoin[14] == 'g' && CountryJoin[14] == 'c' && PlatformJoin[14] == 'p';
  }

  /**
   * A dimension contributes its INNER JOIN exactly when its key is present;
   * joins keep the order gender, country, platform.
   */
  lemma JoinPresentIffKey(condition: map<string, seq<string>>, d: Dimension)
    ensures d.JoinClause() in Joins(condition) <==> d.Key() in condition
  {
    forall e | e != d
      ensures d.JoinClause() !in JoinPart(condition, e)
    {
      JoinClausesDistinct(d, e);
    }
    match d
    case Gender =>
    case Country =>
    case Platform =>
  }

  /** `p` is a predicate over `column`: it starts with the column's name. */
  predicate Tests(p: string, column: string) {
    |column| <= |p| && p[..|column|] == column
  }

  /** The first letters of the column names tell the dimensions apart. */
  lemma ColumnInitials(d: Dimension)
    ensures |d.Column()| > 0
    ensures d.Column()[0] == match d case Gender => 'g' case Country => 'c' case Platform => 'p'
  {
  }

  /** The age and active-time predicates test no dimension column. */
  lemma FixedPredicatesTestNoColumn(d: Dimension)
    ensures !Tests(AgePredicate, d.Column()) && !Tests(ActivePredicate, d.Column())
  {
    ColumnInitials(d);
    assert AgePredicate[0] == 'a' && ActivePredicate[0] == 'a';
  }

  /** The predicate dimension `e` adds tests `d`'s column exactly when d is e. */
  lemma PartTests(condition: map<string, seq<string>>, d: Dimension, e: Dimension, p: string)
    requires Queryable(condition)
    requires p in PredicatePart(condition, e)
    ensures Tests(p, d.Column()) <==> d == e
  {
    assert p == InPredicate(e.Column(), |condition[e.Key()]|);
    assert p[..|e.Column()|] == e.Column();
    ColumnInitials(d);
    ColumnInitials(e);
    if d != e {
      assert p[0] == e.Column()[0];
    }
  }

  /**
   * A dimension contributes its `IN` predicate exactly when its key is
   * present.
   */
  lemma PredicatePresentIffKey(condition: map<string, seq<string>>, d: Dimension)
    requires Queryable(condition)
    ensures (exists p :: p in Predicates(condition) && Tests(p, d.Column())) <==> d.Key() in condition
  {
    if d.Key() in condition {
      var p := InPredicate(d.Column(), |condition[d.Key()]|);
      assert p in PredicatePart(condition, d);
      assert p[..|d.Column()|] == d.Column();
      assert p in Predicates(condition) by {
        match d
        case Gender =>
        case Country =>
        case Platform =>
      }
    }
    forall p | p in Predicates(condition) && Tests(p, d.Column())
      ensures d.Key() in condition
    {
      FixedPredicatesTestNoColumn(d);
      if p in PredicatePart(condition, Gender) {
        PartTests(condition, d, Gender, p);
      } else if p in PredicatePart(condition, Country) {
        PartTests(condition, d, Country, p);
      } else if p in PredicatePart(condition, Platform) {
        PartTests(condition, d, Platform, p);
      }
    }
  }

  /**
   * Whatever keys are present, the active-time predicate is the last WHERE
   * predicate and the command ends with the ORDER BY / LIMIT / OFFSET clause.
   */
  lemma ActiveAndPagingAlways(condition: map<string, seq<string>>)
    requires Queryable(condition)
    ensures |Predicates(condition)| >= 1
    ensures Predicates(condition)[|Predicates(condition)| - 1] == ActivePredicate
    ensures |Command(condition)| >= |OrderClause|
    ensures Command(condition)[|Command(condition)| - |OrderClause|..] == OrderClause
  {
    var prefix := SelectClause + Join(Joins(condition), " ") + " "
      + "WHERE " + Join(Predicates(condition), " AND ") + " ";
    assert Command(condition) == prefix + OrderClause;
  }

  /**
   * The arguments end with `limit[0]` and then `offset[0]`, whatever else is
   * present.
   */
  lemma PagingArgsLast(condition: map<string, seq<string>>)
    requires Queryable(condition)
    ensures |Args(condition)| >= 2
    ensures Args(condition)[|Args(condition)| - 2] == condition["limit"][0]
    ensures Args(condition)[|Args(condition)| - 1] == condition["offset"][0]
  {
  }

  /** The argument list of the all-conditions case in repository/ad_test.go. */
  lemma AllConditionsArgs()
    ensures var condition := map[
        "gender" := ["M", "A"], "country" := ["TW", "AY"], "platform" := ["web", "any"],
        "age" := ["14"], "limit" := ["10"], "offset" := ["0"]];
      Queryable(condition) &&
      Args(condition) == ["M", "A", "TW", "AY", "web", "any", "14", "14", "10", "0"]
  {
  }

  /** The argument list of the case without `age` in repository/ad_test.go. */
  lemma NoAgeConditionArgs()
    ensures var condition := map[
        "gender" := ["M", "A"], "country" := ["TW", "AY"], "platform" := ["web", "any"],
        "limit" := ["10"], "offset" := ["0"]];
      Queryable(condition) &&
      Args(condition) == ["M", "A", "TW", "AY", "web", "any", "10", "0"]
  {
  }

  /**
   * `stringSliceToGenericSlice`: a fresh array holding each string, in order,
   * as an untyped driver argument.
   */
  method ToGenericSlice(slice: seq<string>) returns (generic: array<Value>)
    ensures fresh(generic)
    ensures generic.Length == |slice|
    ensures forall i :: 0 <= i < |slice| ==> generic[i] == Text(slice[i])
  {
    generic := new Value[|slice|](_ => Int(0));
    for i := 0 to |slice|
      invariant forall j :: 0 <= j < i ==> generic[j] == Text(slice[j])
    {
      generic[i] := Text(slice[i]);
    }
  }

  /**
   * The clause collection of `GetByCondition`: joins, predicates and
   * arguments appended step by step, dimension by dimension, then age, the
   * active-time predicate and the paging arguments.
   */
  method CollectClauses(condition: map<string, seq<string>>)
    returns (innerJoinCommands: seq<string>, whereCommands: seq<string>, args: seq<string>)
    requires Queryable(condition)
    ensures innerJoinCommands == Joins(condition)
    ensures whereCommands == Predicates(condition)
    ensures args == Args(condition)
  {
    innerJoinCommands := [];
    whereCommands := [];
    args := [];

    if Gender.Key() in condition {
      var values := condition[Gender.Key()];
      innerJoinCommands := innerJoinCommands + [Gender.JoinClause()];
      whereCommands := whereCommands + [InPredicate(Gender.Column(), |values|)];
      args := args + values;
    }
    assert innerJoinCommands == JoinPart(condition, Gender);
    assert whereCommands == PredicatePart(condition, Gender);
    assert args == ValuePart(condition, Gender);

    if Country.Key() in condition {
      var values := condition[Country.Key()];
      innerJoinCommands := innerJoinCommands + [Country.JoinClause()];
      whereCommands := whereCommands + [InPredicate(Country.Column(), |values|)];
      args := args + values;
    }
    assert innerJoinCommands == JoinPart(condition, Gender) + JoinPart(condition, Country);
    assert whereCommands == PredicatePart(condition, Gender) + PredicatePart(condition, Country);
    assert args == ValuePart(condition, Gender) + ValuePart(condition, Country);

    if Platform.Key() in condition {
      var values := condition[Platform.Key()];
      innerJoinCommands := innerJoinCommands + [Platform.JoinClause()];
      whereCommands := whereCommands + [InPredicate(Platform.Column(), |values|)];
      args := args + values;
    }
    assert innerJoinCommands == Joins(condition);

    if "age" in condition {
      var values := condition["age"];
      whereCommands := whereCommands + [AgePredicate];
      args := args + [values[0], values[0]];
    }

    whereCommands := whereCommands + [ActivePredicate];
    assert whereCommands == Predicates(condition);

    args := args + [condition["limit"][0], condition["offset"][0]];
  }

  // ---------------------------------------------------------------------
  // Executing the query
  // ---------------------------------------------------------------------

  /** One row as `rows.Scan` reads it: title and end time, or a scan error. */
  datatype ScannedRow = Scanned(title: string, endAt: string) | ScanFailed(error: Error)

  /** The rows a query yields, and the error `rows.Err()` reports after them. */
  datatype RowSet = RowSet(rows: seq<ScannedRow>, iterationError: Option<Error>)

  /** The read side of the store: preparing a text, running a prepared query. */
  datatype ReadStore = ReadStore(
    prepare: string -> Option<Error>,
    query: (string, seq<Value>) -> Result<RowSet>)

  /** The index of the first row that fails to scan, or |rows| if none does. */
  function FirstScanFailure(rows: seq<ScannedRow>): (k: nat)
    ensures k <= |rows|
    ensures forall j :: 0 <= j < k ==> rows[j].Scanned?
    ensures k < |rows| ==> rows[k].ScanFailed?
  {
    if rows == [] then 0
    else if rows[0].ScanFailed? then 0
    else 1 + FirstScanFailure(rows[1..])
  }

  /** The ad a scanned row becomes: only title and end time are filled in. */
  function RowAd(row: ScannedRow): Ad
    requires row.Scanned?
  {
    Ad(row.title, "", row.endAt, None)
  }

  /**
   * What scanning a row set returns: nothing and the first scan error, or
   * one ad per row, in order, with the iteration error.
   */
  function Scan(rs: RowSet): (seq<Ad>, Option<Error>) {
    var k := FirstScanFailure(rs.rows);
    if k < |rs.rows| then ([], Some(rs.rows[k].error))
    else (seq(|rs.rows|, i requires 0 <= i < |rs.rows| => RowAd(rs.rows[i])), rs.iterationError)
  }

  /** The row loop of `GetByCondition`. */
  method ScanRows(rs: RowSet) returns (ads: seq<Ad>, err: Option<Error>)
    ensures (ads, err) == Scan(rs)
    ensures err.None? ==> |ads| == |rs.rows|
  {
    ads := [];
    var i := 0;
    while i < |rs.rows|
      invariant 0 <= i <= |rs.rows|
      invariant i <= FirstScanFailure(rs.rows)
      invariant |ads| == i
      invariant forall j :: 0 <= j < i ==> rs.rows[j].Scanned? && ads[j] == RowAd(rs.rows[j])
    {
      match rs.rows[i]
      case ScanFailed(e) =>
        assert FirstScanFailure(rs.rows) == i;
        return [], Some(e);
      case Scanned(title, endAt) =>
        ads := ads + [Ad(title, "", endAt, None)];
      i := i + 1;
    }
    err := rs.iterationError;
    assert FirstScanFailure(rs.rows) == |rs.rows|;
    assert ads == seq(|rs.rows|, i requires 0 <= i < |rs.rows| => RowAd(rs.rows[i]));
  }

  /** What running the query text and arguments against the store returns. */
  function Fetch(db: ReadStore, command: string, args: seq<string>): (seq<Ad>, Option<Error>) {
    match db.prepare(command)
    case Some(e) => ([], Some(e))
    case None =>
      match db.query(command, seq(|args|, i requires 0 <= i < |args| => Text(args[i])))
      case Err(e) => ([], Some(e))
      case Ok(rs) => Scan(rs)
  }

  /**
   * `GetByCondition`: the store sees exactly the command and arguments the
   * condition map stands for, and the result is what that query returns.
   */
  method GetByCondition(db: ReadStore, condition: map<string, seq<string>>)
    returns (ads: seq<Ad>, err: Option<Error>)
    requires Queryable(condition)
    ensures (ads, err) == Fetch(db, Command(condition), Args(condition))
  {
    var innerJoinCommands, whereCommands, args := CollectClauses(condition);
    var command := SelectClause;
    command := command + Join(innerJoinCommands, " ") + " ";
    command := command + "WHERE " + Join(whereCommands, " AND ") + " ";
    command := command + OrderClause;
    assert command == Command(condition);

    var prepareError := db.prepare(command);
    if prepareError.Some? {
      return [], prepareError;
    }

    var generic := ToGenericSlice(args);
    assert generic[..] == seq(|args|, i requires 0 <= i < |args| => Text(args[i]));
    var outcome := db.query(command, generic[..]);
    match outcome
    case Err(e) =>
      return [], Some(e);
    case Ok(rs) =>
      ads, err := ScanRows(rs);
  }

  // ---------------------------------------------------------------------
  // Transactional create (repository/ad.go:31-83)
  // ---------------------------------------------------------------------

  const AdsInsert := "INSERT INTO ads (title, start_at, end_at, age_start, age_end) VALUES (?, ?, ?, ?, ?)"
  const GenderInsert := "INSERT INTO ad_gender (ad_id, gender_id) VALUES (?, (SELECT id FROM genders WHERE gender = ?))"
  const CountryInsert := "INSERT INTO ad_country (ad_id, country_id) VALUES (?, (SELECT id FROM countries WHERE country = ?))"
  const PlatformInsert := "INSERT INTO ad_platform (ad_id, platform_id) VALUES (?, (SELECT id FROM platforms WHERE platform = ?))"

  /** A prepared-and-executed INSERT: its text and its arguments. */
  datatype Statement = Statement(command: string, args: seq<Value>)

  /**
   * The write side of the store, as oracles: whether BEGIN fails; the error
   * (if any) of the last statement of a history of attempted statements;
   * what `LastInsertId` reports for the ads row; whether COMMIT fails.
   */
  datatype WriteStore = WriteStore(
    beginError: Option<Error>,
    execError: seq<Statement> -> Option<Error>,
    lastInsertId: Result<int>,
    commitError: Option<Error>)

  datatype TxState = Open | Committed | RolledBack | CommitFailed

  /** The ads row of an ad. */
  function AdsRow(ad: Ad): Statement
    requires ad.condition.Some?
  {
    var c := ad.condition.value;
    Statement(AdsInsert, [Text(ad.title), Text(ad.startAt), Text(ad.endAt), Int(c.ageStart), Int(c.ageEnd)])
  }

  /** One junction row per value, each referring to the ad's id. */
  function JunctionRows(command: string, adId: int, values: seq<string>): (r: seq<Statement>)
    ensures |r| == |values|
    ensures forall i :: 0 <= i < |values| ==> r[i] == Statement(command, [Int(adId), Text(values[i])])
  {
    if values == [] then []
    else [Statement(command, [Int(adId), Text(values[0])])] + JunctionRows(command, adId, values[1..])
  }

  /** The junction rows of an ad: genders, then countries, then platforms. */
  function Junctions(ad: Ad, adId: int): seq<Statement>
    requires ad.condition.Some?
  {
    var c := ad.condition.value;
    JunctionRows(GenderInsert, adId, c.gender)
      + JunctionRows(CountryInsert, adId, c.country)
      + JunctionRows(PlatformInsert, adId, c.platform)
  }

  /**
   * Attempting `todo` after `done`, in order, stopping at the first
   * statement that fails: the history attempted and that failure, if any.
   */
  function Attempt(store: WriteStore, done: seq<Statement>, todo: seq<Statement>): (seq<Statement>, Option<Error>)
    decreases |todo|
  {
    if todo == [] then (done, None)
    else
      var history := done + [todo[0]];
      if store.execError(history).Some? then (history, store.execError(history))
      else Attempt(store, history, todo[1..])
  }

  /** Every statement of `steps`, attempted one by one after `done`, succeeded. */
  predicate Succeeded(store: WriteStore, done: seq<Statement>, steps: seq<Statement>)
    decreases |steps|
  {
    steps == [] ||
    (store.execError(done + [steps[0]]).None? && Succeeded(store, done + [steps[0]], steps[1..]))
  }

  /**
   * Exactly a prefix of `todo` is attempted: all of it when every statement
   * succeeds, otherwise up to and including the first failing one, whose
   * error is the one reported.
   */
  lemma {:induction false} AttemptStopsAtFirstFailure(store: WriteStore, done: seq<Statement>, todo: seq<Statement>)
    returns (k: nat)
    decreases |todo|
    ensures k <= |todo|
    ensures Attempt(store, done, todo).0 == done + todo[..k]
    ensures Attempt(store, done, todo).1.None? <==> Succeeded(store, done, todo)
    ensures Attempt(store, done, todo).1.None? ==> k == |todo|
    ensures Attempt(store, done, todo).1.Some? ==>
              && k >= 1 && Succeeded(store, done, todo[..k - 1])
              && Attempt(store, done, todo).1 == store.execError(done + todo[..k])
  {
    if todo == [] {
      k := 0;
    } else {
      var history := done + [todo[0]];
      if store.execError(history).Some? {
        k := 1;
        assert todo[..1] == [todo[0]];
      } else {
        var k' := AttemptStopsAtFirstFailure(store, history, todo[1..]);
        k := k' + 1;
        assert history + todo[1..][..k'] == done + todo[..k];
        if Attempt(store, done, todo).1.None? {
          assert todo[1..][..k'] == todo[1..];
        } else {
          var shorter := todo[..k - 1];
          assert shorter != [] ==> shorter[0] == todo[0] && shorter[1..] == todo[1..][..k' - 1];
          assert Succeeded(store, done, shorter);
        }
      }
    }
  }

  /** Attempting two lists in a row is attempting their concatenation. */
  lemma {:induction false} AttemptAppend(store: WriteStore, done: seq<Statement>, a: seq<Statement>, b: seq<Statement>)
    decreases |a|
    ensures Attempt(store, done, a + b) ==
      (var (h, e) := Attempt(store, done, a); if e.Some? then (h, e) else Attempt(store, h, b))
  {
    if a == [] {
      assert a + b == b;
    } else {
      assert (a + b)[0] == a[0];
      assert (a + b)[1..] == a[1..] + b;
      AttemptAppend(store, done + [a[0]], a[1..], b);
    }
  }

  /** Two lists succeed in a row exactly when their concatenation does. */
  lemma {:induction false} SucceededAppend(store: WriteStore, done: seq<Statement>, a: seq<Statement>, b: seq<Statement>)
    decreases |a|
    ensures Succeeded(store, done, a + b) <==>
      Succeeded(store, done, a) && Succeeded(store, done + a, b)
  {
    if a == [] {
      assert a + b == b;
      assert done + a == done;
    } else {
      assert (a + b)[0] == a[0];
      assert (a + b)[1..] == a[1..] + b;
      assert done + [a[0]] + a[1..] == done + a;
      SucceededAppend(store, done + [a[0]], a[1..], b);
    }
  }

  /** The end state of one run of `Create`. */
  datatype CreateOutcome =
    | NotBegun(error: Error)
    | Ran(attempted: seq<Statement>, state: TxState, returned: Option<Error>)

  /**
   * One run of `Create` against a store: BEGIN; the ads row; its id; every
   * junction row; then COMMIT if nothing failed and ROLLBACK otherwise. The
   * error of COMMIT is not what the call returns.
   */
  function CreateRun(store: WriteStore, ad: Ad): CreateOutcome
    requires ad.condition.Some?
  {
    if store.beginError.Some? then NotBegun(store.beginError.value)
    else
      var (h1, e1) := Attempt(store, [], [AdsRow(ad)]);
      if e1.Some? then Ran(h1, RolledBack, e1)
      else match store.lastInsertId
        case Err(e) => Ran(h1, RolledBack, Some(e))
        case Ok(adId) =>
          var (h2, e2) := Attempt(store, h1, Junctions(ad, adId));
          if e2.Some? then Ran(h2, RolledBack, e2)
          else Ran(h2, if store.commitError.None? then Committed else CommitFailed, None)
  }

  /** Every statement `Create` may attempt, in the order it attempts them. */
  function Plan(store: WriteStore, ad: Ad): seq<Statement>
    requires ad.condition.Some?
  {
    [AdsRow(ad)] + if store.lastInsertId.Ok? then Junctions(ad, store.lastInsertId.value) else []
  }

  /**
   * `Create` attempts exactly a prefix of its plan: the ads row first, then
   * the gender, country and platform rows, each carrying the id the ads
   * insert produced.
   */
  lemma CreateAttemptsPrefix(store: WriteStore, ad: Ad)
    requires ad.condition.Some? && store.beginError.None?
    ensures CreateRun(store, ad).Ran?
    ensures |CreateRun(store, ad).attempted| <= |Plan(store, ad)|
    ensures CreateRun(store, ad).attempted == Plan(store, ad)[..|CreateRun(store, ad).attempted|]
    ensures |CreateRun(store, ad).attempted| >= 1
  {
    var plan := Plan(store, ad);
    var (h1, e1) := Attempt(store, [], [AdsRow(ad)]);
    var k1 := AttemptStopsAtFirstFailure(store, [], [AdsRow(ad)]);
    assert h1 == [AdsRow(ad)];
    assert h1 == plan[..1];
    if e1.None? && store.lastInsertId.Ok? {
      var js := Junctions(ad, store.lastInsertId.value);
      var k2 := AttemptStopsAtFirstFailure(store, h1, js);
      assert plan == h1 + js;
      assert h1 + js[..k2] == plan[..1 + k2];
    }
  }

  /**
   * The transaction commits exactly when the ads insert, `LastInsertId` and
   * every junction insert succeeded (then the whole plan was attempted and
   * nil is returned); otherwise it is rolled back and the first failure is
   * returned.
   */
  lemma CreateCommitsOnlyOnSuccess(store: WriteStore, ad: Ad)
    requires ad.condition.Some? && store.beginError.None?
    ensures var out := CreateRun(store, ad);
      && out.Ran?
      && (out.state in {Committed, CommitFailed} <==>
            store.lastInsertId.Ok? && out.attempted == Plan(store, ad)
            && Succeeded(store, [], Plan(store, ad)))
      && (out.state in {Committed, CommitFailed} ==> out.returned == None)
      && (out.state == RolledBack <==> out.returned.Some?)
      && (out.state == Committed <==> out.state != RolledBack && store.commitError.None?)
  {
    var (h1, e1) := Attempt(store, [], [AdsRow(ad)]);
    var k1 := AttemptStopsAtFirstFailure(store, [], [AdsRow(ad)]);
    assert [AdsRow(ad)][..1] == [AdsRow(ad)];
    if e1.None? && store.lastInsertId.Ok? {
      var js := Junctions(ad, store.lastInsertId.value);
      var k2 := AttemptStopsAtFirstFailure(store, h1, js);
      SucceededAppend(store, [], [AdsRow(ad)], js);
    } else if e1.None? {
      assert Plan(store, ad) == [AdsRow(ad)];
    } else {
      assert !Succeeded(store, [], Plan(store, ad)) by {
        assert Plan(store, ad)[..1] == [AdsRow(ad)];
      }
    }
  }

  /**
   * A failed run returns the error of the step that failed, and every
   * statement before it succeeded: either the last statement attempted
   * failed, or all statements succeeded and `LastInsertId` failed right after
   * the ads row.
   */
  lemma CreateReturnsFirstFailure(store: WriteStore, ad: Ad)
    requires ad.condition.Some? && store.beginError.None?
    ensures var out := CreateRun(store, ad);
      out.Ran? && |out.attempted| >= 1 &&
      (out.returned.Some? ==>
        if store.execError([AdsRow(ad)]).None? && store.lastInsertId.Err? then
          out.attempted == [AdsRow(ad)] && out.returned == Some(store.lastInsertId.error)
        else
          && out.returned == store.execError(out.attempted)
          && Succeeded(store, [], out.attempted[..|out.attempted| - 1]))
  {
    var (h1, e1) := Attempt(store, [], [AdsRow(ad)]);
    var k1 := AttemptStopsAtFirstFailure(store, [], [AdsRow(ad)]);
    assert [AdsRow(ad)][..1] == [AdsRow(ad)];
    assert [AdsRow(ad)][..0] == [];
    if e1.None? && store.lastInsertId.Ok? {
      var js := Junctions(ad, store.lastInsertId.value);
      var k2 := AttemptStopsAtFirstFailure(store, h1, js);
      if Attempt(store, h1, js).1.Some? {
        var out := CreateRun(store, ad);
        assert out.attempted == h1 + js[..k2];
        assert out.attempted[..|out.attempted| - 1] == h1 + js[..k2 - 1];
        SucceededAppend(store, [], h1, js[..k2 - 1]);
      }
    }
  }

  /**
   * An open transaction: the statements attempted in it so far, and whether
   * it is still open, committed or rolled back.
   */
  class Transaction {
    const store: WriteStore
    var attempted: seq<Statement>
    var state: TxState

    /** `database.Begin()` when it succeeds. */
    constructor Begin(store: WriteStore)
      requires store.beginError.None?
      ensures this.store == store && attempted == [] && state == Open
    {
      this.store := store;
      attempted := [];
      state := Open;
    }

    /** `prepareAndCreate`: prepare and execute one statement. */
    method Exec(s: Statement) returns (err: Option<Error>)
      requires state == Open
      modifies this`attempted
      ensures attempted == old(attempted) + [s]
      ensures err == store.execError(attempted)
    {
      attempted := attempted + [s];
      err := store.execError(attempted);
    }

    method Commit() returns (err: Option<Error>)
      requires state == Open
      modifies this`state
      ensures err == store.commitError
      ensures state == if err.None? then Committed else CommitFailed
    {
      err := store.commitError;
      state := if err.None? then Committed else CommitFailed;
    }

    method Rollback()
      requires state == Open
      modifies this`state
      ensures state == RolledBack
    {
      state := RolledBack;
    }
  }

  /**
   * One of the three junction loops of `Create`: insert a row per value,
   * returning at the first failure.
   */
  method InsertEach(tx: Transaction, command: string, adId: int, values: seq<string>)
    returns (err: Option<Error>)
    requires tx.state == Open
    modifies tx`attempted
    ensures (tx.attempted, err) == Attempt(tx.store, old(tx.attempted), JunctionRows(command, adId, values))
  {
    ghost var rows := JunctionRows(command, adId, values);
    err := None;
    for i := 0 to |values|
      invariant err.None?
      invariant Attempt(tx.store, old(tx.attempted), rows) == Attempt(tx.store, tx.attempted, rows[i..])
    {
      ghost var before := tx.attempted;
      assert rows[i..][0] == Statement(command, [Int(adId), Text(values[i])]);
      assert rows[i..][1..] == rows[i + 1..];
      err := tx.Exec(Statement(command, [Int(adId), Text(values[i])]));
      assert tx.attempted == before + [rows[i..][0]];
      if err.Some? {
        return;
      }
    }
    assert rows[|values|..] == [];
  }

  /**
   * `Create`: BEGIN (an error there is returned with no transaction), then
   * the ads row, its id and the junction rows in order; the deferred
   * closure commits when nothing failed and rolls back otherwise.
   */
  method Create(store: WriteStore, ad: Ad) returns (err: Option<Error>, tx: Transaction?)
    requires ad.condition.Some?
    ensures tx == null <==> store.beginError.Some?
    ensures tx == null ==> err == store.beginError
    ensures tx != null ==> fresh(tx) && CreateRun(store, ad) == Ran(tx.attempted, tx.state, err)
  {
    if store.beginError.Some? {
      return store.beginError, null;
    }
    tx := new Transaction.Begin(store);
    var condition := ad.condition.value;

    err := tx.Exec(AdsRow(ad));
    assert (tx.attempted, err) == Attempt(store, [], [AdsRow(ad)]);
    if err.None? {
      match store.lastInsertId
      case Err(e) =>
        err := Some(e);
      case Ok(adId) =>
        ghost var h1 := tx.attempted;
        ghost var gs := JunctionRows(GenderInsert, adId, condition.gender);
        ghost var cs := JunctionRows(CountryInsert, adId, condition.country);
        ghost var ps := JunctionRows(PlatformInsert, adId, condition.platform);
        AttemptAppend(store, h1, gs, cs + ps);
        assert Junctions(ad, adId) == gs + (cs + ps);
        err := InsertEach(tx, GenderInsert, adId, condition.gender);
        if err.None? {
          AttemptAppend(store, tx.attempted, cs, ps);
          err := InsertEach(tx, CountryInsert, adId, condition.country);
        }
        if err.None? {
          err := InsertEach(tx, PlatformInsert, adId, condition.platform);
        }
    }

    // The deferred commit-or-rollback. The commit error is assigned to the
    // local error variable after the return value has been taken, so the
    // caller never sees it.
    if err.None? {
      var commitError := tx.Commit();
    } else {
      tx.Rollback();
    }
  }
}
